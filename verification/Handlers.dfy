/**
 * The Solution 4 code in its own imperative form: the ledger client, the task repository, and the
 * handlers, with other handlers interfering between any two of a handler's atomic operations.
 */
module Handlers {
  import opened Ledger
  import opened Options
  import opened Protocol
  import opened ProtocolInvariant
  import opened Agreement
  import opened CrashReplay
  import opened ProtocolDeeds
  import opened ProtocolCauses

  /** The ledger client; its accounts and transfers change in place. */
  class Billing {
    var accounts: map<AccountId, Account>
    var transfers: map<nat, Transfer>

    ghost function Value(): Book reads this { Book(accounts, transfers) }

    constructor ()
      ensures Value() == OPENING
    {
      accounts := map[Revenue := EMPTY_ACCOUNT, Escrow := EMPTY_ACCOUNT];
      transfers := map[];
    }

    method EnsureUserAccount(u: nat)
      modifies this
      ensures Value() == EnsureUser(old(Value()), u)
    {
      if User(u) !in accounts {
        accounts := accounts[User(u) := EMPTY_ACCOUNT];
      }
    }

    method GetBalance(u: nat) returns (balance: int)
      ensures balance == Available(Value(), u)
    {
      if User(u) !in accounts { return 0; }
      var a := accounts[User(u)];
      balance := a.creditsPosted - a.debitsPosted - a.debitsPending;
    }

    method ReserveCredits(u: nat, tid: nat, amount: nat) returns (ok: bool)
      modifies this
      ensures (Value(), ok) == Reserve(old(Value()), u, tid, amount)
    {
      var balance := GetBalance(u);
      if tid in transfers || User(u) !in accounts || Escrow !in accounts || balance < amount {
        return false;
      }
      var debit := accounts[User(u)];
      accounts := accounts[User(u) := debit.(debitsPending := debit.debitsPending + amount)];
      var credit := accounts[Escrow];
      accounts := accounts[Escrow := credit.(creditsPending := credit.creditsPending + amount)];
      transfers := transfers[tid := Hold(u, amount, Pending)];
      ok := true;
    }

    /** Finds the pending hold; posting and voiding fail on anything else. */
    method EndHold(tid: nat, outcome: HoldState) returns (ok: bool)
      requires !outcome.Pending?
      modifies this
      ensures (Value(), ok) == Settle(old(Value()), tid, outcome)
    {
      if tid !in transfers || !transfers[tid].Hold? || !transfers[tid].state.Pending? { return false; }
      var h := transfers[tid];
      if User(h.user) !in accounts || Escrow !in accounts { return false; }
      var kept := if outcome.Posted? then h.amount else 0;
      var debit := accounts[User(h.user)];
      accounts := accounts[User(h.user) := debit.(debitsPending := debit.debitsPending - h.amount,
                                                  debitsPosted := debit.debitsPosted + kept)];
      var credit := accounts[Escrow];
      accounts := accounts[Escrow := credit.(creditsPending := credit.creditsPending - h.amount,
                                             creditsPosted := credit.creditsPosted + kept)];
      transfers := transfers[tid := h.(state := outcome)];
      ok := true;
    }

    method CaptureCredits(tid: nat) returns (ok: bool)
      modifies this
      ensures (Value(), ok) == Capture(old(Value()), tid)
    {
      ok := EndHold(tid, Posted);
    }

    method ReleaseCredits(tid: nat) returns (ok: bool)
      modifies this
      ensures (Value(), ok) == Release(old(Value()), tid)
    {
      ok := EndHold(tid, Voided);
    }

    method TopUpCredits(u: nat, tid: nat, amount: nat) returns (ok: bool)
      modifies this
      ensures (Value(), ok) == Deposit(old(Value()), u, tid, amount)
    {
      if tid in transfers { return transfers[tid] == TopUp(u, amount); }
      if User(u) !in accounts || Revenue !in accounts { return false; }
      var debit := accounts[Revenue];
      accounts := accounts[Revenue := debit.(debitsPosted := debit.debitsPosted + amount)];
      var credit := accounts[User(u)];
      accounts := accounts[User(u) := credit.(creditsPosted := credit.creditsPosted + amount)];
      transfers := transfers[tid := TopUp(u, amount)];
      ok := true;
    }
  }

  /** The task repository; rows change in place, guarded by their status. */
  class TaskTable {
    var rows: map<nat, Row>
    var keys: map<(nat, nat), nat>

    ghost function Value(): Table reads this { Table(rows, keys) }

    constructor ()
      ensures Value() == Table(map[], map[])
    {
      rows, keys := map[], map[];
    }

    method CreateTask(t: nat, row: Row, fault: Fault) returns (e: Entry)
      modifies this
      ensures (Value(), e) == Insert(old(Value()), t, row, fault)
    {
      if fault.Refused? { return Raised; }
      if row.key.Some? && (row.user, row.key.value) in keys {
        var existing := keys[(row.user, row.key.value)];
        if existing !in rows { return Raised; }
        return Existing(existing, rows[existing].status);
      }
      if t in rows { return Raised; }
      rows := rows[t := row];
      if row.key.Some? {
        keys := keys[(row.user, row.key.value) := t];
      }
      e := if fault.CommitLost? then Raised else Inserted;
    }

    method UpdateStatusIfMatch(t: nat, status: Status, expected: Status) returns (updated: bool)
      modifies this
      ensures (Value(), updated) == Cas(old(Value()), t, status, expected)
    {
      updated := t in rows && rows[t].status == expected;
      if updated {
        rows := rows[t := rows[t].(status := status)];
      }
    }

    method GetTask(t: nat) returns (row: Option<Row>)
      ensures row == Read(Value(), t)
    {
      row := if t in rows then Some(rows[t]) else None;
    }
  }

  /** One deployment: shared ledger and table, and the program counters of all handlers in flight. */
  class Service {
    const billing: Billing
    const tasks: TaskTable
    var procs: map<nat, Proc>
    ghost var history: seq<Event>

    /** The shared state is the one that the recorded history leads to. */
    ghost predicate Valid()
      reads this, billing, tasks
    {
      var s := Reached(history);
      s.book == billing.Value() && s.table == tasks.Value() && s.procs == procs
    }

    constructor ()
      ensures Valid() && history == [] && fresh(billing) && fresh(tasks)
    {
      billing := new Billing();
      tasks := new TaskTable();
      procs := map[];
      history := [];
    }

    /** Carries out one operation on the shared ledger and table. */
    method Do(op: Op, c: Choice) returns (e: Entry)
      modifies billing, tasks
      ensures (billing.Value(), tasks.Value(), e) == Perform(old(billing.Value()), old(tasks.Value()), op, c)
    {
      match op
      case OpEnsure(u) => billing.EnsureUserAccount(u); e := Flag(true);
      case OpReserve(u, tid, amount) => var ok := billing.ReserveCredits(u, tid, amount); e := Flag(ok);
      case OpCapture(tid) => var ok := billing.CaptureCredits(tid); e := Flag(ok);
      case OpRelease(tid) => var ok := billing.ReleaseCredits(tid); e := Flag(ok);
      case OpInsert(t, row) => e := tasks.CreateTask(t, row, c.fault);
      case OpCas(t, to, from) => var ok := tasks.UpdateStatusIfMatch(t, to, from); e := Flag(ok);
      case OpRead(t) => var row := tasks.GetTask(t); e := Found(row);
      case OpCompute => e := Flag(c.computed);
      case OpHandOff => e := Flag(c.posted);
      case OpCacheOrMetric => e := Flag(true);
      case OpNone => e := Flag(true);
    }

    /** One operation of process `p`, and its consequence for the process. */
    method RunNow(p: nat, op: Op, c: Choice) returns (e: Entry)
      requires Valid() && p in procs && OpOf(p, procs[p]) == op
      modifies this, billing, tasks
      ensures Valid() && history == old(history) + [Run(p, c)]
      ensures procs == old(procs)[p := Advance(p, old(procs[p]), e)]
      ensures e == Perform(old(billing.Value()), old(tasks.Value()), op, c).2
    {
      hide Exec;
      AppendRun(history, Run(p, c));
      history := history + [Run(p, c)];
      e := Do(op, c);
      procs := procs[p := Advance(p, procs[p], e)];
    }

    method Start(ev: Event)
      requires Valid() && (ev.StartSubmit? || ev.StartCancel? || ev.Invoke?)
      modifies this
      ensures Valid() && history == old(history) + [ev]
    {
      hide Exec;
      AppendRun(history, ev);
      history := history + [ev];
      if ev.p in procs { return; }
      match ev
      case StartSubmit(p, user, cost, tid, key) => procs := procs[p := Submit(user, cost, tid, key, SEnsure)];
      case StartCancel(p, task) => procs := procs[p := Cancel(task, CaGet)];
      case Invoke(p, task) =>
        if task in tasks.rows { procs := procs[p := Workflow(task, tasks.rows[task].tid, WMarkRunning, [])]; }
    }

    /** One step of the system, whoever takes it. */
    method Serve(ev: Event)
      requires Valid()
      modifies this, billing, tasks
      ensures Valid() && history == old(history) + [ev]
    {
      hide Exec;
      match ev
      case AdminTopUp(user, tid, amount) =>
        AppendRun(history, ev);
        history := history + [ev];
        billing.EnsureUserAccount(user);
        var _ := billing.TopUpCredits(user, tid, amount);
      case HoldTimeout(tid) =>
        AppendRun(history, ev);
        history := history + [ev];
        var _ := billing.EndHold(tid, Expired);
      case Run(p, c) =>
        if p in procs {
          var _ := RunNow(p, OpOf(p, procs[p]), c);
        } else {
          AppendRun(history, ev);
          history := history + [ev];
        }
      case _ => Start(ev);
    }

    /** Anything the rest of the system may do while handler `p` is between two operations. */
    method Interfere(p: nat)
      requires Valid() && p in procs
      modifies this, billing, tasks
      ensures Valid() && old(history) <= history
      ensures p in procs && procs[p] == old(procs[p])
    {
      hide Exec;
      var steps: nat := *;
      while steps > 0
        invariant Valid() && old(history) <= history
        invariant p in procs && procs[p] == old(procs[p])
      {
        var ev: Event := *;
        if !(ev.Run? && ev.p == p) {
          OthersKeepTheirState(Reached(history), ev, p);
          AppendRun(history, ev);
          Serve(ev);
        }
        steps := steps - 1;
      }
    }

    /**
     * The next operation of handler `p`, which its program counter must agree with, followed by
     * interference. All that survives the interference is the handler's own progress.
     */
    method Call(p: nat, op: Op, c: Choice) returns (e: Entry)
      requires Valid() && p in procs && OpOf(p, procs[p]) == op
      modifies this, billing, tasks
      ensures Valid() && old(history) + [Run(p, c)] <= history
      ensures p in procs && procs[p] == Advance(p, old(procs[p]), e)
      ensures e == Perform(old(billing.Value()), old(tasks.Value()), op, c).2
    {
      hide Exec;
      e := RunNow(p, op, c);
      Interfere(p);
    }

    // ----- Workflow -----

    predicate At(p: nat, t: nat, tid: nat, pc: WorkflowPc)
      reads this
    {
      p in procs && procs[p].Workflow? && procs[p].task == t && procs[p].tid == tid && procs[p].wpc == pc
    }

    /** The operation of workflow `p` at step `pc`; `pc` only names the step for the proof. */
    method Step(p: nat, t: nat, tid: nat, ghost pc: WorkflowPc, op: Op, c: Choice) returns (e: Entry)
      requires Valid() && At(p, t, tid, pc) && OpOf(p, Workflow(t, tid, pc, [])) == op
      modifies this, billing, tasks
      ensures Valid() && old(history) <= history && At(p, t, tid, AdvanceWorkflow(pc, e))
      ensures op.OpRead? ==> e.Found?
      ensures !op.OpRead? && !op.OpInsert? ==> e.Flag?
    {
      hide Exec;
      e := Call(p, op, c);
    }

    method Update(p: nat, t: nat, tid: nat, ghost pc: WorkflowPc, status: Status,
                  expected: Status) returns (updated: bool)
      requires Valid() && At(p, t, tid, pc) && OpOf(p, Workflow(t, tid, pc, [])) == OpCas(t, status, expected)
      modifies this, billing, tasks
      ensures Valid() && old(history) <= history && At(p, t, tid, AdvanceWorkflow(pc, Flag(updated)))
    {
      hide Exec;
      var e := Step(p, t, tid, pc, OpCas(t, status, expected), CHOICE);
      updated := e.b;
    }

    method ReadStatus(p: nat, t: nat, tid: nat, ghost pc: WorkflowPc) returns (status: Option<Status>, ghost e: Entry)
      requires Valid() && At(p, t, tid, pc) && OpOf(p, Workflow(t, tid, pc, [])) == OpRead(t)
      modifies this, billing, tasks
      ensures Valid() && old(history) <= history && At(p, t, tid, AdvanceWorkflow(pc, e)) && StatusOf(e) == status
    {
      hide Exec;
      var found := Step(p, t, tid, pc, OpRead(t), CHOICE);
      status := StatusOf(found);
      e := found;
    }

    method MaybeCompleteCancellation(p: nat, t: nat, tid: nat, ghost k: After) returns (terminal: bool)
      requires Valid() && At(p, t, tid, CRead(k))
      modifies this, billing, tasks
      ensures Valid() && old(history) <= history
      ensures At(p, t, tid, if terminal then WDone(true, Answer(CANCELLED)) else Resume(k))
    {
      hide Exec;
      var status, _ := ReadStatus(p, t, tid, CRead(k));
      if status != Some(CANCEL_REQUESTED) { return false; }
      var released := Step(p, t, tid, CRelease(k), OpRelease(tid), CHOICE);
      if !released.b { return false; }
      terminal := Update(p, t, tid, CMark(k), CANCELLED, CANCEL_REQUESTED);
    }

    /**
     * The durable workflow. Whatever happens in between, its answer is true of the task, and the invocation has done
     * what the answer says: COMPLETED after a computation of its own that succeeded and a capture of its own, FAILED
     * after one that failed, or one that succeeded when the hold was already gone.
     */
    method ExecuteTask(p: nat, t: nat, tid: nat) returns (answer: WorkflowAnswer)
      requires Valid() && At(p, t, tid, WMarkRunning)
      modifies this, billing, tasks
      ensures Valid() && old(history) <= history
      ensures At(p, t, tid, WDone(true, answer)) || At(p, t, tid, WDone(false, answer))
      ensures At(p, t, tid, WDone(true, answer)) ==> !answer.Rejected?
      ensures At(p, t, tid, WDone(true, Answer(COMPLETED))) ==>
                t in tasks.rows && tasks.rows[t].status == COMPLETED && IsPosted(billing.Value(), tid)
      ensures At(p, t, tid, WDone(true, Answer(CANCELLED))) || At(p, t, tid, WDone(true, Answer(FAILED))) ==>
                !IsPosted(billing.Value(), tid) && !IsPending(billing.Value(), tid)
      ensures Deeds(old(history), p) == {}
      ensures At(p, t, tid, WDone(true, answer)) ==> ExecutorTold(Deeds(history, p), t, tid, answer)
      ensures At(p, t, tid, WDone(false, answer)) ==> StartTold(Deeds(history, p), t, answer)
      ensures t in tasks.rows && (tasks.rows[t].status.COMPLETED? || IsPosted(billing.Value(), tasks.rows[t].tid)) ==>
                exists q :: PaidFor(history, t, q)
    {
      hide Exec;
      hide ExecutorTold;
      hide StartTold;
      hide PaidFor;
      NothingDoneYet(p, t, tid);
      answer := RunTask(p, t, tid);
      AnswersTruly(p, t, tid, answer);
      PayersHaveComputed(t);
    }

    lemma NothingDoneYet(p: nat, t: nat, tid: nat)
      requires Valid() && At(p, t, tid, WMarkRunning)
      ensures Deeds(history, p) == {}
    {
      EveryHandlerIsTold(history, p);
    }

    lemma AnswersTruly(p: nat, t: nat, tid: nat, answer: WorkflowAnswer)
      requires Valid() && (At(p, t, tid, WDone(true, answer)) || At(p, t, tid, WDone(false, answer)))
      ensures At(p, t, tid, WDone(true, answer)) ==> !answer.Rejected?
      ensures At(p, t, tid, WDone(true, Answer(COMPLETED))) ==>
                t in tasks.rows && tasks.rows[t].status == COMPLETED && IsPosted(billing.Value(), tid)
      ensures At(p, t, tid, WDone(true, Answer(CANCELLED))) || At(p, t, tid, WDone(true, Answer(FAILED))) ==>
                !IsPosted(billing.Value(), tid) && !IsPending(billing.Value(), tid)
      ensures At(p, t, tid, WDone(true, answer)) ==> ExecutorTold(Deeds(history, p), t, tid, answer)
      ensures At(p, t, tid, WDone(false, answer)) ==> StartTold(Deeds(history, p), t, answer)
    {
      hide Exec;
      hide ExecutorTold;
      hide StartTold;
      hide Deeds;
      ExecutorAnswersTruly(history, p);
      EveryHandlerIsTold(history, p);
    }

    lemma PayersHaveComputed(t: nat)
      requires Valid()
      ensures t in tasks.rows && (tasks.rows[t].status.COMPLETED? || IsPosted(billing.Value(), tasks.rows[t].tid)) ==>
                exists q :: PaidFor(history, t, q)
    {
      hide Exec;
      hide PaidFor;
      if t in tasks.rows && (tasks.rows[t].status.COMPLETED? || IsPosted(billing.Value(), tasks.rows[t].tid)) {
        ghost var q := PaidIsComputed(history, t);
      }
    }

    method RunTask(p: nat, t: nat, tid: nat) returns (answer: WorkflowAnswer)
      requires Valid() && At(p, t, tid, WMarkRunning)
      modifies this, billing, tasks
      ensures Valid() && old(history) <= history
      ensures At(p, t, tid, WDone(true, answer)) || At(p, t, tid, WDone(false, answer))
    {
      hide Exec;
      var started := Update(p, t, tid, WMarkRunning, RUNNING, PENDING);
      if !started {
        var status, _ := ReadStatus(p, t, tid, WReadAfterStart);
        if status.Some? && status.value in {RUNNING, COMPLETED, FAILED, CANCELLED, CANCEL_REQUESTED} {
          return Answer(status.value);
        }
        return Rejected;
      }
      answer := ComputeAndSettle(p, t, tid);
    }

    method ComputeAndSettle(p: nat, t: nat, tid: nat) returns (answer: WorkflowAnswer)
      requires Valid() && At(p, t, tid, WCompute)
      modifies this, billing, tasks
      ensures Valid() && old(history) <= history && At(p, t, tid, WDone(true, answer))
    {
      hide Exec;
      var computed: bool := *;
      var outcome := Step(p, t, tid, WCompute, OpCompute, Choice(NoFault, computed, true));
      if !outcome.b {
        answer := FailAfterCompute(p, t, tid);
        return;
      }
      var cancelled := MaybeCompleteCancellation(p, t, tid, AfterCompute);
      if cancelled { return Answer(CANCELLED); }
      answer := CaptureAndComplete(p, t, tid);
    }

    method CaptureAndComplete(p: nat, t: nat, tid: nat) returns (answer: WorkflowAnswer)
      requires Valid() && At(p, t, tid, WCapture)
      modifies this, billing, tasks
      ensures Valid() && old(history) <= history && At(p, t, tid, WDone(true, answer))
    {
      hide Exec;
      var captured := Step(p, t, tid, WCapture, OpCapture(tid), CHOICE);
      if !captured.b {
        answer := FailAfterCapture(p, t, tid);
        return;
      }
      answer := CompleteTask(p, t, tid);
    }

    method FailAfterCompute(p: nat, t: nat, tid: nat) returns (answer: WorkflowAnswer)
      requires Valid() && At(p, t, tid, CRead(AfterFailedCompute))
      modifies this, billing, tasks
      ensures Valid() && old(history) <= history && At(p, t, tid, WDone(true, answer))
    {
      hide Exec;
      var cancelled := MaybeCompleteCancellation(p, t, tid, AfterFailedCompute);
      if cancelled { return Answer(CANCELLED); }
      var updated := Update(p, t, tid, WMarkFailedCompute, FAILED, RUNNING);
      if updated {
        var _ := Step(p, t, tid, WReleaseAfterFailure, OpRelease(tid), CHOICE);
        return Answer(FAILED);
      }
      var status, _ := ReadStatus(p, t, tid, WReadAfterFailure);
      if status.Some? && status.value in {COMPLETED, CANCELLED, FAILED, CANCEL_REQUESTED} {
        return Answer(status.value);
      }
      answer := Rejected;
    }

    method FailAfterCapture(p: nat, t: nat, tid: nat) returns (answer: WorkflowAnswer)
      requires Valid() && At(p, t, tid, CRead(AfterFailedCapture))
      modifies this, billing, tasks
      ensures Valid() && old(history) <= history && At(p, t, tid, WDone(true, answer))
    {
      hide Exec;
      var cancelled := MaybeCompleteCancellation(p, t, tid, AfterFailedCapture);
      if cancelled { return Answer(CANCELLED); }
      answer := MarkFailedAfterCapture(p, t, tid);
    }

    method MarkFailedAfterCapture(p: nat, t: nat, tid: nat) returns (answer: WorkflowAnswer)
      requires Valid() && At(p, t, tid, WMarkFailedCapture)
      modifies this, billing, tasks
      ensures Valid() && old(history) <= history && At(p, t, tid, WDone(true, answer))
    {
      hide Exec;
      var _ := Update(p, t, tid, WMarkFailedCapture, FAILED, RUNNING);
      ReleaseUnjournaled(p, t, tid);
      answer := Answer(FAILED);
    }

    method ReleaseUnjournaled(p: nat, t: nat, tid: nat)
      requires Valid() && At(p, t, tid, WUnjournaledRelease)
      modifies this, billing, tasks
      ensures Valid() && old(history) <= history && At(p, t, tid, WDone(true, Answer(FAILED)))
    {
      hide Exec;
      var released := Step(p, t, tid, WUnjournaledRelease, OpRelease(tid), CHOICE);
      if released.b {
        var _ := Step(p, t, tid, WInvalidateAfterRelease, OpCacheOrMetric, CHOICE);
      }
      var _ := Step(p, t, tid, WMetricAfterRelease, OpCacheOrMetric, CHOICE);
    }

    method CompleteTask(p: nat, t: nat, tid: nat) returns (answer: WorkflowAnswer)
      requires Valid() && At(p, t, tid, WMarkCompleted)
      modifies this, billing, tasks
      ensures Valid() && old(history) <= history && At(p, t, tid, WDone(true, answer))
    {
      hide Exec;
      var updated := Update(p, t, tid, WMarkCompleted, COMPLETED, RUNNING);
      if updated { return Answer(COMPLETED); }
      answer := CompleteDespiteCancel(p, t, tid);
    }

    method CompleteDespiteCancel(p: nat, t: nat, tid: nat) returns (answer: WorkflowAnswer)
      requires Valid() && At(p, t, tid, WReadAfterCompletion)
      modifies this, billing, tasks
      ensures Valid() && old(history) <= history && At(p, t, tid, WDone(true, answer))
    {
      hide Exec;
      var status, _ := ReadStatus(p, t, tid, WReadAfterCompletion);
      if status == Some(CANCEL_REQUESTED) {
        var completed := Update(p, t, tid, WLateComplete, COMPLETED, CANCEL_REQUESTED);
        if completed { return Answer(COMPLETED); }
        var last, _ := ReadStatus(p, t, tid, WReadAfterLate);
        status := last;
      }
      if status.Some? && status.value in {COMPLETED, FAILED, CANCELLED} { return Answer(status.value); }
      answer := Rejected;
    }

    // ----- Cancel -----

    predicate CancelAt(p: nat, t: nat, pc: CancelPc)
      reads this
    {
      p in procs && procs[p] == Cancel(t, pc)
    }

    method CancelStep(p: nat, t: nat, ghost pc: CancelPc, op: Op) returns (e: Entry)
      requires Valid() && CancelAt(p, t, pc) && OpOf(p, Cancel(t, pc)) == op
      modifies this, billing, tasks
      ensures Valid() && old(history) + [Run(p, CHOICE)] <= history && CancelAt(p, t, AdvanceCancel(pc, e))
      ensures e == Perform(old(billing.Value()), old(tasks.Value()), op, CHOICE).2
      ensures op.OpRead? ==> e.Found?
      ensures !op.OpRead? && !op.OpInsert? ==> e.Flag?
    {
      hide Exec;
      e := Call(p, op, CHOICE);
    }

    /**
     * The cancel handler. A reported refund means that it cancelled the pending row and gave the task's hold back,
     * uncharged, for good; a request, that it moved the running row itself; a failed release, that the hold was gone
     * and the row was put back. Every other answer changes nothing, and has its reason in what the handler read.
     */
    method CancelTask(p: nat, t: nat) returns (answer: CancelAnswer)
      requires Valid() && CancelAt(p, t, CaGet)
      modifies this, billing, tasks
      ensures Valid() && old(history) <= history && CancelAt(p, t, CaDone(answer))
      ensures answer.Cancelled? ==> t in tasks.rows && Returned(tasks.rows[t].tid)
      ensures Deeds(old(history), p) == {} && CancelAnswerTold(Deeds(history, p), t, answer)
    {
      hide Exec;
      hide CancelAnswerTold;
      EveryHandlerIsTold(history, p);
      answer := TryCancel(p, t);
      EveryHandlerIsTold(history, p);
    }

    method TryCancel(p: nat, t: nat) returns (answer: CancelAnswer)
      requires Valid() && CancelAt(p, t, CaGet)
      modifies this, billing, tasks
      ensures Valid() && old(history) <= history && CancelAt(p, t, CaDone(answer))
      ensures answer.Cancelled? ==> t in tasks.rows && Returned(tasks.rows[t].tid)
    {
      hide Exec;
      var task := CancelStep(p, t, CaGet, OpRead(t));
      if task.row.None? { return NotFound; }
      var status := task.row.value.status;
      if status == CANCELLED { return AlreadyCancelled; }
      if status == CANCEL_REQUESTED { return AlreadyRequested; }
      if status in {COMPLETED, FAILED} { return Conflict; }
      if status == PENDING {
        var tid, cost := task.row.value.tid, task.row.value.cost;
        var cancelled := CancelStep(p, t, CaCasPending(tid, cost), OpCas(t, CANCELLED, PENDING));
        if cancelled.b {
          answer := ReleaseCancelled(p, t, tid, cost);
        } else {
          answer := CancelStarted(p, t);
        }
        return;
      }
      answer := RequestCancel(p, t);
    }

    /** The task was pending and no longer is. */
    method CancelStarted(p: nat, t: nat) returns (answer: CancelAnswer)
      requires Valid() && CancelAt(p, t, CaGetAgain)
      modifies this, billing, tasks
      ensures Valid() && old(history) <= history && CancelAt(p, t, CaDone(answer)) && !answer.Cancelled?
    {
      hide Exec;
      var again := CancelStep(p, t, CaGetAgain, OpRead(t));
      if again.row.None? { return NotFound; }
      if again.row.value.status != RUNNING { return Conflict; }
      answer := RequestCancel(p, t);
    }

    method RequestCancel(p: nat, t: nat) returns (answer: CancelAnswer)
      requires Valid() && CancelAt(p, t, CaCasRunning)
      modifies this, billing, tasks
      ensures Valid() && old(history) <= history && CancelAt(p, t, CaDone(answer)) && !answer.Cancelled?
    {
      hide Exec;
      var requested := CancelStep(p, t, CaCasRunning, OpCas(t, CANCEL_REQUESTED, RUNNING));
      answer := if requested.b then Requested else Conflict;
    }

    /** The hold was voided or has expired. */
    ghost predicate Returned(tid: nat)
      reads billing
    {
      tid in billing.transfers && !IsPending(billing.Value(), tid) && !IsPosted(billing.Value(), tid)
    }

    method ReleaseCancelled(p: nat, t: nat, tid: nat, cost: nat) returns (answer: CancelAnswer)
      requires Valid() && CancelAt(p, t, CaRelease(tid, cost))
      modifies this, billing, tasks
      ensures Valid() && old(history) <= history && CancelAt(p, t, CaDone(answer))
      ensures answer.Cancelled? ==> answer == Cancelled(cost) && t in tasks.rows && Returned(tasks.rows[t].tid)
    {
      hide Exec;
      ghost var after := history + [Run(p, CHOICE)];
      ReleaseGivesBack(history, p, t, tid);
      var released := CancelStep(p, t, CaRelease(tid, cost), OpRelease(tid));
      if !released.b {
        var _ := CancelStep(p, t, CaRollback, OpCas(t, PENDING, CANCELLED));
        return ReleaseFailed;
      }
      StaysGivenBack(after, history, t);
      answer := Cancelled(cost);
    }

    // ----- Submit -----

    predicate SubmitAt(p: nat, x: Proc, pc: SubmitPc)
      reads this
      requires x.Submit?
    {
      p in procs && procs[p] == x.(spc := pc)
    }

    method SubmitStep(p: nat, x: Proc, ghost pc: SubmitPc, op: Op, c: Choice) returns (e: Entry)
      requires Valid() && x.Submit? && SubmitAt(p, x, pc) && OpOf(p, x.(spc := pc)) == op
      modifies this, billing, tasks
      ensures Valid() && old(history) + [Run(p, c)] <= history && SubmitAt(p, x, AdvanceSubmit(pc, p, e))
      ensures e == Perform(old(billing.Value()), old(tasks.Value()), op, c).2
      ensures op.OpRead? ==> e.Found?
      ensures !op.OpRead? && !op.OpInsert? ==> e.Flag?
    {
      hide Exec;
      e := Call(p, op, c);
    }

    /**
     * Fails the task whose handoff failed; a reported release means that its hold was given back, uncharged. A status
     * that it falls back to was read after the update to FAILED came too late.
     */
    method HandleHandOffFailure(p: nat, x: Proc) returns (answer: SubmitAnswer)
      requires Valid() && x.Submit? && SubmitAt(p, x, HfCas)
      modifies this, billing, tasks
      ensures Valid() && old(history) <= history && SubmitAt(p, x, SDone(answer))
      ensures answer.HandOffReleased? ==> p in tasks.rows && tasks.rows[p].tid == x.tid && Returned(x.tid)
      ensures SubmitAnswerTold(Deeds(history, p), p, x.user, x.cost, x.tid, x.key, answer)
    {
      hide Exec;
      hide SubmitAnswerTold;
      answer := FailHandOff(p, x);
      EveryHandlerIsTold(history, p);
    }

    method FailHandOff(p: nat, x: Proc) returns (answer: SubmitAnswer)
      requires Valid() && x.Submit? && SubmitAt(p, x, HfCas)
      modifies this, billing, tasks
      ensures Valid() && old(history) <= history && SubmitAt(p, x, SDone(answer))
      ensures answer.HandOffReleased? ==> p in tasks.rows && tasks.rows[p].tid == x.tid && Returned(x.tid)
    {
      hide Exec;
      var transitioned := SubmitStep(p, x, HfCas, OpCas(p, FAILED, PENDING), CHOICE);
      if !transitioned.b {
        var found := SubmitStep(p, x, HfRead, OpRead(p), CHOICE);
        return HandOffFellBack(StatusOf(found));
      }
      ghost var after := history + [Run(p, CHOICE)];
      ReleaseGivesBack(history, p, p, x.tid);
      var released := SubmitStep(p, x, HfRelease, OpRelease(x.tid), CHOICE);
      if !released.b {
        var _ := SubmitStep(p, x, HfRollback, OpCas(p, PENDING, FAILED), CHOICE);
        return HandOffUnreleased;
      }
      StaysGivenBack(after, history, p);
      answer := HandOffReleased;
    }

    /**
     * The submit handler. Each answer has its cause in what the submit has done and met. A replayed submit has
     * given its own reservation back and answers with the row of an earlier submit under the same user and key; a
     * failed one without a row has given it back as well; an accepted one owns its row.
     */
    method SubmitTask(p: nat, x: Proc) returns (answer: SubmitAnswer)
      requires Valid() && x.Submit? && SubmitAt(p, x, SEnsure)
      modifies this, billing, tasks
      ensures Valid() && old(history) <= history && SubmitAt(p, x, SDone(answer))
      ensures answer.Replayed? ==>
                && Returned(x.tid) && p !in tasks.rows && answer.task in tasks.rows && x.key.Some?
                && tasks.rows[answer.task].user == x.user && tasks.rows[answer.task].key == x.key
      ensures answer.CreateFailed? && p !in tasks.rows ==> Returned(x.tid)
      ensures answer.Accepted? ==> p in tasks.rows && tasks.rows[p].tid == x.tid
      ensures Deeds(old(history), p) == {}
      ensures SubmitAnswerTold(Deeds(history, p), p, x.user, x.cost, x.tid, x.key, answer)
    {
      hide Exec;
      hide SubmitAnswerTold;
      EveryHandlerIsTold(history, p);
      answer := ReserveAndCreate(p, x);
      SubmitAnswersTruly(history, p);
      EveryHandlerIsTold(history, p);
    }

    method ReserveAndCreate(p: nat, x: Proc) returns (answer: SubmitAnswer)
      requires Valid() && x.Submit? && SubmitAt(p, x, SEnsure)
      modifies this, billing, tasks
      ensures Valid() && old(history) <= history && SubmitAt(p, x, SDone(answer))
    {
      hide Exec;
      var _ := SubmitStep(p, x, SEnsure, OpEnsure(x.user), CHOICE);
      var reserved := SubmitStep(p, x, SReserve, OpReserve(x.user, x.tid, x.cost), CHOICE);
      if !reserved.b { return InsufficientCredits; }
      answer := CreateAndHandOff(p, x);
    }

    method CreateAndHandOff(p: nat, x: Proc) returns (answer: SubmitAnswer)
      requires Valid() && x.Submit? && SubmitAt(p, x, SInsert)
      modifies this, billing, tasks
      ensures Valid() && old(history) <= history && SubmitAt(p, x, SDone(answer))
    {
      hide Exec;
      hide SubmitAnswerTold;
      hide Deeds;
      var fault: Fault := *;
      var created := SubmitStep(p, x, SInsert, OpInsert(p, Row(x.user, x.cost, x.tid, x.key, PENDING)),
                                Choice(fault, true, true));
      if created.Existing? && created.task != p {
        var _ := SubmitStep(p, x, SReleaseReplay(created.task, created.status), OpRelease(x.tid), CHOICE);
        return Replayed(created.task, created.status);
      }
      if !created.Existing? && !created.Inserted? {
        var _ := SubmitStep(p, x, SReleaseError, OpRelease(x.tid), CHOICE);
        return CreateFailed;
      }
      var posted: bool := *;
      var response := SubmitStep(p, x, SHandOff, OpHandOff, Choice(NoFault, true, posted));
      if response.b { return Accepted; }
      answer := HandleHandOffFailure(p, x);
    }
  }

  /** A successful release by the handler that took the task gives the task's own hold back. */
  lemma ReleaseGivesBack(evs: seq<Event>, p: nat, t: nat, tid: nat)
    requires var s := Reached(evs); p in s.procs && TaskOf(p, s.procs[p]) == t && OpOf(p, s.procs[p]) == OpRelease(tid)
    requires Reached(evs).procs[p].Cancel? || (Reached(evs).procs[p].Submit? && Reached(evs).procs[p].spc.HfRelease?)
    ensures var s, s' := Reached(evs), Reached(evs + [Run(p, CHOICE)]);
            Perform(s.book, s.table, OpRelease(tid), CHOICE).2 == Flag(true) ==>
              t in s'.table.rows && s'.table.rows[t].tid == tid && GivenBack(s', tid)
  {
    ReachedInv(evs);
    AppendRun(evs, Run(p, CHOICE));
    hide Exec;
    var s := Reached(evs);
    assert ProcOk(s, p);
  }

  lemma StaysGivenBack(evs: seq<Event>, more: seq<Event>, t: nat)
    requires evs <= more && t in Reached(evs).table.rows && GivenBack(Reached(evs), Reached(evs).table.rows[t].tid)
    ensures var s' := Reached(more);
            t in s'.table.rows && s'.table.rows[t].tid == Reached(evs).table.rows[t].tid
                 && GivenBack(s', s'.table.rows[t].tid)
  {
    assert more == evs + more[|evs|..];
    NeverChargedAfterwards(evs, more[|evs|..], t);
  }

  lemma SubmitAnswersTruly(evs: seq<Event>, p: nat)
    requires var s := Reached(evs); p in s.procs && s.procs[p].Submit? && s.procs[p].spc.SDone?
    ensures var s := Reached(evs); var x := s.procs[p]; var answer := x.spc.answer;
            && (answer.Replayed? ==> SameKey(s, p, answer.task) && p !in s.table.rows && GivenBack(s, x.tid))
            && (answer.CreateFailed? && p !in s.table.rows ==> GivenBack(s, x.tid))
            && (answer.Accepted? ==> p in s.table.rows && s.table.rows[p].tid == x.tid)
  {
    ReachedInv(evs);
    EveryRunKeepsReplayOk(evs, p);
    assert ProcOk(Reached(evs), p) && RowOk(Reached(evs), p);
  }
}
