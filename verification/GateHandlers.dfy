/**
 * The Solution 1 code in its own imperative form: the Redis scripts, the task repository, and the submit,
 * worker, cancel and reaper handlers, with the rest of the system interfering between any two operations.
 */
module GateHandlers {
  import opened Options
  import opened Gate
  import opened GateInvariant
  import opened GateRuns
  import opened GateOutcomes
  import opened GateLostWork
  import opened GateDeeds
  import opened GateHistory

  /** The Redis keys of the admission gate; the two scripts are atomic. */
  class RedisStore {
    var credits: map<nat, int>
    var active: map<nat, int>
    var idem: map<(nat, nat), nat>
    var markers: map<nat, Marker>
    var stream: map<nat, StreamEntry>

    function Value(): Redis reads this { Redis(credits, active, idem, markers, stream) }

    constructor (opening: map<nat, nat>)
      ensures Value() == Redis(map u | u in opening :: opening[u], map[], map[], map[], map[])
    {
      credits := map u | u in opening :: opening[u];
      active, idem, markers, stream := map[], map[], map[], map[];
    }

    method AdmissionScript(limit: nat, t: nat, user: nat, cost: nat, key: nat, now: nat) returns (verdict: Verdict)
      modifies this
      ensures (Value(), verdict) == Admit(old(Value()), limit, t, user, cost, key, now)
    {
      if (user, key) in idem { return Idempotent(idem[(user, key)]); }
      var running := if user in active then active[user] else 0;
      if running >= limit { return Concurrency; }
      if user !in credits { return CacheMiss; }
      if credits[user] < cost { return Insufficient; }
      credits := credits[user := credits[user] - cost];
      stream := stream[t := StreamEntry(user, cost, now, false)];
      idem := idem[(user, key) := t];
      active := active[user := running + 1];
      verdict := Admitted;
    }

    method DecrementScript(user: nat)
      modifies this
      ensures Value() == DecrementClamped(old(Value()), user).0
    {
      var current := if user in active then active[user] else 0;
      if current <= 0 {
        active := active[user := 0];
        return;
      }
      active := active[user := current - 1];
    }

    method IncrementCredits(user: nat, amount: nat)
      modifies this
      ensures Value() == AddCredits(old(Value()), user, amount)
    {
      credits := credits[user := (if user in credits then credits[user] else 0) + amount];
    }
  }

  /** Rows change in place, guarded by their status; ledger entries are only ever appended. */
  class Repository {
    var rows: map<nat, TaskRow>
    var ledger: seq<LedgerEntry>

    function Value(): Postgres reads this { Postgres(rows, ledger) }

    constructor ()
      ensures Value() == Postgres(map[], [])
    {
      rows, ledger := map[], [];
    }

    method InsertCreditTransaction(entry: LedgerEntry)
      modifies this`ledger
      ensures ledger == old(ledger) + [entry]
    {
      ledger := ledger + [entry];
    }

    /** The row and its deduction, in one transaction. */
    method CreateTask(t: nat, user: nat, cost: nat, key: nat)
      modifies this
      ensures Value() == Create(old(Value()), t, user, cost, key)
    {
      rows := rows[t := TaskRow(user, cost, key, PENDING)];
      InsertCreditTransaction(LedgerEntry(user, t, -(cost as int), TaskDeduct));
    }

    method UpdateStatus(t: nat, from: set<TaskStatus>, to: TaskStatus) returns (updated: bool)
      modifies this`rows
      ensures (Value(), updated) == SetStatus(old(Value()), t, from, to)
    {
      updated := t in rows && rows[t].status in from;
      if updated {
        rows := rows[t := rows[t].(status := to)];
      }
    }

    /** The guarded terminal update and its refund, in one transaction. */
    method FinishTask(t: nat, to: TaskStatus, user: nat, cost: nat, reason: Reason) returns (applied: bool)
      modifies this
      ensures (Value(), applied) == Finish(old(Value()), t, to, user, cost, reason)
    {
      applied := UpdateStatus(t, CANCELLABLE, to);
      if applied {
        InsertCreditTransaction(LedgerEntry(user, t, cost, reason));
      }
    }
  }

  /** One deployment: the shared stores, the clock, and the program counters of all processes. */
  class Service {
    const cfg: Config
    const redis: RedisStore
    const db: Repository
    var now: nat
    var procs: map<nat, Proc>
    var reaper: Option<nat>
    ghost var history: seq<Event>

    function Seen(): World
      reads this, redis, db
    {
      World(cfg, now, redis.Value(), db.Value(), procs, map[], reaper)
    }

    /** The shared state is the one that the recorded history leads to. */
    ghost predicate Valid()
      reads this, redis, db
    {
      var w := Reached(cfg, history);
      InTime(cfg) && Seen() == w.(slots := map[])
    }

    constructor (cfg: Config)
      requires InTime(cfg)
      ensures Valid() && history == [] && fresh(redis) && fresh(db) && this.cfg == cfg
    {
      this.cfg := cfg;
      redis := new RedisStore(cfg.opening);
      db := new Repository();
      now, procs, reaper, history := 0, map[], None, [];
    }

    /** Carries out one operation on the shared stores. */
    method Do(t: nat, op: Op, c: Choice) returns (e: Entry)
      modifies redis, db
      ensures (redis.Value(), db.Value(), e) == Perform(cfg, now, old(redis.Value()), old(db.Value()), t, op, c)
    {
      e := Flag(true);
      match op {
        case OpAdmit(user, cost, key) =>
          var verdict := redis.AdmissionScript(LimitOf(cfg, user), t, user, cost, key, now);
          e := Decision(verdict);
        case OpMark(user, cost, key) => redis.markers := redis.markers[t := Marker(user, cost, key, now)];
        case OpPersist(user, cost, key) =>
          if c.commits && t !in db.rows && !KeyTaken(db.Value(), user, key) { db.CreateTask(t, user, cost, key); }
          else { e := Flag(false); }
        case OpAddCredits(user, cost) => redis.IncrementCredits(user, cost);
        case OpDecrement(user) => redis.DecrementScript(user);
        case OpForgetKey(user, key) => redis.idem := redis.idem - {(user, key)};
        case OpUnmark => redis.markers := redis.markers - {t};
        case OpStart => var ok := db.UpdateStatus(t, {PENDING}, RUNNING); e := Flag(ok);
        case OpComplete => var ok := db.UpdateStatus(t, {RUNNING}, COMPLETED); e := Flag(ok);
        case OpFinish(to, user, cost, reason) => var ok := db.FinishTask(t, to, user, cost, reason); e := Flag(ok);
        case OpReadRow => e := Row(if t in db.rows then Some(db.rows[t]) else None);
        case OpReadMarker => e := Mark(if t in redis.markers then Some(redis.markers[t]) else None);
        case OpReadAge =>
          e := Age(if t in redis.stream && redis.stream[t].addedAt <= now then now - redis.stream[t].addedAt else 0);
        case OpCompute => e := Flag(c.computes);
        case OpAck =>
          if t in redis.stream { redis.stream := redis.stream[t := redis.stream[t].(acked := true)]; }
        case OpNone =>
      }
    }

    /** One operation of process `p`, and its consequence for the process. */
    method RunNow(p: nat, op: Op, c: Choice) returns (e: Entry)
      requires Valid() && p in procs && OpOf(procs[p]) == op
      modifies this, redis, db
      ensures Valid() && history == old(history) + [Run(p, c)]
      ensures procs == old(procs)[p := Advance(cfg, old(now), old(procs)[p], e)]
      ensures e == Perform(cfg, old(now), old(redis.Value()), old(db.Value()), TaskOf(p, old(procs)[p]), op, c).2
    {
      hide Exec;
      hide Perform;
      AppendRun(cfg, history, Run(p, c));
      history := history + [Run(p, c)];
      e := Do(TaskOf(p, procs[p]), op, c);
      procs := procs[p := Advance(cfg, now, procs[p], e)];
      if procs[p].Reap? && procs[p].rpc.RpDone? && reaper == Some(p) {
        reaper := None;
      }
    }

    method Start(ev: Event)
      requires Valid() && !ev.Run? && !ev.Tick? && !ev.Die?
      modifies this
      ensures Valid() && history == old(history) + [ev]
    {
      hide Exec;
      hide Perform;
      AppendRun(cfg, history, ev);
      history := history + [ev];
      if ev.p in procs { return; }
      match ev {
        case StartSubmit(p, user, cost, key) =>
          if cost >= 1 { procs := procs[p := Submit(user, cost, key, AdGate)]; }
        case Deliver(p, t) =>
          if t in redis.stream && !redis.stream[t].acked {
            procs := procs[p := Worker(t, redis.stream[t].user, redis.stream[t].cost, WkStart)];
          }
        case StartCancel(p, t) => procs := procs[p := Cancel(t, CnGet)];
        case StartStuck(p, t) =>
          if t in db.rows && db.rows[t].status.RUNNING? {
            procs := procs[p := Stuck(t, db.rows[t].user, db.rows[t].cost, SkFinish)];
          }
        case StartReap(p, t) =>
          if reaper.None? {
            procs := procs[p := Reap(t, RpMarker)];
            reaper := Some(p);
          }
      }
    }

    /** One step of the system, whoever takes it. */
    method Serve(ev: Event)
      requires Valid()
      modifies this, redis, db
      ensures Valid() && history == old(history) + [ev]
    {
      hide Exec;
      hide Perform;
      if ev.Run? && ev.p in procs {
        var _ := RunNow(ev.p, OpOf(procs[ev.p]), ev.choice);
      } else if ev.Run? || ev.Die? || ev.Tick? {
        AppendRun(cfg, history, ev);
        history := history + [ev];
        if ev.Die? && ev.p in procs {
          procs := procs[ev.p := Dying(procs[ev.p])];
        } else if ev.Tick? && MayTick(Seen(), ev.seconds) {
          now := now + ev.seconds;
        }
      } else {
        Start(ev);
      }
    }

    /** Anything the rest of the system may do while process `p` is between two operations. */
    method Interfere(p: nat)
      requires Valid() && p in procs
      modifies this, redis, db
      ensures Valid() && old(history) <= history
      ensures p in procs && procs[p] == old(procs[p])
    {
      hide Exec;
      hide Next;
      var steps: nat := *;
      while steps > 0
        invariant Valid() && old(history) <= history
        invariant p in procs && procs[p] == old(procs[p])
      {
        var ev: Event := *;
        if !(ev.Run? && ev.p == p) && !(ev.Die? && ev.p == p) {
          OthersKeepProcess(Reached(cfg, history), ev, p);
          AppendRun(cfg, history, ev);
          Serve(ev);
        }
        steps := steps - 1;
      }
    }

    /** The next operation of process `p`, followed by interference; only `p`'s own progress survives it. */
    method Call(p: nat, op: Op, c: Choice) returns (e: Entry, ghost at: nat)
      requires Valid() && p in procs && OpOf(procs[p]) == op
      modifies this, redis, db
      ensures Valid() && old(history) + [Run(p, c)] <= history
      ensures at == old(now) && p in procs && procs[p] == Advance(cfg, at, old(procs)[p], e)
      ensures e == Perform(cfg, old(now), old(redis.Value()), old(db.Value()), TaskOf(p, old(procs)[p]), op, c).2
    {
      hide Exec;
      hide Perform;
      at := now;
      e := RunNow(p, op, c);
      Interfere(p);
    }

    // ----- Submit -----

    predicate SubmitAt(p: nat, user: nat, cost: nat, key: nat, pc: SubmitPc)
      reads this
    {
      p in procs && procs[p] == Submit(user, cost, key, pc)
    }

    method SubmitStep(p: nat, user: nat, cost: nat, key: nat, ghost pc: SubmitPc, op: Op, c: Choice) returns (e: Entry)
      requires Valid() && SubmitAt(p, user, cost, key, pc) && OpOf(Submit(user, cost, key, pc)) == op
      modifies this, redis, db
      ensures Valid() && old(history) <= history && SubmitAt(p, user, cost, key, AdvanceSubmit(pc, e))
      ensures op.OpAdmit? <==> e.Decision?
      ensures op.OpPersist? ==> e.Flag?
    {
      hide Exec;
      ghost var at;
      e, at := Call(p, op, c);
    }

    /** Gate, marker, row and ledger in one transaction, marker removed; or the full compensation. */
    method SubmitTask(p: nat, user: nat, cost: nat, key: nat) returns (end: SubmitEnd)
      requires Valid() && SubmitAt(p, user, cost, key, AdGate)
      modifies this, redis, db
      ensures Valid() && old(history) <= history && SubmitAt(p, user, cost, key, AdDone(end))
      ensures end.Accepted? ==>
                && p in db.rows && db.rows[p].user == user && db.rows[p].cost == cost
                && Told(Entries(db.ledger, p), p, user, cost, Some(db.rows[p].status))
      ensures end.Compensated? ==> p !in db.rows && p !in redis.markers && PaidBack(Reached(cfg, history), p)
      ensures end.Refused? ==> Untouched(Seen(), p) && Entries(db.ledger, p) == []
      ensures end.Refused? && end.verdict.Idempotent? ==>
                Names(Reached(cfg, history), end.verdict.task, user, key)
      ensures end.Refused? ==> RefusedFor(Done(cfg, history, p), cfg, user, cost, key, end.verdict)
      ensures Done(cfg, old(history), p) == {} && SubmitEndTold(Done(cfg, history, p), p, user, cost, key, end)
    {
      hide Exec;
      hide Perform;
      DoneIsTold(cfg, history, p);
      end := AdmitAndPersist(p, user, cost, key);
      SubmitEndsTruly(cfg, history, p);
      DoneIsTold(cfg, history, p);
      if end.Refused? { RefusalHasCause(cfg, history, p); }
      if end.Accepted? { RowsAreTold(cfg, history, p); }
    }

    method AdmitAndPersist(p: nat, user: nat, cost: nat, key: nat) returns (end: SubmitEnd)
      requires Valid() && SubmitAt(p, user, cost, key, AdGate)
      modifies this, redis, db
      ensures Valid() && old(history) <= history && SubmitAt(p, user, cost, key, AdDone(end))
    {
      hide Exec;
      hide Perform;
      var decision := SubmitStep(p, user, cost, key, AdGate, OpAdmit(user, cost, key), CHOICE);
      if decision != Decision(Admitted) {
        end := Refused(decision.verdict);
      } else {
        end := PersistTask(p, user, cost, key);
      }
    }

    method PersistTask(p: nat, user: nat, cost: nat, key: nat) returns (end: SubmitEnd)
      requires Valid() && SubmitAt(p, user, cost, key, AdMark)
      modifies this, redis, db
      ensures Valid() && old(history) <= history && SubmitAt(p, user, cost, key, AdDone(end))
    {
      hide Exec;
      hide Perform;
      var _ := SubmitStep(p, user, cost, key, AdMark, OpMark(user, cost, key), CHOICE);
      var commits: bool := *;
      var created := SubmitStep(p, user, cost, key, AdPersist, OpPersist(user, cost, key), Choice(commits, true));
      if !created.b {
        Compensate(p, user, cost, key);
        return Compensated;
      }
      var _ := SubmitStep(p, user, cost, key, AdUnmark, OpUnmark, CHOICE);
      end := Accepted;
    }

    method Compensate(p: nat, user: nat, cost: nat, key: nat)
      requires Valid() && SubmitAt(p, user, cost, key, CoCredit)
      modifies this, redis, db
      ensures Valid() && old(history) <= history && SubmitAt(p, user, cost, key, AdDone(Compensated))
    {
      hide Exec;
      hide Perform;
      var _ := SubmitStep(p, user, cost, key, CoCredit, OpAddCredits(user, cost), CHOICE);
      var _ := SubmitStep(p, user, cost, key, CoSlot, OpDecrement(user), CHOICE);
      var _ := SubmitStep(p, user, cost, key, CoForget, OpForgetKey(user, key), CHOICE);
      var _ := SubmitStep(p, user, cost, key, CoUnmark, OpUnmark, CHOICE);
    }

    // ----- Stream worker -----

    predicate WorkerAt(p: nat, t: nat, user: nat, cost: nat, pc: WorkerPc)
      reads this
    {
      p in procs && procs[p] == Worker(t, user, cost, pc)
    }

    method WorkerStep(p: nat, t: nat, user: nat, cost: nat, ghost pc: WorkerPc, op: Op, c: Choice)
      returns (e: Entry, ghost at: nat)
      requires Valid() && WorkerAt(p, t, user, cost, pc) && OpOf(Worker(t, user, cost, pc)) == op
      modifies this, redis, db
      ensures Valid() && old(history) + [Run(p, c)] <= history
           && WorkerAt(p, t, user, cost, AdvanceWorker(cfg, at, pc, e))
      ensures op.OpReadRow? ==> e == Row(if t in old(db.rows) then Some(old(db.rows[t])) else None)
      ensures op.OpReadMarker? ==> e.Mark?
      ensures op.OpReadAge? ==> e.Age?
      ensures !op.OpReadRow? && !op.OpReadMarker? && !op.OpReadAge? && !op.OpAdmit? ==> e.Flag?
    {
      hide Exec;
      e, at := Call(p, op, c);
    }

    /** Acknowledges the entry of a task whose row has left PENDING. */
    method Acknowledge(p: nat, t: nat, user: nat, cost: nat, ghost ended: Delivery)
      requires Valid() && WorkerAt(p, t, user, cost, WkAck(ended))
      modifies this, redis, db
      ensures Valid() && old(history) <= history && WorkerAt(p, t, user, cost, WkDone(ended))
      ensures t in db.rows && !db.rows[t].status.PENDING? && Acked(Seen(), t)
    {
      hide Exec;
      hide Perform;
      AcknowledgedRowsHaveStarted(cfg, history, p);
      AckLands(cfg, history, p);
      ghost var before := history;
      var _, _ := WorkerStep(p, t, user, cost, WkAck(ended), OpAck, CHOICE);
      StartedForGood(cfg, before, history, t);
      WorkStaysDone(cfg, before + [Run(p, CHOICE)], history, t);
    }

    /**
     * One delivery. The entry of a task that the worker ended, or found settled, is acknowledged, and its row has
     * left PENDING. What the worker ended itself is COMPLETED after its own model returned, or FAILED and refunded
     * after its own model raised, and credits and slot are given back. A dropped entry is acknowledged too, although
     * `read` ends with a read that found no row: the task is lost for good if no handler could still insert the row
     * then, as none can once the orphan timeout is over.
     */
    method ProcessMessage(p: nat, t: nat, user: nat, cost: nat) returns (outcome: Delivery, ghost read: seq<Event>)
      requires Valid() && WorkerAt(p, t, user, cost, WkStart)
      modifies this, redis, db
      ensures Valid() && old(history) <= history && WorkerAt(p, t, user, cost, WkDone(outcome))
      ensures Done(cfg, old(history), p) == {} && DeliveryTold(Done(cfg, history, p), t, user, cost, outcome)
      ensures !outcome.LeftForLater? ==> Acked(Seen(), t)
      ensures !outcome.LeftForLater? && !outcome.Dropped? ==> t in db.rows && !db.rows[t].status.PENDING?
      ensures outcome.Completed? ==> db.rows[t].status == COMPLETED && PaidBack(Reached(cfg, history), t)
      ensures outcome.Failed? ==> db.rows[t].status == FAILED && PaidBack(Reached(cfg, history), t)
      ensures outcome.Dropped? ==>
                && old(history) <= read <= history && ReadsNoRow(cfg, read, p, t)
                && t in Reached(cfg, read).redis.stream
                && (Late(Reached(cfg, read), t) ==> !MayInsert(Reached(cfg, read), t))
                && (!MayInsert(Reached(cfg, read), t) ==> MissingForGood(Seen(), t))
    {
      hide Exec;
      hide Perform;
      hide DeliveryTold;
      hide PaidBack;
      DoneIsTold(cfg, history, p);
      outcome, read := HandleMessage(p, t, user, cost);
      DoneIsTold(cfg, history, p);
      DeliveryLasts(cfg, history, p);
    }

    method HandleMessage(p: nat, t: nat, user: nat, cost: nat) returns (outcome: Delivery, ghost read: seq<Event>)
      requires Valid() && WorkerAt(p, t, user, cost, WkStart)
      modifies this, redis, db
      ensures Valid() && old(history) <= history && WorkerAt(p, t, user, cost, WkDone(outcome))
      ensures !outcome.LeftForLater? ==> Acked(Seen(), t)
      ensures !outcome.LeftForLater? && !outcome.Dropped? ==> t in db.rows && !db.rows[t].status.PENDING?
      ensures outcome.Completed? || outcome.Failed? ==> PaidBack(Reached(cfg, history), t)
      ensures outcome.Dropped? ==>
                && old(history) <= read <= history && ReadsNoRow(cfg, read, p, t)
                && t in Reached(cfg, read).redis.stream
                && (Late(Reached(cfg, read), t) ==> !MayInsert(Reached(cfg, read), t))
                && (!MayInsert(Reached(cfg, read), t) ==> MissingForGood(Seen(), t))
    {
      hide Exec;
      hide Perform;
      var started, _ := WorkerStep(p, t, user, cost, WkStart, OpStart, CHOICE);
      if !started.b {
        outcome, read := HandleNotStarted(p, t, user, cost);
        if outcome.Dropped? { DropsForGood(cfg, read, history, p, t); }
      } else {
        outcome := ComputeAndFinish(p, t, user, cost);
        read := history;
      }
    }

    method ComputeAndFinish(p: nat, t: nat, user: nat, cost: nat) returns (outcome: Delivery)
      requires Valid() && WorkerAt(p, t, user, cost, WkCompute)
      modifies this, redis, db
      ensures Valid() && old(history) <= history && WorkerAt(p, t, user, cost, WkDone(outcome))
      ensures (outcome.Completed? || outcome.Failed? || outcome.Settled?) && Acked(Seen(), t)
      ensures t in db.rows && !db.rows[t].status.PENDING?
      ensures !outcome.Settled? ==> PaidBack(Reached(cfg, history), t)
    {
      hide Exec;
      hide Perform;
      var computes: bool := *;
      var computed, _ := WorkerStep(p, t, user, cost, WkCompute, OpCompute, Choice(true, computes));
      if !computed.b {
        outcome := HandleFailure(p, t, user, cost);
        return;
      }
      var completed, _ := WorkerStep(p, t, user, cost, WkComplete, OpComplete, CHOICE);
      if !completed.b {
        Acknowledge(p, t, user, cost, Settled);
        return Settled;
      }
      GiveSlotBack(p, t, user, cost, Completed);
      outcome := Completed;
    }

    method HandleFailure(p: nat, t: nat, user: nat, cost: nat) returns (outcome: Delivery)
      requires Valid() && WorkerAt(p, t, user, cost, WkFail)
      modifies this, redis, db
      ensures Valid() && old(history) <= history && WorkerAt(p, t, user, cost, WkDone(outcome))
      ensures (outcome.Failed? || outcome.Settled?) && Acked(Seen(), t)
      ensures t in db.rows && !db.rows[t].status.PENDING?
      ensures outcome.Failed? ==> PaidBack(Reached(cfg, history), t)
    {
      hide Exec;
      hide Perform;
      var failed, _ := WorkerStep(p, t, user, cost, WkFail, OpFinish(FAILED, user, cost, FailureRefund), CHOICE);
      if !failed.b {
        Acknowledge(p, t, user, cost, Settled);
        return Settled;
      }
      var _, _ := WorkerStep(p, t, user, cost, WkRefund, OpAddCredits(user, cost), CHOICE);
      GiveSlotBack(p, t, user, cost, Failed);
      outcome := Failed;
    }

    /** The last step of a task that the worker ended itself, and the acknowledgement. */
    method GiveSlotBack(p: nat, t: nat, user: nat, cost: nat, ghost ended: Delivery)
      requires Valid() && WorkerAt(p, t, user, cost, WkDecrement(ended))
      modifies this, redis, db
      ensures Valid() && old(history) <= history && WorkerAt(p, t, user, cost, WkDone(ended))
      ensures t in db.rows && !db.rows[t].status.PENDING? && PaidBack(Reached(cfg, history), t) && Acked(Seen(), t)
    {
      hide Exec;
      hide Perform;
      ghost var back := history + [Run(p, CHOICE)];
      DecrementPaysBack(cfg, history, p);
      var _, _ := WorkerStep(p, t, user, cost, WkDecrement(ended), OpDecrement(user), CHOICE);
      Acknowledge(p, t, user, cost, ended);
      PaidBackForGood(cfg, back, history, t);
    }

    method HandleNotStarted(p: nat, t: nat, user: nat, cost: nat) returns (outcome: Delivery, ghost read: seq<Event>)
      requires Valid() && WorkerAt(p, t, user, cost, WkReadRow)
      modifies this, redis, db
      ensures Valid() && old(history) <= history && WorkerAt(p, t, user, cost, WkDone(outcome))
      ensures !outcome.Completed? && !outcome.Failed? && (!outcome.LeftForLater? ==> Acked(Seen(), t))
      ensures outcome.Settled? ==> t in db.rows && !db.rows[t].status.PENDING?
      ensures outcome.Dropped? ==> read == old(history) && ReadsNoRow(cfg, read, p, t)
    {
      hide Exec;
      hide Perform;
      read := history;
      var current, at := WorkerStep(p, t, user, cost, WkReadRow, OpReadRow, CHOICE);
      if current.row.None? {
        outcome := DropIfOrphaned(p, t, user, cost, at);
        return;
      }
      if current.row.value.status == PENDING { return LeftForLater, read; }
      Acknowledge(p, t, user, cost, Settled);
      outcome := Settled;
    }

    method DropIfOrphaned(p: nat, t: nat, user: nat, cost: nat, ghost at: nat) returns (outcome: Delivery)
      requires Valid() && WorkerAt(p, t, user, cost, WkReadMarker(at))
      modifies this, redis, db
      ensures Valid() && old(history) <= history && WorkerAt(p, t, user, cost, WkDone(outcome))
      ensures outcome.LeftForLater? || (outcome.Dropped? && Acked(Seen(), t))
    {
      hide Exec;
      hide Perform;
      var marker, _ := WorkerStep(p, t, user, cost, WkReadMarker(at), OpReadMarker, CHOICE);
      if marker.marker.Some? { return LeftForLater; }
      var age, _ := WorkerStep(p, t, user, cost, WkReadAge(at), OpReadAge, CHOICE);
      if age.seconds < cfg.orphanTimeout { return LeftForLater; }
      DropEntry(p, t, user, cost, at);
      outcome := Dropped;
    }

    method DropEntry(p: nat, t: nat, user: nat, cost: nat, ghost at: nat)
      requires Valid() && WorkerAt(p, t, user, cost, WkDrop(at))
      modifies this, redis, db
      ensures Valid() && old(history) <= history && WorkerAt(p, t, user, cost, WkDone(Dropped)) && Acked(Seen(), t)
    {
      hide Exec;
      hide Perform;
      AckLands(cfg, history, p);
      ghost var acked := history + [Run(p, CHOICE)];
      var _, _ := WorkerStep(p, t, user, cost, WkDrop(at), OpAck, CHOICE);
      WorkStaysDone(cfg, acked, history, t);
    }

    // ----- Cancel -----

    predicate CancelAt(p: nat, t: nat, pc: CancelPc)
      reads this
    {
      p in procs && procs[p] == Cancel(t, pc)
    }

    method CancelStep(p: nat, t: nat, ghost pc: CancelPc, op: Op) returns (e: Entry)
      requires Valid() && CancelAt(p, t, pc) && OpOf(Cancel(t, pc)) == op
      modifies this, redis, db
      ensures Valid() && old(history) + [Run(p, CHOICE)] <= history && CancelAt(p, t, AdvanceCancel(pc, e))
      ensures op.OpReadRow? ==> e.Row?
      ensures op.OpFinish? ==> e.Flag?
      ensures e == Perform(cfg, old(now), old(redis.Value()), old(db.Value()), t, op, CHOICE).2
    {
      hide Exec;
      ghost var at;
      e, at := Call(p, op, CHOICE);
    }

    /**
     * A cancel that reports success has cancelled the row itself, whatever else happens meanwhile, with its one
     * refund in the ledger and credits and slot given back. Any other answer changes nothing, and its reason was
     * there at a moment of the call: no row, or a row that had ended.
     */
    method CancelTask(p: nat, t: nat) returns (answer: CancelAnswer)
      requires Valid() && CancelAt(p, t, CnGet)
      modifies this, redis, db
      ensures Valid() && old(history) <= history && CancelAt(p, t, CnDone(answer))
      ensures Done(cfg, old(history), p) == {} && CancelAnswerTold(Done(cfg, history, p), t, answer)
      ensures answer.Cancelled? ==>
                t in db.rows && db.rows[t].status == CANCELLED && PaidBack(Reached(cfg, history), t)
    {
      hide Exec;
      hide Perform;
      DoneIsTold(cfg, history, p);
      var task := CancelStep(p, t, CnGet, OpReadRow);
      if task.row.None? {
        answer := NotFound;
      } else if task.row.value.status !in CANCELLABLE {
        answer := NotCancellable;
      } else {
        answer := ApplyCancel(p, t, task.row.value.user, task.row.value.cost);
      }
      DoneIsTold(cfg, history, p);
    }

    method ApplyCancel(p: nat, t: nat, user: nat, cost: nat) returns (answer: CancelAnswer)
      requires Valid() && CancelAt(p, t, CnFinish(user, cost))
      modifies this, redis, db
      ensures Valid() && old(history) <= history && CancelAt(p, t, CnDone(answer)) && !answer.NotFound?
      ensures answer.Cancelled? ==>
                t in db.rows && db.rows[t].status == CANCELLED && PaidBack(Reached(cfg, history), t)
    {
      hide Exec;
      ghost var won := history + [Run(p, CHOICE)];
      FinishWins(cfg, history, p);
      var applied := CancelStep(p, t, CnFinish(user, cost), OpFinish(CANCELLED, user, cost, CancelRefund));
      hide Perform;
      if !applied.b { return NotCancellable; }
      SyncCancelToRedis(p, t, user, cost);
      RowsOnlyMoveOn(cfg, won, history, t);
      answer := Cancelled;
    }

    method SyncCancelToRedis(p: nat, t: nat, user: nat, cost: nat)
      requires Valid() && CancelAt(p, t, CnRefund(user, cost))
      modifies this, redis, db
      ensures Valid() && old(history) <= history && CancelAt(p, t, CnDone(Cancelled))
      ensures PaidBack(Reached(cfg, history), t)
    {
      hide Exec;
      hide Perform;
      var _ := CancelStep(p, t, CnRefund(user, cost), OpAddCredits(user, cost));
      ghost var back := history + [Run(p, CHOICE)];
      DecrementPaysBack(cfg, history, p);
      var _ := CancelStep(p, t, CnDecrement(user), OpDecrement(user));
      var _ := CancelStep(p, t, CnUnmark, OpUnmark);
      PaidBackForGood(cfg, back, history, t);
    }

    // ----- Reaper -----

    predicate StuckAt(p: nat, t: nat, user: nat, cost: nat, pc: StuckPc)
      reads this
    {
      p in procs && procs[p] == Stuck(t, user, cost, pc)
    }

    method StuckStep(p: nat, t: nat, user: nat, cost: nat, ghost pc: StuckPc, op: Op) returns (e: Entry)
      requires Valid() && StuckAt(p, t, user, cost, pc) && OpOf(Stuck(t, user, cost, pc)) == op
      modifies this, redis, db
      ensures Valid() && old(history) + [Run(p, CHOICE)] <= history && StuckAt(p, t, user, cost, AdvanceStuck(pc, e))
      ensures op.OpFinish? ==> e.Flag?
      ensures e == Perform(cfg, old(now), old(redis.Value()), old(db.Value()), t, op, CHOICE).2
    {
      hide Exec;
      ghost var at;
      e, at := Call(p, op, CHOICE);
    }

    /**
     * The reaper's treatment of one stuck task; a recovered one has FAILED, and its user has everything back. Any
     * other had ended when the update came, and nothing was changed.
     */
    method FailStuckTask(p: nat, t: nat, user: nat, cost: nat) returns (recovered: nat)
      requires Valid() && StuckAt(p, t, user, cost, SkFinish)
      modifies this, redis, db
      ensures Valid() && old(history) <= history && StuckAt(p, t, user, cost, SkDone(recovered == 1)) && recovered <= 1
      ensures Done(cfg, old(history), p) == {}
      ensures StuckTold(Done(cfg, history, p), t, user, cost, SkDone(recovered == 1))
      ensures recovered == 1 ==> t in db.rows && db.rows[t].status == FAILED && PaidBack(Reached(cfg, history), t)
    {
      hide Exec;
      ghost var won := history + [Run(p, CHOICE)];
      FinishWins(cfg, history, p);
      DoneIsTold(cfg, history, p);
      var failed := StuckStep(p, t, user, cost, SkFinish, OpFinish(FAILED, user, cost, StuckRefund));
      hide Perform;
      recovered := 0;
      if failed.b {
        RefundStuck(p, t, user, cost);
        RowsOnlyMoveOn(cfg, won, history, t);
        recovered := 1;
      }
      DoneIsTold(cfg, history, p);
    }

    method RefundStuck(p: nat, t: nat, user: nat, cost: nat)
      requires Valid() && StuckAt(p, t, user, cost, SkRefund)
      modifies this, redis, db
      ensures Valid() && old(history) <= history && StuckAt(p, t, user, cost, SkDone(true))
      ensures PaidBack(Reached(cfg, history), t)
    {
      hide Exec;
      hide Perform;
      var _ := StuckStep(p, t, user, cost, SkRefund, OpAddCredits(user, cost));
      ghost var back := history + [Run(p, CHOICE)];
      DecrementPaysBack(cfg, history, p);
      var _ := StuckStep(p, t, user, cost, SkDecrement, OpDecrement(user));
      PaidBackForGood(cfg, back, history, t);
    }

    predicate ReapAt(p: nat, t: nat, pc: ReapPc)
      reads this
    {
      p in procs && procs[p] == Reap(t, pc)
    }

    method ReapStep(p: nat, t: nat, ghost pc: ReapPc, op: Op) returns (e: Entry, ghost at: nat)
      requires Valid() && ReapAt(p, t, pc) && OpOf(Reap(t, pc)) == op
      modifies this, redis, db
      ensures at == old(now)
      ensures Valid() && old(history) <= history && ReapAt(p, t, AdvanceReap(cfg, at, pc, e))
      ensures op.OpReadMarker? ==> e.Mark?
      ensures op.OpReadRow? ==> e.Row?
    {
      hide Exec;
      e, at := Call(p, op, CHOICE);
    }

    /**
     * The reaper's treatment of one pending marker. A recovered one belonged to a dead handler's task, which has no
     * row, no marker and no ledger entry, nor ever will have, and credits and slot are given back. A leftover one is
     * removed because its task has a row. Any other is left alone, gone or younger than the orphan timeout.
     */
    method ProcessMarker(p: nat, t: nat) returns (outcome: Reaping)
      requires Valid() && ReapAt(p, t, RpMarker)
      modifies this, redis, db
      ensures Valid() && old(history) <= history && ReapAt(p, t, RpDone(outcome))
      ensures Done(cfg, old(history), p) == {} && ReapingTold(Done(cfg, history, p), t, outcome)
      ensures outcome.Recovered? ==> Dead(Seen(), t) && t !in redis.markers && PaidBack(Reached(cfg, history), t)
    {
      hide Exec;
      hide Perform;
      DoneIsTold(cfg, history, p);
      outcome := ReapMarker(p, t);
      DoneIsTold(cfg, history, p);
    }

    method ReapMarker(p: nat, t: nat) returns (outcome: Reaping)
      requires Valid() && ReapAt(p, t, RpMarker)
      modifies this, redis, db
      ensures Valid() && old(history) <= history && ReapAt(p, t, RpDone(outcome))
      ensures outcome.Recovered? ==> Dead(Seen(), t) && t !in redis.markers && PaidBack(Reached(cfg, history), t)
    {
      hide Exec;
      hide Perform;
      var clock := now;
      var found, _ := ReapStep(p, t, RpMarker, OpReadMarker);
      if found.marker.None? { return LeftAlone; }
      var m := found.marker.value;
      if clock < m.createdAt + cfg.orphanTimeout { return LeftAlone; }
      var task, _ := ReapStep(p, t, RpRow(m), OpReadRow);
      if task.row.Some? {
        var _, _ := ReapStep(p, t, RpDrop(m), OpUnmark);
        return Leftover;
      }
      RefundOrphan(p, t, m);
      outcome := Recovered;
    }

    method RefundOrphan(p: nat, t: nat, m: Marker)
      requires Valid() && ReapAt(p, t, RpRefund(m))
      modifies this, redis, db
      ensures Valid() && old(history) <= history && ReapAt(p, t, RpDone(Recovered))
      ensures Dead(Seen(), t) && t !in redis.markers && PaidBack(Reached(cfg, history), t)
    {
      hide Exec;
      hide Perform;
      var _, _ := ReapStep(p, t, RpRefund(m), OpAddCredits(m.user, m.cost));
      var _, _ := ReapStep(p, t, RpDecrement(m), OpDecrement(m.user));
      var _, _ := ReapStep(p, t, RpForget(m), OpForgetKey(m.user, m.key));
      ghost var unmarked := history + [Run(p, CHOICE)];
      OrphanUnmarked(cfg, history, p);
      var _, _ := UnmarkOrphan(p, t, m);
      DeadForGood(cfg, unmarked, history, t);
      UnmarkedDeadArePaidBack(cfg, history, t);
    }

    method UnmarkOrphan(p: nat, t: nat, m: Marker) returns (e: Entry, ghost at: nat)
      requires Valid() && ReapAt(p, t, RpUnmark(m))
      modifies this, redis, db
      ensures Valid() && old(history) + [Run(p, CHOICE)] <= history && ReapAt(p, t, RpDone(Recovered))
    {
      hide Exec;
      hide Perform;
      e, at := Call(p, OpUnmark, CHOICE);
    }
  }
}
