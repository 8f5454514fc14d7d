/**
 * What a handler of Solution 4 has done by the time it answers, told by the states it found and left: each answer
 * has its cause in the handler's own operations, and each charge in a computation that succeeded.
 */
module ProtocolDeeds {
  import opened Ledger
  import opened Options
  import opened Protocol
  import opened ProtocolInvariant
  import opened Agreement

  /** One operation of a handler: the state it found, what the environment decided, the state it left. */
  datatype Deed = Deed(before: State, op: Op, choice: Choice, after: State)

  function DeedIn(s: State, ev: Event, p: nat): set<Deed> {
    if ev.Run? && ev.p == p && p in s.procs then {Deed(s, OpOf(p, s.procs[p]), ev.choice, Next(s, ev))} else {}
  }

  /** Everything that `p` has done in a history. */
  ghost function Deeds(evs: seq<Event>, p: nat): set<Deed> {
    if evs == [] then {}
    else Deeds(evs[..|evs| - 1], p) + DeedIn(Reached(evs[..|evs| - 1]), evs[|evs| - 1], p)
  }

  function StatusAt(s: State, t: nat): Option<Status> {
    if t in s.table.rows then Some(s.table.rows[t].status) else None
  }

  // ----- Deeds in terms of row and hold -----

  predicate Moves(d: Deed, t: nat, from: Status, to: Status) {
    StatusAt(d.before, t) == Some(from) && StatusAt(d.after, t) == Some(to)
  }

  ghost predicate Moved(deeds: set<Deed>, t: nat, from: Status, to: Status) {
    exists d :: d in deeds && Moves(d, t, from, to)
  }

  /** The update of the row from `from` found another status. */
  predicate Loses(d: Deed, t: nat, from: Status) {
    d.op.OpCas? && d.op.task == t && d.op.from == from && StatusAt(d.before, t) != Some(from)
  }

  ghost predicate Lost(deeds: set<Deed>, t: nat, from: Status) { exists d :: d in deeds && Loses(d, t, from) }

  ghost predicate Saw(deeds: set<Deed>, t: nat, st: Option<Status>) {
    exists d :: d in deeds && d.op == OpRead(t) && StatusAt(d.before, t) == st
  }

  predicate Gives(d: Deed, tid: nat) { Held(d.before, tid) && GivenBack(d.after, tid) }

  /** The handler itself gave the hold back. */
  ghost predicate Gave(deeds: set<Deed>, tid: nat) { exists d :: d in deeds && Gives(d, tid) }

  predicate Charges(d: Deed, tid: nat) { Held(d.before, tid) && Charged(d.after, tid) }

  /** The handler itself charged the hold. */
  ghost predicate DidCharge(deeds: set<Deed>, tid: nat) { exists d :: d in deeds && Charges(d, tid) }

  /** The handler asked for the hold, to charge it or to give it back, when it was gone. */
  ghost predicate FoundGone(deeds: set<Deed>, op: Op, tid: nat) {
    exists d :: d in deeds && d.op == op && !Held(d.before, tid)
  }

  ghost predicate Computed(deeds: set<Deed>, ok: bool) {
    exists d :: d in deeds && d.op.OpCompute? && d.choice.computed == ok
  }

  predicate ChangesNothing(d: Deed) { d.after.book == d.before.book && d.after.table == d.before.table }

  ghost predicate OnlyLooked(deeds: set<Deed>) { forall d :: d in deeds ==> ChangesNothing(d) }

  /** The handler has charged nobody. */
  ghost predicate NeverCharged(deeds: set<Deed>) { forall d, tid: nat :: d in deeds ==> !Charges(d, tid) }

  /** The handler has not even asked to charge anybody. */
  ghost predicate NeverAsked(deeds: set<Deed>) { forall d :: d in deeds ==> !d.op.OpCapture? }

  /** The handler has given nothing back. */
  ghost predicate NeverGave(deeds: set<Deed>) { forall d, tid: nat :: d in deeds ==> !Gives(d, tid) }

  // ----- Workflow -----

  ghost predicate ComputedOnly(deeds: set<Deed>, ok: bool) { Computed(deeds, ok) && !Computed(deeds, !ok) }

  ghost predicate ToldAfter(deeds: set<Deed>, tid: nat, k: After) {
    match k
    case AfterFailedCompute => ComputedOnly(deeds, false) && NeverAsked(deeds) && NeverCharged(deeds)
    case AfterCompute => ComputedOnly(deeds, true) && NeverCharged(deeds)
    case AfterFailedCapture => ComputedOnly(deeds, true) && NeverCharged(deeds) && FoundGone(deeds, OpCapture(tid), tid)
  }

  /** The invocation has charged the hold, and may have, for a computation that succeeded. */
  ghost predicate ToldCharge(deeds: set<Deed>, tid: nat) {
    ComputedOnly(deeds, true) && DidCharge(deeds, tid) && NeverGave(deeds)
  }

  /** A cancel request that the invocation read before it settled the hold was answered, or the hold was gone. */
  ghost predicate NoRequestIgnored(deeds: set<Deed>, t: nat, tid: nat) {
    Saw(deeds, t, Some(CANCEL_REQUESTED)) ==> FoundGone(deeds, OpRelease(tid), tid)
  }

  ghost predicate Checked(deeds: set<Deed>, t: nat) { exists st: Option<Status> :: Saw(deeds, t, st) }

  /** The invocation has looked for a cancel request, and ignored none. */
  ghost predicate Heeded(deeds: set<Deed>, t: nat, tid: nat) { Checked(deeds, t) && NoRequestIgnored(deeds, t, tid) }

  ghost predicate WorkflowTold(deeds: set<Deed>, t: nat, tid: nat, pc: WorkflowPc) {
    (Started(pc) ==> Moved(deeds, t, PENDING, RUNNING)) &&
    match pc
    case WMarkRunning => deeds == {}
    case WReadAfterStart => OnlyLooked(deeds) && Lost(deeds, t, PENDING)
    case WCompute =>
      && !Computed(deeds, true) && !Computed(deeds, false) && NeverAsked(deeds) && NeverCharged(deeds)
      && NeverGave(deeds) && !Saw(deeds, t, Some(CANCEL_REQUESTED))
    case CRead(k) => ToldAfter(deeds, tid, k) && NeverGave(deeds) && NoRequestIgnored(deeds, t, tid)
    case CRelease(k) =>
      && ToldAfter(deeds, tid, k) && NeverGave(deeds) && Saw(deeds, t, Some(CANCEL_REQUESTED))
      && (k.AfterFailedCapture? ==> FoundGone(deeds, OpRead(t), tid))
    case CMark(k) => ToldAfter(deeds, tid, k) && Saw(deeds, t, Some(CANCEL_REQUESTED)) && Gave(deeds, tid)
    case WMarkFailedCompute => ToldAfter(deeds, tid, AfterFailedCompute) && NeverGave(deeds) && Heeded(deeds, t, tid)
    case WReleaseAfterFailure =>
      && ToldAfter(deeds, tid, AfterFailedCompute) && Moved(deeds, t, RUNNING, FAILED) && NeverGave(deeds)
      && Heeded(deeds, t, tid)
    case WReadAfterFailure =>
      ToldAfter(deeds, tid, AfterFailedCompute) && Lost(deeds, t, RUNNING) && NeverGave(deeds)
    case WCapture => ToldAfter(deeds, tid, AfterCompute) && NeverGave(deeds) && Heeded(deeds, t, tid)
    case WMarkFailedCapture =>
      && ToldAfter(deeds, tid, AfterFailedCapture) && NeverGave(deeds) && Heeded(deeds, t, tid)
      && FoundGone(deeds, OpRead(t), tid)
    case WUnjournaledRelease => ToldFailedCapture(deeds, t, tid)
    case WInvalidateAfterRelease => false
    case WMetricAfterRelease => ToldFailedCapture(deeds, t, tid) && FoundGone(deeds, OpRelease(tid), tid)
    case WMarkCompleted => ToldCharge(deeds, tid) && Heeded(deeds, t, tid)
    case WReadAfterCompletion => ToldCharge(deeds, tid) && Lost(deeds, t, RUNNING) && Checked(deeds, t)
    case WLateComplete => ToldCharge(deeds, tid) && Lost(deeds, t, RUNNING) && Checked(deeds, t)
    case WReadAfterLate => false
    case WDone(started, answer) =>
      if started then ExecutorTold(deeds, t, tid, answer) else StartTold(deeds, t, answer)
  }

  /**
   * The hold was gone when it was to be charged, and the row was read again after that; the row failed unless a
   * cancel was requested meanwhile.
   */
  ghost predicate ToldFailedCapture(deeds: set<Deed>, t: nat, tid: nat) {
    && ToldAfter(deeds, tid, AfterFailedCapture) && NeverGave(deeds) && Heeded(deeds, t, tid)
    && FoundGone(deeds, OpRead(t), tid)
    && (Moved(deeds, t, RUNNING, FAILED) || Lost(deeds, t, RUNNING))
  }

  /** What the executing invocation has done when it answers. */
  ghost predicate ExecutorTold(deeds: set<Deed>, t: nat, tid: nat, answer: WorkflowAnswer) {
    match answer
    case Rejected => false
    case Answer(st) =>
      match st
      case PENDING => false
      case RUNNING => false
      case COMPLETED =>
        && ToldCharge(deeds, tid) && Checked(deeds, t)
        && (Saw(deeds, t, Some(CANCEL_REQUESTED)) ==> Lost(deeds, t, RUNNING) || FoundGone(deeds, OpRelease(tid), tid))
        && (Moved(deeds, t, RUNNING, COMPLETED) || Moved(deeds, t, CANCEL_REQUESTED, COMPLETED))
      case CANCELLED =>
        && Saw(deeds, t, Some(CANCEL_REQUESTED)) && Gave(deeds, tid) && NeverCharged(deeds)
        && Moved(deeds, t, CANCEL_REQUESTED, CANCELLED)
      case FAILED =>
        || (&& ToldAfter(deeds, tid, AfterFailedCompute) && Moved(deeds, t, RUNNING, FAILED) && Heeded(deeds, t, tid)
            && (Gave(deeds, tid) || FoundGone(deeds, OpRelease(tid), tid)))
        || (ToldFailedCapture(deeds, t, tid) && FoundGone(deeds, OpRelease(tid), tid))
      case CANCEL_REQUESTED =>
        && ToldAfter(deeds, tid, AfterFailedCompute) && NeverGave(deeds)
        && Lost(deeds, t, RUNNING) && Saw(deeds, t, Some(CANCEL_REQUESTED))
  }

  /** An invocation that lost the start reports the status it read, and nothing else has happened. */
  ghost predicate StartTold(deeds: set<Deed>, t: nat, answer: WorkflowAnswer) {
    && OnlyLooked(deeds) && Lost(deeds, t, PENDING)
    && match answer
       case Rejected => Saw(deeds, t, None) || Saw(deeds, t, Some(PENDING))
       case Answer(st) => !st.PENDING? && Saw(deeds, t, Some(st))
  }

  // ----- Cancel -----

  /** Gives back the hold of the row, all of its cost. */
  predicate Refunds(d: Deed, t: nat, amount: nat) {
    && t in d.before.table.rows && d.before.table.rows[t].cost == amount
    && var tid := d.before.table.rows[t].tid; Gives(d, tid) && d.before.book.transfers[tid].amount == amount
  }

  ghost predicate DidRefund(deeds: set<Deed>, t: nat, amount: nat) { exists d :: d in deeds && Refunds(d, t, amount) }

  /** Puts a cancelled row, whose hold is gone, back to PENDING. */
  predicate RollsBack(d: Deed, t: nat) {
    && t in d.before.table.rows && GivenBack(d.before, d.before.table.rows[t].tid)
    && Moves(d, t, CANCELLED, PENDING)
  }

  ghost predicate RolledBack(deeds: set<Deed>, t: nat) { exists d :: d in deeds && RollsBack(d, t) }

  ghost predicate CancelTold(deeds: set<Deed>, t: nat, pc: CancelPc) {
    match pc
    case CaGet => deeds == {}
    case CaCasPending(_, _) => OnlyLooked(deeds)
    case CaRelease(_, _) => Moved(deeds, t, PENDING, CANCELLED) && NeverGave(deeds)
    case CaRollback => Moved(deeds, t, PENDING, CANCELLED) && NeverGave(deeds)
    case CaGetAgain => OnlyLooked(deeds) && Lost(deeds, t, PENDING)
    case CaCasRunning => OnlyLooked(deeds) && Saw(deeds, t, Some(RUNNING))
    case CaDone(answer) => CancelAnswerTold(deeds, t, answer)
  }

  /** What a cancel has done when it answers. */
  ghost predicate CancelAnswerTold(deeds: set<Deed>, t: nat, answer: CancelAnswer) {
    match answer
    case NotFound => OnlyLooked(deeds) && Saw(deeds, t, None)
    case AlreadyCancelled => OnlyLooked(deeds) && Saw(deeds, t, Some(CANCELLED))
    case AlreadyRequested => OnlyLooked(deeds) && Saw(deeds, t, Some(CANCEL_REQUESTED))
    case Conflict =>
      && OnlyLooked(deeds)
      && (|| Saw(deeds, t, Some(COMPLETED)) || Saw(deeds, t, Some(FAILED))
          || (Saw(deeds, t, Some(RUNNING)) && Lost(deeds, t, RUNNING))
          || (Lost(deeds, t, PENDING) && SawOther(deeds, t)))
    case Cancelled(refunded) => Moved(deeds, t, PENDING, CANCELLED) && DidRefund(deeds, t, refunded)
    case ReleaseFailed => Moved(deeds, t, PENDING, CANCELLED) && RolledBack(deeds, t) && NeverGave(deeds)
    case Requested => Moved(deeds, t, RUNNING, CANCEL_REQUESTED) && NeverGave(deeds) && NeverCharged(deeds)
  }

  /** A read found the row, and not RUNNING. */
  ghost predicate SawOther(deeds: set<Deed>, t: nat) {
    exists st: Status :: !st.RUNNING? && Saw(deeds, t, Some(st))
  }

  // ----- Submit -----

  /** The row of the task is written, and the database says so. */
  predicate Inserts(d: Deed, t: nat) {
    StatusAt(d.before, t) == None && StatusAt(d.after, t) == Some(PENDING) && d.choice.fault.NoFault?
  }

  ghost predicate DidInsert(deeds: set<Deed>, t: nat) { exists d :: d in deeds && Inserts(d, t) }

  /** The user's credits are held under a fresh id. */
  predicate Reserves(d: Deed, user: nat, tid: nat, cost: nat) {
    && tid !in d.before.book.transfers && tid in d.after.book.transfers
    && d.after.book.transfers[tid] == Hold(user, cost, Pending)
  }

  ghost predicate DidReserve(deeds: set<Deed>, user: nat, tid: nat, cost: nat) {
    exists d :: d in deeds && Reserves(d, user, tid, cost)
  }

  ghost predicate HandedOff(deeds: set<Deed>, ok: bool) {
    exists d :: d in deeds && d.op.OpHandOff? && d.choice.posted == ok
  }

  /** The insert meets the row of task `t`, in status `st`, under the same user and key. */
  predicate Meets(d: Deed, user: nat, key: Option<nat>, t: nat, st: Status) {
    d.op.OpInsert? && t in d.before.table.rows && d.before.table.rows[t].status == st
    && key.Some? && d.before.table.rows[t].user == user && d.before.table.rows[t].key == key
  }

  ghost predicate MetRow(deeds: set<Deed>, user: nat, key: Option<nat>, t: nat, st: Status) {
    exists d :: d in deeds && Meets(d, user, key, t, st)
  }

  /** No reservation is possible: the id is taken, the user unknown, or the credits do not suffice. */
  predicate CannotReserve(b: Book, user: nat, tid: nat, cost: nat) {
    tid in b.transfers || User(user) !in b.accounts || Available(b, user) < cost
  }

  ghost predicate Refused(deeds: set<Deed>, user: nat, tid: nat, cost: nat) {
    exists d :: d in deeds && d.op.OpReserve? && CannotReserve(d.before.book, user, tid, cost)
  }

  /** The insert raises: the database refuses it and nothing changes, or it loses the answer of the commit. */
  predicate FailsToInsert(d: Deed) {
    d.op.OpInsert? && (d.choice.fault.CommitLost? || (d.choice.fault.Refused? && ChangesNothing(d)))
  }

  ghost predicate InsertFailed(deeds: set<Deed>) { exists d :: d in deeds && FailsToInsert(d) }

  ghost predicate TableUntouched(deeds: set<Deed>) { forall d :: d in deeds ==> d.after.table == d.before.table }

  /** The handler's hold is gone: it gave it back itself, or found it gone. */
  ghost predicate Returned(deeds: set<Deed>, tid: nat) { Gave(deeds, tid) || FoundGone(deeds, OpRelease(tid), tid) }

  ghost predicate SubmitTold(deeds: set<Deed>, p: nat, user: nat, cost: nat, tid: nat, key: Option<nat>, pc: SubmitPc) {
    match pc
    case SEnsure => deeds == {}
    case SReserve => TableUntouched(deeds)
    case SInsert => DidReserve(deeds, user, tid, cost) && TableUntouched(deeds)
    case SReleaseError => DidReserve(deeds, user, tid, cost) && InsertFailed(deeds)
    case SReleaseReplay(t, st) =>
      DidReserve(deeds, user, tid, cost) && MetRow(deeds, user, key, t, st) && TableUntouched(deeds)
    case SHandOff => DidReserve(deeds, user, tid, cost) && DidInsert(deeds, p)
    case HfCas => DidInsert(deeds, p) && HandedOff(deeds, false)
    case HfRead => DidInsert(deeds, p) && HandedOff(deeds, false) && Lost(deeds, p, PENDING)
    case HfRelease => DidInsert(deeds, p) && HandedOff(deeds, false) && Moved(deeds, p, PENDING, FAILED)
    case HfRollback =>
      && DidInsert(deeds, p) && HandedOff(deeds, false) && Moved(deeds, p, PENDING, FAILED)
      && FoundGone(deeds, OpRelease(tid), tid)
    case SDone(answer) => SubmitAnswerTold(deeds, p, user, cost, tid, key, answer)
  }

  /** What a submit has done when it answers. */
  ghost predicate SubmitAnswerTold(deeds: set<Deed>, p: nat, user: nat, cost: nat, tid: nat, key: Option<nat>,
                                   answer: SubmitAnswer) {
    match answer
    case InsufficientCredits => TableUntouched(deeds) && Refused(deeds, user, tid, cost)
    case CreateFailed => DidReserve(deeds, user, tid, cost) && InsertFailed(deeds) && Returned(deeds, tid)
    case Replayed(t, st) =>
      && DidReserve(deeds, user, tid, cost) && MetRow(deeds, user, key, t, st) && TableUntouched(deeds)
      && Returned(deeds, tid)
    case Accepted => DidReserve(deeds, user, tid, cost) && DidInsert(deeds, p) && HandedOff(deeds, true)
    case HandOffFellBack(current) =>
      DidInsert(deeds, p) && HandedOff(deeds, false) && Lost(deeds, p, PENDING) && Saw(deeds, p, current)
    case HandOffReleased =>
      DidInsert(deeds, p) && HandedOff(deeds, false) && Moved(deeds, p, PENDING, FAILED) && Gave(deeds, tid)
    case HandOffUnreleased =>
      && DidInsert(deeds, p) && HandedOff(deeds, false) && Moved(deeds, p, PENDING, FAILED)
      && FoundGone(deeds, OpRelease(tid), tid) && (Moved(deeds, p, FAILED, PENDING) || Lost(deeds, p, FAILED))
  }

  // ----- One operation -----

  ghost predicate Told(deeds: set<Deed>, p: nat, x: Proc) {
    match x
    case Submit(user, cost, tid, key, pc) => SubmitTold(deeds, p, user, cost, tid, key, pc)
    case Cancel(t, pc) => CancelTold(deeds, t, pc)
    case Workflow(t, tid, pc, _) => WorkflowTold(deeds, t, tid, pc)
  }

  function AnswerIs(s: State, p: nat, c: Choice): Entry
    requires p in s.procs
  {
    Perform(s.book, s.table, OpOf(p, s.procs[p]), c).2
  }

  function DeedOf(s: State, p: nat, c: Choice): Deed
    requires p in s.procs
  {
    Deed(s, OpOf(p, s.procs[p]), c, RunProc(s, p, c))
  }

  /** What reads, updates and the calls of the outside world do and answer. */
  predicate TableFacts(d: Deed, e: Entry) {
    match d.op
    case OpRead(t) => ChangesNothing(d) && StatusOf(e) == StatusAt(d.before, t)
    case OpCas(t, to, from) =>
      && d.after.book == d.before.book && e == Flag(StatusAt(d.before, t) == Some(from))
      && (if StatusAt(d.before, t) == Some(from) then Moves(d, t, from, to) else Loses(d, t, from) && ChangesNothing(d))
    case OpCompute => ChangesNothing(d) && e == Flag(d.choice.computed)
    case OpHandOff => ChangesNothing(d) && e == Flag(d.choice.posted)
    case OpCacheOrMetric => ChangesNothing(d)
    case OpNone => ChangesNothing(d)
    case OpInsert(t, row) => d.after.book == d.before.book
    case _ => d.after.table == d.before.table
  }

  lemma TableDeed(s: State, p: nat, c: Choice)
    requires p in s.procs
    ensures TableFacts(DeedOf(s, p, c), AnswerIs(s, p, c))
  {
    hide OpOf;
  }

  /** Holds end only by the call that ends them, and that call succeeds exactly on a pending hold. */
  ghost predicate LedgerFacts(d: Deed, e: Entry) {
    && (d.op.OpCapture? ==> e == Flag(Held(d.before, d.op.tid))
                            && if Held(d.before, d.op.tid) then Charges(d, d.op.tid) else ChangesNothing(d))
    && (d.op.OpRelease? ==> e == Flag(Held(d.before, d.op.tid))
                            && if Held(d.before, d.op.tid) then Gives(d, d.op.tid) else ChangesNothing(d))
    && (!d.op.OpCapture? ==> forall tid: nat :: !Charges(d, tid))
    && (!d.op.OpRelease? ==> forall tid: nat :: !Gives(d, tid))
    && (ChangesNothing(d) ==> forall tid: nat :: !Gives(d, tid) && !Charges(d, tid))
  }

  lemma LedgerDeed(s: State, p: nat, c: Choice)
    requires Inv(s) && p in s.procs
    ensures LedgerFacts(DeedOf(s, p, c), AnswerIs(s, p, c))
  {
    hide OpOf;
  }

  /** What a submit's own operations do and answer. */
  predicate SubmitFacts(d: Deed, e: Entry, p: nat, user: nat, cost: nat, tid: nat, key: Option<nat>) {
    match d.op
    case OpInsert(_, _) =>
      (match e
       case Inserted => Inserts(d, p)
       case Existing(t, st) => t != p && Meets(d, user, key, t, st) && ChangesNothing(d)
       case _ => FailsToInsert(d))
    case OpReserve(_, _, _) =>
      && e == Flag(!CannotReserve(d.before.book, user, tid, cost))
      && (!CannotReserve(d.before.book, user, tid, cost) ==> Reserves(d, user, tid, cost))
    case _ => true
  }

  lemma SubmitDeed(s: State, p: nat, c: Choice)
    requires Inv(s) && p in s.procs && s.procs[p].Submit?
    ensures var x := s.procs[p];
            SubmitFacts(DeedOf(s, p, c), AnswerIs(s, p, c), p, x.user, x.cost, x.tid, x.key)
  {
    assert ProcOk(s, p);
  }

  /** A new deed adds its own part to everything that has been done. */
  ghost predicate Extends(deeds: set<Deed>, d: Deed, all: set<Deed>) {
    && (forall t: nat, from, to :: Moved(all, t, from, to) <==> Moved(deeds, t, from, to) || Moves(d, t, from, to))
    && (forall t: nat, from :: Lost(all, t, from) <==> Lost(deeds, t, from) || Loses(d, t, from))
    && (forall t: nat, st ::
          Saw(all, t, st) <==> Saw(deeds, t, st) || (d.op == OpRead(t) && StatusAt(d.before, t) == st))
    && (forall tid: nat :: Gave(all, tid) <==> Gave(deeds, tid) || Gives(d, tid))
    && (forall tid: nat :: DidCharge(all, tid) <==> DidCharge(deeds, tid) || Charges(d, tid))
    && (forall op: Op, tid: nat :: FoundGone(all, op, tid) <==>
          FoundGone(deeds, op, tid) || (d.op == op && !Held(d.before, tid)))
    && (forall ok: bool :: Computed(all, ok) <==> Computed(deeds, ok) || (d.op.OpCompute? && d.choice.computed == ok))
    && (OnlyLooked(all) <==> OnlyLooked(deeds) && ChangesNothing(d))
    && (TableUntouched(all) <==> TableUntouched(deeds) && d.after.table == d.before.table)
    && (NeverAsked(all) <==> NeverAsked(deeds) && !d.op.OpCapture?)
    && (NeverCharged(all) <==> NeverCharged(deeds) && forall tid: nat :: !Charges(d, tid))
    && (NeverGave(all) <==> NeverGave(deeds) && forall tid: nat :: !Gives(d, tid))
  }

  /** And so it is with what only cancels and submits do. */
  ghost predicate ExtendsMore(deeds: set<Deed>, d: Deed, all: set<Deed>) {
    && (forall t: nat, amount: nat ::
          DidRefund(all, t, amount) <==> DidRefund(deeds, t, amount) || Refunds(d, t, amount))
    && (forall t: nat :: RolledBack(all, t) <==> RolledBack(deeds, t) || RollsBack(d, t))
    && (forall t: nat :: DidInsert(all, t) <==> DidInsert(deeds, t) || Inserts(d, t))
    && (forall user: nat, tid: nat, cost: nat ::
          DidReserve(all, user, tid, cost) <==> DidReserve(deeds, user, tid, cost) || Reserves(d, user, tid, cost))
    && (forall ok: bool :: HandedOff(all, ok) <==> HandedOff(deeds, ok) || (d.op.OpHandOff? && d.choice.posted == ok))
    && (forall user: nat, key, t: nat, st ::
          MetRow(all, user, key, t, st) <==> MetRow(deeds, user, key, t, st) || Meets(d, user, key, t, st))
    && (forall user: nat, tid: nat, cost: nat :: Refused(all, user, tid, cost) <==>
          Refused(deeds, user, tid, cost) || (d.op.OpReserve? && CannotReserve(d.before.book, user, tid, cost)))
    && (InsertFailed(all) <==> InsertFailed(deeds) || FailsToInsert(d))
  }

  lemma OneMoreOfSubmits(deeds: set<Deed>, d: Deed)
    ensures ExtendsMore(deeds, d, deeds + {d})
  {
    hide Refunds;
    hide RollsBack;
    hide Inserts;
    hide Reserves;
    hide Meets;
    hide CannotReserve;
    hide FailsToInsert;
  }

  lemma OneMore(deeds: set<Deed>, d: Deed)
    ensures Extends(deeds, d, deeds + {d})
  {
    var all := deeds + {d};
    assert d in all && forall e :: e in deeds ==> e in all;
    OneMoreMove(deeds, d, all);
    OneMoreEnding(deeds, d, all);
    OneMoreNothing(deeds, d, all);
    hide Moved;
    hide Lost;
    hide Saw;
    hide Checked;
    hide Gave;
    hide DidCharge;
    hide FoundGone;
    hide Computed;
    hide OnlyLooked;
    hide TableUntouched;
    hide NeverAsked;
    hide NeverCharged;
    hide NeverGave;
  }

  lemma OneMoreMove(deeds: set<Deed>, d: Deed, all: set<Deed>)
    requires all == deeds + {d}
    ensures forall t: nat, from, to :: Moved(all, t, from, to) <==> Moved(deeds, t, from, to) || Moves(d, t, from, to)
    ensures forall t: nat, from :: Lost(all, t, from) <==> Lost(deeds, t, from) || Loses(d, t, from)
    ensures forall t: nat, st ::
              Saw(all, t, st) <==> Saw(deeds, t, st) || (d.op == OpRead(t) && StatusAt(d.before, t) == st)
  {
    hide Moves;
    hide Loses;
    hide StatusAt;
  }

  lemma OneMoreEnding(deeds: set<Deed>, d: Deed, all: set<Deed>)
    requires all == deeds + {d}
    ensures forall tid: nat :: Gave(all, tid) <==> Gave(deeds, tid) || Gives(d, tid)
    ensures forall tid: nat :: DidCharge(all, tid) <==> DidCharge(deeds, tid) || Charges(d, tid)
    ensures forall op: Op, tid: nat ::
              FoundGone(all, op, tid) <==> FoundGone(deeds, op, tid) || (d.op == op && !Held(d.before, tid))
    ensures forall ok: bool ::
              Computed(all, ok) <==> Computed(deeds, ok) || (d.op.OpCompute? && d.choice.computed == ok)
  {
    hide Gives;
    hide Charges;
    hide Held;
  }

  lemma OneMoreNothing(deeds: set<Deed>, d: Deed, all: set<Deed>)
    requires all == deeds + {d}
    ensures OnlyLooked(all) <==> OnlyLooked(deeds) && ChangesNothing(d)
    ensures TableUntouched(all) <==> TableUntouched(deeds) && d.after.table == d.before.table
    ensures NeverAsked(all) <==> NeverAsked(deeds) && !d.op.OpCapture?
    ensures NeverCharged(all) <==> NeverCharged(deeds) && forall tid: nat :: !Charges(d, tid)
    ensures NeverGave(all) <==> NeverGave(deeds) && forall tid: nat :: !Gives(d, tid)
  {
    hide Gives;
    hide Charges;
    hide ChangesNothing;
  }

  // ----- One step -----

  /** What the ownership invariant adds where a workflow reads again. */
  predicate Owned(pc: WorkflowPc, d: Deed, t: nat, tid: nat) {
    && (pc.CMark? || pc.WReadAfterFailure? || pc.WReadAfterCompletion? || pc.WLateComplete? ==>
          StatusAt(d.before, t) == Some(CANCEL_REQUESTED))
    && (pc.WUnjournaledRelease? ==> !Held(d.before, tid))
    && (pc.CRead? && pc.next.AfterFailedCapture? ==> !Held(d.before, tid))
    && (pc.CRelease? && pc.next.AfterFailedCapture? ==> !Held(d.before, tid))
  }

  predicate IsStep(pc: WorkflowPc, d: Deed, e: Entry, t: nat, tid: nat) {
    d.op == OpOf(0, Workflow(t, tid, pc, [])) && Owned(pc, d, t, tid) && TableFacts(d, e)
  }

  lemma CheckedStays(deeds: set<Deed>, d: Deed, all: set<Deed>, e: Entry, t: nat)
    requires Extends(deeds, d, all) && TableFacts(d, e)
    ensures Checked(deeds, t) ==> Checked(all, t)
    ensures d.op == OpRead(t) ==> Checked(all, t)
    ensures Saw(all, t, Some(CANCEL_REQUESTED)) ==> Checked(all, t)
  {
    hide Saw;
    hide StatusAt;
    if Checked(deeds, t) {
      var st :| Saw(deeds, t, st);
      assert Saw(all, t, st);
    }
    if d.op == OpRead(t) { assert Saw(all, t, StatusAt(d.before, t)); }
  }

  lemma NothingDone()
    ensures OnlyLooked({}) && TableUntouched({}) && forall t: nat, st :: !Saw({}, t, st)
    ensures NeverAsked({}) && NeverCharged({}) && NeverGave({}) && !Computed({}, true) && !Computed({}, false)
  {}

  predicate Cancelling(pc: WorkflowPc) { pc.CRead? || pc.CRelease? || pc.CMark? }

  lemma CancellingTold(deeds: set<Deed>, d: Deed, all: set<Deed>, e: Entry, t: nat, tid: nat, pc: WorkflowPc)
    requires Cancelling(pc) && WorkflowTold(deeds, t, tid, pc) && Extends(deeds, d, all)
    requires IsStep(pc, d, e, t, tid) && LedgerFacts(d, e)
    ensures WorkflowTold(all, t, tid, AdvanceWorkflow(pc, e))
  {
    hide Moved;
    hide Lost;
    hide Saw;
    hide Checked;
    hide Gave;
    hide DidCharge;
    hide FoundGone;
    hide Computed;
    hide OnlyLooked;
    hide TableUntouched;
    hide NeverAsked;
    hide NeverCharged;
    hide NeverGave;
    hide Moves;
    hide Loses;
    hide Gives;
    hide Charges;
    hide ChangesNothing;
    hide StatusAt;
    hide Held;
    hide StatusOf;
    CheckedStays(deeds, d, all, e, t);
  }

  predicate Failing(pc: WorkflowPc) {
    pc.WMarkFailedCompute? || pc.WReleaseAfterFailure? || pc.WReadAfterFailure? || pc.WMarkFailedCapture?
    || pc.WUnjournaledRelease? || pc.WInvalidateAfterRelease? || pc.WMetricAfterRelease?
  }

  lemma FailingTold(deeds: set<Deed>, d: Deed, all: set<Deed>, e: Entry, t: nat, tid: nat, pc: WorkflowPc)
    requires Failing(pc) && WorkflowTold(deeds, t, tid, pc) && Extends(deeds, d, all)
    requires IsStep(pc, d, e, t, tid) && LedgerFacts(d, e)
    ensures WorkflowTold(all, t, tid, AdvanceWorkflow(pc, e))
  {
    hide Moved;
    hide Lost;
    hide Saw;
    hide Checked;
    hide Gave;
    hide DidCharge;
    hide FoundGone;
    hide Computed;
    hide OnlyLooked;
    hide TableUntouched;
    hide NeverAsked;
    hide NeverCharged;
    hide NeverGave;
    hide Moves;
    hide Loses;
    hide Gives;
    hide Charges;
    hide ChangesNothing;
    hide StatusAt;
    hide Held;
    hide StatusOf;
    CheckedStays(deeds, d, all, e, t);
  }

  lemma RejectedReads(e: Entry)
    ensures AnswerIn(e, {RUNNING, COMPLETED, FAILED, CANCELLED, CANCEL_REQUESTED}) ==
            match StatusOf(e)
            case None => Rejected
            case Some(st) => if st.PENDING? then Rejected else Answer(st)
  {}

  lemma OthersTold(deeds: set<Deed>, d: Deed, all: set<Deed>, e: Entry, t: nat, tid: nat, pc: WorkflowPc)
    requires !Cancelling(pc) && !Failing(pc) && !pc.WDone? && WorkflowTold(deeds, t, tid, pc) && Extends(deeds, d, all)
    requires IsStep(pc, d, e, t, tid) && LedgerFacts(d, e)
    ensures WorkflowTold(all, t, tid, AdvanceWorkflow(pc, e))
  {
    NothingDone();
    hide Moved;
    hide Lost;
    hide Saw;
    hide Checked;
    hide Gave;
    hide DidCharge;
    hide FoundGone;
    hide Computed;
    hide OnlyLooked;
    hide TableUntouched;
    hide NeverAsked;
    hide NeverCharged;
    hide NeverGave;
    hide Moves;
    hide Loses;
    hide Gives;
    hide Charges;
    hide ChangesNothing;
    hide StatusAt;
    hide Held;
    hide StatusOf;
    if pc.WReadAfterStart? {
      assert Saw(all, t, StatusOf(e));
      RejectedReads(e);
    }
    CheckedStays(deeds, d, all, e, t);
  }

  /** The answer of the next operation takes a workflow from what was told of it to what is told of it next. */
  lemma WorkflowStepTold(s: State, p: nat, c: Choice, deeds: set<Deed>)
    requires Inv(s) && p in s.procs && s.procs[p].Workflow?
    requires WorkflowTold(deeds, s.procs[p].task, s.procs[p].tid, s.procs[p].wpc)
    ensures var x := RunProc(s, p, c).procs[p];
            x.Workflow? && WorkflowTold(deeds + {DeedOf(s, p, c)}, x.task, x.tid, x.wpc)
  {
    var x, d, e := s.procs[p], DeedOf(s, p, c), AnswerIs(s, p, c);
    WorkflowStepIs(s, p, c);
    TableDeed(s, p, c);
    LedgerDeed(s, p, c);
    OneMore(deeds, d);
    hide WorkflowTold;
    hide Inv;
    hide RunProc;
    hide Perform;
    hide OpOf;
    hide Extends;
    hide TableFacts;
    hide LedgerFacts;
    if Cancelling(x.wpc) { CancellingTold(deeds, d, deeds + {d}, e, x.task, x.tid, x.wpc); }
    else if Failing(x.wpc) { FailingTold(deeds, d, deeds + {d}, e, x.task, x.tid, x.wpc); }
    else if !x.wpc.WDone? { OthersTold(deeds, d, deeds + {d}, e, x.task, x.tid, x.wpc); }
    else { IdleTold(deeds, d, x.task, x.tid, x.wpc, e); }
  }

  lemma WorkflowStepIs(s: State, p: nat, c: Choice)
    requires Inv(s) && p in s.procs && s.procs[p].Workflow?
    ensures var x, x' := s.procs[p], RunProc(s, p, c).procs[p];
            && x'.Workflow? && x'.task == x.task && x'.tid == x.tid
            && x'.wpc == AdvanceWorkflow(x.wpc, AnswerIs(s, p, c))
            && IsStep(x.wpc, DeedOf(s, p, c), AnswerIs(s, p, c), x.task, x.tid)
  {
    TableDeed(s, p, c);
    WorkflowOwns(s, p, c);
    hide Owned;
    hide Inv;
    hide Perform;
    hide TableFacts;
  }

  lemma WorkflowOwns(s: State, p: nat, c: Choice)
    requires Inv(s) && p in s.procs && s.procs[p].Workflow?
    ensures Owned(s.procs[p].wpc, DeedOf(s, p, c), s.procs[p].task, s.procs[p].tid)
  {
    assert ProcOk(s, p);
    hide RunProc;
    hide OpOf;
  }

  /** A handler that has answered does nothing more. */
  lemma IdleTold(deeds: set<Deed>, d: Deed, t: nat, tid: nat, pc: WorkflowPc, e: Entry)
    requires pc.WDone? && WorkflowTold(deeds, t, tid, pc) && LedgerFacts(d, e) && TableFacts(d, e)
    requires d.op == OpOf(0, Workflow(t, tid, pc, []))
    ensures WorkflowTold(deeds + {d}, t, tid, pc)
  {
    OneMore(deeds, d);
    hide Moved;
    hide Lost;
    hide Saw;
    hide Checked;
    hide Gave;
    hide DidCharge;
    hide FoundGone;
    hide Computed;
    hide OnlyLooked;
    hide TableUntouched;
    hide NeverAsked;
    hide NeverCharged;
    hide NeverGave;
    hide Moves;
    hide Loses;
    hide Gives;
    hide Charges;
    hide ChangesNothing;
    hide StatusAt;
    hide Held;
    CheckedStays(deeds, d, deeds + {d}, e, t);
  }

  // ----- One step of a cancel -----

  /** What the ownership invariant adds for a cancel. */
  predicate CancelOwned(pc: CancelPc, d: Deed, t: nat) {
    && (pc.CaRelease? && Gives(d, pc.tid) ==> Refunds(d, t, pc.cost))
    && (pc.CaRollback? ==>
          StatusAt(d.before, t) == Some(CANCELLED) && (Moves(d, t, CANCELLED, PENDING) ==> RollsBack(d, t)))
  }

  lemma CancelMoveTold(deeds: set<Deed>, d: Deed, all: set<Deed>, e: Entry, t: nat, pc: CancelPc)
    requires !pc.CaDone? && CancelTold(deeds, t, pc) && Extends(deeds, d, all) && ExtendsMore(deeds, d, all)
    requires d.op == OpOf(0, Cancel(t, pc)) && CancelOwned(pc, d, t) && TableFacts(d, e) && LedgerFacts(d, e)
    requires d.op.OpRead? ==> e.Found?
    ensures CancelTold(all, t, AdvanceCancel(pc, e))
  {
    NothingDone();
    CancelReads(e);
    hide Moved;
    hide Lost;
    hide Saw;
    hide Checked;
    hide Gave;
    hide DidCharge;
    hide FoundGone;
    hide Computed;
    hide OnlyLooked;
    hide TableUntouched;
    hide NeverAsked;
    hide NeverCharged;
    hide NeverGave;
    hide Moves;
    hide Loses;
    hide Gives;
    hide Charges;
    hide ChangesNothing;
    hide StatusAt;
    hide Held;
    hide StatusOf;
    hide DidRefund;
    hide RolledBack;
    hide DidInsert;
    hide DidReserve;
    hide HandedOff;
    hide MetRow;
    hide Refused;
    hide InsertFailed;
    hide Refunds;
    hide RollsBack;
    hide Inserts;
    hide Reserves;
    hide Meets;
    hide CannotReserve;
    hide FailsToInsert;
    if OnlyLooked(deeds) { LookingMovesNoCredits(deeds); }
    if d.op.OpRead? { assert Saw(all, t, StatusOf(e)); }
  }

  lemma LookingMovesNoCredits(deeds: set<Deed>)
    requires OnlyLooked(deeds)
    ensures NeverCharged(deeds) && NeverGave(deeds)
  {
    forall d, tid: nat | d in deeds ensures !Charges(d, tid) && !Gives(d, tid) { assert ChangesNothing(d); }
  }

  lemma CancelReads(e: Entry)
    ensures e.Found? ==> StatusOf(e) == if e.row.Some? then Some(e.row.value.status) else None
  {}

  lemma CancelStepTold(s: State, p: nat, c: Choice, deeds: set<Deed>)
    requires Inv(s) && p in s.procs && s.procs[p].Cancel? && CancelTold(deeds, s.procs[p].task, s.procs[p].cpc)
    ensures var x := RunProc(s, p, c).procs[p]; x.Cancel? && CancelTold(deeds + {DeedOf(s, p, c)}, x.task, x.cpc)
  {
    var x, d, e := s.procs[p], DeedOf(s, p, c), AnswerIs(s, p, c);
    CancelStepIs(s, p, c);
    TableDeed(s, p, c);
    LedgerDeed(s, p, c);
    OneMore(deeds, d);
    OneMoreOfSubmits(deeds, d);
    hide CancelTold;
    hide Inv;
    hide RunProc;
    hide Perform;
    hide OpOf;
    hide Extends;
    hide ExtendsMore;
    hide TableFacts;
    hide LedgerFacts;
    if x.cpc.CaDone? { IdleCancelTold(deeds, d, x.task, x.cpc, e); }
    else { CancelMoveTold(deeds, d, deeds + {d}, e, x.task, x.cpc); }
  }

  lemma CancelStepIs(s: State, p: nat, c: Choice)
    requires Inv(s) && p in s.procs && s.procs[p].Cancel?
    ensures var x, x', d, e := s.procs[p], RunProc(s, p, c).procs[p], DeedOf(s, p, c), AnswerIs(s, p, c);
            && x' == x.(cpc := AdvanceCancel(x.cpc, e))
            && d.op == OpOf(0, x) && CancelOwned(x.cpc, d, x.task) && (d.op.OpRead? ==> e.Found?)
  {
    assert ProcOk(s, p);
  }

  lemma IdleCancelTold(deeds: set<Deed>, d: Deed, t: nat, pc: CancelPc, e: Entry)
    requires pc.CaDone? && CancelTold(deeds, t, pc) && LedgerFacts(d, e) && TableFacts(d, e)
    requires d.op == OpOf(0, Cancel(t, pc))
    ensures CancelTold(deeds + {d}, t, pc)
  {
    OneMore(deeds, d);
    OneMoreOfSubmits(deeds, d);
    hide Moved;
    hide Lost;
    hide Saw;
    hide Checked;
    hide Gave;
    hide DidCharge;
    hide FoundGone;
    hide Computed;
    hide OnlyLooked;
    hide TableUntouched;
    hide NeverAsked;
    hide NeverCharged;
    hide NeverGave;
    hide Moves;
    hide Loses;
    hide Gives;
    hide Charges;
    hide ChangesNothing;
    hide StatusAt;
    hide Held;
    hide StatusOf;
    hide DidRefund;
    hide RolledBack;
    hide DidInsert;
    hide DidReserve;
    hide HandedOff;
    hide MetRow;
    hide Refused;
    hide InsertFailed;
    hide Refunds;
    hide RollsBack;
    hide Inserts;
    hide Reserves;
    hide Meets;
    hide CannotReserve;
    hide FailsToInsert;
  }

  // ----- One step of a submit -----

  lemma SubmitMoveTold(deeds: set<Deed>, d: Deed, all: set<Deed>, e: Entry, p: nat, user: nat, cost: nat, tid: nat,
                       key: Option<nat>, pc: SubmitPc)
    requires SubmitTold(deeds, p, user, cost, tid, key, pc) && Extends(deeds, d, all) && ExtendsMore(deeds, d, all)
    requires d.op == OpOf(p, Submit(user, cost, tid, key, pc)) && TableFacts(d, e) && LedgerFacts(d, e)
    requires SubmitFacts(d, e, p, user, cost, tid, key)
    ensures SubmitTold(all, p, user, cost, tid, key, AdvanceSubmit(pc, p, e))
  {
    NothingDone();
    hide Moved;
    hide Lost;
    hide Saw;
    hide Checked;
    hide Gave;
    hide DidCharge;
    hide FoundGone;
    hide Computed;
    hide OnlyLooked;
    hide TableUntouched;
    hide NeverAsked;
    hide NeverCharged;
    hide NeverGave;
    hide Moves;
    hide Loses;
    hide Gives;
    hide Charges;
    hide StatusAt;
    hide Held;
    hide StatusOf;
    hide DidRefund;
    hide RolledBack;
    hide DidInsert;
    hide DidReserve;
    hide HandedOff;
    hide MetRow;
    hide Refused;
    hide InsertFailed;
    hide Refunds;
    hide RollsBack;
    hide Inserts;
    hide Reserves;
    hide Meets;
    hide CannotReserve;
    hide FailsToInsert;
    if d.op.OpRead? { assert Saw(all, p, StatusOf(e)); }
  }

  lemma SubmitStepTold(s: State, p: nat, c: Choice, deeds: set<Deed>)
    requires Inv(s) && p in s.procs && s.procs[p].Submit? && Told(deeds, p, s.procs[p])
    ensures var x := RunProc(s, p, c).procs[p]; x.Submit? && Told(deeds + {DeedOf(s, p, c)}, p, x)
  {
    var x, d, e := s.procs[p], DeedOf(s, p, c), AnswerIs(s, p, c);
    TableDeed(s, p, c);
    LedgerDeed(s, p, c);
    SubmitDeed(s, p, c);
    OneMore(deeds, d);
    OneMoreOfSubmits(deeds, d);
    assert RunProc(s, p, c).procs[p] == x.(spc := AdvanceSubmit(x.spc, p, e));
    hide SubmitTold;
    hide Inv;
    hide RunProc;
    hide Perform;
    hide OpOf;
    hide Extends;
    hide ExtendsMore;
    hide TableFacts;
    hide LedgerFacts;
    SubmitMoveTold(deeds, d, deeds + {d}, e, p, x.user, x.cost, x.tid, x.key, x.spc);
  }
}
