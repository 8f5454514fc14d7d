/**
 * Solution 4 as a step system: the task table, the ledger and any number of submit handlers, cancel
 * handlers and workflow invocations that interleave one atomic operation at a time.
 *
 * Each handler is a program counter. `OpOf` says which atomic operation it performs next, `Perform`
 * carries that operation out, and `Advance` chooses the next program counter from the answer.
 */
module Protocol {
  import opened Ledger
  import opened Options

  // ----- The task table -----

  datatype Status = PENDING | RUNNING | CANCEL_REQUESTED | COMPLETED | FAILED | CANCELLED

  datatype Row = Row(user: nat, cost: nat, tid: nat, key: Option<nat>, status: Status)

  /** `keys` is the partial unique index on (user, idempotency key). */
  datatype Table = Table(rows: map<nat, Row>, keys: map<(nat, nat), nat>)

  /** How the database connection behaves during an insert. */
  datatype Fault = NoFault | Refused | CommitLost

  /** A submit names its task by its own process identifier: each draws a fresh task id. */
  function Insert(tb: Table, t: nat, row: Row, fault: Fault): (Table, Entry) {
    if fault.Refused? then (tb, Raised)
    else if row.key.Some? && (row.user, row.key.value) in tb.keys then
      var t' := tb.keys[(row.user, row.key.value)];
      if t' in tb.rows then (tb, Existing(t', tb.rows[t'].status)) else (tb, Raised)
    else if t in tb.rows then (tb, Raised)
    else
      (Table(tb.rows[t := row],
             if row.key.Some? then tb.keys[(row.user, row.key.value) := t] else tb.keys),
       if fault.CommitLost? then Raised else Inserted)
  }

  /** The only write to an existing row: a compare-and-set on its status. */
  function Cas(tb: Table, t: nat, to: Status, from: Status): (Table, bool) {
    if t in tb.rows && tb.rows[t].status == from then
      (tb.(rows := tb.rows[t := tb.rows[t].(status := to)]), true)
    else (tb, false)
  }

  function Read(tb: Table, t: nat): Option<Row> {
    if t in tb.rows then Some(tb.rows[t]) else None
  }

  // ----- Atomic operations and their answers -----

  datatype Op =
    | OpEnsure(user: nat)
    | OpReserve(user: nat, tid: nat, amount: nat)
    | OpCapture(tid: nat)
    | OpRelease(tid: nat)
    | OpInsert(task: nat, row: Row)
    | OpCas(task: nat, to: Status, from: Status)
    | OpRead(task: nat)
    | OpCompute
    | OpHandOff
    | OpCacheOrMetric
    | OpNone

  datatype Entry = Flag(b: bool) | Found(row: Option<Row>) | Inserted | Existing(task: nat, status: Status) | Raised

  /** What the environment decides: database faults, the compute outcome, the handoff outcome. */
  datatype Choice = Choice(fault: Fault, computed: bool, posted: bool)

  function Perform(b: Book, tb: Table, op: Op, c: Choice): (Book, Table, Entry) {
    match op
    case OpEnsure(u) => (EnsureUser(b, u), tb, Flag(true))
    case OpReserve(u, tid, amount) => var (b', ok) := Reserve(b, u, tid, amount); (b', tb, Flag(ok))
    case OpCapture(tid) => var (b', ok) := Capture(b, tid); (b', tb, Flag(ok))
    case OpRelease(tid) => var (b', ok) := Release(b, tid); (b', tb, Flag(ok))
    case OpInsert(t, row) => var (tb', e) := Insert(tb, t, row, c.fault); (b, tb', e)
    case OpCas(t, to, from) => var (tb', ok) := Cas(tb, t, to, from); (b, tb', Flag(ok))
    case OpRead(t) => (b, tb, Found(Read(tb, t)))
    case OpCompute => (b, tb, Flag(c.computed))
    case OpHandOff => (b, tb, Flag(c.posted))
    case OpCacheOrMetric => (b, tb, Flag(true))
    case OpNone => (b, tb, Flag(true))
  }

  // ----- Submit handler -----

  datatype SubmitAnswer =
    | InsufficientCredits
    | CreateFailed
    | Replayed(task: nat, status: Status)
    | Accepted
    | HandOffFellBack(current: Option<Status>)
    | HandOffReleased
    | HandOffUnreleased

  datatype SubmitPc =
    | SEnsure | SReserve | SInsert
    | SReleaseError
    | SReleaseReplay(existing: nat, status: Status)
    | SHandOff
    | HfCas | HfRead | HfRelease | HfRollback
    | SDone(answer: SubmitAnswer)

  function AdvanceSubmit(pc: SubmitPc, task: nat, e: Entry): SubmitPc {
    match pc
    case SEnsure => SReserve
    case SReserve => if e == Flag(true) then SInsert else SDone(InsufficientCredits)
    case SInsert =>
      (match e
       case Inserted => SHandOff
       case Existing(t, status) => if t != task then SReleaseReplay(t, status) else SHandOff
       case _ => SReleaseError)
    case SReleaseError => SDone(CreateFailed)
    case SReleaseReplay(t, status) => SDone(Replayed(t, status))
    case SHandOff => if e == Flag(true) then SDone(Accepted) else HfCas
    case HfCas => if e == Flag(true) then HfRelease else HfRead
    case HfRead => SDone(HandOffFellBack(StatusOf(e)))
    case HfRelease => if e == Flag(true) then SDone(HandOffReleased) else HfRollback
    case HfRollback => SDone(HandOffUnreleased)
    case SDone(_) => pc
  }

  function StatusOf(e: Entry): Option<Status> {
    if e.Found? && e.row.Some? then Some(e.row.value.status) else None
  }

  // ----- Cancel handler -----

  datatype CancelAnswer =
    | NotFound | AlreadyCancelled | AlreadyRequested | Conflict
    | Cancelled(refunded: nat) | ReleaseFailed | Requested

  datatype CancelPc =
    | CaGet
    | CaCasPending(tid: nat, cost: nat)
    | CaRelease(tid: nat, cost: nat)
    | CaRollback
    | CaGetAgain
    | CaCasRunning
    | CaDone(answer: CancelAnswer)

  function AdvanceCancel(pc: CancelPc, e: Entry): CancelPc {
    match pc
    case CaGet =>
      if !(e.Found? && e.row.Some?) then CaDone(NotFound)
      else
        var row := e.row.value;
        (match row.status
         case CANCELLED => CaDone(AlreadyCancelled)
         case CANCEL_REQUESTED => CaDone(AlreadyRequested)
         case COMPLETED => CaDone(Conflict)
         case FAILED => CaDone(Conflict)
         case PENDING => CaCasPending(row.tid, row.cost)
         case RUNNING => CaCasRunning)
    case CaCasPending(tid, cost) => if e == Flag(true) then CaRelease(tid, cost) else CaGetAgain
    case CaRelease(tid, cost) => if e == Flag(true) then CaDone(Cancelled(cost)) else CaRollback
    case CaRollback => CaDone(ReleaseFailed)
    case CaGetAgain =>
      if StatusOf(e) == None then CaDone(NotFound)
      else if StatusOf(e) == Some(RUNNING) then CaCasRunning
      else CaDone(Conflict)
    case CaCasRunning => CaDone(if e == Flag(true) then Requested else Conflict)
    case CaDone(_) => pc
  }

  // ----- Workflow invocation -----

  /** Where `_maybe_complete_cancellation` returns to when the cancellation did not become terminal. */
  datatype After = AfterFailedCompute | AfterCompute | AfterFailedCapture

  datatype WorkflowAnswer = Answer(status: Status) | Rejected

  datatype WorkflowPc =
    | WMarkRunning | WReadAfterStart | WCompute
    | CRead(next: After) | CRelease(next: After) | CMark(next: After)
    | WMarkFailedCompute | WReleaseAfterFailure | WReadAfterFailure
    | WCapture
    | WMarkFailedCapture | WUnjournaledRelease | WInvalidateAfterRelease | WMetricAfterRelease
    | WMarkCompleted | WReadAfterCompletion | WLateComplete | WReadAfterLate
    | WDone(started: bool, answer: WorkflowAnswer)

  function Resume(k: After): WorkflowPc {
    match k
    case AfterFailedCompute => WMarkFailedCompute
    case AfterCompute => WCapture
    case AfterFailedCapture => WMarkFailedCapture
  }

  function AnswerIn(e: Entry, accepted: set<Status>): WorkflowAnswer {
    match StatusOf(e)
    case Some(status) => if status in accepted then Answer(status) else Rejected
    case None => Rejected
  }

  function AdvanceWorkflow(pc: WorkflowPc, e: Entry): WorkflowPc {
    var yes := e == Flag(true);
    match pc
    case WMarkRunning => if yes then WCompute else WReadAfterStart
    case WReadAfterStart =>
      WDone(false, AnswerIn(e, {RUNNING, COMPLETED, FAILED, CANCELLED, CANCEL_REQUESTED}))
    case WCompute => CRead(if yes then AfterCompute else AfterFailedCompute)
    case CRead(k) => if StatusOf(e) == Some(CANCEL_REQUESTED) then CRelease(k) else Resume(k)
    case CRelease(k) => if yes then CMark(k) else Resume(k)
    case CMark(k) => if yes then WDone(true, Answer(CANCELLED)) else Resume(k)
    case WMarkFailedCompute => if yes then WReleaseAfterFailure else WReadAfterFailure
    case WReleaseAfterFailure => WDone(true, Answer(FAILED))
    case WReadAfterFailure => WDone(true, AnswerIn(e, {COMPLETED, CANCELLED, FAILED, CANCEL_REQUESTED}))
    case WCapture => if yes then WMarkCompleted else CRead(AfterFailedCapture)
    case WMarkFailedCapture => WUnjournaledRelease
    case WUnjournaledRelease => if yes then WInvalidateAfterRelease else WMetricAfterRelease
    case WInvalidateAfterRelease => WMetricAfterRelease
    case WMetricAfterRelease => WDone(true, Answer(FAILED))
    case WMarkCompleted => if yes then WDone(true, Answer(COMPLETED)) else WReadAfterCompletion
    case WReadAfterCompletion =>
      if StatusOf(e) == Some(CANCEL_REQUESTED) then WLateComplete
      else WDone(true, AnswerIn(e, {COMPLETED, FAILED, CANCELLED}))
    case WLateComplete => if yes then WDone(true, Answer(COMPLETED)) else WReadAfterLate
    case WReadAfterLate => WDone(true, AnswerIn(e, {COMPLETED, FAILED, CANCELLED}))
    case WDone(_, _) => pc
  }

  // ----- Processes -----

  /** `journal` holds the answers of the operations that ran inside `ctx.run`. */
  datatype Proc =
    | Submit(user: nat, cost: nat, tid: nat, key: Option<nat>, spc: SubmitPc)
    | Cancel(task: nat, cpc: CancelPc)
    | Workflow(task: nat, tid: nat, wpc: WorkflowPc, journal: seq<Entry>)

  function OpOf(p: nat, x: Proc): Op {
    match x
    case Submit(user, cost, tid, key, pc) =>
      (match pc
       case SEnsure => OpEnsure(user)
       case SReserve => OpReserve(user, tid, cost)
       case SInsert => OpInsert(p, Row(user, cost, tid, key, PENDING))
       case SReleaseError => OpRelease(tid)
       case SReleaseReplay(_, _) => OpRelease(tid)
       case SHandOff => OpHandOff
       case HfCas => OpCas(p, FAILED, PENDING)
       case HfRead => OpRead(p)
       case HfRelease => OpRelease(tid)
       case HfRollback => OpCas(p, PENDING, FAILED)
       case SDone(_) => OpNone)
    case Cancel(task, pc) =>
      (match pc
       case CaGet => OpRead(task)
       case CaCasPending(_, _) => OpCas(task, CANCELLED, PENDING)
       case CaRelease(tid, _) => OpRelease(tid)
       case CaRollback => OpCas(task, PENDING, CANCELLED)
       case CaGetAgain => OpRead(task)
       case CaCasRunning => OpCas(task, CANCEL_REQUESTED, RUNNING)
       case CaDone(_) => OpNone)
    case Workflow(task, tid, pc, _) =>
      (match pc
       case WMarkRunning => OpCas(task, RUNNING, PENDING)
       case WReadAfterStart => OpRead(task)
       case WCompute => OpCompute
       case CRead(_) => OpRead(task)
       case CRelease(_) => OpRelease(tid)
       case CMark(_) => OpCas(task, CANCELLED, CANCEL_REQUESTED)
       case WMarkFailedCompute => OpCas(task, FAILED, RUNNING)
       case WReleaseAfterFailure => OpRelease(tid)
       case WReadAfterFailure => OpRead(task)
       case WCapture => OpCapture(tid)
       case WMarkFailedCapture => OpCas(task, FAILED, RUNNING)
       case WUnjournaledRelease => OpRelease(tid)
       case WInvalidateAfterRelease => OpCacheOrMetric
       case WMetricAfterRelease => OpCacheOrMetric
       case WMarkCompleted => OpCas(task, COMPLETED, RUNNING)
       case WReadAfterCompletion => OpRead(task)
       case WLateComplete => OpCas(task, COMPLETED, CANCEL_REQUESTED)
       case WReadAfterLate => OpRead(task)
       case WDone(_, _) => OpNone)
  }

  function Advance(p: nat, x: Proc, e: Entry): Proc {
    match x
    case Submit(_, _, _, _, pc) => x.(spc := AdvanceSubmit(pc, p, e))
    case Cancel(_, pc) => x.(cpc := AdvanceCancel(pc, e))
    case Workflow(_, _, pc, journal) =>
      x.(wpc := AdvanceWorkflow(pc, e), journal := if pc.WUnjournaledRelease? then journal else journal + [e])
  }

  // ----- Global steps -----

  /**
   * `owner` remembers, per task, the process that inserted the row or last moved it out of PENDING;
   * `reservedBy` remembers, per hold, the submit that reserved it. Both only record history.
   */
  datatype State = State(
    book: Book, table: Table, procs: map<nat, Proc>, owner: map<nat, nat>, reservedBy: map<nat, nat>)

  datatype Event =
    | StartSubmit(p: nat, user: nat, cost: nat, tid: nat, key: Option<nat>)
    | StartCancel(p: nat, task: nat)
    | Invoke(p: nat, task: nat)
    | AdminTopUp(user: nat, tid: nat, amount: nat)
    | HoldTimeout(tid: nat)
    | Run(p: nat, choice: Choice)

  const INITIAL := State(OPENING, Table(map[], map[]), map[], map[], map[])

  function RunProc(s: State, p: nat, c: Choice): State
    requires p in s.procs
  {
    var x := s.procs[p];
    var op := OpOf(p, x);
    var (book, table, e) := Perform(s.book, s.table, op, c);
    State(book, table, s.procs[p := Advance(p, x, e)],
          match op
          case OpInsert(t, _) => if t in table.rows && t !in s.table.rows then s.owner[t := p] else s.owner
          case OpCas(t, _, from) => if from.PENDING? && e == Flag(true) then s.owner[t := p] else s.owner
          case _ => s.owner,
          match op
          case OpReserve(_, tid, _) => if e == Flag(true) then s.reservedBy[tid := p] else s.reservedBy
          case _ => s.reservedBy)
  }

  /**
   * One step. Workflow invocations of a known task may start at any time and any number of times,
   * which covers duplicated and retried handoffs.
   */
  function Next(s: State, ev: Event): State {
    match ev
    case StartSubmit(p, user, cost, tid, key) =>
      if p in s.procs then s else s.(procs := s.procs[p := Submit(user, cost, tid, key, SEnsure)])
    case StartCancel(p, task) =>
      if p in s.procs then s else s.(procs := s.procs[p := Cancel(task, CaGet)])
    case Invoke(p, task) =>
      if p in s.procs || task !in s.table.rows then s
      else s.(procs := s.procs[p := Workflow(task, s.table.rows[task].tid, WMarkRunning, [])])
    case AdminTopUp(user, tid, amount) => s.(book := Deposit(EnsureUser(s.book, user), user, tid, amount).0)
    case HoldTimeout(tid) => s.(book := TimeOut(s.book, tid))
    case Run(p, c) => if p in s.procs then RunProc(s, p, c) else s
  }

  function Exec(s: State, evs: seq<Event>): State {
    if evs == [] then s else Next(Exec(s, evs[..|evs| - 1]), evs[|evs| - 1])
  }
}
