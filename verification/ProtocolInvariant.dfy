/** The inductive invariant of Solution 4: who owns a task, and what its hold may look like meanwhile. */
module ProtocolInvariant {
  import opened Ledger
  import opened Options
  import opened Protocol

  predicate Settled(h: HoldState) { h.Voided? || h.Expired? }

  predicate Live(st: Status) { st.RUNNING? || st.CANCEL_REQUESTED? }

  /** Between a successful capture and the completing compare-and-set. */
  predicate Completing(pc: WorkflowPc) {
    pc.WMarkCompleted? || pc.WReadAfterCompletion? || pc.WLateComplete?
  }

  /** Past `mark_running` and not yet at a terminal status write. */
  predicate Executing(pc: WorkflowPc) {
    || pc.WCompute? || pc.CRead? || pc.CRelease? || pc.CMark? || pc.WMarkFailedCompute?
    || pc.WReadAfterFailure? || pc.WCapture? || pc.WMarkFailedCapture? || Completing(pc)
  }

  /** The invocation won `mark_running`, now or earlier. */
  predicate Started(pc: WorkflowPc) {
    !pc.WMarkRunning? && !pc.WReadAfterStart? && (pc.WDone? ==> pc.started)
  }

  // ----- One process against its own task -----

  /** What a workflow at `pc` may rely on; `own` says that it owns the task. */
  predicate WorkflowOk(pc: WorkflowPc, own: bool, st: Status, h: HoldState) {
    match pc
    case WMarkRunning => true
    case WReadAfterStart => st.PENDING? ==> Settled(h)
    case WCompute => own && Live(st) && !h.Posted?
    case CRead(k) => own && Live(st) && !h.Posted? && (k.AfterFailedCapture? ==> Settled(h))
    case CRelease(k) => own && st.CANCEL_REQUESTED? && !h.Posted? && (k.AfterFailedCapture? ==> Settled(h))
    case CMark(k) => own && st.CANCEL_REQUESTED? && h.Voided? && !k.AfterFailedCapture?
    case WMarkFailedCompute => own && Live(st) && !h.Posted?
    case WReleaseAfterFailure => own && st.FAILED? && !h.Posted?
    case WReadAfterFailure => own && st.CANCEL_REQUESTED? && !h.Posted?
    case WCapture => own && Live(st) && !h.Posted?
    case WMarkFailedCapture => own && Live(st) && Settled(h)
    case WUnjournaledRelease => own && (st.FAILED? || st.CANCEL_REQUESTED?) && Settled(h)
    case WInvalidateAfterRelease => false
    case WMetricAfterRelease => own && (st.FAILED? || st.CANCEL_REQUESTED?) && Settled(h)
    case WMarkCompleted => own && Live(st) && h.Posted?
    case WReadAfterCompletion => own && st.CANCEL_REQUESTED? && h.Posted?
    case WLateComplete => own && st.CANCEL_REQUESTED? && h.Posted?
    case WReadAfterLate => false
    case WDone(started, answer) => started ==> own && Concluded(answer, st, h)
  }

  /** What the answer of the executing invocation says about the task, for good. */
  predicate Concluded(answer: WorkflowAnswer, st: Status, h: HoldState) {
    match answer
    case Rejected => false
    case Answer(a) =>
      match a
      case PENDING => false
      case RUNNING => false
      case COMPLETED => st.COMPLETED? && h.Posted?
      case CANCELLED => st.CANCELLED? && h.Voided?
      case FAILED => (st.FAILED? || st.CANCEL_REQUESTED?) && Settled(h)
      case CANCEL_REQUESTED => st.CANCEL_REQUESTED? && !h.Posted?
  }

  predicate CancelOk(pc: CancelPc, own: bool, st: Status, h: HoldState, row: Row) {
    match pc
    case CaGet => true
    case CaCasPending(tid, cost) => tid == row.tid && cost == row.cost
    case CaRelease(tid, cost) => tid == row.tid && cost == row.cost && own && st.CANCELLED? && !h.Posted?
    case CaRollback => own && st.CANCELLED? && Settled(h)
    case CaGetAgain => true
    case CaCasRunning => true
    case CaDone(_) => true
  }

  /** The part of a submit that comes after its row exists. */
  predicate HandOffOk(pc: SubmitPc, own: bool, st: Status, h: HoldState) {
    match pc
    case HfRelease => own && st.FAILED? && !h.Posted?
    case HfRollback => own && st.FAILED? && Settled(h)
    case SEnsure => false
    case SReserve => false
    case SInsert => false
    case SReleaseReplay(_, _) => false
    case SDone(a) => !a.InsufficientCredits? && !a.Replayed?
    case _ => true
  }

  /** The part of a submit that holds credits for a row that does not exist. */
  predicate RowlessOk(pc: SubmitPc, h: HoldState) {
    match pc
    case SInsert => !h.Posted?
    case SReleaseError => !h.Posted?
    case SReleaseReplay(_, _) => !h.Posted?
    case SDone(a) => (a.Replayed? || a.CreateFailed?) && Settled(h)
    case _ => false
  }

  predicate Reserved(pc: SubmitPc) {
    !pc.SEnsure? && !pc.SReserve? && (pc.SDone? ==> !pc.answer.InsufficientCredits?)
  }

  // ----- One task against its owner -----

  /** What the owner of a task must be doing for the task's status and hold to be as they are. */
  predicate OwnerOk(owner: Proc, st: Status, h: HoldState) {
    match st
    case PENDING => !h.Posted?
    case RUNNING => owner.Workflow? && Executing(owner.wpc) && (h.Posted? ==> Completing(owner.wpc))
    case CANCEL_REQUESTED =>
      owner.Workflow? && Started(owner.wpc) && (h.Posted? ==> Completing(owner.wpc))
    case COMPLETED => h.Posted?
    case FAILED =>
      && !h.Posted?
      && (h.Pending? ==>
          (owner.Workflow? && owner.wpc.WReleaseAfterFailure?) || (owner.Submit? && owner.spc.HfRelease?))
    case CANCELLED => !h.Posted? && (h.Pending? ==> owner.Cancel? && owner.cpc.CaRelease?)
  }

  /** The task a process works on; a submit works on the task it names. */
  function TaskOf(p: nat, x: Proc): nat {
    match x
    case Submit(_, _, _, _, _) => p
    case Cancel(t, _) => t
    case Workflow(t, _, _, _) => t
  }

  // ----- The whole state -----

  predicate IsHold(b: Book, tid: nat, user: nat, amount: nat) {
    tid in b.transfers && b.transfers[tid].Hold? && b.transfers[tid].user == user && b.transfers[tid].amount == amount
  }

  /** A row keeps the terms of the submit that inserted it. */
  predicate RowLinked(s: State, t: nat) {
    t in s.table.rows ==>
      var r := s.table.rows[t];
      && t in s.procs && s.procs[t].Submit?
      && s.procs[t].user == r.user && s.procs[t].cost == r.cost && s.procs[t].tid == r.tid && s.procs[t].key == r.key
      && r.tid in s.reservedBy && s.reservedBy[r.tid] == t
      && IsHold(s.book, r.tid, r.user, r.cost)
      && t in s.owner && s.owner[t] in s.procs && TaskOf(s.owner[t], s.procs[s.owner[t]]) == t
  }

  predicate RowOk(s: State, t: nat) {
    RowLinked(s, t) &&
    (t in s.table.rows ==>
       OwnerOk(s.procs[s.owner[t]], s.table.rows[t].status, s.book.transfers[s.table.rows[t].tid].state))
  }

  predicate Owns(s: State, p: nat, t: nat) { t in s.owner && s.owner[t] == p }

  predicate ProcLinked(s: State, p: nat) {
    p in s.procs ==>
      match s.procs[p]
      case Submit(user, cost, tid, key, pc) =>
        if Reserved(pc) then
          IsHold(s.book, tid, user, cost) && tid in s.reservedBy && s.reservedBy[tid] == p
        else p !in s.table.rows
      case Cancel(t, pc) => (!pc.CaGet? && !pc.CaDone?) ==> t in s.table.rows
      case Workflow(t, tid, _, _) => t in s.table.rows && s.table.rows[t].tid == tid
  }

  predicate ProcOk(s: State, p: nat) {
    ProcLinked(s, p) &&
    (p in s.procs ==>
       var x := s.procs[p];
       var t := TaskOf(p, x);
       if t in s.table.rows then
         RowLinked(s, t) &&
         var r := s.table.rows[t];
         var h := s.book.transfers[r.tid].state;
         match x
         case Submit(_, _, _, _, pc) => HandOffOk(pc, Owns(s, p, t), r.status, h)
         case Cancel(_, pc) => CancelOk(pc, Owns(s, p, t), r.status, h, r)
         case Workflow(_, _, pc, _) => WorkflowOk(pc, Owns(s, p, t), r.status, h)
       else
         x.Submit? && Reserved(x.spc) ==> RowlessOk(x.spc, s.book.transfers[x.tid].state))
  }

  /** Every hold was reserved by the submit that carries its id. */
  predicate HoldLinked(s: State, tid: nat) {
    && (tid in s.book.transfers && s.book.transfers[tid].Hold? ==> tid in s.reservedBy)
    && (tid in s.reservedBy ==>
          var p := s.reservedBy[tid];
          p in s.procs && s.procs[p].Submit? && s.procs[p].tid == tid && Reserved(s.procs[p].spc))
  }

  /** The unique index lists exactly the keyed rows. */
  predicate KeysOk(tb: Table) {
    && (forall uk | uk in tb.keys ::
          tb.keys[uk] in tb.rows && tb.rows[tb.keys[uk]].user == uk.0 && tb.rows[tb.keys[uk]].key == Some(uk.1))
    && (forall t | t in tb.rows && tb.rows[t].key.Some? ::
          (tb.rows[t].user, tb.rows[t].key.value) in tb.keys &&
          tb.keys[(tb.rows[t].user, tb.rows[t].key.value)] == t)
  }

  ghost predicate Inv(s: State) {
    && Booked(s.book)
    && KeysOk(s.table)
    && (forall t: nat :: RowOk(s, t))
    && (forall p: nat :: ProcOk(s, p))
    && (forall tid: nat :: HoldLinked(s, tid))
  }

  lemma InitiallyInv()
    ensures Inv(INITIAL)
  {
    OpeningBooked();
  }

  // ----- What one step may do to a task it does not own -----

  /** How others may change a task under the feet of the process that owns it. */
  predicate Tolerated(st: Status, h: HoldState, st': Status, h': HoldState) {
    && (st' == st || (st.RUNNING? && st'.CANCEL_REQUESTED?))
    && (h' == h || (h.Pending? && Settled(h')))
  }

  /** A settled hold stays as it is, and a task goes back to PENDING only when its hold is settled. */
  predicate NoRevival(st: Status, h: HoldState, st': Status, h': HoldState) {
    && (Settled(h) ==> h' == h)
    && (st'.PENDING? ==> st.PENDING? || Settled(h'))
  }

  /** A pending task demands nothing of its owner, so taking it over disturbs no workflow. */
  lemma WorkflowTolerates(pc: WorkflowPc, own: bool, st: Status, h: HoldState, own': bool, st': Status, h': HoldState)
    requires WorkflowOk(pc, own, st, h) && NoRevival(st, h, st', h')
    requires own && !st.PENDING? ==> own' && Tolerated(st, h, st', h')
    ensures WorkflowOk(pc, own', st', h')
  {}

  function HoldOf(s: State, t: nat): HoldState
    requires t in s.table.rows && RowLinked(s, t)
  {
    s.book.transfers[s.table.rows[t].tid].state
  }

  /** A step of `p` that touches only its own program counter, task `t` and the hold of `t`. */
  ghost predicate Scoped(s: State, s': State, p: nat, t: nat) {
    && p in s.procs && p in s'.procs && t in s.table.rows && RowLinked(s, t)
    && TaskOf(p, s.procs[p]) == t && TaskOf(p, s'.procs[p]) == t
    && s'.procs == s.procs[p := s'.procs[p]]
    && s'.table.keys == s.table.keys && s'.reservedBy == s.reservedBy
    && (exists st :: s'.table.rows == s.table.rows[t := s.table.rows[t].(status := st)])
    && (var tid := s.table.rows[t].tid;
        exists h :: s'.book.transfers == s.book.transfers[tid := s.book.transfers[tid].(state := h)])
    && (s'.owner == s.owner || s'.owner == s.owner[t := p])
  }

  /** Its effect on `t`: its own task, or a change the owner tolerates, or taking over a pending task. */
  predicate Allowed(s: State, s': State, p: nat, t: nat)
    requires t in s.table.rows && RowLinked(s, t) && t in s'.table.rows && RowLinked(s', t)
  {
    var st, st', h, h' := s.table.rows[t].status, s'.table.rows[t].status, HoldOf(s, t), HoldOf(s', t);
    && NoRevival(st, h, st', h')
    && (|| (s'.owner[t] == s.owner[t] == p)
        || (s'.owner[t] == s.owner[t] && Tolerated(st, h, st', h'))
        || (s'.owner[t] == p && st.PENDING? && h' == h))
  }

  lemma ScopedLinks(s: State, s': State, p: nat, t: nat)
    requires Inv(s) && Scoped(s, s', p, t)
    requires s'.procs[p].Submit? ==> s.procs[p].Submit? && s'.procs[p] == s.procs[p].(spc := s'.procs[p].spc)
    requires s.procs[p].Submit? ==> s'.procs[p].Submit?
    ensures forall t': nat :: RowLinked(s', t')
  {
    forall t': nat ensures RowLinked(s', t') {
      assert RowOk(s, t') && RowOk(s, t);
    }
  }

  lemma ScopedOtherProc(s: State, s': State, p: nat, t: nat, q: nat)
    requires Inv(s) && Scoped(s, s', p, t) && q != p
    requires forall t': nat :: RowLinked(s', t')
    requires Allowed(s, s', p, t)
    ensures ProcOk(s', q)
  {
    assert ProcOk(s, q) && RowOk(s, t) && HoldLinked(s, s.table.rows[t].tid);
    if q in s.procs {
      var u := TaskOf(q, s.procs[q]);
      assert RowOk(s, u) && RowLinked(s', u);
      if u == t && s.procs[q].Workflow? && u in s.table.rows {
        WorkflowTolerates(s.procs[q].wpc, Owns(s, q, t), s.table.rows[t].status, HoldOf(s, t), Owns(s', q, t),
                          s'.table.rows[t].status, HoldOf(s', t));
      }
    }
  }

  lemma ScopedOtherRow(s: State, s': State, p: nat, t: nat, t': nat)
    requires Inv(s) && Scoped(s, s', p, t) && t' != t
    requires forall t': nat :: RowLinked(s', t')
    ensures RowOk(s', t')
  {
    assert RowOk(s, t') && RowOk(s, t);
  }

  /** Once the moving process and its task are in order, a scoped and allowed step keeps everything else in order. */
  lemma ScopedStepKeepsInv(s: State, s': State, p: nat, t: nat)
    requires Inv(s) && Scoped(s, s', p, t) && Booked(s'.book)
    requires s.procs[p].Submit? ==> Reserved(s.procs[p].spc) && s'.procs[p].Submit? && Reserved(s'.procs[p].spc)
    requires s'.procs[p].Submit? ==> s.procs[p].Submit? && s'.procs[p] == s.procs[p].(spc := s'.procs[p].spc)
    requires forall t': nat :: RowLinked(s', t')
    requires Allowed(s, s', p, t)
    requires ProcOk(s', p)
    requires s'.owner[t] == p ==> OwnerOk(s'.procs[p], s'.table.rows[t].status, HoldOf(s', t))
    ensures Inv(s')
  {
    forall q: nat ensures ProcOk(s', q) {
      if q != p { ScopedOtherProc(s, s', p, t, q); }
    }
    forall t': nat ensures RowOk(s', t') {
      if t' != t {
        ScopedOtherRow(s, s', p, t, t');
      } else {
        assert RowOk(s, t) && RowLinked(s', t);
      }
    }
    forall tid: nat ensures HoldLinked(s', tid) {
      assert HoldLinked(s, tid);
    }
  }
}
