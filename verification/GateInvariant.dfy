/** The inductive invariant of Solution 1, task by task and process by process. */
module GateInvariant {
  import opened Options
  import opened Gate

  // ----- The ledger of one task -----

  ghost function Entries(ledger: seq<LedgerEntry>, t: nat): seq<LedgerEntry> {
    if ledger == [] then []
    else
      var last := ledger[|ledger| - 1];
      Entries(ledger[..|ledger| - 1], t) + if last.task == t then [last] else []
  }

  lemma EntriesAppend(ledger: seq<LedgerEntry>, e: LedgerEntry, t: nat)
    ensures Entries(ledger + [e], t) == Entries(ledger, t) + (if e.task == t then [e] else [])
  {
    assert (ledger + [e])[..|ledger|] == ledger;
  }

  /** The ledger tells the outcome: nothing, one deduction, or a deduction and one refund. */
  predicate Told(es: seq<LedgerEntry>, t: nat, user: nat, cost: nat, st: Option<TaskStatus>) {
    match st
    case None => es == []
    case Some(s) =>
      if s.FAILED? || s.CANCELLED? then
        |es| == 2 && es[0] == LedgerEntry(user, t, -(cost as int), TaskDeduct)
        && es[1] == LedgerEntry(user, t, cost, es[1].reason) && es[1].reason != TaskDeduct
      else es == [LedgerEntry(user, t, -(cost as int), TaskDeduct)]
  }

  // ----- One task -----

  /** What matters about a task: its submit, its phase, its row and its marker. */
  datatype View = View(spc: SubmitPc, phase: Phase, st: Option<TaskStatus>, marked: bool)

  /**
   * `busy` is the reaper at work, if any; `cleaning` says that it has given this task's slot back and is
   * removing the task's traces.
   */
  predicate SubmitOk(v: View, t: nat, busy: Option<nat>, cleaning: bool) {
    match v.spc
    case AdGate => false
    case AdMark => v.phase.Reserved? && v.st.None? && !v.marked
    case AdPersist => v.phase.Reserved? && v.st.None? && v.marked
    case AdUnmark => v.st.Some?
    case CoCredit => v.phase.Reserved? && v.st.None? && v.marked
    case CoSlot => v.phase == OwesSlot(t) && v.st.None? && v.marked
    case CoForget => v.phase.Freed? && v.st.None? && v.marked
    case CoUnmark => v.phase.Freed? && v.st.None? && v.marked
    case AdDone(end) =>
      (match end
       case Refused(_) => false
       case Accepted => v.st.Some?
       case Compensated => v.phase.Freed? && v.st.None? && !v.marked)
    case AdGone => v.st.Some?
    case AdDead(marked) =>
      if !marked then v.phase.Reserved? && v.st.None? && !v.marked
      else
        && v.st.None?
        && (v.marked ==>
            v.phase.Reserved? || (v.phase.OwesSlot? && busy == Some(v.phase.payer)) || (v.phase.Freed? && cleaning))
        && (!v.marked ==> v.phase.Freed?)
  }

  predicate RowOk(v: View) {
    v.st.Some? ==>
      match v.st.value
      case PENDING => v.phase.Live?
      case RUNNING => v.phase.Live?
      case COMPLETED => v.phase.OwesSlot? || v.phase.Freed?
      case FAILED => v.phase.OwesCredit? || v.phase.OwesSlot? || v.phase.Freed?
      case CANCELLED => v.phase.OwesCredit? || v.phase.OwesSlot? || v.phase.Freed?
  }

  predicate ViewOk(v: View, t: nat, busy: Option<nat>, cleaning: bool) {
    SubmitOk(v, t, busy, cleaning) && RowOk(v) && (v.phase.OwesCredit? ==> v.st.Some?)
  }

  /** The idempotency key still names this task; `forgetting` says that the reaper is about to delete it. */
  predicate KeepsKey(v: View, forgetting: bool) {
    match v.spc
    case CoUnmark => false
    case AdDone(end) => end.Accepted?
    case AdDead(marked) => !v.phase.Freed? || forgetting
    case _ => true
  }

  // ----- What each process relies on -----

  predicate WantsCredit(x: Proc) {
    || (x.Worker? && x.wpc.WkRefund?) || (x.Cancel? && x.cpc.CnRefund?) || (x.Stuck? && x.kpc.SkRefund?)
  }

  predicate WantsSlot(x: Proc) {
    || (x.Submit? && x.spc.CoSlot?) || (x.Worker? && x.wpc.WkDecrement?) || (x.Cancel? && x.cpc.CnDecrement?)
    || (x.Stuck? && x.kpc.SkDecrement?) || (x.Reap? && x.rpc.RpDecrement?)
  }

  /** A process owes exactly what the phase of its task says it owes. */
  predicate DebtOk(p: nat, x: Proc, phase: Phase) {
    && (phase == OwesCredit(p) <==> WantsCredit(x))
    && (phase == OwesSlot(p) <==> WantsSlot(x))
  }

  /** The terms a process carries are those of the admission. */
  predicate TermsOk(x: Proc, user: nat, cost: nat, key: nat) {
    match x
    case Submit(u, c, k, _) => u == user && c == cost && k == key
    case Worker(_, u, c, _) => u == user && c == cost
    case Stuck(_, u, c, _) => u == user && c == cost
    case Cancel(_, pc) =>
      (match pc
       case CnFinish(u, c) => u == user && c == cost
       case CnRefund(u, c) => u == user && c == cost
       case CnDecrement(u) => u == user
       case _ => true)
    case Reap(_, pc) =>
      (match pc
       case RpMarker => true
       case RpDone(_) => true
       case _ => pc.m.user == user && pc.m.cost == cost && pc.m.key == key)
  }

  /** Where a process stands against its task; `late` says that the task's orphan timeout has passed. */
  predicate ProgressOk(x: Proc, v: View, late: bool, addedAt: nat, timeout: nat, now: nat) {
    match x
    case Submit(_, _, _, _) => true
    case Worker(_, _, _, pc) =>
      (match pc
       case WkReadMarker(at) => DropOk(at, v, addedAt, timeout, now)
       case WkReadAge(at) => DropOk(at, v, addedAt, timeout, now)
       case WkDrop(at) => DropOk(at, v, addedAt, timeout, now)
       case WkAck(_) => v.st.Some? && !v.st.value.PENDING?
       case WkCompute => v.st.Some? && !v.st.value.PENDING?
       case WkComplete => v.st.Some? && !v.st.value.PENDING?
       case WkFail => v.st.Some? && !v.st.value.PENDING?
       case WkRefund => v.st.Some? && !v.st.value.PENDING?
       case WkDecrement(_) => v.st.Some? && !v.st.value.PENDING?
       case _ => true)
    case Stuck(_, _, _, _) => v.st.Some?
    case Cancel(_, pc) => pc.CnGet? || pc.CnDone? || pc.CnDead? || v.st.Some?
    case Reap(_, pc) =>
      (match pc
       case RpMarker => true
       case RpRow(_) => late && (v.st.Some? || (v.spc == AdDead(true) && v.marked && v.phase.Reserved?))
       case RpRefund(_) => late && v.spc == AdDead(true) && v.marked && v.phase.Reserved?
       case RpDecrement(_) => late && v.spc == AdDead(true) && v.marked
       case RpForget(_) => late && v.spc == AdDead(true) && v.marked && v.phase.Freed?
       case RpUnmark(_) => late && v.spc == AdDead(true) && v.marked && v.phase.Freed?
       case RpDrop(_) => late && v.st.Some?
       case RpDone(_) => true)
  }

  /** A row found missing after the timeout stays missing. */
  predicate DropOk(readAt: nat, v: View, addedAt: nat, timeout: nat, now: nat) {
    readAt <= now && (readAt >= addedAt + timeout ==> v.st.None? && !InWindow(v.spc))
  }

  predicate Unfinished(x: Proc) { x.Reap? && !x.rpc.RpDone? }

  // ----- The whole state -----

  predicate WasAdmitted(w: World, t: nat) {
    && t in w.slots && t in w.procs && w.procs[t].Submit? && t in w.redis.stream
    && w.slots[t].user == w.procs[t].user && w.slots[t].cost == w.procs[t].cost
    && w.redis.stream[t].user == w.procs[t].user && w.redis.stream[t].cost == w.procs[t].cost
    && w.redis.stream[t].addedAt <= w.now
  }

  function StatusOf(w: World, t: nat): Option<TaskStatus> {
    if t in w.pg.rows then Some(w.pg.rows[t].status) else None
  }

  function ViewOf(w: World, t: nat): View
    requires WasAdmitted(w, t)
  {
    View(w.procs[t].spc, w.slots[t].phase, StatusOf(w, t), t in w.redis.markers)
  }

  /** The reaper is past the refund of `t`. */
  predicate Cleaning(w: World, t: nat) {
    && w.reaper.Some? && w.reaper.value in w.procs
    && var x := w.procs[w.reaper.value];
       x.Reap? && x.task == t && (x.rpc.RpForget? || x.rpc.RpUnmark?)
  }

  predicate Forgetting(w: World, t: nat) {
    Cleaning(w, t) && w.procs[w.reaper.value].rpc.RpForget?
  }

  predicate PayerOk(w: World, t: nat, phase: Phase) {
    phase.OwesCredit? || phase.OwesSlot? ==>
      phase.payer in w.procs && TaskOf(phase.payer, w.procs[phase.payer]) == t
  }

  predicate Untouched(w: World, t: nat) {
    t !in w.pg.rows && t !in w.redis.markers && t !in w.redis.stream
  }

  predicate TaskOk(w: World, t: nat) {
    if t !in w.slots then Untouched(w, t)
    else
      && WasAdmitted(w, t)
      && var v := ViewOf(w, t);
         var x := w.procs[t];
         && ViewOk(v, t, w.reaper, Cleaning(w, t))
         && PayerOk(w, t, v.phase)
         && (t in w.pg.rows ==>
               w.pg.rows[t].user == x.user && w.pg.rows[t].cost == x.cost && w.pg.rows[t].key == x.key)
         && (v.marked ==>
               var m := w.redis.markers[t];
               m == Marker(x.user, x.cost, x.key, m.createdAt) && m.createdAt >= w.redis.stream[t].addedAt)
         && (InWindow(v.spc) ==> w.now < w.redis.stream[t].addedAt + w.cfg.orphanTimeout)
         && (KeepsKey(v, Forgetting(w, t)) ==> (x.user, x.key) in w.redis.idem && w.redis.idem[(x.user, x.key)] == t)
  }

  predicate Late(w: World, t: nat)
    requires t in w.redis.stream
  {
    w.now >= w.redis.stream[t].addedAt + w.cfg.orphanTimeout
  }

  predicate ProcOk(w: World, p: nat) {
    p in w.procs ==>
      var x := w.procs[p];
      var t := TaskOf(p, x);
      && (Unfinished(x) ==> w.reaper == Some(p))
      && if t in w.slots then
           && WasAdmitted(w, t)
           && TermsOk(x, w.procs[t].user, w.procs[t].cost, w.procs[t].key)
           && DebtOk(p, x, w.slots[t].phase)
           && ProgressOk(x, ViewOf(w, t), Late(w, t), w.redis.stream[t].addedAt, w.cfg.orphanTimeout, w.now)
         else
           match x
           case Submit(_, _, _, pc) => pc.AdGate? || (pc.AdDone? && pc.end.Refused?)
           case Worker(_, _, _, _) => false
           case Cancel(_, pc) => pc.CnGet? || pc.CnDone? || pc.CnDead?
           case Stuck(_, _, _, _) => false
           case Reap(_, pc) => pc.RpMarker? || pc.RpDone?
  }

  predicate ReaperOk(w: World) {
    w.reaper.Some? ==> w.reaper.value in w.procs && Unfinished(w.procs[w.reaper.value])
  }

  ghost predicate LedgerOk(w: World, t: nat) {
    if t in w.slots then Told(Entries(w.pg.ledger, t), t, w.slots[t].user, w.slots[t].cost, StatusOf(w, t))
    else Entries(w.pg.ledger, t) == []
  }

  ghost predicate Inv(w: World) {
    && ReaperOk(w)
    && (forall t: nat :: TaskOk(w, t))
    && (forall p: nat :: ProcOk(w, p))
    && (forall t: nat :: LedgerOk(w, t))
  }

  lemma InitiallyInv(cfg: Config)
    ensures Inv(Initial(cfg))
  {}
}
