/**
 * What a process of Solution 1 has done by the time it ends, told by the states it found and left: each outcome has
 * its cause in the process's own operations. This holds for every setting and in rough runs.
 */
module GateDeeds {
  import opened Options
  import opened Gate
  import opened GateInvariant
  import opened GateLedger

  /** One operation on task `t`: the state it found, what the environment decided, the state it left. */
  datatype Deed = Deed(before: World, t: nat, op: Op, choice: Choice, after: World)

  function DeedOf(w: World, p: nat, c: Choice): Deed
    requires p in w.procs
  {
    Deed(w, TaskOf(p, w.procs[p]), OpOf(w.procs[p]), c, RunProc(w, p, c))
  }

  /** Everything that `p` has done in a history. */
  ghost function Deeds(cfg: Config, es: seq<RoughEvent>, p: nat): set<Deed> {
    if es == [] then {}
    else
      var w, e := RoughExec(Initial(cfg), es[..|es| - 1]), es[|es| - 1];
      Deeds(cfg, es[..|es| - 1], p) +
      if e.Usual? && e.ev.Run? && e.ev.p == p && p in w.procs then {DeedOf(w, p, e.ev.choice)} else {}
  }

  // ----- Deeds in terms of row, ledger and Redis -----

  predicate ChangesNothing(d: Deed) { d.after.redis == d.before.redis && d.after.pg == d.before.pg }

  ghost predicate OnlyLooked(deeds: set<Deed>) { forall d :: d in deeds ==> ChangesNothing(d) }

  predicate Moves(d: Deed, t: nat, from: TaskStatus, to: TaskStatus) {
    StatusOf(d.before, t) == Some(from) && StatusOf(d.after, t) == Some(to)
  }

  ghost predicate Moved(deeds: set<Deed>, t: nat, from: TaskStatus, to: TaskStatus) {
    exists d :: d in deeds && Moves(d, t, from, to)
  }

  /** A live row gets a terminal status, and the ledger this refund with it. */
  predicate Ends(d: Deed, t: nat, to: TaskStatus, entry: LedgerEntry) {
    && (Moves(d, t, PENDING, to) || Moves(d, t, RUNNING, to)) && to !in CANCELLABLE
    && d.after.pg.ledger == d.before.pg.ledger + [entry]
  }

  ghost predicate Ended(deeds: set<Deed>, t: nat, to: TaskStatus, entry: LedgerEntry) {
    exists d :: d in deeds && Ends(d, t, to, entry)
  }

  /** A start, or a terminal update, that came too late. */
  predicate TooLateToStart(d: Deed, t: nat) { d.op.OpStart? && d.t == t && StatusOf(d.before, t) != Some(PENDING) }

  ghost predicate LostStart(deeds: set<Deed>, t: nat) { exists d :: d in deeds && TooLateToStart(d, t) }

  predicate TooLateToEnd(d: Deed, t: nat) {
    && (d.op.OpComplete? || d.op.OpFinish?) && d.t == t
    && StatusOf(d.before, t).Some? && StatusOf(d.before, t).value !in CANCELLABLE
  }

  ghost predicate LostEnd(deeds: set<Deed>, t: nat) { exists d :: d in deeds && TooLateToEnd(d, t) }

  ghost predicate Saw(deeds: set<Deed>, t: nat, st: Option<TaskStatus>) {
    exists d :: d in deeds && d.op.OpReadRow? && d.t == t && StatusOf(d.before, t) == st
  }

  function MarkerOf(w: World, t: nat): Option<Marker> {
    if t in w.redis.markers then Some(w.redis.markers[t]) else None
  }

  predicate LooksFor(d: Deed, t: nat, m: Option<Marker>) {
    d.op.OpReadMarker? && d.t == t && MarkerOf(d.before, t) == m
  }

  ghost predicate SawMarker(deeds: set<Deed>, t: nat, m: Option<Marker>) { exists d :: d in deeds && LooksFor(d, t, m) }

  /** The marker is read when it is past the orphan timeout, or not. */
  predicate LooksAt(d: Deed, t: nat, m: Marker, ripe: bool) {
    LooksFor(d, t, Some(m)) && ripe == (d.before.now >= m.createdAt + d.before.cfg.orphanTimeout)
  }

  ghost predicate SawAt(deeds: set<Deed>, t: nat, m: Marker, ripe: bool) {
    exists d :: d in deeds && LooksAt(d, t, m, ripe)
  }

  /** The age of the stream entry is past the orphan timeout, or not. */
  predicate IsOld(w: World, t: nat) {
    (if t in w.redis.stream && w.redis.stream[t].addedAt <= w.now then w.now - w.redis.stream[t].addedAt else 0)
    >= w.cfg.orphanTimeout
  }

  ghost predicate SawAge(deeds: set<Deed>, t: nat, ripe: bool) {
    exists d :: d in deeds && d.op.OpReadAge? && d.t == t && IsOld(d.before, t) == ripe
  }

  ghost predicate Computed(deeds: set<Deed>, ok: bool) {
    exists d :: d in deeds && d.op.OpCompute? && d.choice.computes == ok
  }

  function BalanceOf(w: World, u: nat): int { if u in w.redis.credits then w.redis.credits[u] else 0 }

  predicate Pays(d: Deed, u: nat, amount: nat) {
    && d.after.redis == d.before.redis.(credits := d.before.redis.credits[u := BalanceOf(d.before, u) + amount])
    && d.after.pg == d.before.pg
  }

  ghost predicate Paid(deeds: set<Deed>, u: nat, amount: nat) { exists d :: d in deeds && Pays(d, u, amount) }

  /** A slot is given back; the counter never goes below zero. */
  predicate Frees(d: Deed, u: nat) {
    && u in d.after.redis.active
    && d.after.redis.active[u] == (if ActiveOf(d.before.redis, u) > 0 then ActiveOf(d.before.redis, u) - 1 else 0)
    && d.after.redis == d.before.redis.(active := d.before.redis.active[u := d.after.redis.active[u]])
    && d.after.pg == d.before.pg
  }

  ghost predicate GaveSlot(deeds: set<Deed>, u: nat) { exists d :: d in deeds && Frees(d, u) }

  predicate Acks(d: Deed, t: nat) {
    && d.op.OpAck? && d.t == t
    && (t in d.before.redis.stream ==> t in d.after.redis.stream && d.after.redis.stream[t].acked)
  }

  ghost predicate DidAck(deeds: set<Deed>, t: nat) { exists d :: d in deeds && Acks(d, t) }

  predicate Forgets(d: Deed, u: nat, key: nat) { d.op.OpForgetKey? && (u, key) !in d.after.redis.idem }

  ghost predicate Forgot(deeds: set<Deed>, u: nat, key: nat) { exists d :: d in deeds && Forgets(d, u, key) }

  predicate Unmarks(d: Deed, t: nat) { d.op.OpUnmark? && t !in d.after.redis.markers }

  ghost predicate Unmarked(deeds: set<Deed>, t: nat) { exists d :: d in deeds && Unmarks(d, t) }

  // ----- The gate -----

  /** What the gate asks for: an unused key, a free slot and enough credits. */
  predicate Open(w: World, u: nat, cost: nat, key: nat) {
    && (u, key) !in w.redis.idem && ActiveOf(w.redis, u) < LimitOf(w.cfg, u)
    && u in w.redis.credits && w.redis.credits[u] >= cost
  }

  /** Credits and a slot are taken, the key names the task, and the stream delivers it. */
  predicate Admits(d: Deed, p: nat, u: nat, cost: nat, key: nat) {
    && Open(d.before, u, cost, key) && d.after.pg == d.before.pg
    && d.after.redis.credits == d.before.redis.credits[u := d.before.redis.credits[u] - cost]
    && d.after.redis.active == d.before.redis.active[u := ActiveOf(d.before.redis, u) + 1]
    && d.after.redis.idem == d.before.redis.idem[(u, key) := p]
    && d.after.redis.stream == d.before.redis.stream[p := StreamEntry(u, cost, d.before.now, false)]
    && d.after.redis.markers == d.before.redis.markers
  }

  ghost predicate WasLetIn(deeds: set<Deed>, p: nat, u: nat, cost: nat, key: nat) {
    exists d :: d in deeds && Admits(d, p, u, cost, key)
  }

  /** Why the gate refuses, in the order of its checks. */
  predicate RefusesAs(d: Deed, u: nat, cost: nat, key: nat, verdict: Verdict) {
    var r := d.before.redis;
    d.op.OpAdmit? &&
    match verdict
    case Admitted => false
    case Idempotent(t) => (u, key) in r.idem && r.idem[(u, key)] == t
    case Concurrency => (u, key) !in r.idem && ActiveOf(r, u) >= LimitOf(d.before.cfg, u)
    case CacheMiss => (u, key) !in r.idem && ActiveOf(r, u) < LimitOf(d.before.cfg, u) && u !in r.credits
    case Insufficient =>
      && (u, key) !in r.idem && ActiveOf(r, u) < LimitOf(d.before.cfg, u)
      && u in r.credits && r.credits[u] < cost
  }

  ghost predicate WasRefused(deeds: set<Deed>, u: nat, cost: nat, key: nat, verdict: Verdict) {
    exists d :: d in deeds && RefusesAs(d, u, cost, key, verdict)
  }

  predicate Marks(d: Deed, p: nat, u: nat, cost: nat, key: nat) {
    MarkerOf(d.after, p) == Some(Marker(u, cost, key, d.before.now)) && d.after.pg == d.before.pg
  }

  ghost predicate DidMark(deeds: set<Deed>, p: nat, u: nat, cost: nat, key: nat) {
    exists d :: d in deeds && Marks(d, p, u, cost, key)
  }

  /** Row and deduction are written together. */
  predicate Inserts(d: Deed, p: nat, u: nat, cost: nat, key: nat) {
    && p !in d.before.pg.rows && d.after.pg.rows == d.before.pg.rows[p := TaskRow(u, cost, key, PENDING)]
    && d.after.pg.ledger == d.before.pg.ledger + [LedgerEntry(u, p, -(cost as int), TaskDeduct)]
  }

  ghost predicate DidInsert(deeds: set<Deed>, p: nat, u: nat, cost: nat, key: nat) {
    exists d :: d in deeds && Inserts(d, p, u, cost, key)
  }

  /** The insert did not go through: the transaction failed, or the row or its key is there already. */
  predicate FailsToInsert(d: Deed, p: nat, u: nat, key: nat) {
    && d.op.OpPersist? && (!d.choice.commits || p in d.before.pg.rows || KeyTaken(d.before.pg, u, key))
    && ChangesNothing(d)
  }

  ghost predicate PersistFailed(deeds: set<Deed>, p: nat, u: nat, key: nat) {
    exists d :: d in deeds && FailsToInsert(d, p, u, key)
  }

  ghost predicate TableUntouched(deeds: set<Deed>) { forall d :: d in deeds ==> d.after.pg == d.before.pg }

  ghost predicate NeverPaid(deeds: set<Deed>) {
    forall d :: d in deeds ==> d.after.redis.credits == d.before.redis.credits
  }

  // ----- What has been done, by program counter -----

  ghost predicate SubmitTold(deeds: set<Deed>, p: nat, u: nat, cost: nat, key: nat, pc: SubmitPc) {
    match pc
    case AdGate => deeds == {}
    case AdMark => WasLetIn(deeds, p, u, cost, key) && TableUntouched(deeds)
    case AdPersist => WasLetIn(deeds, p, u, cost, key) && DidMark(deeds, p, u, cost, key) && TableUntouched(deeds)
    case AdUnmark => WasLetIn(deeds, p, u, cost, key) && DidInsert(deeds, p, u, cost, key)
    case CoCredit =>
      WasLetIn(deeds, p, u, cost, key) && PersistFailed(deeds, p, u, key) && TableUntouched(deeds)
    case CoSlot => ToldUndone(deeds, p, u, cost, key)
    case CoForget => ToldUndone(deeds, p, u, cost, key) && GaveSlot(deeds, u)
    case CoUnmark => ToldUndone(deeds, p, u, cost, key) && GaveSlot(deeds, u) && Forgot(deeds, u, key)
    case AdDone(end) => SubmitEndTold(deeds, p, u, cost, key, end)
    case AdDead(marked) =>
      WasLetIn(deeds, p, u, cost, key) && TableUntouched(deeds) && (marked ==> DidMark(deeds, p, u, cost, key))
    case AdGone => WasLetIn(deeds, p, u, cost, key) && DidInsert(deeds, p, u, cost, key)
  }

  ghost predicate ToldUndone(deeds: set<Deed>, p: nat, u: nat, cost: nat, key: nat) {
    && WasLetIn(deeds, p, u, cost, key) && PersistFailed(deeds, p, u, key) && TableUntouched(deeds)
    && Paid(deeds, u, cost)
  }

  ghost predicate SubmitEndTold(deeds: set<Deed>, p: nat, u: nat, cost: nat, key: nat, end: SubmitEnd) {
    match end
    case Accepted => WasLetIn(deeds, p, u, cost, key) && DidInsert(deeds, p, u, cost, key) && Unmarked(deeds, p)
    case Compensated =>
      ToldUndone(deeds, p, u, cost, key) && GaveSlot(deeds, u) && Forgot(deeds, u, key) && Unmarked(deeds, p)
    case Refused(verdict) => OnlyLooked(deeds) && WasRefused(deeds, u, cost, key, verdict)
  }

  ghost predicate ComputedOnly(deeds: set<Deed>, ok: bool) { Computed(deeds, ok) && !Computed(deeds, !ok) }

  /** The worker completed the task after its model returned, or failed and refunded it after its model raised. */
  ghost predicate WorkerEnded(deeds: set<Deed>, t: nat, u: nat, cost: nat, ended: Delivery) {
    match ended
    case Completed => ComputedOnly(deeds, true) && Moved(deeds, t, RUNNING, COMPLETED) && NeverPaid(deeds)
    case Failed =>
      && ComputedOnly(deeds, false) && Ended(deeds, t, FAILED, LedgerEntry(u, t, cost, FailureRefund))
      && Paid(deeds, u, cost)
    case Settled => NeverPaid(deeds) && (LostEnd(deeds, t) || (LostStart(deeds, t) && SawStarted(deeds, t)))
    case _ => false
  }

  ghost predicate SawStarted(deeds: set<Deed>, t: nat) {
    exists st: TaskStatus :: !st.PENDING? && Saw(deeds, t, Some(st))
  }

  ghost predicate WorkerTold(deeds: set<Deed>, t: nat, u: nat, cost: nat, pc: WorkerPc) {
    match pc
    case WkStart => deeds == {}
    case WkReadRow => OnlyLooked(deeds) && LostStart(deeds, t)
    case WkReadMarker(_) => OnlyLooked(deeds) && Saw(deeds, t, None)
    case WkReadAge(_) => OnlyLooked(deeds) && Saw(deeds, t, None) && SawMarker(deeds, t, None)
    case WkDrop(_) => OnlyLooked(deeds) && Saw(deeds, t, None) && SawMarker(deeds, t, None) && SawAge(deeds, t, true)
    case WkCompute => Moved(deeds, t, PENDING, RUNNING) && NeverPaid(deeds) && NeverComputed(deeds)
    case WkComplete => Moved(deeds, t, PENDING, RUNNING) && NeverPaid(deeds) && ComputedOnly(deeds, true)
    case WkFail => Moved(deeds, t, PENDING, RUNNING) && NeverPaid(deeds) && ComputedOnly(deeds, false)
    case WkRefund =>
      ComputedOnly(deeds, false) && Ended(deeds, t, FAILED, LedgerEntry(u, t, cost, FailureRefund))
    case WkDecrement(ended) => WorkerEnded(deeds, t, u, cost, ended) && !ended.Settled?
    case WkAck(ended) => WorkerEnded(deeds, t, u, cost, ended) && (!ended.Settled? ==> GaveSlot(deeds, u))
    case WkDone(outcome) => DeliveryTold(deeds, t, u, cost, outcome)
    case WkDead => true
  }

  ghost predicate NeverComputed(deeds: set<Deed>) { !Computed(deeds, true) && !Computed(deeds, false) }

  /** What a worker has done when a delivery ends. */
  ghost predicate DeliveryTold(deeds: set<Deed>, t: nat, u: nat, cost: nat, outcome: Delivery) {
    match outcome
    case LeftForLater =>
      && OnlyLooked(deeds)
      && (Saw(deeds, t, Some(PENDING)) || (Saw(deeds, t, None) && (SawSomeMarker(deeds, t) || SawAge(deeds, t, false))))
    case Dropped =>
      && NeverPaid(deeds) && TableUntouched(deeds) && DidAck(deeds, t)
      && Saw(deeds, t, None) && SawMarker(deeds, t, None) && SawAge(deeds, t, true)
    case _ =>
      WorkerEnded(deeds, t, u, cost, outcome) && DidAck(deeds, t) && (!outcome.Settled? ==> GaveSlot(deeds, u))
  }

  ghost predicate SawSomeMarker(deeds: set<Deed>, t: nat) { exists m: Marker :: SawMarker(deeds, t, Some(m)) }

  /** The row was ended with its refund, and the user has the credits back. */
  ghost predicate Refunded(deeds: set<Deed>, t: nat, u: nat, cost: nat, to: TaskStatus, reason: Reason) {
    Ended(deeds, t, to, LedgerEntry(u, t, cost, reason)) && Paid(deeds, u, cost)
  }

  ghost predicate CancelTold(deeds: set<Deed>, t: nat, pc: CancelPc) {
    match pc
    case CnGet => deeds == {}
    case CnFinish(u, cost) => OnlyLooked(deeds)
    case CnRefund(u, cost) => Ended(deeds, t, CANCELLED, LedgerEntry(u, t, cost, CancelRefund))
    case CnDecrement(u) => exists cost: nat :: Refunded(deeds, t, u, cost, CANCELLED, CancelRefund)
    case CnUnmark =>
      exists u: nat, cost: nat :: Refunded(deeds, t, u, cost, CANCELLED, CancelRefund) && GaveSlot(deeds, u)
    case CnDone(answer) => CancelAnswerTold(deeds, t, answer)
    case CnDead => true
  }

  ghost predicate CancelAnswerTold(deeds: set<Deed>, t: nat, answer: CancelAnswer) {
    match answer
    case NotFound => OnlyLooked(deeds) && Saw(deeds, t, None)
    case NotCancellable => OnlyLooked(deeds) && (SawEnded(deeds, t) || LostEnd(deeds, t))
    case Cancelled =>
      && Unmarked(deeds, t)
      && exists u: nat, cost: nat :: Refunded(deeds, t, u, cost, CANCELLED, CancelRefund) && GaveSlot(deeds, u)
  }

  ghost predicate SawEnded(deeds: set<Deed>, t: nat) {
    exists st: TaskStatus :: st !in CANCELLABLE && Saw(deeds, t, Some(st))
  }

  ghost predicate StuckTold(deeds: set<Deed>, t: nat, u: nat, cost: nat, pc: StuckPc) {
    match pc
    case SkFinish => deeds == {}
    case SkRefund => Ended(deeds, t, FAILED, LedgerEntry(u, t, cost, StuckRefund))
    case SkDecrement => Refunded(deeds, t, u, cost, FAILED, StuckRefund)
    case SkDone(recovered) =>
      if recovered then Refunded(deeds, t, u, cost, FAILED, StuckRefund) && GaveSlot(deeds, u)
      else OnlyLooked(deeds) && LostEnd(deeds, t)
    case SkDead => OnlyLooked(deeds)
  }

  /** An orphan's marker: past the timeout when it was read, and no row was there. */
  ghost predicate FoundOrphan(deeds: set<Deed>, t: nat, m: Marker) {
    SawAt(deeds, t, m, true) && Saw(deeds, t, None) && TableUntouched(deeds)
  }

  ghost predicate ReapTold(deeds: set<Deed>, t: nat, pc: ReapPc) {
    match pc
    case RpMarker => deeds == {}
    case RpRow(m) => OnlyLooked(deeds) && SawAt(deeds, t, m, true)
    case RpRefund(m) => FoundOrphan(deeds, t, m)
    case RpDecrement(m) => FoundOrphan(deeds, t, m) && Paid(deeds, m.user, m.cost)
    case RpForget(m) => FoundOrphan(deeds, t, m) && Paid(deeds, m.user, m.cost) && GaveSlot(deeds, m.user)
    case RpUnmark(m) => Reaped(deeds, t, m)
    case RpDrop(m) => OnlyLooked(deeds) && SawRow(deeds, t)
    case RpDone(outcome) => ReapingTold(deeds, t, outcome)
  }

  ghost predicate Reaped(deeds: set<Deed>, t: nat, m: Marker) {
    && FoundOrphan(deeds, t, m) && Paid(deeds, m.user, m.cost) && GaveSlot(deeds, m.user)
    && Forgot(deeds, m.user, m.key)
  }

  /** What the reaper has done with a marker when it goes on to the next. */
  ghost predicate ReapingTold(deeds: set<Deed>, t: nat, outcome: Reaping) {
    match outcome
    case LeftAlone => OnlyLooked(deeds) && (SawMarker(deeds, t, None) || SawYoung(deeds, t))
    case Leftover => SawRow(deeds, t) && Unmarked(deeds, t) && NeverPaid(deeds) && TableUntouched(deeds)
    case Recovered => Unmarked(deeds, t) && exists m: Marker :: Reaped(deeds, t, m)
  }

  ghost predicate SawYoung(deeds: set<Deed>, t: nat) { exists m: Marker :: SawAt(deeds, t, m, false) }

  ghost predicate SawRow(deeds: set<Deed>, t: nat) { exists st: TaskStatus :: Saw(deeds, t, Some(st)) }

  ghost predicate ToldOf(deeds: set<Deed>, p: nat, x: Proc) {
    match x
    case Submit(u, cost, key, pc) => SubmitTold(deeds, p, u, cost, key, pc)
    case Worker(t, u, cost, pc) => WorkerTold(deeds, t, u, cost, pc)
    case Cancel(t, pc) => CancelTold(deeds, t, pc)
    case Stuck(t, u, cost, pc) => StuckTold(deeds, t, u, cost, pc)
    case Reap(t, pc) => ReapTold(deeds, t, pc)
  }

  // ----- One more deed -----

  /** A new deed adds its own part to what has been done to row and ledger. */
  ghost predicate ExtendsRow(deeds: set<Deed>, d: Deed, all: set<Deed>) {
    && (OnlyLooked(all) <==> OnlyLooked(deeds) && ChangesNothing(d))
    && (TableUntouched(all) <==> TableUntouched(deeds) && d.after.pg == d.before.pg)
    && (NeverPaid(all) <==> NeverPaid(deeds) && d.after.redis.credits == d.before.redis.credits)
    && (forall t: nat, from, to :: Moved(all, t, from, to) <==> Moved(deeds, t, from, to) || Moves(d, t, from, to))
    && (forall t: nat, to, entry :: Ended(all, t, to, entry) <==> Ended(deeds, t, to, entry) || Ends(d, t, to, entry))
    && (forall t: nat :: LostStart(all, t) <==> LostStart(deeds, t) || TooLateToStart(d, t))
    && (forall t: nat :: LostEnd(all, t) <==> LostEnd(deeds, t) || TooLateToEnd(d, t))
    && (forall ok: bool :: Computed(all, ok) <==> Computed(deeds, ok) || (d.op.OpCompute? && d.choice.computes == ok))
  }

  ghost predicate ExtendsSight(deeds: set<Deed>, d: Deed, all: set<Deed>) {
    && (forall t: nat, st :: Saw(all, t, st) <==>
          Saw(deeds, t, st) || (d.op.OpReadRow? && d.t == t && StatusOf(d.before, t) == st))
    && (forall t: nat, m :: SawMarker(all, t, m) <==> SawMarker(deeds, t, m) || LooksFor(d, t, m))
    && (forall t: nat, m, ripe: bool :: SawAt(all, t, m, ripe) <==> SawAt(deeds, t, m, ripe) || LooksAt(d, t, m, ripe))
    && (forall t: nat, ripe: bool :: SawAge(all, t, ripe) <==>
          SawAge(deeds, t, ripe) || (d.op.OpReadAge? && d.t == t && IsOld(d.before, t) == ripe))
  }

  ghost predicate ExtendsRedis(deeds: set<Deed>, d: Deed, all: set<Deed>) {
    && (forall u: nat, n: nat :: Paid(all, u, n) <==> Paid(deeds, u, n) || Pays(d, u, n))
    && (forall u: nat :: GaveSlot(all, u) <==> GaveSlot(deeds, u) || Frees(d, u))
    && (forall t: nat :: DidAck(all, t) <==> DidAck(deeds, t) || Acks(d, t))
    && (forall u: nat, key: nat :: Forgot(all, u, key) <==> Forgot(deeds, u, key) || Forgets(d, u, key))
    && (forall t: nat :: Unmarked(all, t) <==> Unmarked(deeds, t) || Unmarks(d, t))
  }

  ghost predicate ExtendsGate(deeds: set<Deed>, d: Deed, all: set<Deed>) {
    && (forall p: nat, u: nat, cost: nat, key: nat ::
          WasLetIn(all, p, u, cost, key) <==> WasLetIn(deeds, p, u, cost, key) || Admits(d, p, u, cost, key))
    && (forall u: nat, cost: nat, key: nat, verdict :: WasRefused(all, u, cost, key, verdict) <==>
          WasRefused(deeds, u, cost, key, verdict) || RefusesAs(d, u, cost, key, verdict))
    && (forall p: nat, u: nat, cost: nat, key: nat ::
          DidMark(all, p, u, cost, key) <==> DidMark(deeds, p, u, cost, key) || Marks(d, p, u, cost, key))
    && (forall p: nat, u: nat, cost: nat, key: nat ::
          DidInsert(all, p, u, cost, key) <==> DidInsert(deeds, p, u, cost, key) || Inserts(d, p, u, cost, key))
    && (forall p: nat, u: nat, key: nat ::
          PersistFailed(all, p, u, key) <==> PersistFailed(deeds, p, u, key) || FailsToInsert(d, p, u, key))
  }

  lemma OneMoreOfRow(deeds: set<Deed>, d: Deed)
    ensures ExtendsRow(deeds, d, deeds + {d})
  {
    hide ChangesNothing;
    hide Moves;
    hide Ends;
    hide TooLateToStart;
    hide TooLateToEnd;
    hide LooksFor;
    hide LooksAt;
    hide IsOld;
    hide Pays;
    hide Frees;
    hide Acks;
    hide Forgets;
    hide Unmarks;
    hide Admits;
    hide RefusesAs;
    hide Marks;
    hide Inserts;
    hide FailsToInsert;
    hide StatusOf;
    hide MarkerOf;
  }

  lemma OneMoreOfSight(deeds: set<Deed>, d: Deed)
    ensures ExtendsSight(deeds, d, deeds + {d})
  {
    hide ChangesNothing;
    hide Moves;
    hide Ends;
    hide TooLateToStart;
    hide TooLateToEnd;
    hide LooksFor;
    hide LooksAt;
    hide IsOld;
    hide Pays;
    hide Frees;
    hide Acks;
    hide Forgets;
    hide Unmarks;
    hide Admits;
    hide RefusesAs;
    hide Marks;
    hide Inserts;
    hide FailsToInsert;
    hide StatusOf;
    hide MarkerOf;
  }

  lemma OneMoreOfRedis(deeds: set<Deed>, d: Deed)
    ensures ExtendsRedis(deeds, d, deeds + {d})
  {
    hide ChangesNothing;
    hide Moves;
    hide Ends;
    hide TooLateToStart;
    hide TooLateToEnd;
    hide LooksFor;
    hide LooksAt;
    hide IsOld;
    hide Pays;
    hide Frees;
    hide Acks;
    hide Forgets;
    hide Unmarks;
    hide Admits;
    hide RefusesAs;
    hide Marks;
    hide Inserts;
    hide FailsToInsert;
    hide StatusOf;
    hide MarkerOf;
  }

  lemma OneMoreOfGate(deeds: set<Deed>, d: Deed)
    ensures ExtendsGate(deeds, d, deeds + {d})
  {
    hide ChangesNothing;
    hide Moves;
    hide Ends;
    hide TooLateToStart;
    hide TooLateToEnd;
    hide LooksFor;
    hide LooksAt;
    hide IsOld;
    hide Pays;
    hide Frees;
    hide Acks;
    hide Forgets;
    hide Unmarks;
    hide Admits;
    hide RefusesAs;
    hide Marks;
    hide Inserts;
    hide FailsToInsert;
    hide StatusOf;
    hide MarkerOf;
  }

  lemma NothingDone()
    ensures OnlyLooked({}) && TableUntouched({}) && NeverPaid({}) && !Computed({}, true) && !Computed({}, false)
  {}

  // ----- What an operation does and answers -----

  predicate RowFacts(d: Deed, e: Entry) {
    match d.op
    case OpPersist(u, cost, key) =>
      && e.Flag? && d.after.redis == d.before.redis
      && (if e.b then Inserts(d, d.t, u, cost, key) else FailsToInsert(d, d.t, u, key) && ChangesNothing(d))
    case OpStart =>
      && e == Flag(StatusOf(d.before, d.t) == Some(PENDING)) && d.after.redis == d.before.redis
      && (if e == Flag(true) then Moves(d, d.t, PENDING, RUNNING) else TooLateToStart(d, d.t) && ChangesNothing(d))
    case OpComplete =>
      && e.Flag? && d.after.redis == d.before.redis
      && (if e.b then Moves(d, d.t, RUNNING, COMPLETED) else TooLateToEnd(d, d.t) && ChangesNothing(d))
    case OpFinish(to, u, cost, reason) =>
      && e.Flag? && d.after.redis == d.before.redis
      && (if e.b then Ends(d, d.t, to, LedgerEntry(u, d.t, cost, reason))
          else TooLateToEnd(d, d.t) && ChangesNothing(d))
    case OpReadRow =>
      && ChangesNothing(d) && e.Row?
      && StatusOf(d.before, d.t) == if e.row.Some? then Some(e.row.value.status) else None
    case OpCompute => ChangesNothing(d) && e == Flag(d.choice.computes)
    case OpNone => ChangesNothing(d)
    case _ => d.after.pg == d.before.pg
  }

  predicate RedisFacts(d: Deed, e: Entry) {
    match d.op
    case OpAdmit(u, cost, key) =>
      && e.Decision?
      && (if e.verdict.Admitted? then Admits(d, d.t, u, cost, key)
          else ChangesNothing(d) && RefusesAs(d, u, cost, key, e.verdict))
    case OpMark(u, cost, key) => Marks(d, d.t, u, cost, key) && d.after.redis.credits == d.before.redis.credits
    case OpAddCredits(u, cost) => Pays(d, u, cost)
    case OpDecrement(u) => Frees(d, u) && d.after.redis.credits == d.before.redis.credits
    case OpForgetKey(u, key) => Forgets(d, u, key) && d.after.redis.credits == d.before.redis.credits
    case OpUnmark => Unmarks(d, d.t) && d.after.redis.credits == d.before.redis.credits
    case OpReadMarker =>
      && ChangesNothing(d) && e == Mark(MarkerOf(d.before, d.t)) && LooksFor(d, d.t, MarkerOf(d.before, d.t))
      && (e.marker.Some? ==>
            LooksAt(d, d.t, e.marker.value, d.before.now >= e.marker.value.createdAt + d.before.cfg.orphanTimeout))
    case OpReadAge => ChangesNothing(d) && e.Age? && (e.seconds >= d.before.cfg.orphanTimeout <==> IsOld(d.before, d.t))
    case OpAck => Acks(d, d.t) && d.after.redis.credits == d.before.redis.credits
    case _ => true
  }

  function AnswerIs(w: World, p: nat, c: Choice): Entry
    requires p in w.procs
  {
    Perform(w.cfg, w.now, w.redis, w.pg, TaskOf(p, w.procs[p]), OpOf(w.procs[p]), c).2
  }

  lemma RowDeed(w: World, p: nat, c: Choice)
    requires LedgerInv(w) && p in w.procs
    ensures RowFacts(DeedOf(w, p, c), AnswerIs(w, p, c))
  {
    OperationsWriteTerms(w, p);
    UpdatesMeetRows(w, p);
    hide OpOf;
    hide LedgerInv;
  }

  /** A terminal update is only tried on a row that is there, and a completion only on one that has started. */
  lemma UpdatesMeetRows(w: World, p: nat)
    requires LedgerInv(w) && p in w.procs
    ensures var t, op := TaskOf(p, w.procs[p]), OpOf(w.procs[p]);
            (op.OpFinish? ==> t in w.pg.rows && op.to !in CANCELLABLE) && (op.OpComplete? ==> HasStarted(w.pg, t))
  {
    assert CarriesTerms(w, w.procs[p]);
  }

  lemma RedisDeed(w: World, p: nat, c: Choice)
    requires p in w.procs
    ensures RedisFacts(DeedOf(w, p, c), AnswerIs(w, p, c))
  {
    hide OpOf;
  }

  // ----- One step -----

  ghost predicate Extends(deeds: set<Deed>, d: Deed, all: set<Deed>) {
    && ExtendsRow(deeds, d, all) && ExtendsSight(deeds, d, all) && ExtendsRedis(deeds, d, all)
    && ExtendsGate(deeds, d, all) && RowOrRedis(d)
  }

  /** What changes nothing neither pays nor writes. */
  ghost predicate RowOrRedis(d: Deed) {
    && (ChangesNothing(d) ==> d.after.pg == d.before.pg && d.after.redis.credits == d.before.redis.credits)
    && (d.after.redis == d.before.redis ==> d.after.redis.credits == d.before.redis.credits)
    && (forall u: nat, n: nat :: Pays(d, u, n) ==> d.after.pg == d.before.pg)
    && (forall u: nat :: Frees(d, u) ==> d.after.pg == d.before.pg)
    && (forall p: nat, u: nat, cost: nat, key: nat :: Admits(d, p, u, cost, key) ==> d.after.pg == d.before.pg)
    && (forall p: nat, u: nat, cost: nat, key: nat :: Marks(d, p, u, cost, key) ==> d.after.pg == d.before.pg)
  }

  lemma OneMore(deeds: set<Deed>, d: Deed)
    ensures Extends(deeds, d, deeds + {d})
  {
    OneMoreOfRow(deeds, d);
    OneMoreOfSight(deeds, d);
    OneMoreOfRedis(deeds, d);
    OneMoreOfGate(deeds, d);
    hide ExtendsRow;
    hide ExtendsSight;
    hide ExtendsRedis;
    hide ExtendsGate;
  }

  lemma LookingTouchesNothing(deeds: set<Deed>)
    requires OnlyLooked(deeds)
    ensures TableUntouched(deeds) && NeverPaid(deeds)
  {
    forall d | d in deeds ensures d.after.pg == d.before.pg && d.after.redis.credits == d.before.redis.credits {
      assert ChangesNothing(d);
    }
  }

  lemma SubmitMoveTold(deeds: set<Deed>, d: Deed, all: set<Deed>, e: Entry, p: nat, u: nat, cost: nat, key: nat,
                       pc: SubmitPc)
    requires SubmitTold(deeds, p, u, cost, key, pc) && Extends(deeds, d, all) && d.t == p
    requires d.op == OpOf(Submit(u, cost, key, pc)) && RowFacts(d, e) && RedisFacts(d, e)
    ensures SubmitTold(all, p, u, cost, key, AdvanceSubmit(pc, e))
  {
    NothingDone();
    hide OnlyLooked;
    hide TableUntouched;
    hide NeverPaid;
    hide Moved;
    hide Ended;
    hide LostStart;
    hide LostEnd;
    hide Saw;
    hide SawMarker;
    hide SawAt;
    hide SawAge;
    hide Computed;
    hide Paid;
    hide GaveSlot;
    hide DidAck;
    hide Forgot;
    hide Unmarked;
    hide WasLetIn;
    hide WasRefused;
    hide DidMark;
    hide DidInsert;
    hide PersistFailed;
    hide ChangesNothing;
    hide Moves;
    hide Ends;
    hide TooLateToStart;
    hide TooLateToEnd;
    hide LooksFor;
    hide LooksAt;
    hide IsOld;
    hide Pays;
    hide Frees;
    hide Acks;
    hide Forgets;
    hide Unmarks;
    hide Admits;
    hide RefusesAs;
    hide Marks;
    hide Inserts;
    hide FailsToInsert;
    hide StatusOf;
    hide MarkerOf;
  }

  /** The worker has lost the start and looks for the task. */
  predicate Looking(pc: WorkerPc) { pc.WkReadRow? || pc.WkReadMarker? || pc.WkReadAge? || pc.WkDrop? }

  lemma LookingWorkerTold(deeds: set<Deed>, d: Deed, all: set<Deed>, e: Entry, t: nat, u: nat, cost: nat, pc: WorkerPc)
    requires Looking(pc) && WorkerTold(deeds, t, u, cost, pc) && Extends(deeds, d, all) && d.t == t
    requires d.op == OpOf(Worker(t, u, cost, pc)) && RowFacts(d, e) && RedisFacts(d, e)
    ensures WorkerTold(all, t, u, cost, AdvanceWorker(d.before.cfg, d.before.now, pc, e))
  {
    NothingDone();
    hide OnlyLooked;
    hide TableUntouched;
    hide NeverPaid;
    hide Moved;
    hide Ended;
    hide LostStart;
    hide LostEnd;
    hide Saw;
    hide SawMarker;
    hide SawAt;
    hide SawAge;
    hide Computed;
    hide Paid;
    hide GaveSlot;
    hide DidAck;
    hide Forgot;
    hide Unmarked;
    hide WasLetIn;
    hide WasRefused;
    hide DidMark;
    hide DidInsert;
    hide PersistFailed;
    hide ChangesNothing;
    hide Moves;
    hide Ends;
    hide TooLateToStart;
    hide TooLateToEnd;
    hide LooksFor;
    hide LooksAt;
    hide IsOld;
    hide Pays;
    hide Frees;
    hide Acks;
    hide Forgets;
    hide Unmarks;
    hide Admits;
    hide RefusesAs;
    hide Marks;
    hide Inserts;
    hide FailsToInsert;
    hide StatusOf;
    hide MarkerOf;
    LookingTouchesNothing(deeds);
    if d.op.OpReadRow? && e.row.Some? { assert Saw(all, t, Some(e.row.value.status)); }
    if d.op.OpReadMarker? && e.marker.Some? { assert SawMarker(all, t, Some(e.marker.value)); }
  }

  lemma WorkingWorkerTold(deeds: set<Deed>, d: Deed, all: set<Deed>, e: Entry, t: nat, u: nat, cost: nat, pc: WorkerPc)
    requires !Looking(pc) && WorkerTold(deeds, t, u, cost, pc) && Extends(deeds, d, all) && d.t == t && pc != WkDead
    requires d.op == OpOf(Worker(t, u, cost, pc)) && RowFacts(d, e) && RedisFacts(d, e)
    ensures WorkerTold(all, t, u, cost, AdvanceWorker(d.before.cfg, d.before.now, pc, e))
  {
    NothingDone();
    hide OnlyLooked;
    hide TableUntouched;
    hide NeverPaid;
    hide Moved;
    hide Ended;
    hide LostStart;
    hide LostEnd;
    hide Saw;
    hide SawMarker;
    hide SawAt;
    hide SawAge;
    hide Computed;
    hide Paid;
    hide GaveSlot;
    hide DidAck;
    hide Forgot;
    hide Unmarked;
    hide WasLetIn;
    hide WasRefused;
    hide DidMark;
    hide DidInsert;
    hide PersistFailed;
    hide ChangesNothing;
    hide Moves;
    hide Ends;
    hide TooLateToStart;
    hide TooLateToEnd;
    hide LooksFor;
    hide LooksAt;
    hide IsOld;
    hide Pays;
    hide Frees;
    hide Acks;
    hide Forgets;
    hide Unmarks;
    hide Admits;
    hide RefusesAs;
    hide Marks;
    hide Inserts;
    hide FailsToInsert;
    hide StatusOf;
    hide MarkerOf;
    if OnlyLooked(deeds) { LookingTouchesNothing(deeds); }
  }

  lemma WorkerMoveTold(deeds: set<Deed>, d: Deed, all: set<Deed>, e: Entry, t: nat, u: nat, cost: nat, pc: WorkerPc)
    requires WorkerTold(deeds, t, u, cost, pc) && Extends(deeds, d, all) && d.t == t && pc != WkDead
    requires d.op == OpOf(Worker(t, u, cost, pc)) && RowFacts(d, e) && RedisFacts(d, e)
    ensures WorkerTold(all, t, u, cost, AdvanceWorker(d.before.cfg, d.before.now, pc, e))
  {
    hide WorkerTold;
    hide Extends;
    hide RowFacts;
    hide RedisFacts;
    if Looking(pc) { LookingWorkerTold(deeds, d, all, e, t, u, cost, pc); }
    else { WorkingWorkerTold(deeds, d, all, e, t, u, cost, pc); }
  }

  lemma CancelMoveTold(deeds: set<Deed>, d: Deed, all: set<Deed>, e: Entry, t: nat, pc: CancelPc)
    requires CancelTold(deeds, t, pc) && Extends(deeds, d, all) && d.t == t
    requires d.op == OpOf(Cancel(t, pc)) && RowFacts(d, e) && RedisFacts(d, e)
    ensures CancelTold(all, t, AdvanceCancel(pc, e))
  {
    NothingDone();
    hide OnlyLooked;
    hide TableUntouched;
    hide NeverPaid;
    hide Moved;
    hide Ended;
    hide LostStart;
    hide LostEnd;
    hide Saw;
    hide SawMarker;
    hide SawAt;
    hide SawAge;
    hide Computed;
    hide Paid;
    hide GaveSlot;
    hide DidAck;
    hide Forgot;
    hide Unmarked;
    hide WasLetIn;
    hide WasRefused;
    hide DidMark;
    hide DidInsert;
    hide PersistFailed;
    hide ChangesNothing;
    hide Moves;
    hide Ends;
    hide TooLateToStart;
    hide TooLateToEnd;
    hide LooksFor;
    hide LooksAt;
    hide IsOld;
    hide Pays;
    hide Frees;
    hide Acks;
    hide Forgets;
    hide Unmarks;
    hide Admits;
    hide RefusesAs;
    hide Marks;
    hide Inserts;
    hide FailsToInsert;
    hide StatusOf;
    hide MarkerOf;
    if d.op.OpReadRow? && e.row.Some? { assert Saw(all, t, Some(e.row.value.status)); }
    if pc.CnRefund? { assert Refunded(all, t, pc.user, pc.cost, CANCELLED, CancelRefund); }
    if pc.CnDecrement? {
      var cost :| Refunded(deeds, t, pc.user, cost, CANCELLED, CancelRefund);
      assert Refunded(all, t, pc.user, cost, CANCELLED, CancelRefund);
    }
    if pc.CnUnmark? {
      var u, cost :| Refunded(deeds, t, u, cost, CANCELLED, CancelRefund) && GaveSlot(deeds, u);
      assert Refunded(all, t, u, cost, CANCELLED, CancelRefund) && GaveSlot(all, u);
    }
    if pc == CnDone(Cancelled) {
      var u, cost :| Refunded(deeds, t, u, cost, CANCELLED, CancelRefund) && GaveSlot(deeds, u);
      assert Refunded(all, t, u, cost, CANCELLED, CancelRefund) && GaveSlot(all, u);
    }
  }

  lemma StuckMoveTold(deeds: set<Deed>, d: Deed, all: set<Deed>, e: Entry, t: nat, u: nat, cost: nat, pc: StuckPc)
    requires StuckTold(deeds, t, u, cost, pc) && Extends(deeds, d, all) && d.t == t
    requires d.op == OpOf(Stuck(t, u, cost, pc)) && RowFacts(d, e) && RedisFacts(d, e)
    ensures StuckTold(all, t, u, cost, AdvanceStuck(pc, e))
  {
    NothingDone();
    hide OnlyLooked;
    hide TableUntouched;
    hide NeverPaid;
    hide Moved;
    hide Ended;
    hide LostStart;
    hide LostEnd;
    hide Saw;
    hide SawMarker;
    hide SawAt;
    hide SawAge;
    hide Computed;
    hide Paid;
    hide GaveSlot;
    hide DidAck;
    hide Forgot;
    hide Unmarked;
    hide WasLetIn;
    hide WasRefused;
    hide DidMark;
    hide DidInsert;
    hide PersistFailed;
    hide ChangesNothing;
    hide Moves;
    hide Ends;
    hide TooLateToStart;
    hide TooLateToEnd;
    hide LooksFor;
    hide LooksAt;
    hide IsOld;
    hide Pays;
    hide Frees;
    hide Acks;
    hide Forgets;
    hide Unmarks;
    hide Admits;
    hide RefusesAs;
    hide Marks;
    hide Inserts;
    hide FailsToInsert;
    hide StatusOf;
    hide MarkerOf;
  }

  lemma ReapMoveTold(deeds: set<Deed>, d: Deed, all: set<Deed>, e: Entry, t: nat, pc: ReapPc)
    requires ReapTold(deeds, t, pc) && Extends(deeds, d, all) && d.t == t
    requires d.op == OpOf(Reap(t, pc)) && RowFacts(d, e) && RedisFacts(d, e)
    ensures ReapTold(all, t, AdvanceReap(d.before.cfg, d.before.now, pc, e))
  {
    NothingDone();
    hide OnlyLooked;
    hide TableUntouched;
    hide NeverPaid;
    hide Moved;
    hide Ended;
    hide LostStart;
    hide LostEnd;
    hide Saw;
    hide SawMarker;
    hide SawAt;
    hide SawAge;
    hide Computed;
    hide Paid;
    hide GaveSlot;
    hide DidAck;
    hide Forgot;
    hide Unmarked;
    hide WasLetIn;
    hide WasRefused;
    hide DidMark;
    hide DidInsert;
    hide PersistFailed;
    hide ChangesNothing;
    hide Moves;
    hide Ends;
    hide TooLateToStart;
    hide TooLateToEnd;
    hide LooksFor;
    hide LooksAt;
    hide IsOld;
    hide Pays;
    hide Frees;
    hide Acks;
    hide Forgets;
    hide Unmarks;
    hide Admits;
    hide RefusesAs;
    hide Marks;
    hide Inserts;
    hide FailsToInsert;
    hide StatusOf;
    hide MarkerOf;
    if OnlyLooked(deeds) { LookingTouchesNothing(deeds); }
    if d.op.OpReadRow? && e.row.Some? { assert Saw(all, t, Some(e.row.value.status)); }
    if d.op.OpReadMarker? && e.marker.Some? {
      var m := e.marker.value;
      assert SawAt(all, t, m, d.before.now >= m.createdAt + d.before.cfg.orphanTimeout);
    }
    if pc.RpUnmark? { assert Reaped(all, t, pc.m); }
    if pc == RpDone(Recovered) {
      var m :| Reaped(deeds, t, m);
      assert Reaped(all, t, m);
    }
  }
}
