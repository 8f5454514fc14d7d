/**
 * Solution 1 as a step system: the Redis admission gate and counters, the Postgres rows and credit
 * ledger, the task stream, and any number of submit handlers, stream workers, cancel handlers and
 * reaper passes that interleave one atomic operation at a time.
 */
module Gate {
  import opened Options

  // ----- Stores -----

  datatype TaskStatus = PENDING | RUNNING | COMPLETED | FAILED | CANCELLED

  datatype TaskRow = TaskRow(user: nat, cost: nat, key: nat, status: TaskStatus)

  datatype Reason = TaskDeduct | FailureRefund | CancelRefund | StuckRefund

  datatype LedgerEntry = LedgerEntry(user: nat, task: nat, delta: int, reason: Reason)

  datatype Marker = Marker(user: nat, cost: nat, key: nat, createdAt: nat)

  datatype StreamEntry = StreamEntry(user: nat, cost: nat, addedAt: nat, acked: bool)

  datatype Redis = Redis(
    credits: map<nat, int>, active: map<nat, int>, idem: map<(nat, nat), nat>,
    markers: map<nat, Marker>, stream: map<nat, StreamEntry>)

  datatype Postgres = Postgres(rows: map<nat, TaskRow>, ledger: seq<LedgerEntry>)

  datatype Tier = FREE | PRO | ENTERPRISE

  datatype Config = Config(orphanTimeout: nat, baseConcurrent: nat, tiers: map<nat, Tier>, opening: map<nat, nat>)

  function TierMultiplier(tier: Tier): nat {
    match tier
    case FREE => 1
    case PRO => 2
    case ENTERPRISE => 4
  }

  function LimitOf(cfg: Config, user: nat): nat {
    var tier := if user in cfg.tiers then cfg.tiers[user] else FREE;
    if cfg.baseConcurrent * TierMultiplier(tier) < 1 then 1 else cfg.baseConcurrent * TierMultiplier(tier)
  }

  /** Nobody is without a slot; with a positive base, PRO has twice and ENTERPRISE four times the slots of FREE. */
  lemma UpgradesMultiplySlots(cfg: Config, u: nat)
    ensures LimitOf(cfg, u) >= 1
    ensures u !in cfg.tiers ==> LimitOf(cfg, u) == LimitOf(cfg.(tiers := cfg.tiers[u := FREE]), u)
    ensures cfg.baseConcurrent >= 1 ==>
              && LimitOf(cfg.(tiers := cfg.tiers[u := FREE]), u) == cfg.baseConcurrent
              && LimitOf(cfg.(tiers := cfg.tiers[u := PRO]), u) == 2 * cfg.baseConcurrent
              && LimitOf(cfg.(tiers := cfg.tiers[u := ENTERPRISE]), u) == 4 * cfg.baseConcurrent
  {}

  /** Submits can be in time, or none is ever admitted: the settings reject no orphan timeout, not even zero. */
  predicate InTime(cfg: Config) { cfg.orphanTimeout > 0 || forall u | u in cfg.opening :: cfg.opening[u] == 0 }

  function ActiveOf(r: Redis, user: nat): int { if user in r.active then r.active[user] else 0 }

  // ----- The two Lua scripts -----

  datatype Verdict = Admitted | Idempotent(task: nat) | Concurrency | CacheMiss | Insufficient

  /** The admission script: all checks, then every key in one atomic write. */
  function Admit(r: Redis, limit: nat, t: nat, user: nat, cost: nat, key: nat, now: nat): (Redis, Verdict) {
    if (user, key) in r.idem then (r, Idempotent(r.idem[(user, key)]))
    else if ActiveOf(r, user) >= limit then (r, Concurrency)
    else if user !in r.credits then (r, CacheMiss)
    else if r.credits[user] < cost then (r, Insufficient)
    else
      (r.(credits := r.credits[user := r.credits[user] - cost],
          stream := r.stream[t := StreamEntry(user, cost, now, false)],
          idem := r.idem[(user, key) := t],
          active := r.active[user := ActiveOf(r, user) + 1]),
       Admitted)
  }

  /** The decrement script; the flag says that it clamped. */
  function DecrementClamped(r: Redis, user: nat): (Redis, bool) {
    if ActiveOf(r, user) <= 0 then (r.(active := r.active[user := 0]), true)
    else (r.(active := r.active[user := ActiveOf(r, user) - 1]), false)
  }

  function AddCredits(r: Redis, user: nat, amount: nat): Redis {
    r.(credits := r.credits[user := (if user in r.credits then r.credits[user] else 0) + amount])
  }

  // ----- Guarded row updates -----

  /** The unique index on user and idempotency key. */
  predicate KeyTaken(pg: Postgres, user: nat, key: nat) {
    exists t :: t in pg.rows && pg.rows[t].user == user && pg.rows[t].key == key
  }

  function Create(pg: Postgres, t: nat, user: nat, cost: nat, key: nat): Postgres {
    Postgres(pg.rows[t := TaskRow(user, cost, key, PENDING)],
             pg.ledger + [LedgerEntry(user, t, -(cost as int), TaskDeduct)])
  }

  function SetStatus(pg: Postgres, t: nat, from: set<TaskStatus>, to: TaskStatus): (Postgres, bool) {
    if t in pg.rows && pg.rows[t].status in from then
      (pg.(rows := pg.rows[t := pg.rows[t].(status := to)]), true)
    else (pg, false)
  }

  const CANCELLABLE: set<TaskStatus> := {PENDING, RUNNING}

  /** One transaction: the guarded terminal update and its refund entry. */
  function Finish(pg: Postgres, t: nat, to: TaskStatus, user: nat, cost: nat, reason: Reason): (Postgres, bool) {
    var (pg', ok) := SetStatus(pg, t, CANCELLABLE, to);
    if ok then (pg'.(ledger := pg'.ledger + [LedgerEntry(user, t, cost, reason)]), true) else (pg, false)
  }

  // ----- Operations -----

  datatype Op =
    | OpAdmit(user: nat, cost: nat, key: nat)
    | OpMark(user: nat, cost: nat, key: nat)
    | OpPersist(user: nat, cost: nat, key: nat)
    | OpAddCredits(user: nat, cost: nat)
    | OpDecrement(user: nat)
    | OpForgetKey(user: nat, key: nat)
    | OpUnmark
    | OpStart | OpComplete
    | OpFinish(to: TaskStatus, user: nat, cost: nat, reason: Reason)
    | OpReadRow | OpReadMarker | OpReadAge
    | OpCompute
    | OpAck
    | OpNone

  datatype Entry =
    | Flag(b: bool) | Decision(verdict: Verdict) | Row(row: Option<TaskRow>) | Mark(marker: Option<Marker>)
    | Age(seconds: nat)

  /** What the environment decides: whether the insert commits, whether the model raises. */
  datatype Choice = Choice(commits: bool, computes: bool)

  function Perform(cfg: Config, now: nat, r: Redis, pg: Postgres, t: nat, op: Op, c: Choice): (Redis, Postgres, Entry) {
    match op
    case OpAdmit(user, cost, key) =>
      var (r', v) := Admit(r, LimitOf(cfg, user), t, user, cost, key, now); (r', pg, Decision(v))
    case OpMark(user, cost, key) => (r.(markers := r.markers[t := Marker(user, cost, key, now)]), pg, Flag(true))
    case OpPersist(user, cost, key) =>
      if c.commits && t !in pg.rows && !KeyTaken(pg, user, key) then (r, Create(pg, t, user, cost, key), Flag(true))
      else (r, pg, Flag(false))
    case OpAddCredits(user, cost) => (AddCredits(r, user, cost), pg, Flag(true))
    case OpDecrement(user) => (DecrementClamped(r, user).0, pg, Flag(true))
    case OpForgetKey(user, key) => (r.(idem := r.idem - {(user, key)}), pg, Flag(true))
    case OpUnmark => (r.(markers := r.markers - {t}), pg, Flag(true))
    case OpStart => var (pg', ok) := SetStatus(pg, t, {PENDING}, RUNNING); (r, pg', Flag(ok))
    case OpComplete => var (pg', ok) := SetStatus(pg, t, {RUNNING}, COMPLETED); (r, pg', Flag(ok))
    case OpFinish(to, user, cost, reason) => var (pg', ok) := Finish(pg, t, to, user, cost, reason); (r, pg', Flag(ok))
    case OpReadRow => (r, pg, Row(if t in pg.rows then Some(pg.rows[t]) else None))
    case OpReadMarker => (r, pg, Mark(if t in r.markers then Some(r.markers[t]) else None))
    case OpReadAge => (r, pg, Age(if t in r.stream && r.stream[t].addedAt <= now then now - r.stream[t].addedAt else 0))
    case OpCompute => (r, pg, Flag(c.computes))
    case OpAck =>
      (if t in r.stream then r.(stream := r.stream[t := r.stream[t].(acked := true)]) else r, pg, Flag(true))
    case OpNone => (r, pg, Flag(true))
  }

  // ----- Submit handler -----

  datatype SubmitEnd = Refused(verdict: Verdict) | Accepted | Compensated

  datatype SubmitPc =
    | AdGate | AdMark | AdPersist | AdUnmark
    | CoCredit | CoSlot | CoForget | CoUnmark
    | AdDone(end: SubmitEnd)
    | AdDead(marked: bool)
    | AdGone

  function AdvanceSubmit(pc: SubmitPc, e: Entry): SubmitPc {
    match pc
    case AdGate => if e == Decision(Admitted) then AdMark else if e.Decision? then AdDone(Refused(e.verdict)) else pc
    case AdMark => AdPersist
    case AdPersist => if e == Flag(true) then AdUnmark else CoCredit
    case AdUnmark => AdDone(Accepted)
    case CoCredit => CoSlot
    case CoSlot => CoForget
    case CoForget => CoUnmark
    case CoUnmark => AdDone(Compensated)
    case AdDone(_) => pc
    case AdDead(_) => pc
    case AdGone => pc
  }

  /** Between admission and the end of the insert, or of its compensation. */
  predicate InWindow(pc: SubmitPc) {
    pc.AdMark? || pc.AdPersist? || pc.CoCredit? || pc.CoSlot? || pc.CoForget? || pc.CoUnmark?
  }

  // ----- Stream worker -----

  /**
   * How a delivery ends: the worker completed or failed the task itself; the task was settled by somebody else;
   * the entry is left for a later delivery; or it is dropped, with no row to be found.
   */
  datatype Delivery = Completed | Failed | Settled | LeftForLater | Dropped

  /** `readAt` records when the missing row was read. */
  datatype WorkerPc =
    | WkStart | WkReadRow
    | WkReadMarker(readAt: nat) | WkReadAge(readAt: nat) | WkDrop(readAt: nat)
    | WkCompute | WkComplete | WkFail
    | WkRefund | WkDecrement(ended: Delivery)
    | WkAck(ended: Delivery)
    | WkDone(outcome: Delivery) | WkDead

  function AdvanceWorker(cfg: Config, now: nat, pc: WorkerPc, e: Entry): WorkerPc {
    match pc
    case WkStart => if e == Flag(true) then WkCompute else WkReadRow
    case WkReadRow =>
      if e == Row(None) then WkReadMarker(now)
      else if e.Row? && e.row.Some? && e.row.value.status.PENDING? then WkDone(LeftForLater)
      else WkAck(Settled)
    case WkReadMarker(at) => if e == Mark(None) then WkReadAge(at) else WkDone(LeftForLater)
    case WkReadAge(at) => if e.Age? && e.seconds >= cfg.orphanTimeout then WkDrop(at) else WkDone(LeftForLater)
    case WkDrop(_) => WkDone(Dropped)
    case WkCompute => if e == Flag(true) then WkComplete else WkFail
    case WkComplete => if e == Flag(true) then WkDecrement(Completed) else WkAck(Settled)
    case WkFail => if e == Flag(true) then WkRefund else WkAck(Settled)
    case WkRefund => WkDecrement(Failed)
    case WkDecrement(ended) => WkAck(ended)
    case WkAck(ended) => WkDone(ended)
    case WkDone(_) => pc
    case WkDead => pc
  }

  // ----- Cancel handler and reaper -----

  datatype CancelAnswer = NotFound | NotCancellable | Cancelled

  datatype CancelPc =
    | CnGet | CnFinish(user: nat, cost: nat) | CnRefund(user: nat, cost: nat) | CnDecrement(user: nat) | CnUnmark
    | CnDone(answer: CancelAnswer) | CnDead

  function AdvanceCancel(pc: CancelPc, e: Entry): CancelPc {
    match pc
    case CnGet =>
      if !(e.Row? && e.row.Some?) then CnDone(NotFound)
      else if e.row.value.status in CANCELLABLE then CnFinish(e.row.value.user, e.row.value.cost)
      else CnDone(NotCancellable)
    case CnFinish(user, cost) => if e == Flag(true) then CnRefund(user, cost) else CnDone(NotCancellable)
    case CnRefund(user, _) => CnDecrement(user)
    case CnDecrement(_) => CnUnmark
    case CnUnmark => CnDone(Cancelled)
    case CnDone(_) => pc
    case CnDead => pc
  }

  datatype StuckPc = SkFinish | SkRefund | SkDecrement | SkDone(recovered: bool) | SkDead

  function AdvanceStuck(pc: StuckPc, e: Entry): StuckPc {
    match pc
    case SkFinish => if e == Flag(true) then SkRefund else SkDone(false)
    case SkRefund => SkDecrement
    case SkDecrement => SkDone(true)
    case SkDone(_) => pc
    case SkDead => pc
  }

  /** What the reaper has made of a marker: nothing yet, a leftover of a persisted task, or an orphan's. */
  datatype Reaping = LeftAlone | Leftover | Recovered

  datatype ReapPc =
    | RpMarker | RpRow(m: Marker) | RpRefund(m: Marker) | RpDecrement(m: Marker) | RpForget(m: Marker)
    | RpUnmark(m: Marker) | RpDrop(m: Marker) | RpDone(outcome: Reaping)

  function AdvanceReap(cfg: Config, now: nat, pc: ReapPc, e: Entry): ReapPc {
    match pc
    case RpMarker =>
      if e.Mark? && e.marker.Some? && now >= e.marker.value.createdAt + cfg.orphanTimeout then RpRow(e.marker.value)
      else RpDone(LeftAlone)
    case RpRow(m) => if e == Row(None) then RpRefund(m) else RpDrop(m)
    case RpRefund(m) => RpDecrement(m)
    case RpDecrement(m) => RpForget(m)
    case RpForget(m) => RpUnmark(m)
    case RpUnmark(_) => RpDone(Recovered)
    case RpDrop(_) => RpDone(Leftover)
    case RpDone(_) => pc
  }

  // ----- Processes -----

  datatype Proc =
    | Submit(user: nat, cost: nat, key: nat, spc: SubmitPc)
    | Worker(task: nat, user: nat, cost: nat, wpc: WorkerPc)
    | Cancel(task: nat, cpc: CancelPc)
    | Stuck(task: nat, user: nat, cost: nat, kpc: StuckPc)
    | Reap(task: nat, rpc: ReapPc)

  /** A submit names its task by its own process identifier. */
  function TaskOf(p: nat, x: Proc): nat {
    if x.Submit? then p else x.task
  }

  function OpOf(x: Proc): Op {
    match x
    case Submit(user, cost, key, pc) =>
      (match pc
       case AdGate => OpAdmit(user, cost, key)
       case AdMark => OpMark(user, cost, key)
       case AdPersist => OpPersist(user, cost, key)
       case AdUnmark => OpUnmark
       case CoCredit => OpAddCredits(user, cost)
       case CoSlot => OpDecrement(user)
       case CoForget => OpForgetKey(user, key)
       case CoUnmark => OpUnmark
       case AdDone(_) => OpNone
       case AdDead(_) => OpNone
       case AdGone => OpNone)
    case Worker(_, user, cost, pc) =>
      (match pc
       case WkStart => OpStart
       case WkReadRow => OpReadRow
       case WkReadMarker(_) => OpReadMarker
       case WkReadAge(_) => OpReadAge
       case WkDrop(_) => OpAck
       case WkCompute => OpCompute
       case WkComplete => OpComplete
       case WkFail => OpFinish(FAILED, user, cost, FailureRefund)
       case WkRefund => OpAddCredits(user, cost)
       case WkDecrement(_) => OpDecrement(user)
       case WkAck(_) => OpAck
       case WkDone(_) => OpNone
       case WkDead => OpNone)
    case Cancel(_, pc) =>
      (match pc
       case CnGet => OpReadRow
       case CnFinish(user, cost) => OpFinish(CANCELLED, user, cost, CancelRefund)
       case CnRefund(user, cost) => OpAddCredits(user, cost)
       case CnDecrement(user) => OpDecrement(user)
       case CnUnmark => OpUnmark
       case CnDone(_) => OpNone
       case CnDead => OpNone)
    case Stuck(_, user, cost, pc) =>
      (match pc
       case SkFinish => OpFinish(FAILED, user, cost, StuckRefund)
       case SkRefund => OpAddCredits(user, cost)
       case SkDecrement => OpDecrement(user)
       case SkDone(_) => OpNone
       case SkDead => OpNone)
    case Reap(_, pc) =>
      (match pc
       case RpMarker => OpReadMarker
       case RpRow(_) => OpReadRow
       case RpRefund(m) => OpAddCredits(m.user, m.cost)
       case RpDecrement(m) => OpDecrement(m.user)
       case RpForget(m) => OpForgetKey(m.user, m.key)
       case RpUnmark(_) => OpUnmark
       case RpDrop(_) => OpUnmark
       case RpDone(_) => OpNone)
  }

  function Advance(cfg: Config, now: nat, x: Proc, e: Entry): Proc {
    match x
    case Submit(_, _, _, pc) => x.(spc := AdvanceSubmit(pc, e))
    case Worker(_, _, _, pc) => x.(wpc := AdvanceWorker(cfg, now, pc, e))
    case Cancel(_, pc) => x.(cpc := AdvanceCancel(pc, e))
    case Stuck(_, _, _, pc) => x.(kpc := AdvanceStuck(pc, e))
    case Reap(_, pc) => x.(rpc := AdvanceReap(cfg, now, pc, e))
  }

  // ----- Global steps -----

  /**
   * What a task's admission still amounts to: credits taken but not yet in the ledger (Reserved), a
   * pending or running row (Live), a refund or a slot that `payer` has yet to give back, or nothing.
   */
  datatype Phase = Reserved | Live | OwesCredit(payer: nat) | OwesSlot(payer: nat) | Freed

  datatype Slot = Slot(user: nat, cost: nat, phase: Phase)

  /** `slots` only records history; `reaper` is the one reaper process busy with a marker, if any. */
  datatype World = World(
    cfg: Config, now: nat, redis: Redis, pg: Postgres, procs: map<nat, Proc>, slots: map<nat, Slot>,
    reaper: Option<nat>)

  /** A submit costs at least one credit. */
  datatype Event =
    | StartSubmit(p: nat, user: nat, cost: nat, key: nat)
    | Deliver(p: nat, task: nat)
    | StartCancel(p: nat, task: nat)
    | StartStuck(p: nat, task: nat)
    | StartReap(p: nat, task: nat)
    | Die(p: nat)
    | Tick(seconds: nat)
    | Run(p: nat, choice: Choice)

  function Initial(cfg: Config): World {
    World(cfg, 0, Redis(map u | u in cfg.opening :: cfg.opening[u], map[], map[], map[], map[]),
          Postgres(map[], []), map[], map[], None)
  }

  function PhaseAfter(phase: Phase, p: nat, op: Op, e: Entry): Phase {
    match op
    case OpPersist(_, _, _) => if e == Flag(true) then Live else phase
    case OpComplete => if e == Flag(true) then OwesSlot(p) else phase
    case OpFinish(_, _, _, _) => if e == Flag(true) then OwesCredit(p) else phase
    case OpAddCredits(_, _) => OwesSlot(p)
    case OpDecrement(_) => Freed
    case _ => phase
  }

  function SlotsAfter(slots: map<nat, Slot>, p: nat, t: nat, op: Op, e: Entry): map<nat, Slot> {
    if op.OpAdmit? then (if e == Decision(Admitted) then slots[t := Slot(op.user, op.cost, Reserved)] else slots)
    else if t in slots then slots[t := slots[t].(phase := PhaseAfter(slots[t].phase, p, op, e))]
    else slots
  }

  function RunProc(w: World, p: nat, c: Choice): World
    requires p in w.procs
  {
    var x := w.procs[p];
    var t := TaskOf(p, x);
    var (r, pg, e) := Perform(w.cfg, w.now, w.redis, w.pg, t, OpOf(x), c);
    var x' := Advance(w.cfg, w.now, x, e);
    w.(redis := r, pg := pg, procs := w.procs[p := x'], slots := SlotsAfter(w.slots, p, t, OpOf(x), e),
       reaper := if x'.Reap? && x'.rpc.RpDone? && w.reaper == Some(p) then None else w.reaper)
  }

  /** A submit that is still in its window when its orphan timeout comes counts as dead. */
  predicate MayTick(w: World, seconds: nat) {
    forall p | p in w.procs && w.procs[p].Submit? && InWindow(w.procs[p].spc) && p in w.redis.stream ::
      w.now + seconds < w.redis.stream[p].addedAt + w.cfg.orphanTimeout
  }

  /**
   * Handlers may die before and after writing the marker, which covers a marker write that fails, and after
   * the commit, which covers a marker removal that fails; workers, cancels and stuck passes any time before they
   * have won a terminal update, and cancels also once they have only the marker left to remove.
   */
  function Dying(x: Proc): Proc {
    match x
    case Submit(_, _, _, pc) =>
      if pc.AdMark? then x.(spc := AdDead(false))
      else if pc.AdPersist? then x.(spc := AdDead(true))
      else if pc.AdUnmark? then x.(spc := AdGone)
      else x
    case Worker(_, _, _, pc) => if pc.WkRefund? || pc.WkDecrement? || pc.WkDone? then x else x.(wpc := WkDead)
    case Cancel(_, pc) => if pc.CnGet? || pc.CnFinish? || pc.CnUnmark? then x.(cpc := CnDead) else x
    case Stuck(_, _, _, pc) => if pc.SkFinish? then x.(kpc := SkDead) else x
    case Reap(_, _) => x
  }

  function Next(w: World, ev: Event): World {
    match ev
    case StartSubmit(p, user, cost, key) =>
      if p in w.procs || cost < 1 then w else w.(procs := w.procs[p := Submit(user, cost, key, AdGate)])
    case Deliver(p, t) =>
      if p in w.procs || t !in w.redis.stream || w.redis.stream[t].acked then w
      else w.(procs := w.procs[p := Worker(t, w.redis.stream[t].user, w.redis.stream[t].cost, WkStart)])
    case StartCancel(p, t) => if p in w.procs then w else w.(procs := w.procs[p := Cancel(t, CnGet)])
    case StartStuck(p, t) =>
      if p in w.procs || t !in w.pg.rows || !w.pg.rows[t].status.RUNNING? then w
      else w.(procs := w.procs[p := Stuck(t, w.pg.rows[t].user, w.pg.rows[t].cost, SkFinish)])
    case StartReap(p, t) =>
      if p in w.procs || w.reaper.Some? then w
      else w.(procs := w.procs[p := Reap(t, RpMarker)], reaper := Some(p))
    case Die(p) => if p in w.procs then w.(procs := w.procs[p := Dying(w.procs[p])]) else w
    case Tick(seconds) => if MayTick(w, seconds) then w.(now := w.now + seconds) else w
    case Run(p, c) => if p in w.procs then RunProc(w, p, c) else w
  }

  function Exec(w: World, evs: seq<Event>): World {
    if evs == [] then w else Next(Exec(w, evs[..|evs| - 1]), evs[|evs| - 1])
  }
}
