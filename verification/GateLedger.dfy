/**
 * Solution 1: rows and ledger depend on nothing that Redis, the clock or the reaper may do. The statements here
 * hold for every setting, with handlers that hang for any time, reapers that die, and a Redis that forgets.
 */
module GateLedger {
  import opened Options
  import opened Gate
  import opened GateInvariant
  import opened GateSteps

  // ----- Rough runs -----

  /**
   * Beside the usual events: time passes whatever still runs; a reaper dies, or is slow, and its seat is taken by
   * another one; Redis restarts with any balances, counters, keys and markers and any part of its stream.
   */
  datatype RoughEvent = Usual(ev: Event) | Pause(seconds: nat) | ReaperLeaves | RedisRestarts(redis: Redis)

  predicate PartOf(stream: map<nat, StreamEntry>, whole: map<nat, StreamEntry>) {
    forall t | t in stream :: t in whole && stream[t].user == whole[t].user && stream[t].cost == whole[t].cost
  }

  function RoughNext(w: World, e: RoughEvent): World {
    match e
    case Usual(ev) => Next(w, ev)
    case Pause(seconds) => w.(now := w.now + seconds)
    case ReaperLeaves => w.(reaper := None)
    case RedisRestarts(redis) => if PartOf(redis.stream, w.redis.stream) then w.(redis := redis) else w
  }

  function RoughExec(w: World, es: seq<RoughEvent>): World {
    if es == [] then w else RoughNext(RoughExec(w, es[..|es| - 1]), es[|es| - 1])
  }

  function AsRough(evs: seq<Event>): seq<RoughEvent> { seq(|evs|, i requires 0 <= i < |evs| => Usual(evs[i])) }

  /** Usual runs are rough runs. */
  lemma {:induction false} UsualRunsAreRough(w: World, evs: seq<Event>)
    ensures RoughExec(w, AsRough(evs)) == Exec(w, evs)
  {
    if evs != [] {
      UsualRunsAreRough(w, evs[..|evs| - 1]);
      assert AsRough(evs)[..|evs| - 1] == AsRough(evs[..|evs| - 1]);
    }
  }

  // ----- The invariant -----

  /** A task's row and entries carry its terms, and the entries tell the row's status. */
  ghost predicate TaskTold(pg: Postgres, t: nat, user: nat, cost: nat, key: nat) {
    if t in pg.rows then
      && pg.rows[t] == TaskRow(user, cost, key, pg.rows[t].status)
      && Told(Entries(pg.ledger, t), t, user, cost, Some(pg.rows[t].status))
    else Entries(pg.ledger, t) == []
  }

  ghost predicate RowTold(w: World, t: nat) {
    if t in w.procs && w.procs[t].Submit? then
      TaskTold(w.pg, t, w.procs[t].user, w.procs[t].cost, w.procs[t].key)
    else t !in w.pg.rows && Entries(w.pg.ledger, t) == []
  }

  /** The terms of the submit that named the task. */
  predicate OwnTerms(w: World, t: nat, user: nat, cost: nat) {
    t in w.procs && w.procs[t].Submit? && w.procs[t].user == user && w.procs[t].cost == cost
  }

  predicate HasStarted(pg: Postgres, t: nat) { t in pg.rows && !pg.rows[t].status.PENDING? }

  /** The worker has started the task or found it started. */
  predicate PastStart(pc: WorkerPc) {
    pc.WkCompute? || pc.WkComplete? || pc.WkFail? || pc.WkRefund? || pc.WkDecrement? || pc.WkAck?
  }

  predicate CarriesTerms(w: World, x: Proc) {
    match x
    case Submit(_, _, _, _) => true
    case Worker(t, user, cost, pc) => OwnTerms(w, t, user, cost) && (PastStart(pc) ==> HasStarted(w.pg, t))
    case Cancel(t, pc) => pc.CnFinish? ==> OwnTerms(w, t, pc.user, pc.cost) && t in w.pg.rows
    case Stuck(t, user, cost, _) => OwnTerms(w, t, user, cost) && t in w.pg.rows
    case Reap(_, _) => true
  }

  predicate UniqueKeys(pg: Postgres) {
    forall t1, t2 | t1 in pg.rows && t2 in pg.rows && pg.rows[t1].user == pg.rows[t2].user
                    && pg.rows[t1].key == pg.rows[t2].key :: t1 == t2
  }

  ghost predicate LedgerInv(w: World) {
    && UniqueKeys(w.pg)
    && (forall t: nat :: RowTold(w, t))
    && (forall t | t in w.redis.stream :: OwnTerms(w, t, w.redis.stream[t].user, w.redis.stream[t].cost))
    && (forall p | p in w.procs :: CarriesTerms(w, w.procs[p]))
  }

  // ----- One operation -----

  /** What an operation writes, it writes on its task's terms. */
  predicate WritesTerms(op: Op, user: nat, cost: nat, key: nat) {
    match op
    case OpPersist(u, c, k) => u == user && c == cost && k == key
    case OpFinish(to, u, c, reason) => u == user && c == cost && to in {FAILED, CANCELLED} && reason != TaskDeduct
    case _ => true
  }

  /** How an operation moves its task's row. */
  function RowAfter(row: TaskRow, op: Op, e: Entry): TaskRow {
    if e != Flag(true) then row
    else
      match op
      case OpStart => row.(status := RUNNING)
      case OpComplete => row.(status := COMPLETED)
      case OpFinish(to, _, _, _) => row.(status := to)
      case _ => row
  }

  lemma PerformMovesRow(cfg: Config, now: nat, r: Redis, pg: Postgres, t: nat, op: Op, c: Choice)
    ensures var (_, pg', e) := Perform(cfg, now, r, pg, t, op, c);
            if t in pg.rows then
              && t in pg'.rows && pg'.rows[t] == RowAfter(pg.rows[t], op, e)
              && (op.OpPersist? ==> e != Flag(true))
              && (op.OpStart? || op.OpComplete? || op.OpFinish? ==>
                    e == Flag(true) ==> pg.rows[t].status in CANCELLABLE)
            else
              && (t in pg'.rows <==> op.OpPersist? && e == Flag(true))
              && (t in pg'.rows ==> pg'.rows[t] == TaskRow(op.user, op.cost, op.key, PENDING))
              && (op.OpFinish? ==> e != Flag(true))
  {}

  lemma PerformTells(cfg: Config, now: nat, r: Redis, pg: Postgres, t: nat, op: Op, c: Choice,
                     user: nat, cost: nat, key: nat)
    requires TaskTold(pg, t, user, cost, key) && (op.OpPersist? || t in pg.rows ==> WritesTerms(op, user, cost, key))
    ensures TaskTold(Perform(cfg, now, r, pg, t, op, c).1, t, user, cost, key)
  {
    PerformWritesLedger(cfg, now, r, pg, t, op, c);
    PerformMovesRow(cfg, now, r, pg, t, op, c);
    var pg' := Perform(cfg, now, r, pg, t, op, c).1;
    hide Perform;
    hide Entries;
    if pg'.ledger != pg.ledger {
      EntriesAppend(pg.ledger, pg'.ledger[|pg.ledger|], t);
    }
  }

  lemma PerformTellsNothingElse(cfg: Config, now: nat, r: Redis, pg: Postgres, t: nat, op: Op, c: Choice, t2: nat)
    requires t2 != t
    ensures var pg' := Perform(cfg, now, r, pg, t, op, c).1;
            && (t2 in pg'.rows <==> t2 in pg.rows) && (t2 in pg.rows ==> pg'.rows[t2] == pg.rows[t2])
            && Entries(pg'.ledger, t2) == Entries(pg.ledger, t2)
  {
    PerformTouchesOneTask(cfg, now, r, pg, t, op, c, t2);
    PerformWritesLedger(cfg, now, r, pg, t, op, c);
    var pg' := Perform(cfg, now, r, pg, t, op, c).1;
    hide Perform;
    if pg'.ledger != pg.ledger {
      EntriesAppend(pg.ledger, pg'.ledger[|pg.ledger|], t2);
    }
  }

  lemma PerformKeepsUniqueKeys(cfg: Config, now: nat, r: Redis, pg: Postgres, t: nat, op: Op, c: Choice)
    requires UniqueKeys(pg)
    ensures UniqueKeys(Perform(cfg, now, r, pg, t, op, c).1)
  {}

  lemma PerformKeepsRows(cfg: Config, now: nat, r: Redis, pg: Postgres, t: nat, op: Op, c: Choice, t2: nat)
    requires t2 in pg.rows
    ensures t2 in Perform(cfg, now, r, pg, t, op, c).1.rows
  {}

  lemma PerformNeverRestarts(cfg: Config, now: nat, r: Redis, pg: Postgres, t: nat, op: Op, c: Choice, t2: nat)
    requires HasStarted(pg, t2) && (op.OpFinish? ==> !op.to.PENDING?)
    ensures HasStarted(Perform(cfg, now, r, pg, t, op, c).1, t2)
  {}

  lemma PerformStreams(cfg: Config, now: nat, r: Redis, pg: Postgres, t: nat, op: Op, c: Choice, t2: nat)
    requires t2 in Perform(cfg, now, r, pg, t, op, c).0.stream
    ensures var e := Perform(cfg, now, r, pg, t, op, c).0.stream[t2];
            || (t2 in r.stream && e.user == r.stream[t2].user && e.cost == r.stream[t2].cost)
            || (op.OpAdmit? && t2 == t && e.user == op.user && e.cost == op.cost)
  {}

  /** What a process learns lets it go on. */
  lemma PerformStarts(cfg: Config, now: nat, r: Redis, pg: Postgres, t: nat, op: Op, c: Choice)
    ensures var (_, pg', e) := Perform(cfg, now, r, pg, t, op, c);
            && (op.OpStart? && e == Flag(true) ==> HasStarted(pg', t))
            && (op.OpReadRow? ==> e == Row(if t in pg.rows then Some(pg.rows[t]) else None) && pg' == pg)
  {}

  // ----- One step -----

  lemma SubmitsKeepTerms(w: World, e: RoughEvent, t: nat, user: nat, cost: nat)
    requires OwnTerms(w, t, user, cost)
    ensures OwnTerms(RoughNext(w, e), t, user, cost) && RoughNext(w, e).procs[t].key == w.procs[t].key
  {
    hide Perform;
    hide OpOf;
  }

  lemma OperationsWriteTerms(w: World, p: nat)
    requires LedgerInv(w) && p in w.procs
    ensures var t, op := TaskOf(p, w.procs[p]), OpOf(w.procs[p]);
            && (t in w.procs && w.procs[t].Submit? && (op.OpPersist? || t in w.pg.rows) ==>
                  WritesTerms(op, w.procs[t].user, w.procs[t].cost, w.procs[t].key))
            && (!(t in w.procs && w.procs[t].Submit?) ==> !op.OpPersist? && t !in w.pg.rows)
            && (op.OpFinish? ==> !op.to.PENDING?)
  {
    var t := TaskOf(p, w.procs[p]);
    assert RowTold(w, t) && CarriesTerms(w, w.procs[p]);
  }

  lemma RunKeepsRowTold(w: World, p: nat, c: Choice, t2: nat)
    requires LedgerInv(w) && p in w.procs
    ensures RowTold(RunProc(w, p, c), t2)
  {
    var t, op := TaskOf(p, w.procs[p]), OpOf(w.procs[p]);
    assert RowTold(w, t2);
    OperationsWriteTerms(w, p);
    if t2 != t {
      PerformTellsNothingElse(w.cfg, w.now, w.redis, w.pg, t, op, c, t2);
    } else if t in w.procs && w.procs[t].Submit? {
      PerformTells(w.cfg, w.now, w.redis, w.pg, t, op, c, w.procs[t].user, w.procs[t].cost, w.procs[t].key);
    } else {
      WithoutRowNothing(w.cfg, w.now, w.redis, w.pg, t, op, c);
    }
    hide Perform;
    hide OpOf;
    hide LedgerInv;
    hide Entries;
  }

  lemma WithoutRowNothing(cfg: Config, now: nat, r: Redis, pg: Postgres, t: nat, op: Op, c: Choice)
    requires t !in pg.rows && !op.OpPersist?
    ensures Perform(cfg, now, r, pg, t, op, c).1 == pg
  {}

  /** The process that moves carries its task's terms on. */
  lemma MoverCarriesTerms(w: World, p: nat, c: Choice)
    requires LedgerInv(w) && p in w.procs
    ensures CarriesTerms(RunProc(w, p, c), RunProc(w, p, c).procs[p])
  {
    var x := w.procs[p];
    var t, op, w' := TaskOf(p, x), OpOf(x), RunProc(w, p, c);
    assert CarriesTerms(w, x) && RowTold(w, t);
    PerformStarts(w.cfg, w.now, w.redis, w.pg, t, op, c);
    OperationsWriteTerms(w, p);
    if HasStarted(w.pg, t) { PerformNeverRestarts(w.cfg, w.now, w.redis, w.pg, t, op, c, t); }
    if t in w.pg.rows { PerformKeepsRows(w.cfg, w.now, w.redis, w.pg, t, op, c, t); }
    hide Perform;
    hide LedgerInv;
    hide Told;
    if x.Worker? { SubmitsKeepTerms(w, Usual(Run(p, c)), t, x.user, x.cost); }
    if x.Stuck? { SubmitsKeepTerms(w, Usual(Run(p, c)), t, x.user, x.cost); }
    if t in w.pg.rows { SubmitsKeepTerms(w, Usual(Run(p, c)), t, w.pg.rows[t].user, w.pg.rows[t].cost); }
  }

  lemma OthersCarryTerms(w: World, p: nat, c: Choice, q: nat)
    requires LedgerInv(w) && p in w.procs && q in w.procs && q != p
    ensures CarriesTerms(RunProc(w, p, c), w.procs[q])
  {
    var x := w.procs[q];
    var t := TaskOf(q, x);
    assert CarriesTerms(w, x);
    OperationsWriteTerms(w, p);
    if HasStarted(w.pg, t) {
      PerformNeverRestarts(w.cfg, w.now, w.redis, w.pg, TaskOf(p, w.procs[p]), OpOf(w.procs[p]), c, t);
    }
    if t in w.pg.rows {
      PerformKeepsRows(w.cfg, w.now, w.redis, w.pg, TaskOf(p, w.procs[p]), OpOf(w.procs[p]), c, t);
    }
    if t in w.procs && w.procs[t].Submit? {
      SubmitsKeepTerms(w, Usual(Run(p, c)), t, w.procs[t].user, w.procs[t].cost);
    }
    hide Perform;
    hide OpOf;
    hide LedgerInv;
  }

  lemma RunKeepsLedger(w: World, p: nat, c: Choice)
    requires LedgerInv(w) && p in w.procs
    ensures LedgerInv(RunProc(w, p, c))
  {
    var x, w' := w.procs[p], RunProc(w, p, c);
    var t, op := TaskOf(p, x), OpOf(x);
    PerformKeepsUniqueKeys(w.cfg, w.now, w.redis, w.pg, t, op, c);
    forall t2: nat ensures RowTold(w', t2) { RunKeepsRowTold(w, p, c, t2); }
    forall t2 | t2 in w'.redis.stream
      ensures OwnTerms(w', t2, w'.redis.stream[t2].user, w'.redis.stream[t2].cost)
    {
      PerformStreams(w.cfg, w.now, w.redis, w.pg, t, op, c, t2);
      SubmitsKeepTerms(w, Usual(Run(p, c)), t2, w'.redis.stream[t2].user, w'.redis.stream[t2].cost);
    }
    forall q | q in w'.procs ensures CarriesTerms(w', w'.procs[q]) {
      if q == p { MoverCarriesTerms(w, p, c); } else { OthersCarryTerms(w, p, c, q); }
    }
    hide Perform;
    hide RowTold;
    hide CarriesTerms;
  }

  /** Every other event leaves Postgres alone, and adds nothing to the stream. */
  lemma OutsideLeavesStream(w: World, e: RoughEvent)
    requires !(e.Usual? && e.ev.Run?)
    ensures RoughNext(w, e).pg == w.pg && PartOf(RoughNext(w, e).redis.stream, w.redis.stream)
  {}

  lemma OutsideKeepsRowTold(w: World, e: RoughEvent, t: nat)
    requires LedgerInv(w) && !(e.Usual? && e.ev.Run?)
    ensures RowTold(RoughNext(w, e), t)
  {
    OutsideLeavesStream(w, e);
    assert RowTold(w, t);
    if t in w.procs && w.procs[t].Submit? { SubmitsKeepTerms(w, e, t, w.procs[t].user, w.procs[t].cost); }
    else { OthersNeverSubmit(w, e, t); }
    hide RoughNext;
    hide LedgerInv;
  }

  lemma OthersNeverSubmit(w: World, e: RoughEvent, t: nat)
    requires !(e.Usual? && e.ev.Run?) && t !in w.pg.rows && Entries(w.pg.ledger, t) == []
    requires !(t in w.procs && w.procs[t].Submit?)
    ensures RowTold(RoughNext(w, e), t)
  {
    hide Entries;
  }

  lemma OutsideKeepsLedger(w: World, e: RoughEvent)
    requires LedgerInv(w) && !(e.Usual? && e.ev.Run?)
    ensures LedgerInv(RoughNext(w, e))
  {
    var w' := RoughNext(w, e);
    OutsideLeavesStream(w, e);
    forall t: nat ensures RowTold(w', t) { OutsideKeepsRowTold(w, e, t); }
    hide RoughNext;
    hide RowTold;
    hide CarriesTerms;
    forall t | t in w'.redis.stream
      ensures OwnTerms(w', t, w'.redis.stream[t].user, w'.redis.stream[t].cost)
    {
      SubmitsKeepTerms(w, e, t, w'.redis.stream[t].user, w'.redis.stream[t].cost);
    }
    forall q | q in w'.procs ensures CarriesTerms(w', w'.procs[q]) { OutsideCarriesTerms(w, e, q); }
  }

  lemma OutsideCarriesTerms(w: World, e: RoughEvent, q: nat)
    requires LedgerInv(w) && !(e.Usual? && e.ev.Run?) && q in RoughNext(w, e).procs
    ensures CarriesTerms(RoughNext(w, e), RoughNext(w, e).procs[q])
  {
    hide Perform;
    if q in w.procs {
      var t := TaskOf(q, w.procs[q]);
      assert CarriesTerms(w, w.procs[q]);
      if t in w.procs && w.procs[t].Submit? { SubmitsKeepTerms(w, e, t, w.procs[t].user, w.procs[t].cost); }
    } else if e.ev.StartStuck? {
      assert RowTold(w, e.ev.task);
    }
  }

  lemma {:induction false} EveryRunKeepsLedger(cfg: Config, es: seq<RoughEvent>)
    ensures LedgerInv(RoughExec(Initial(cfg), es))
  {
    if es != [] {
      var w, e := RoughExec(Initial(cfg), es[..|es| - 1]), es[|es| - 1];
      EveryRunKeepsLedger(cfg, es[..|es| - 1]);
      if e.Usual? && e.ev.Run? && e.ev.p in w.procs { RunKeepsLedger(w, e.ev.p, e.ev.choice); }
      else if !(e.Usual? && e.ev.Run?) { OutsideKeepsLedger(w, e); }
      hide LedgerInv;
    }
  }

  // ----- The ledger tells the outcome -----

  ghost function Total(es: seq<LedgerEntry>): int {
    if es == [] then 0 else Total(es[..|es| - 1]) + es[|es| - 1].delta
  }

  ghost function Refunds(es: seq<LedgerEntry>): nat {
    if es == [] then 0 else Refunds(es[..|es| - 1]) + if es[|es| - 1].reason.TaskDeduct? then 0 else 1
  }

  lemma ToldAddsUp(es: seq<LedgerEntry>, t: nat, user: nat, cost: nat, st: TaskStatus)
    requires Told(es, t, user, cost, Some(st))
    ensures Total(es) == if st in {FAILED, CANCELLED} then 0 else -(cost as int)
    ensures Refunds(es) == if st in {FAILED, CANCELLED} then 1 else 0
    ensures forall i | 0 <= i < |es| :: es[i].user == user
  {
    var first := [LedgerEntry(user, t, -(cost as int), TaskDeduct)];
    assert first[..0] == [] && Total([]) == 0 && Refunds([]) == 0;
    assert Total(first) == Total(first[..0]) - cost && Refunds(first) == Refunds(first[..0]);
    if |es| == 2 { assert es[..1] == first; } else { assert es == first; }
  }

  /**
   * Whatever races, crashes, hangs or is forgotten, a task's entries sum to minus its cost while it is pending,
   * running or completed, to nothing once it failed or was cancelled, and hold at most one refund.
   */
  lemma LedgerTellsTheOutcome(cfg: Config, es: seq<RoughEvent>, t: nat)
    ensures var w := RoughExec(Initial(cfg), es); var entries := Entries(w.pg.ledger, t);
            && (t !in w.pg.rows ==> entries == [])
            && (t in w.pg.rows ==>
                  && Total(entries) ==
                       (if w.pg.rows[t].status in {FAILED, CANCELLED} then 0 else -(w.pg.rows[t].cost as int))
                  && Refunds(entries) == (if w.pg.rows[t].status in {FAILED, CANCELLED} then 1 else 0)
                  && forall i | 0 <= i < |entries| :: entries[i].user == w.pg.rows[t].user)
  {
    EveryRunKeepsLedger(cfg, es);
    var w := RoughExec(Initial(cfg), es);
    hide RoughExec;
    assert RowTold(w, t);
    if t in w.pg.rows {
      var row := w.pg.rows[t];
      ToldAddsUp(Entries(w.pg.ledger, t), t, row.user, row.cost, row.status);
    }
  }

  /** Two rows never share a user and a key, and a row's terms are those of the submit that named it. */
  lemma OneRowPerKey(cfg: Config, es: seq<RoughEvent>, t1: nat, t2: nat)
    requires var rows := RoughExec(Initial(cfg), es).pg.rows;
             t1 in rows && t2 in rows && rows[t1].user == rows[t2].user && rows[t1].key == rows[t2].key
    ensures t1 == t2
    ensures var w := RoughExec(Initial(cfg), es); var row := w.pg.rows[t1];
            OwnTerms(w, t1, row.user, row.cost) && w.procs[t1].key == row.key
  {
    EveryRunKeepsLedger(cfg, es);
    hide RoughExec;
    assert RowTold(RoughExec(Initial(cfg), es), t1);
  }

  /** A worker acknowledges the entry of a task it has started or found started; only a drop does without a row. */
  lemma AcksFollowStarts(cfg: Config, es: seq<RoughEvent>, p: nat)
    requires var w := RoughExec(Initial(cfg), es);
             p in w.procs && w.procs[p].Worker? && OpOf(w.procs[p]).OpAck? && !w.procs[p].wpc.WkDrop?
    ensures var w := RoughExec(Initial(cfg), es); HasStarted(w.pg, w.procs[p].task)
  {
    EveryRunKeepsLedger(cfg, es);
    hide RoughExec;
    assert CarriesTerms(RoughExec(Initial(cfg), es), RoughExec(Initial(cfg), es).procs[p]);
  }
}
