/**
 * Solution 1: a worker that finds no row drops the stream entry once the marker is gone and the entry is
 * old. The row may have been committed in between; this module says exactly when that can happen.
 */
module GateLostWork {
  import opened Sums
  import opened Gate
  import opened GateInvariant
  import opened GateSteps
  import opened GateRuns
  import opened GateOutcomes

  // ----- A row that stays missing -----

  predicate MissingForGood(w: World, t: nat) {
    t in w.procs && w.procs[t].Submit? && t !in w.pg.rows && !MayInsert(w, t)
  }

  lemma OnlyTheHandlerInserts(cfg: Config, now: nat, r: Redis, pg: Postgres, t: nat, op: Op, c: Choice, t2: nat)
    requires t2 !in pg.rows && !(t == t2 && op.OpPersist?)
    ensures t2 !in Perform(cfg, now, r, pg, t, op, c).1.rows
  {}

  lemma MissingStaysMissing(w: World, ev: Event, t: nat)
    requires MissingForGood(w, t)
    ensures MissingForGood(Next(w, ev), t)
  {
    hide Perform;
    if ev.Run? && ev.p in w.procs {
      var x := w.procs[ev.p];
      OnlyTheHandlerInserts(w.cfg, w.now, w.redis, w.pg, TaskOf(ev.p, x), OpOf(x), ev.choice, t);
    }
  }

  lemma {:induction false} MissingForEver(w: World, evs: seq<Event>, t: nat)
    requires MissingForGood(w, t)
    ensures MissingForGood(Exec(w, evs), t)
  {
    if evs != [] {
      MissingForEver(w, evs[..|evs| - 1], t);
      MissingStaysMissing(Exec(w, evs[..|evs| - 1]), evs[|evs| - 1], t);
    }
  }

  // ----- Clearing the way for time to pass -----

  function StepsLeft(x: Proc): nat {
    if !x.Submit? then 0
    else
      match x.spc
      case AdMark => 1
      case AdPersist => 1
      case CoCredit => 4
      case CoSlot => 3
      case CoForget => 2
      case CoUnmark => 1
      case _ => 0
  }

  function StepsOf(w: World, t: nat): map<nat, int> {
    map q | q in w.procs && q != t :: StepsLeft(w.procs[q])
  }

  /** Another handler in its window dies or compensates, one step at a time, and disturbs nobody. */
  lemma QuietStep(w: World, q: nat) returns (ev: Event)
    requires Inv(w) && w.cfg.orphanTimeout > 0 && q in w.procs && StepsLeft(w.procs[q]) > 0
    ensures var w' := Next(w, ev);
            && Inv(w') && w'.cfg == w.cfg && w'.now == w.now && w'.pg == w.pg && w'.redis.stream == w.redis.stream
            && q in w'.procs && w'.procs == w.procs[q := w'.procs[q]] && w'.procs[q].Submit?
            && StepsLeft(w'.procs[q]) < StepsLeft(w.procs[q])
  {
    var x := w.procs[q];
    ev := if x.spc.AdMark? || x.spc.AdPersist? then Die(q) else Run(q, Choice(true, true));
    NextKeepsInv(w, ev);
  }

  lemma {:induction false} ClearWindow(w: World, t: nat) returns (evs: seq<Event>)
    requires Inv(w) && w.cfg.orphanTimeout > 0
    ensures var w' := Exec(w, evs);
            && Inv(w') && w'.cfg == w.cfg && w'.now == w.now && w'.pg == w.pg && w'.redis.stream == w.redis.stream
            && w'.procs.Keys == w.procs.Keys
            && (forall q | q in w.procs && (q == t || !w.procs[q].Submit?) :: w'.procs[q] == w.procs[q])
            && (forall q | q in w.procs && q != t :: StepsLeft(w'.procs[q]) == 0)
    decreases Sum(StepsOf(w, t))
  {
    if q :| q in w.procs && q != t && StepsLeft(w.procs[q]) > 0 {
      var ev := QuietStep(w, q);
      var w1 := Next(w, ev);
      assert StepsOf(w1, t) == StepsOf(w, t)[q := StepsLeft(w1.procs[q])];
      SumUpdate(StepsOf(w, t), q, StepsLeft(w1.procs[q]));
      SumNonNegative(StepsOf(w1, t));
      var rest := ClearWindow(w1, t);
      evs := [ev] + rest;
      ExecOne(w, ev);
      ExecConcat(w, [ev], rest);
    } else {
      evs := [];
    }
  }

  // ----- The race -----

  predicate At(w: World, p: nat, pc: WorkerPc, t: nat) {
    p in w.procs && w.procs[p].Worker? && w.procs[p].task == t && w.procs[p].wpc == pc
  }

  /** The unique index does not stop a handler that Redis has admitted. */
  lemma KeyIsFree(w: World, t: nat)
    requires Inv(w) && t in w.procs && w.procs[t].Submit? && w.procs[t].spc.AdPersist? && t !in w.pg.rows
    ensures !KeyTaken(w.pg, w.procs[t].user, w.procs[t].key)
  {
    assert TaskOk(w, t) && ProcOk(w, t);
    forall t2 | t2 in w.pg.rows ensures w.pg.rows[t2].user != w.procs[t].user || w.pg.rows[t2].key != w.procs[t].key {
      assert TaskOk(w, t2);
    }
  }

  /** The handler commits and removes its marker. */
  lemma HandlerCommits(w: World, t: nat) returns (evs: seq<Event>)
    requires Inv(w) && w.cfg.orphanTimeout > 0 && t in w.procs && t !in w.pg.rows
    requires w.procs[t].Submit? && w.procs[t].spc.AdPersist?
    ensures var w' := Exec(w, evs);
            && Inv(w') && w'.cfg == w.cfg && w'.now == w.now && w'.redis.stream == w.redis.stream
            && t in w'.pg.rows && w'.pg.rows[t].status == PENDING && t !in w'.redis.markers
            && t in w'.procs && w'.procs == w.procs[t := w'.procs[t]] && w'.procs[t].Submit?
                 && w'.procs[t].spc == AdDone(Accepted)
  {
    var c := Choice(true, true);
    KeyIsFree(w, t);
    var w1 := Next(w, Run(t, c));
    assert w1.procs[t].spc.AdUnmark? && t in w1.pg.rows && w1.pg.rows[t].status == PENDING;
    evs := [Run(t, c), Run(t, c)];
    assert evs == [Run(t, c)] + [Run(t, c)];
    ExecConcat(w, [Run(t, c)], [Run(t, c)]);
    ExecOne(w, Run(t, c));
    ExecOne(w1, Run(t, c));
    ExecKeepsInv(w, evs);
  }

  lemma HandlerMarks(w: World, t: nat) returns (evs: seq<Event>)
    requires Inv(w) && w.cfg.orphanTimeout > 0 && t in w.slots && t !in w.pg.rows && MayInsert(w, t)
    ensures var w' := Exec(w, evs);
            && Inv(w') && w'.cfg == w.cfg && w'.now == w.now && w'.redis.stream == w.redis.stream && w'.pg == w.pg
            && t in w'.procs && w'.procs == w.procs[t := w'.procs[t]] && w'.procs[t].Submit?
                 && w'.procs[t].spc == AdPersist
  {
    assert TaskOk(w, t);
    evs := if w.procs[t].spc.AdMark? then [Run(t, Choice(true, true))] else [];
    ExecKeepsInv(w, evs);
    if w.procs[t].spc.AdMark? { ExecOne(w, Run(t, Choice(true, true))); }
    else { assert w.procs == w.procs[t := w.procs[t]]; }
  }

  lemma WorkerFindsNoMarker(w: World, p: nat, t: nat, at: nat, c: Choice)
    requires At(w, p, WkReadMarker(at), t) && t !in w.redis.markers
    ensures var w' := Next(w, Run(p, c));
            && At(w', p, WkReadAge(at), t)
            && w'.redis == w.redis && w'.pg == w.pg && w'.now == w.now && w'.cfg == w.cfg
  {}

  lemma WorkerFindsOldEntry(w: World, p: nat, t: nat, at: nat, c: Choice)
    requires At(w, p, WkReadAge(at), t) && t in w.redis.stream && Late(w, t)
    ensures var w' := Next(w, Run(p, c)); At(w', p, WkDrop(at), t) && w'.pg == w.pg
  {}

  lemma TimePasses(w: World, seconds: nat)
    requires forall q | q in w.procs :: StepsLeft(w.procs[q]) == 0
    ensures Next(w, Tick(seconds)) == w.(now := w.now + seconds)
  {
    assert MayTick(w, seconds);
  }

  /** Time passes and the worker finds no marker and an old entry. */
  lemma WorkerDrops(w: World, p: nat, t: nat, at: nat) returns (evs: seq<Event>)
    requires Inv(w) && w.cfg.orphanTimeout > 0 && At(w, p, WkReadMarker(at), t) && t !in w.redis.markers
    requires forall q | q in w.procs :: StepsLeft(w.procs[q]) == 0
    ensures At(Exec(w, evs), p, WkDrop(at), t) && Exec(w, evs).pg == w.pg
  {
    var c := Choice(true, true);
    assert ProcOk(w, p) && TaskOk(w, t);
    var tick, run := Tick(w.cfg.orphanTimeout), Run(p, c);
    TimePasses(w, w.cfg.orphanTimeout);
    var w1 := Next(w, tick);
    WorkerFindsNoMarker(w1, p, t, at, c);
    var w2 := Next(w1, run);
    WorkerFindsOldEntry(w2, p, t, at, c);
    hide Next;
    hide Inv;
    evs := [tick] + [run] + [run];
    ExecConcat(w, [tick] + [run], [run]);
    ExecConcat(w, [tick], [run]);
    ExecOne(w, tick);
    ExecOne(w1, run);
    ExecOne(w2, run);
  }

  /** If the handler may still insert a row read missing, a run loses the task: PENDING, about to be acknowledged. */
  lemma WorkCanBeLost(w: World, p: nat, t: nat, at: nat) returns (evs: seq<Event>)
    requires Inv(w) && w.cfg.orphanTimeout > 0 && At(w, p, WkReadMarker(at), t)
    requires t in w.slots && t !in w.pg.rows && MayInsert(w, t)
    ensures var w' := Exec(w, evs);
            At(w', p, WkDrop(at), t) && t in w'.pg.rows && w'.pg.rows[t].status == PENDING
  {
    assert ProcOk(w, p);
    var a := ClearWindow(w, t);
    var w1 := Exec(w, a);
    assert TaskOk(w1, t) && ProcOk(w1, p);
    var b := HandlerMarks(w1, t);
    var w2 := Exec(w1, b);
    var c := HandlerCommits(w2, t);
    var w3 := Exec(w2, c);
    assert w3.procs == w1.procs[t := w3.procs[t]];
    var d := WorkerDrops(w3, p, t, at);
    evs := a + b + c + d;
    ExecConcat(w, a + b + c, d);
    ExecConcat(w, a + b, c);
    ExecConcat(w, a, b);
  }

  const ONE_USER: Config := Config(60, 1, map[], map[7 := 10])

  /** A delivery that finds no pending row to start. */
  lemma DeliveredUnstarted(w: World, p: nat, t: nat) returns (evs: seq<Event>)
    requires p !in w.procs && t in w.procs && t in w.redis.stream && !w.redis.stream[t].acked && t !in w.pg.rows
    ensures var w' := Exec(w, evs); At(w', p, WkReadRow, t) && w' == w.(procs := w.procs[p := w'.procs[p]])
  {
    var x := Worker(t, w.redis.stream[t].user, w.redis.stream[t].cost, WkStart);
    var deliver, run := Deliver(p, t), Run(p, CHOICE);
    var w1 := Next(w, deliver);
    assert w1 == w.(procs := w.procs[p := x]);
    var w2 := Next(w1, run);
    assert t in w.slots ==> w2.slots[t] == w.slots[t];
    assert w2 == w.(procs := w.procs[p := x.(wpc := WkReadRow)], slots := w2.slots) && w2.slots == w.slots;
    evs := [deliver] + [run];
    ExecConcat(w, [deliver], [run]);
    ExecOne(w, deliver);
    ExecOne(w1, run);
  }

  lemma MissingRowIsRead(w: World, p: nat, t: nat)
    requires At(w, p, WkReadRow, t) && t !in w.pg.rows
    ensures var w' := Next(w, Run(p, CHOICE));
            At(w', p, WkReadMarker(w.now), t) && w' == w.(procs := w.procs[p := w'.procs[p]])
  {
    assert Next(w, Run(p, CHOICE)).slots == w.slots;
  }

  /** A delivery that finds neither a pending row nor any row at all. */
  lemma DeliveredTooEarly(w: World, p: nat, t: nat) returns (evs: seq<Event>)
    requires p !in w.procs && t in w.procs && t in w.redis.stream && !w.redis.stream[t].acked && t !in w.pg.rows
    ensures var w' := Exec(w, evs);
            && At(w', p, WkReadMarker(w.now), t) && w'.procs == w.procs[p := w'.procs[p]]
            && w'.now == w.now && w'.cfg == w.cfg && w'.redis == w.redis && w'.pg == w.pg && w'.slots == w.slots
  {
    var a := DeliveredUnstarted(w, p, t);
    MissingRowIsRead(Exec(w, a), p, t);
    evs := a + [Run(p, CHOICE)];
    ExecConcat(w, a, [Run(p, CHOICE)]);
    ExecOne(Exec(w, a), Run(p, CHOICE));
    hide Next;
    hide Exec;
  }

  /** Task 0 is admitted for user 7 and delivered to worker 1, which finds no row yet. */
  lemma AdmittedAndDelivered() returns (evs: seq<Event>)
    ensures var w := Exec(Initial(ONE_USER), evs);
            At(w, 1, WkReadMarker(w.now), 0) && 0 in w.slots && 0 !in w.pg.rows && MayInsert(w, 0)
  {
    var a := FirstAdmission(7, 10, 5);
    FirstIsAdmitted(ONE_USER, 7, 10, 5);
    var w := Exec(Initial(ONE_USER), a);
    var b := DeliveredTooEarly(w, 1, 0);
    evs := a + b;
    ExecConcat(Initial(ONE_USER), a, b);
  }

  /** A concrete run that acknowledges a pending task's only stream entry next. */
  lemma LostWorkIsReachable() returns (evs: seq<Event>)
    ensures var w := Exec(Initial(ONE_USER), evs);
            (exists at :: At(w, 1, WkDrop(at), 0)) && 0 in w.pg.rows && w.pg.rows[0].status == PENDING
  {
    var a := AdmittedAndDelivered();
    var w := Exec(Initial(ONE_USER), a);
    EveryRunKeepsInv(ONE_USER, a);
    var b := WorkCanBeLost(w, 1, 0, w.now);
    evs := a + b;
    ExecConcat(Initial(ONE_USER), a, b);
  }

  /** If `p` is about to drop its entry, the row is missing and stays so. */
  predicate DropsSafely(w: World, p: nat) {
    p in w.procs && w.procs[p].Worker? && w.procs[p].wpc.WkDrop? ==> Gone(w, w.procs[p].task)
  }

  predicate Gone(w: World, t: nat) { t !in w.pg.rows && !MayInsert(w, t) }

  lemma TaskOfWorkerStays(w: World, ev: Event, p: nat)
    requires p in w.procs && w.procs[p].Worker?
    ensures p in Next(w, ev).procs && Next(w, ev).procs[p].Worker? && Next(w, ev).procs[p].task == w.procs[p].task
  {
    hide Perform;
    hide OpOf;
  }

  lemma {:induction false} TaskOfWorkerStaysFixed(w: World, evs: seq<Event>, p: nat)
    requires p in w.procs && w.procs[p].Worker?
    ensures p in Exec(w, evs).procs && Exec(w, evs).procs[p].Worker? && Exec(w, evs).procs[p].task == w.procs[p].task
  {
    if evs != [] {
      TaskOfWorkerStaysFixed(w, evs[..|evs| - 1], p);
      TaskOfWorkerStays(Exec(w, evs[..|evs| - 1]), evs[|evs| - 1], p);
    }
  }

  /**
   * A worker reads a missing row. Every continuation drops the entry safely if and only if the handler can
   * no longer insert the row at the moment of that read.
   */
  lemma DropIsSafeExactlyWhen(w: World, p: nat, c: Choice)
    requires Inv(w) && p in w.procs && w.procs[p].Worker? && w.procs[p].wpc.WkReadRow?
    requires w.procs[p].task !in w.pg.rows
    ensures (forall evs :: DropsSafely(Exec(Next(w, Run(p, c)), evs), p)) <==> !MayInsert(w, w.procs[p].task)
  {
    var t := w.procs[p].task;
    var w1 := Next(w, Run(p, c));
    assert ProcOk(w, p) && TaskOk(w, t);
    AdmittedStepKeepsInv(w, p, c, t);
    assert At(w1, p, WkReadMarker(w.now), t) && t !in w1.pg.rows && (MayInsert(w1, t) <==> MayInsert(w, t));
    if MayInsert(w, t) {
      var evs := WorkCanBeLost(w1, p, t, w.now);
      assert !DropsSafely(Exec(w1, evs), p);
    } else {
      forall evs ensures DropsSafely(Exec(w1, evs), p) {
        MissingForEver(w1, evs, t);
        TaskOfWorkerStaysFixed(w1, evs, p);
      }
    }
  }

  /** The guard the worker could use: an entry already old when the row is read is always dropped safely. */
  lemma OldEntriesAreDroppedSafely(w: World, p: nat, c: Choice, evs: seq<Event>)
    requires Inv(w) && p in w.procs && w.procs[p].Worker? && w.procs[p].wpc.WkReadRow?
    requires w.procs[p].task !in w.pg.rows
    requires w.procs[p].task in w.redis.stream && Late(w, w.procs[p].task)
    ensures DropsSafely(Exec(Next(w, Run(p, c)), evs), p)
  {
    assert ProcOk(w, p) && TaskOk(w, w.procs[p].task);
    DropIsSafeExactlyWhen(w, p, c);
  }

  // ----- The guard is tight -----

  /** Worker `p` is about to read a missing row when its entry is `age` old. */
  predicate ReadsMissing(w: World, p: nat, age: nat) {
    && p in w.procs && w.procs[p].Worker? && w.procs[p].wpc.WkReadRow? && w.procs[p].task !in w.pg.rows
    && w.procs[p].task in w.redis.stream && w.now == w.redis.stream[w.procs[p].task].addedAt + age
  }

  /** Task 0 is admitted, and delivered to worker 1 when its entry is `age` old; its handler has yet to insert it. */
  lemma DeliveredAtAge(cfg: Config, u: nat, age: nat) returns (evs: seq<Event>)
    requires age < cfg.orphanTimeout && u in cfg.opening && cfg.opening[u] >= 1
    ensures var w := Exec(Initial(cfg), evs);
            At(w, 1, WkReadRow, 0) && ReadsMissing(w, 1, age) && 0 in w.slots && MayInsert(w, 0) && w.now == age
  {
    var a, tick := FirstAdmission(u, 1, 0), Tick(age);
    FirstIsAdmitted(cfg, u, 1, 0);
    var w := Exec(Initial(cfg), a);
    var w1 := Next(w, tick);
    assert w1 == w.(now := age);
    var b := DeliveredUnstarted(w1, 1, 0);
    evs := a + [tick] + b;
    ExecConcat(Initial(cfg), a + [tick], b);
    ExecConcat(Initial(cfg), a, [tick]);
    ExecOne(w, tick);
    hide Next;
    hide Exec;
  }

  /**
   * Below the orphan timeout no age is old enough: for every user who can pay and every such age, some run reads the
   * row missing at that age and then loses the task, PENDING and about to be acknowledged.
   */
  lemma YoungEntryIsLost(cfg: Config, u: nat, age: nat) returns (evs: seq<Event>, more: seq<Event>)
    requires age < cfg.orphanTimeout && u in cfg.opening && cfg.opening[u] >= 1
    ensures var w := Exec(Initial(cfg), evs); var w' := Exec(Next(w, Run(1, CHOICE)), more);
            && ReadsMissing(w, 1, age) && At(w', 1, WkDrop(age), 0)
            && 0 in w'.pg.rows && w'.pg.rows[0].status == PENDING
  {
    evs := DeliveredAtAge(cfg, u, age);
    var w := Exec(Initial(cfg), evs);
    EveryRunKeepsInv(cfg, evs);
    NextKeepsInv(w, Run(1, CHOICE));
    MissingRowIsRead(w, 1, 0);
    more := WorkCanBeLost(Next(w, Run(1, CHOICE)), 1, 0, age);
    hide Exec;
  }

  /** Entries dropped after a row was read missing at this age are safe to drop, in every run and continuation. */
  ghost predicate AgeSuffices(cfg: Config, age: nat) {
    forall evs, p: nat, c, more :: SafeAtAge(Exec(Initial(cfg), evs), p, age, c, more)
  }

  predicate SafeAtAge(w: World, p: nat, age: nat, c: Choice, more: seq<Event>) {
    ReadsMissing(w, p, age) ==> DropsSafely(Exec(Next(w, Run(p, c)), more), p)
  }

  /** The guard the worker could use is the orphan timeout and nothing less, wherever anybody can pay. */
  lemma AgeSufficesExactlyWhen(cfg: Config, u: nat, age: nat)
    requires cfg.orphanTimeout > 0 && u in cfg.opening && cfg.opening[u] >= 1
    ensures AgeSuffices(cfg, age) <==> age >= cfg.orphanTimeout
  {
    if age >= cfg.orphanTimeout {
      forall evs, p: nat, c, more ensures SafeAtAge(Exec(Initial(cfg), evs), p, age, c, more) {
        var w := Exec(Initial(cfg), evs);
        if ReadsMissing(w, p, age) {
          EveryRunKeepsInv(cfg, evs);
          OldEntriesAreDroppedSafely(w, p, c, more);
        }
      }
    } else {
      var evs, more := YoungEntryIsLost(cfg, u, age);
      assert !SafeAtAge(Exec(Initial(cfg), evs), 1, age, CHOICE, more);
    }
  }
}
