/** Solution 1: the settings under which its accounts are not kept, and the leak that no setting prevents. */
module GateBoundary {
  import opened Options
  import opened Gate
  import opened GateRuns
  import opened GateAccounting
  import opened GateOutcomes
  import opened GateLostWork

  // ----- An orphan timeout of zero -----

  /** One handler, whose marker the reaper meets before the row is written. */
  predicate Marked(w: World, u: nat, cost: nat) {
    && w.now == 0 && w.reaper.None? && w.pg == Postgres(map[], []) && u in w.redis.credits && w.redis.credits[u] >= 0
    && w.procs == map[0 := Submit(u, cost, 0, AdPersist)] && w.slots == map[0 := Slot(u, cost, Reserved)]
    && w.redis.active == map[u := 1] && w.redis.markers == map[0 := Marker(u, cost, 0, 0)]
  }

  lemma FirstIsMarked(cfg: Config, u: nat, cost: nat)
    requires u in cfg.opening && cfg.opening[u] >= cost >= 1
    ensures var w := Exec(Initial(cfg), FirstAdmission(u, cost, 0) + [Run(0, CHOICE)]);
            Marked(w, u, cost) && w.cfg == cfg && w.redis.credits[u] == cfg.opening[u] - cost
  {
    FirstIsAdmitted(cfg, u, cost, 0);
    ExecConcat(Initial(cfg), FirstAdmission(u, cost, 0), [Run(0, CHOICE)]);
    ExecOne(Exec(Initial(cfg), FirstAdmission(u, cost, 0)), Run(0, CHOICE));
  }

  /** The reaper takes the marker for an orphan's at once. */
  lemma ReaperFindsMarker(w: World, u: nat, cost: nat)
    requires Marked(w, u, cost) && w.cfg.orphanTimeout == 0
    ensures Exec(w, [StartReap(1, 0), Run(1, CHOICE)]) ==
              w.(procs := w.procs[1 := Reap(0, RpRow(w.redis.markers[0]))], reaper := Some(1))
  {
    var start, run := StartReap(1, 0), Run(1, CHOICE);
    var w1 := Next(w, start);
    assert w1 == w.(procs := w.procs[1 := Reap(0, RpMarker)], reaper := Some(1));
    assert [start, run] == [start] + [run];
    ExecConcat(w, [start], [run]);
    ExecOne(w, start);
    ExecOne(w1, run);
    assert Next(w1, run).slots == w1.slots;
    assert Next(w1, run).procs == w.procs[1 := Reap(0, RpRow(w.redis.markers[0]))];
  }

  lemma ReaperFindsNoRow(w: World, m: Marker)
    requires 1 in w.procs && w.procs[1] == Reap(0, RpRow(m)) && 0 in w.slots && 0 !in w.pg.rows
    ensures Exec(w, [Run(1, CHOICE)]) == w.(procs := w.procs[1 := Reap(0, RpRefund(m))])
  {
    ExecOne(w, Run(1, CHOICE));
    hide Exec;
    var x := w.procs[1];
    assert OpOf(x) == OpReadRow && Advance(w.cfg, w.now, x, Row(None)) == Reap(0, RpRefund(m));
    assert Perform(w.cfg, w.now, w.redis, w.pg, 0, OpReadRow, CHOICE) == (w.redis, w.pg, Row(None));
    assert SlotsAfter(w.slots, 1, 0, OpReadRow, Row(None)) == w.slots;
    hide OpOf;
    hide Advance;
    hide Perform;
    hide SlotsAfter;
    assert Next(w, Run(1, CHOICE)) == RunProc(w, 1, CHOICE);
  }

  /** Credits and slot are given back while the handler has yet to write its row. */
  lemma ReaperRefunds(w: World, u: nat, cost: nat, m: Marker)
    requires 1 in w.procs && w.procs[1] == Reap(0, RpRefund(m)) && m.user == u && m.cost == cost
    requires u in w.redis.credits && u in w.redis.active && w.redis.active[u] == 1
    requires w.slots == map[0 := Slot(u, cost, Reserved)]
    ensures Exec(w, [Run(1, CHOICE), Run(1, CHOICE)]) ==
              w.(redis := w.redis.(credits := w.redis.credits[u := w.redis.credits[u] + cost],
                                   active := w.redis.active[u := 0]),
                 procs := w.procs[1 := Reap(0, RpForget(m))], slots := map[0 := Slot(u, cost, Freed)])
  {
    var run := Run(1, CHOICE);
    var w1 := Next(w, run);
    assert w1 == w.(redis := AddCredits(w.redis, u, cost), procs := w.procs[1 := Reap(0, RpDecrement(m))],
                    slots := map[0 := Slot(u, cost, OwesSlot(1))]);
    var w2 := Next(w1, run);
    assert w2.procs == w.procs[1 := Reap(0, RpForget(m))] && w2.slots == map[0 := Slot(u, cost, Freed)];
    hide Next;
    assert [run, run] == [run] + [run];
    ExecConcat(w, [run], [run]);
    ExecOne(w, run);
    ExecOne(w1, run);
  }

  /** The reaper has given back what the handler, still at work, is about to need. */
  predicate Refunded(w: World, u: nat, cost: nat) {
    && 0 in w.procs && w.procs[0] == Submit(u, cost, 0, AdPersist) && w.pg == Postgres(map[], [])
    && w.slots == map[0 := Slot(u, cost, Freed)] && ActiveOf(w.redis, u) == 0
    && u in w.cfg.opening && u in w.redis.credits && w.redis.credits[u] == w.cfg.opening[u]
  }

  lemma LivingIsRefunded(cfg: Config, u: nat, cost: nat) returns (evs: seq<Event>)
    requires cfg.orphanTimeout == 0 && u in cfg.opening && cfg.opening[u] >= cost >= 1
    ensures Refunded(Exec(Initial(cfg), evs), u, cost) && Exec(Initial(cfg), evs).cfg == cfg
  {
    var a := FirstAdmission(u, cost, 0) + [Run(0, CHOICE)];
    var b := [StartReap(1, 0), Run(1, CHOICE)];
    var c := [Run(1, CHOICE)];
    var d := [Run(1, CHOICE), Run(1, CHOICE)];
    FirstIsMarked(cfg, u, cost);
    var w1 := Exec(Initial(cfg), a);
    var m := w1.redis.markers[0];
    ReaperFindsMarker(w1, u, cost);
    ReaperFindsNoRow(Exec(w1, b), m);
    ReaperRefunds(Exec(Exec(w1, b), c), u, cost, m);
    evs := a + b + c + d;
    ExecConcat(Initial(cfg), a + b + c, d);
    ExecConcat(Initial(cfg), a + b, c);
    ExecConcat(Initial(cfg), a, b);
    hide Exec;
  }

  /** And then the handler commits after all. */
  lemma HandlerCommitsLate(w: World, u: nat, cost: nat)
    requires Refunded(w, u, cost)
    ensures var w' := Next(w, Run(0, CHOICE));
            && w'.redis == w.redis && w'.pg == Create(w.pg, 0, u, cost, 0)
            && w'.slots == w.slots[0 := w.slots[0].(phase := Live)]
  {}

  /**
   * With an orphan timeout of zero the reaper refunds a handler that is still at work: a pending row then
   * holds no slot, and its owner's balance shows no deduction.
   */
  lemma ReaperRefundsTheLiving(cfg: Config, u: nat, cost: nat) returns (evs: seq<Event>)
    requires cfg.orphanTimeout == 0 && u in cfg.opening && cfg.opening[u] >= cost >= 1
    ensures var w := Exec(Initial(cfg), evs);
            && LiveRows(w, u) == Holding(w.slots, u) == {0} && ActiveOf(w.redis, u) == 0
            && u in w.redis.credits && w.redis.credits[u] == cfg.opening[u] + LedgerSum(w.pg.ledger, u) + cost
  {
    var a := LivingIsRefunded(cfg, u, cost);
    var w := Exec(Initial(cfg), a);
    HandlerCommitsLate(w, u, cost);
    evs := a + [Run(0, CHOICE)];
    ExecConcat(Initial(cfg), a, [Run(0, CHOICE)]);
    ExecOne(w, Run(0, CHOICE));
    hide Exec;
    hide Next;
    LedgerSumAppend([], [LedgerEntry(u, 0, -(cost as int), TaskDeduct)], u);
  }

  predicate Bounded(w: World, u: nat) {
    |LiveRows(w, u)| + |Unpersisted(w, u)| <= ActiveOf(w.redis, u) <= LimitOf(w.cfg, u)
  }

  /** The counter bounds what a user has in flight in every run, if and only if an admitted submit can be in time. */
  lemma ConcurrencyBoundExactlyWhen(cfg: Config)
    ensures (forall evs, u: nat :: Bounded(Exec(Initial(cfg), evs), u)) <==> InTime(cfg)
  {
    if InTime(cfg) {
      forall evs, u: nat ensures Bounded(Exec(Initial(cfg), evs), u) {
        EveryRunKeepsInv(cfg, evs);
        ConcurrencyBound(cfg, evs, u);
      }
    } else {
      var u: nat :| u in cfg.opening && cfg.opening[u] > 0;
      var evs := ReaperRefundsTheLiving(cfg, u, 1);
      assert !Bounded(Exec(Initial(cfg), evs), u);
    }
  }

  /** The same condition decides whether balances and counters account for the ledger in every run. */
  lemma AccountsExactlyWhen(cfg: Config)
    ensures (forall evs :: Accounts(Exec(Initial(cfg), evs))) <==> InTime(cfg)
  {
    if InTime(cfg) {
      forall evs ensures Accounts(Exec(Initial(cfg), evs)) { EveryRunKeepsAccounts(cfg, evs); }
    } else {
      var u: nat :| u in cfg.opening && cfg.opening[u] > 0;
      var evs := ReaperRefundsTheLiving(cfg, u, 1);
      assert !ActiveOk(Exec(Initial(cfg), evs), u);
    }
  }

  // ----- Late drops -----

  /** Task 0 is delivered before its handler has written anything, and the worker takes it for an orphan at once. */
  lemma LivingTaskIsDropped(cfg: Config, u: nat) returns (evs: seq<Event>)
    requires cfg.orphanTimeout == 0 && u in cfg.opening && cfg.opening[u] >= 1
    ensures var w := Exec(Initial(cfg), evs); DropsLate(w, 1) && w.procs[1].task == 0 && MayInsert(w, 0)
  {
    var a, run := FirstAdmission(u, 1, 0), Run(1, CHOICE);
    FirstIsAdmitted(cfg, u, 1, 0);
    var w := Exec(Initial(cfg), a);
    var b := DeliveredTooEarly(w, 1, 0);
    var w1 := Exec(w, b);
    WorkerFindsNoMarker(w1, 1, 0, 0, CHOICE);
    var w2 := Next(w1, run);
    OldEntryIsDropped(w2, 1, 0, CHOICE);
    evs := a + b + [run] + [run];
    ExecConcat(Initial(cfg), a + b + [run], [run]);
    ExecConcat(Initial(cfg), a + b, [run]);
    ExecConcat(Initial(cfg), a, b);
    ExecOne(w1, run);
    ExecOne(w2, run);
    hide Next;
    hide Exec;
  }

  lemma OldEntryIsDropped(w: World, p: nat, t: nat, c: Choice)
    requires At(w, p, WkReadAge(0), t) && t in w.redis.stream && w.redis.stream[t].addedAt == 0
    requires w.cfg.orphanTimeout == 0 && p != t && MayInsert(w, t)
    ensures DropsLate(Next(w, Run(p, c)), p) && Next(w, Run(p, c)).procs[p].task == t
    ensures MayInsert(Next(w, Run(p, c)), t)
  {}

  /** The row read missing after the timeout stays missing. */
  predicate DropIsFinal(w: World, p: nat) {
    DropsLate(w, p) ==> w.procs[p].task !in w.pg.rows && !MayInsert(w, w.procs[p].task)
  }

  /** The same condition again decides whether late drops lose no work in every run. */
  lemma LateDropsAreFinalExactlyWhen(cfg: Config)
    ensures (forall evs, p: nat :: DropIsFinal(Exec(Initial(cfg), evs), p)) <==> InTime(cfg)
  {
    if InTime(cfg) {
      forall evs, p: nat ensures DropIsFinal(Exec(Initial(cfg), evs), p) {
        if DropsLate(Exec(Initial(cfg), evs), p) {
          EveryRunKeepsInv(cfg, evs);
          AcksLoseNoWork(cfg, evs, p);
        }
      }
    } else {
      var u: nat :| u in cfg.opening && cfg.opening[u] > 0;
      var evs := LivingTaskIsDropped(cfg, u);
      assert !DropIsFinal(Exec(Initial(cfg), evs), 1);
    }
  }

  // ----- A leak -----

  /** Whoever can pay can lose credits and a slot to a handler that dies before its marker is written. */
  lemma LeakIsReachable(cfg: Config, u: nat, cost: nat, key: nat)
    requires u in cfg.opening && cfg.opening[u] >= cost >= 1
    ensures var w := Exec(Initial(cfg), FirstAdmission(u, cost, key) + [Die(0)]);
            && Leaked(w, 0) && Quiet(w) && w.pg == Postgres(map[], []) && ActiveOf(w.redis, u) == 1
            && u in w.redis.credits && w.redis.credits[u] == cfg.opening[u] - cost
  {
    FirstIsAdmitted(cfg, u, cost, key);
    ExecConcat(Initial(cfg), FirstAdmission(u, cost, key), [Die(0)]);
    ExecOne(Exec(Initial(cfg), FirstAdmission(u, cost, key)), Die(0));
  }
}
