/** The invariant of Solution 1 holds along every run. */
module GateRuns {
  import opened Options
  import opened Gate
  import opened GateInvariant
  import opened GateSteps

  // ----- Steps of a process whose task is not admitted -----

  /** Only `p` and the reaper's seat change, and `p` has no part in any admitted task before the step. */
  predicate Aside(w: World, w': World, p: nat) {
    && p in w'.procs && w' == w.(procs := w.procs[p := w'.procs[p]], reaper := w'.reaper)
    && p !in w.slots && (p in w.procs ==> TaskOf(p, w.procs[p]) !in w.slots)
    && (|| w'.reaper == w.reaper
        || (w.reaper.None? && w'.reaper == Some(p))
        || (w.reaper == Some(p) && w'.reaper.None?))
    && (w'.reaper == Some(p) ==> w'.procs[p].Reap? && w'.procs[p].rpc.RpMarker?)
    && (Unfinished(w'.procs[p]) ==> w'.reaper == Some(p))
  }

  lemma AsideKeepsTask(w: World, w': World, p: nat, t: nat)
    requires Inv(w) && Aside(w, w', p)
    ensures TaskOk(w', t)
  {
    assert TaskOk(w, t) && ProcOk(w, p);
    if t in w.slots {
      assert !Cleaning(w, t) || w'.reaper == w.reaper;
      assert Cleaning(w', t) == Cleaning(w, t);
      assert Forgetting(w', t) == Forgetting(w, t);
    }
  }

  lemma AsideKeepsProc(w: World, w': World, p: nat, q: nat)
    requires Inv(w) && Aside(w, w', p) && q != p
    ensures ProcOk(w', q)
  {
    assert ProcOk(w, q);
    if q in w.procs && TaskOf(q, w.procs[q]) in w.slots { assert TaskOk(w, TaskOf(q, w.procs[q])); }
  }

  lemma AsideKeepsInv(w: World, w': World, p: nat)
    requires Inv(w) && Aside(w, w', p) && ProcOk(w', p)
    ensures Inv(w')
  {
    forall t: nat ensures TaskOk(w', t) && LedgerOk(w', t) {
      AsideKeepsTask(w, w', p, t);
      assert LedgerOk(w, t);
    }
    forall q: nat ensures ProcOk(w', q) {
      if q != p { AsideKeepsProc(w, w', p, q); }
    }
  }

  // ----- New processes -----

  lemma NobodyOwesForNewcomer(w: World, p: nat, t: nat)
    requires Inv(w) && p !in w.procs
    ensures p !in w.slots
    ensures t in w.slots ==> w.slots[t].phase != OwesCredit(p) && w.slots[t].phase != OwesSlot(p)
  {
    assert TaskOk(w, t) && TaskOk(w, p);
  }

  lemma StartKeepsInv(w: World, ev: Event)
    requires Inv(w) && (ev.StartSubmit? || ev.Deliver? || ev.StartCancel? || ev.StartStuck? || ev.StartReap?)
    ensures Inv(Next(w, ev))
  {
    var w' := Next(w, ev);
    if w' != w {
      var p := ev.p;
      var t := TaskOf(p, w'.procs[p]);
      NobodyOwesForNewcomer(w, p, t);
      assert TaskOk(w, t);
      assert Aside(w, w', p);
      AsideKeepsTask(w, w', p, t);
      AsideKeepsInv(w, w', p);
    }
  }

  // ----- Steps before admission -----

  lemma UnadmittedStepKeepsInv(w: World, p: nat, c: Choice)
    requires Inv(w) && p in w.procs && TaskOf(p, w.procs[p]) !in w.slots && !OpOf(w.procs[p]).OpAdmit?
    ensures Inv(RunProc(w, p, c))
  {
    var w' := RunProc(w, p, c);
    var t := TaskOf(p, w.procs[p]);
    assert TaskOk(w, t) && ProcOk(w, p) && TaskOk(w, p);
    assert Aside(w, w', p);
    AsideKeepsInv(w, w', p);
  }

  // ----- Admission -----

  lemma AdmitsOnlyNewTasks(w: World, p: nat)
    requires Inv(w) && p in w.procs && OpOf(w.procs[p]).OpAdmit?
    ensures p !in w.slots && w.procs[p].Submit? && w.procs[p].spc.AdGate?
  {
    assert ProcOk(w, p) && TaskOk(w, p);
  }

  lemma RefusalKeepsInv(w: World, p: nat, c: Choice)
    requires Inv(w) && p in w.procs && OpOf(w.procs[p]).OpAdmit?
    requires AnswerOf(w, p, c) != Decision(Admitted)
    ensures Inv(RunProc(w, p, c))
  {
    AdmitsOnlyNewTasks(w, p);
    assert Aside(w, RunProc(w, p, c), p);
    AsideKeepsInv(w, RunProc(w, p, c), p);
  }

  /** What an admission does. */
  predicate Opens(w: World, w': World, p: nat) {
    && p in w.procs && w.procs[p].Submit? && w.procs[p].spc.AdGate? && p !in w.slots
    && var x := w.procs[p];
    && w'.cfg == w.cfg && w'.now == w.now && w'.pg == w.pg && w'.reaper == w.reaper
    && w'.procs == w.procs[p := x.(spc := AdMark)]
    && w'.slots == w.slots[p := Slot(x.user, x.cost, Reserved)]
    && (x.user, x.key) !in w.redis.idem && w'.redis.idem == w.redis.idem[(x.user, x.key) := p]
    && w'.redis.markers == w.redis.markers
    && w'.redis.stream == w.redis.stream[p := StreamEntry(x.user, x.cost, w.now, false)]
  }

  lemma OpeningKeepsTask(w: World, w': World, p: nat, t: nat)
    requires Inv(w) && Opens(w, w', p) && w.cfg.orphanTimeout > 0
    ensures TaskOk(w', t)
  {
    assert TaskOk(w, t) && ProcOk(w, p);
    assert Cleaning(w', t) == Cleaning(w, t) && Forgetting(w', t) == Forgetting(w, t);
    if t == p && w.reaper.Some? { assert ProcOk(w, w.reaper.value); }
  }

  lemma OpeningKeepsProc(w: World, w': World, p: nat, q: nat)
    requires Inv(w) && Opens(w, w', p) && w.cfg.orphanTimeout > 0
    ensures ProcOk(w', q)
  {
    assert ProcOk(w, q);
    if q in w.procs {
      var u := TaskOf(q, w.procs[q]);
      assert TaskOk(w, u);
      OpeningKeepsTask(w, w', p, u);
    }
  }

  lemma OpeningKeepsInv(w: World, w': World, p: nat)
    requires Inv(w) && Opens(w, w', p) && w.cfg.orphanTimeout > 0
    ensures Inv(w')
  {
    forall t: nat ensures TaskOk(w', t) && LedgerOk(w', t) {
      OpeningKeepsTask(w, w', p, t);
      assert LedgerOk(w, t) && TaskOk(w, t);
    }
    forall q: nat ensures ProcOk(w', q) { OpeningKeepsProc(w, w', p, q); }
  }

  /** An admission needs credits to take. */
  lemma AdmissionKeepsInv(w: World, p: nat, c: Choice)
    requires Inv(w) && p in w.procs && OpOf(w.procs[p]).OpAdmit?
    requires w.cfg.orphanTimeout > 0 || NoCredits(w)
    ensures Inv(RunProc(w, p, c))
  {
    AdmitsOnlyNewTasks(w, p);
    if AnswerOf(w, p, c) == Decision(Admitted) { OpeningKeepsInv(w, RunProc(w, p, c), p); }
    else { RefusalKeepsInv(w, p, c); }
  }

  // ----- Death and time -----

  lemma DeathKeepsInv(w: World, p: nat)
    requires Inv(w) && p in w.procs
    ensures Inv(Next(w, Die(p)))
  {
    var t := TaskOf(p, w.procs[p]);
    assert TaskOk(w, t) && ProcOk(w, p);
    if t in w.slots {
      DeathKeepsTask(w, p, t);
      DeathKeepsProc(w, p, t);
      hide Next;
      FocusedStepKeepsInv(w, Next(w, Die(p)), p, t);
    } else {
      assert TaskOk(w, p);
      assert Aside(w, Next(w, Die(p)), p);
      AsideKeepsInv(w, Next(w, Die(p)), p);
    }
  }

  lemma DeathKeepsProc(w: World, p: nat, t: nat)
    requires Inv(w) && p in w.procs && t == TaskOf(p, w.procs[p]) && t in w.slots
    ensures ProcOk(Next(w, Die(p)), p)
  {
    assert TaskOk(w, t) && ProcOk(w, p);
  }

  lemma DeathKeepsTask(w: World, p: nat, t: nat)
    requires Inv(w) && p in w.procs && t == TaskOf(p, w.procs[p]) && t in w.slots
    ensures var w' := Next(w, Die(p));
            && WasAdmitted(w, t) && WasAdmitted(w', t)
            && Undisturbed(p, Unfinished(w.procs[p]), ViewOf(w, t), ViewOf(w', t))
            && TaskOk(w', t)
  {
    var w' := Next(w, Die(p));
    assert TaskOk(w, t) && ProcOk(w, p);
    assert Cleaning(w', t) == Cleaning(w, t) && Forgetting(w', t) == Forgetting(w, t);
  }

  lemma TickKeepsInv(w: World, seconds: nat)
    requires Inv(w)
    ensures Inv(Next(w, Tick(seconds)))
  {
    var w' := Next(w, Tick(seconds));
    forall t: nat ensures TaskOk(w', t) && LedgerOk(w', t) {
      assert TaskOk(w, t) && LedgerOk(w, t);
      assert Cleaning(w', t) == Cleaning(w, t) && Forgetting(w', t) == Forgetting(w, t);
    }
    forall q: nat ensures ProcOk(w', q) {
      assert ProcOk(w, q);
      if q in w.procs { assert TaskOk(w, TaskOf(q, w.procs[q])); }
    }
  }

  // ----- Runs -----

  lemma NextKeepsInv(w: World, ev: Event)
    requires Inv(w) && (w.cfg.orphanTimeout > 0 || NoCredits(w))
    ensures Inv(Next(w, ev)) && Next(w, ev).cfg == w.cfg
  {
    match ev
    case Die(p) => if p in w.procs { DeathKeepsInv(w, p); }
    case Tick(seconds) => TickKeepsInv(w, seconds);
    case Run(p, c) =>
      if p in w.procs {
        var t := TaskOf(p, w.procs[p]);
        if OpOf(w.procs[p]).OpAdmit? { AdmissionKeepsInv(w, p, c); }
        else if t in w.slots { AdmittedStepKeepsInv(w, p, c, t); }
        else { UnadmittedStepKeepsInv(w, p, c); }
      }
    case _ => StartKeepsInv(w, ev);
  }

  /** Every submit costs something. */
  predicate Priced(w: World) { forall p | p in w.procs && w.procs[p].Submit? :: w.procs[p].cost >= 1 }

  /** Nobody can pay for anything. */
  predicate NoCredits(w: World) {
    Priced(w) && w.slots == map[] && forall u | u in w.redis.credits :: w.redis.credits[u] == 0
  }

  lemma NextKeepsPriced(w: World, ev: Event)
    requires Priced(w)
    ensures Priced(Next(w, ev))
  {
    hide Perform;
    hide OpOf;
  }

  lemma NextKeepsNoCredits(w: World, ev: Event)
    requires Inv(w) && NoCredits(w)
    ensures NoCredits(Next(w, ev))
  {
    NextKeepsPriced(w, ev);
    if ev.Run? && ev.p in w.procs { assert ProcOk(w, ev.p); }
  }

  /** The invariant holds in every run, unless submits are admitted whose orphan timeout is over at once. */
  lemma {:induction false} EveryRunKeepsInv(cfg: Config, evs: seq<Event>)
    requires InTime(cfg)
    ensures var w := Exec(Initial(cfg), evs);
            Inv(w) && w.cfg == cfg && Priced(w) && (cfg.orphanTimeout == 0 ==> NoCredits(w))
  {
    if evs == [] { InitiallyInv(cfg); }
    else {
      var w, ev := Exec(Initial(cfg), evs[..|evs| - 1]), evs[|evs| - 1];
      EveryRunKeepsInv(cfg, evs[..|evs| - 1]);
      NextKeepsInv(w, ev);
      NextKeepsPriced(w, ev);
      if cfg.orphanTimeout == 0 { NextKeepsNoCredits(w, ev); }
    }
  }

  // ----- Runs in pieces -----

  /** Runs compose; the crash runs of Solution 4 have their own `Exec`, and this lemma about it. */
  lemma {:induction false} ExecConcat(w: World, a: seq<Event>, b: seq<Event>)
    ensures Exec(w, a + b) == Exec(Exec(w, a), b)
  {
    if b == [] {
      assert a + b == a;
    } else {
      ExecConcat(w, a, b[..|b| - 1]);
      assert (a + b)[..|a + b| - 1] == a + b[..|b| - 1];
    }
  }

  lemma ExecOne(w: World, ev: Event)
    ensures Exec(w, [ev]) == Next(w, ev)
  {
    assert [ev][..0] == [];
  }

  lemma {:induction false} ExecKeepsInv(w: World, evs: seq<Event>)
    requires Inv(w) && w.cfg.orphanTimeout > 0
    ensures Inv(Exec(w, evs)) && Exec(w, evs).cfg == w.cfg
  {
    if evs != [] {
      ExecKeepsInv(w, evs[..|evs| - 1]);
      NextKeepsInv(Exec(w, evs[..|evs| - 1]), evs[|evs| - 1]);
    }
  }

  // ----- The first admission -----

  const CHOICE := Choice(true, true)

  function FirstAdmission(u: nat, cost: nat, key: nat): seq<Event> { [StartSubmit(0, u, cost, key)] + [Run(0, CHOICE)] }

  /** Whoever can pay is admitted first. */
  lemma FirstIsAdmitted(cfg: Config, u: nat, cost: nat, key: nat)
    requires u in cfg.opening && cfg.opening[u] >= cost >= 1
    ensures var w := Exec(Initial(cfg), FirstAdmission(u, cost, key));
            && w.cfg == cfg && w.now == 0 && w.reaper.None? && w.pg == Initial(cfg).pg
            && w.procs == map[0 := Submit(u, cost, key, AdMark)] && w.slots == map[0 := Slot(u, cost, Reserved)]
            && w.redis == Redis(Initial(cfg).redis.credits[u := cfg.opening[u] - cost], map[u := 1], map[(u, key) := 0],
                                map[], map[0 := StreamEntry(u, cost, 0, false)])
  {
    var w0 := Initial(cfg);
    var start, admit := StartSubmit(0, u, cost, key), Run(0, CHOICE);
    ExecConcat(w0, [start], [admit]);
    ExecOne(w0, start);
    ExecOne(Next(w0, start), admit);
    assert LimitOf(cfg, u) >= 1;
  }
}
