/** Every step of Solution 1 keeps the invariant. */
module GateSteps {
  import opened Options
  import opened Gate
  import opened GateInvariant

  // ----- One operation as its own task sees it -----

  predicate Effect(op: Op, e: Entry, p: nat, v: View, v': View) {
    && v'.phase == PhaseAfter(v.phase, p, op, e)
    && (match op
        case OpMark(_, _, _) => v'.marked
        case OpUnmark => !v'.marked
        case _ => v'.marked == v.marked)
    && (match op
        case OpPersist(_, _, _) =>
          e.Flag? && (if e.b then v.st.None? && v'.st == Some(PENDING) else v'.st == v.st)
        case OpStart => e == Flag(v.st == Some(PENDING)) && v'.st == if e.b then Some(RUNNING) else v.st
        case OpComplete => e == Flag(v.st == Some(RUNNING)) && v'.st == if e.b then Some(COMPLETED) else v.st
        case OpFinish(to, _, _, _) =>
          e == Flag(v.st.Some? && v.st.value in CANCELLABLE) && v'.st == if e.b then Some(to) else v.st
        case OpReadRow =>
          v'.st == v.st && e.Row? && (if e.row.Some? then v.st == Some(e.row.value.status) else v.st.None?)
        case OpReadMarker => v'.st == v.st && e.Mark? && (e.marker.Some? <==> v.marked)
        case OpReadAge => v'.st == v.st && e.Age?
        case _ => v'.st == v.st && e.Flag?)
  }

  function AnswerOf(w: World, p: nat, c: Choice): Entry
    requires p in w.procs
  {
    Perform(w.cfg, w.now, w.redis, w.pg, TaskOf(p, w.procs[p]), OpOf(w.procs[p]), c).2
  }

  function ViewIn(r: Redis, pg: Postgres, t: nat, spc: SubmitPc, phase: Phase): View {
    View(spc, phase, if t in pg.rows then Some(pg.rows[t].status) else None, t in r.markers)
  }

  lemma PerformHasEffect(cfg: Config, now: nat, r: Redis, pg: Postgres, t: nat, op: Op, c: Choice,
                         p: nat, spc: SubmitPc, spc': SubmitPc, phase: Phase)
    requires !op.OpAdmit?
    ensures var (r', pg', e) := Perform(cfg, now, r, pg, t, op, c);
            && Effect(op, e, p, ViewIn(r, pg, t, spc, phase), ViewIn(r', pg', t, spc', PhaseAfter(phase, p, op, e)))
            && (t in r.stream ==> t in r'.stream && r'.stream[t] == r.stream[t].(acked := r'.stream[t].acked))
  {}

  lemma StepHasEffect(w: World, p: nat, c: Choice, t: nat)
    requires Inv(w) && p in w.procs && t == TaskOf(p, w.procs[p]) && t in w.slots && !OpOf(w.procs[p]).OpAdmit?
    ensures var w' := RunProc(w, p, c);
            && WasAdmitted(w, t) && WasAdmitted(w', t)
            && Effect(OpOf(w.procs[p]), AnswerOf(w, p, c), p, ViewOf(w, t), ViewOf(w', t))
            && w'.procs[p] == Advance(w.cfg, w.now, w.procs[p], AnswerOf(w, p, c))
            && (p != t ==> ViewOf(w', t).spc == ViewOf(w, t).spc)
  {
    assert TaskOk(w, t);
    var x, e := w.procs[p], AnswerOf(w, p, c);
    var x' := Advance(w.cfg, w.now, x, e);
    PerformHasEffect(w.cfg, w.now, w.redis, w.pg, t, OpOf(x), c, p, w.procs[t].spc,
                     if p == t then x'.spc else w.procs[t].spc, w.slots[t].phase);
    hide Perform;
    hide OpOf;
    hide Effect;
    hide AdvanceSubmit;
  }

  /** What others may rely on while `p` moves; `reaping` says that `p` is the busy reaper. */
  predicate Undisturbed(p: nat, reaping: bool, v: View, v': View) {
    && ((v.phase.OwesCredit? || v.phase.OwesSlot?) && v.phase.payer != p ==> v'.phase == v.phase)
    && (v'.phase != v.phase && (v'.phase.OwesCredit? || v'.phase.OwesSlot?) ==> v'.phase.payer == p)
    && (v.st.Some? ==> v'.st.Some? && (!v.st.value.PENDING? ==> !v'.st.value.PENDING?))
    && (v.st.None? && !InWindow(v.spc) ==> v'.st.None? && !InWindow(v'.spc))
    && (v.spc == AdDead(true) ==> v'.spc == v.spc && (!reaping ==> v'.phase == v.phase && v'.marked == v.marked))
  }

  predicate CleaningBy(x: Proc) { x.Reap? && (x.rpc.RpForget? || x.rpc.RpUnmark?) }

  function BusyAfter(p: nat, x': Proc, busy: Option<nat>): Option<nat> {
    if x'.Reap? && x'.rpc.RpDone? && busy == Some(p) then None else busy
  }

  predicate ForgettingBy(x: Proc) { x.Reap? && x.rpc.RpForget? }

  /** The whole local argument: one process, its task, one operation. */
  predicate LocalPre(p: nat, t: nat, x: Proc, v: View, busy: Option<nat>, cleaning: bool, late: bool, addedAt: nat,
                     timeout: nat, now: nat) {
    && (x.Submit? ==> t == p && v.spc == x.spc) && (!x.Submit? ==> t != p)
    && ViewOk(v, t, busy, cleaning) && DebtOk(p, x, v.phase) && ProgressOk(x, v, late, addedAt, timeout, now)
    && (Unfinished(x) ==> busy == Some(p) && cleaning == CleaningBy(x))
    && (InWindow(v.spc) ==> !late)
    && (late <==> now >= addedAt + timeout)
  }

  predicate LocalPost(p: nat, t: nat, x': Proc, v: View, v': View, reaping: bool, busy: Option<nat>, cleaning: bool,
                      late: bool, addedAt: nat, timeout: nat, now: nat) {
    && ViewOk(v', t, busy, cleaning) && DebtOk(p, x', v'.phase) && ProgressOk(x', v', late, addedAt, timeout, now)
    && Undisturbed(p, reaping, v, v')
    && (InWindow(v'.spc) ==> InWindow(v.spc))
  }

  lemma SubmitMoves(cfg: Config, p: nat, x: Proc, e: Entry, v: View, v': View, busy: Option<nat>, cleaning: bool,
                    late: bool, addedAt: nat, now: nat)
    requires x.Submit? && !x.spc.AdGate? && LocalPre(p, p, x, v, busy, cleaning, late, addedAt, cfg.orphanTimeout, now)
    requires Effect(OpOf(x), e, p, v, v') && v'.spc == AdvanceSubmit(v.spc, e)
    ensures LocalPost(p, p, Advance(cfg, now, x, e), v, v', false, busy, cleaning,
                      late, addedAt, cfg.orphanTimeout, now)
  {}

  /** The worker is still looking for a row to start, or has nothing left to do. */
  predicate Looking(pc: WorkerPc) {
    pc.WkStart? || pc.WkReadRow? || pc.WkReadMarker? || pc.WkReadAge? || pc.WkDrop? || pc.WkDone? || pc.WkDead?
  }

  lemma LookingWorkerMoves(cfg: Config, p: nat, t: nat, x: Proc, e: Entry, v: View, v': View, busy: Option<nat>,
                           cleaning: bool, late: bool, addedAt: nat, now: nat)
    requires x.Worker? && LocalPre(p, t, x, v, busy, cleaning, late, addedAt, cfg.orphanTimeout, now)
    requires Effect(OpOf(x), e, p, v, v') && v'.spc == v.spc
    requires Looking(x.wpc)
    ensures LocalPost(p, t, Advance(cfg, now, x, e), v, v', false, busy, cleaning,
                      late, addedAt, cfg.orphanTimeout, now)
  {}

  lemma StartedWorkerMoves(cfg: Config, p: nat, t: nat, x: Proc, e: Entry, v: View, v': View, busy: Option<nat>,
                           cleaning: bool, late: bool, addedAt: nat, now: nat)
    requires x.Worker? && LocalPre(p, t, x, v, busy, cleaning, late, addedAt, cfg.orphanTimeout, now)
    requires Effect(OpOf(x), e, p, v, v') && v'.spc == v.spc
    requires !Looking(x.wpc)
    ensures LocalPost(p, t, Advance(cfg, now, x, e), v, v', false, busy, cleaning,
                      late, addedAt, cfg.orphanTimeout, now)
  {}

  lemma WorkerMoves(cfg: Config, p: nat, t: nat, x: Proc, e: Entry, v: View, v': View, busy: Option<nat>,
                    cleaning: bool, late: bool, addedAt: nat, now: nat)
    requires x.Worker? && LocalPre(p, t, x, v, busy, cleaning, late, addedAt, cfg.orphanTimeout, now)
    requires Effect(OpOf(x), e, p, v, v') && v'.spc == v.spc
    ensures LocalPost(p, t, Advance(cfg, now, x, e), v, v', false, busy, cleaning,
                      late, addedAt, cfg.orphanTimeout, now)
  {
    if Looking(x.wpc) { LookingWorkerMoves(cfg, p, t, x, e, v, v', busy, cleaning, late, addedAt, now); }
    else { StartedWorkerMoves(cfg, p, t, x, e, v, v', busy, cleaning, late, addedAt, now); }
  }

  lemma CancelMoves(cfg: Config, p: nat, t: nat, x: Proc, e: Entry, v: View, v': View, busy: Option<nat>,
                    cleaning: bool, late: bool, addedAt: nat, now: nat)
    requires x.Cancel? && LocalPre(p, t, x, v, busy, cleaning, late, addedAt, cfg.orphanTimeout, now)
    requires Effect(OpOf(x), e, p, v, v') && v'.spc == v.spc
    ensures LocalPost(p, t, Advance(cfg, now, x, e), v, v', false, busy, cleaning,
                      late, addedAt, cfg.orphanTimeout, now)
  {}

  lemma StuckMoves(cfg: Config, p: nat, t: nat, x: Proc, e: Entry, v: View, v': View, busy: Option<nat>,
                   cleaning: bool, late: bool, addedAt: nat, now: nat)
    requires x.Stuck? && LocalPre(p, t, x, v, busy, cleaning, late, addedAt, cfg.orphanTimeout, now)
    requires Effect(OpOf(x), e, p, v, v') && v'.spc == v.spc
    ensures LocalPost(p, t, Advance(cfg, now, x, e), v, v', false, busy, cleaning,
                      late, addedAt, cfg.orphanTimeout, now)
  {}

  lemma ReapMoves(cfg: Config, p: nat, t: nat, x: Proc, e: Entry, v: View, v': View, busy: Option<nat>,
                  cleaning: bool, late: bool, addedAt: nat, now: nat)
    requires x.Reap? && Unfinished(x) && LocalPre(p, t, x, v, busy, cleaning, late, addedAt, cfg.orphanTimeout, now)
    requires Effect(OpOf(x), e, p, v, v') && v'.spc == v.spc
    requires x.rpc.RpMarker? && e.marker.Some? ==> e.marker.value.createdAt >= addedAt
    ensures var x' := Advance(cfg, now, x, e);
            LocalPost(p, t, x', v, v', true, BusyAfter(p, x', busy), CleaningBy(x'),
                      late, addedAt, cfg.orphanTimeout, now)
  {}

  // ----- Lifting to the whole state -----

  predicate SameFor(w: World, w': World, t: nat) {
    && (t in w'.pg.rows <==> t in w.pg.rows) && (t in w.pg.rows ==> w'.pg.rows[t] == w.pg.rows[t])
    && (t in w'.redis.markers <==> t in w.redis.markers)
         && (t in w.redis.markers ==> w'.redis.markers[t] == w.redis.markers[t])
    && (t in w'.redis.stream <==> t in w.redis.stream)
         && (t in w.redis.stream ==> w'.redis.stream[t] == w.redis.stream[t])
    && (t in w'.slots <==> t in w.slots) && (t in w.slots ==> w'.slots[t] == w.slots[t])
  }

  /** A step of `p` on its own task `t`. */
  ghost predicate Focused(w: World, w': World, p: nat, t: nat) {
    && w'.cfg == w.cfg && w'.now == w.now
    && p in w.procs && p in w'.procs && w'.procs == w.procs[p := w'.procs[p]]
    && TaskOf(p, w.procs[p]) == t && TaskOf(p, w'.procs[p]) == t
    && (w'.procs[p].Submit? <==> w.procs[p].Submit?) && (w'.procs[p].Reap? <==> w.procs[p].Reap?)
    && (w.procs[p].Submit? ==> w'.procs[p] == w.procs[p].(spc := w'.procs[p].spc))
    && (forall t2: nat | t2 != t :: SameFor(w, w', t2))
    && (forall uk | uk in w.redis.idem && w.redis.idem[uk] != t :: uk in w'.redis.idem
         && w'.redis.idem[uk] == w.redis.idem[uk])
    && w'.reaper == BusyAfter(p, w'.procs[p], w.reaper)
    && (Unfinished(w'.procs[p]) ==> Unfinished(w.procs[p]))
  }

  lemma OtherTaskKept(w: World, w': World, p: nat, t: nat, t2: nat)
    requires Inv(w) && Focused(w, w', p, t) && t2 != t
    ensures TaskOk(w', t2)
  {
    assert TaskOk(w, t2) && ProcOk(w, p);
    assert SameFor(w, w', t2);
    if t2 in w.slots {
      assert Cleaning(w', t2) == Cleaning(w, t2);
      assert Forgetting(w', t2) == Forgetting(w, t2);
    }
  }

  lemma ProcOfOtherTaskKept(w: World, w': World, p: nat, t: nat, q: nat)
    requires Inv(w) && Focused(w, w', p, t) && q != p && q in w.procs && TaskOf(q, w.procs[q]) != t
    ensures ProcOk(w', q)
  {
    var u := TaskOf(q, w.procs[q]);
    assert ProcOk(w, q) && TaskOk(w, u) && ProcOk(w, p);
    assert SameFor(w, w', u);
    if u in w.slots { OtherTaskKept(w, w', p, t, u); }
  }

  lemma ProcOfSameTaskKept(w: World, w': World, p: nat, t: nat, q: nat)
    requires Inv(w) && Focused(w, w', p, t) && q != p && q in w.procs && TaskOf(q, w.procs[q]) == t
    requires t in w.slots && WasAdmitted(w, t) && WasAdmitted(w', t)
    requires w'.redis.stream[t].addedAt == w.redis.stream[t].addedAt
    requires Undisturbed(p, Unfinished(w.procs[p]), ViewOf(w, t), ViewOf(w', t))
    ensures ProcOk(w', q)
  {
    assert ProcOk(w, q) && ProcOk(w, p);
  }

  /** The ledger grows by at most one entry, for the task at hand, that tells its new status. */
  ghost predicate LedgerGrows(w: World, w': World, t: nat) {
    || (w'.pg.ledger == w.pg.ledger && StatusOf(w', t) == StatusOf(w, t))
    || (w'.pg.ledger == w.pg.ledger && t in w.slots && StatusOf(w, t).Some? && StatusOf(w', t).Some?
        && StatusOf(w, t).value in CANCELLABLE && StatusOf(w', t).value in {RUNNING, COMPLETED})
    || (t in w.slots && exists e: LedgerEntry ::
          && w'.pg.ledger == w.pg.ledger + [e] && e.task == t && e.user == w.slots[t].user
          && ((StatusOf(w, t).None? && StatusOf(w', t) == Some(PENDING) && e.delta == -(w.slots[t].cost as int)
               && e.reason == TaskDeduct)
              || (StatusOf(w, t).Some? && StatusOf(w, t).value in CANCELLABLE && StatusOf(w', t).Some?
                  && StatusOf(w', t).value in {FAILED, CANCELLED} && e.delta == w.slots[t].cost
                       && e.reason != TaskDeduct)))
  }

  lemma LedgerKept(w: World, w': World, p: nat, t: nat, t2: nat)
    requires Inv(w) && Focused(w, w', p, t) && LedgerGrows(w, w', t)
    requires t in w.slots ==>
        t in w'.slots && w'.slots[t].user == w.slots[t].user && w'.slots[t].cost == w.slots[t].cost
    requires t !in w.slots ==> StatusOf(w', t).None?
    ensures LedgerOk(w', t2)
  {
    assert LedgerOk(w, t2) && TaskOk(w, t2);
    assert t2 != t ==> SameFor(w, w', t2);
    if w'.pg.ledger != w.pg.ledger {
      var e := w'.pg.ledger[|w.pg.ledger|];
      EntriesAppend(w.pg.ledger, e, t2);
    }
  }

  /** The local argument about `p` and `t` is enough. */
  lemma FocusedStepKeepsInv(w: World, w': World, p: nat, t: nat)
    requires Inv(w) && Focused(w, w', p, t) && LedgerGrows(w, w', t)
    requires t in w.slots && WasAdmitted(w, t) && WasAdmitted(w', t)
    requires w'.slots[t].user == w.slots[t].user && w'.slots[t].cost == w.slots[t].cost
    requires w'.redis.stream[t].addedAt == w.redis.stream[t].addedAt
    requires Undisturbed(p, Unfinished(w.procs[p]), ViewOf(w, t), ViewOf(w', t))
    requires TaskOk(w', t) && ProcOk(w', p)
    ensures Inv(w')
  {
    forall t2: nat ensures TaskOk(w', t2) {
      if t2 != t { OtherTaskKept(w, w', p, t, t2); }
    }
    forall q: nat ensures ProcOk(w', q) {
      if q in w.procs && q != p {
        if TaskOf(q, w.procs[q]) == t { ProcOfSameTaskKept(w, w', p, t, q); }
        else { ProcOfOtherTaskKept(w, w', p, t, q); }
      }
    }
    forall t2: nat ensures LedgerOk(w', t2) { LedgerKept(w, w', p, t, t2); }
    assert ProcOk(w, p);
  }

  // ----- Steps on an admitted task -----

  /** An operation on `t` leaves every other task's row, marker and stream entry alone. */
  lemma PerformTouchesOneTask(cfg: Config, now: nat, r: Redis, pg: Postgres, t: nat, op: Op, c: Choice, t2: nat)
    requires t2 != t
    ensures var (r', pg', _) := Perform(cfg, now, r, pg, t, op, c);
            && (t2 in pg'.rows <==> t2 in pg.rows) && (t2 in pg.rows ==> pg'.rows[t2] == pg.rows[t2])
            && (t2 in r'.markers <==> t2 in r.markers) && (t2 in r.markers ==> r'.markers[t2] == r.markers[t2])
            && (t2 in r'.stream <==> t2 in r.stream) && (t2 in r.stream ==> r'.stream[t2] == r.stream[t2])
  {}

  lemma PerformKeepsKeys(cfg: Config, now: nat, r: Redis, pg: Postgres, t: nat, op: Op, c: Choice, uk: (nat, nat))
    requires uk in r.idem && (op.OpForgetKey? ==> uk != (op.user, op.key))
    ensures var (r', _, _) := Perform(cfg, now, r, pg, t, op, c); uk in r'.idem && r'.idem[uk] == r.idem[uk]
  {}

  lemma StepIsFocused(w: World, p: nat, c: Choice, t: nat)
    requires p in w.procs && t == TaskOf(p, w.procs[p]) && t in w.slots && !OpOf(w.procs[p]).OpAdmit?
    requires OpOf(w.procs[p]).OpForgetKey? ==>
               var uk := (OpOf(w.procs[p]).user, OpOf(w.procs[p]).key); uk in w.redis.idem ==> w.redis.idem[uk] == t
    ensures Focused(w, RunProc(w, p, c), p, t)
  {
    hide Perform;
    hide OpOf;
    var op := OpOf(w.procs[p]);
    forall t2: nat | t2 != t ensures SameFor(w, RunProc(w, p, c), t2) {
      PerformTouchesOneTask(w.cfg, w.now, w.redis, w.pg, t, op, c, t2);
    }
    forall uk | uk in w.redis.idem && w.redis.idem[uk] != t
      ensures uk in RunProc(w, p, c).redis.idem && RunProc(w, p, c).redis.idem[uk] == w.redis.idem[uk]
    {
      PerformKeepsKeys(w.cfg, w.now, w.redis, w.pg, t, op, c, uk);
    }
  }

  lemma PerformWritesLedger(cfg: Config, now: nat, r: Redis, pg: Postgres, t: nat, op: Op, c: Choice)
    ensures var (_, pg', e) := Perform(cfg, now, r, pg, t, op, c);
            pg'.ledger == pg.ledger +
              if e != Flag(true) then []
              else if op.OpPersist? then [LedgerEntry(op.user, t, -(op.cost as int), TaskDeduct)]
              else if op.OpFinish? then [LedgerEntry(op.user, t, op.cost, op.reason)]
              else []
  {}

  /** An operation carries the terms of its task's admission. */
  predicate OpTermsOk(op: Op, user: nat, cost: nat, key: nat) {
    match op
    case OpAdmit(u, c, k) => u == user && c == cost && k == key
    case OpMark(u, c, k) => u == user && c == cost && k == key
    case OpPersist(u, c, k) => u == user && c == cost && k == key
    case OpAddCredits(u, c) => u == user && c == cost
    case OpDecrement(u) => u == user
    case OpForgetKey(u, k) => u == user && k == key
    case OpFinish(to, u, c, reason) => u == user && c == cost && to in {FAILED, CANCELLED} && reason != TaskDeduct
    case _ => true
  }

  lemma TermsCarryOver(x: Proc, user: nat, cost: nat, key: nat)
    requires TermsOk(x, user, cost, key)
    ensures OpTermsOk(OpOf(x), user, cost, key)
  {}

  lemma LedgerStep(w: World, p: nat, c: Choice, t: nat)
    requires Inv(w) && p in w.procs && t == TaskOf(p, w.procs[p]) && t in w.slots && !OpOf(w.procs[p]).OpAdmit?
    ensures LedgerGrows(w, RunProc(w, p, c), t)
  {
    var x := w.procs[p];
    assert TaskOk(w, t) && ProcOk(w, p);
    TermsCarryOver(x, w.procs[t].user, w.procs[t].cost, w.procs[t].key);
    StepHasEffect(w, p, c, t);
    var op, e := OpOf(x), AnswerOf(w, p, c);
    PerformWritesLedger(w.cfg, w.now, w.redis, w.pg, t, op, c);
  }

  /** What a process reads about its task are the terms of the admission. */
  predicate ReadsTerms(e: Entry, user: nat, cost: nat, key: nat, addedAt: nat) {
    && (e.Row? && e.row.Some? ==> e.row.value.user == user && e.row.value.cost == cost)
    && (e.Mark? && e.marker.Some? ==>
          e.marker.value.user == user && e.marker.value.cost == cost && e.marker.value.key == key
               && e.marker.value.createdAt >= addedAt)
  }

  lemma AdvanceKeepsTerms(cfg: Config, now: nat, x: Proc, e: Entry, user: nat, cost: nat, key: nat, addedAt: nat)
    requires TermsOk(x, user, cost, key) && ReadsTerms(e, user, cost, key, addedAt)
    ensures TermsOk(Advance(cfg, now, x, e), user, cost, key)
  {}

  lemma AnswerReadsTerms(w: World, p: nat, c: Choice, t: nat)
    requires Inv(w) && p in w.procs && t == TaskOf(p, w.procs[p]) && t in w.slots && WasAdmitted(w, t)
    ensures ReadsTerms(AnswerOf(w, p, c), w.procs[t].user, w.procs[t].cost, w.procs[t].key, w.redis.stream[t].addedAt)
  {
    assert TaskOk(w, t);
  }

  lemma LocalPreHolds(w: World, p: nat, t: nat)
    requires Inv(w) && p in w.procs && t == TaskOf(p, w.procs[p]) && t in w.slots
    ensures WasAdmitted(w, t)
    ensures LocalPre(p, t, w.procs[p], ViewOf(w, t), w.reaper, Cleaning(w, t), Late(w, t),
                     w.redis.stream[t].addedAt, w.cfg.orphanTimeout, w.now)
  {
    assert TaskOk(w, t) && ProcOk(w, p);
  }

  lemma LocalStep(w: World, p: nat, c: Choice, t: nat)
    requires Inv(w) && p in w.procs && t == TaskOf(p, w.procs[p]) && t in w.slots && !OpOf(w.procs[p]).OpAdmit?
    ensures var w' := RunProc(w, p, c); var x := w.procs[p]; var x' := w'.procs[p];
            && WasAdmitted(w, t) && WasAdmitted(w', t)
            && LocalPost(p, t, x', ViewOf(w, t), ViewOf(w', t), Unfinished(x), w'.reaper,
                         if Unfinished(x) then CleaningBy(x') else Cleaning(w, t), Late(w, t),
                         w.redis.stream[t].addedAt, w.cfg.orphanTimeout, w.now)
  {
    var w' := RunProc(w, p, c);
    var x := w.procs[p];
    var e := AnswerOf(w, p, c);
    LocalPreHolds(w, p, t);
    var at := w.redis.stream[t].addedAt;
    StepHasEffect(w, p, c, t);
    AnswerReadsTerms(w, p, c, t);
    var v, v' := ViewOf(w, t), ViewOf(w', t);
    match x
    case Submit(_, _, _, _) => SubmitMoves(w.cfg, p, x, e, v, v', w.reaper, Cleaning(w, t), Late(w, t), at, w.now);
    case Worker(_, _, _, _) => WorkerMoves(w.cfg, p, t, x, e, v, v', w.reaper, Cleaning(w, t), Late(w, t), at, w.now);
    case Cancel(_, _) => CancelMoves(w.cfg, p, t, x, e, v, v', w.reaper, Cleaning(w, t), Late(w, t), at, w.now);
    case Stuck(_, _, _, _) => StuckMoves(w.cfg, p, t, x, e, v, v', w.reaper, Cleaning(w, t), Late(w, t), at, w.now);
    case Reap(_, _) =>
      if Unfinished(x) { ReapMoves(w.cfg, p, t, x, e, v, v', w.reaper, Cleaning(w, t), Late(w, t), at, w.now); }
  }

  /** A key is forgotten only by the submit or the reaper that still owns it. */
  lemma ForgetsOwnKey(w: World, p: nat, t: nat)
    requires Inv(w) && p in w.procs && t == TaskOf(p, w.procs[p]) && t in w.slots && OpOf(w.procs[p]).OpForgetKey?
    ensures WasAdmitted(w, t)
    ensures var uk := (OpOf(w.procs[p]).user, OpOf(w.procs[p]).key);
            uk == (w.procs[t].user, w.procs[t].key) && uk in w.redis.idem && w.redis.idem[uk] == t
  {
    assert TaskOk(w, t) && ProcOk(w, p);
  }

  /** The row and the marker of `t` keep the terms of the admission. */
  predicate StoresKeepTerms(r: Redis, pg: Postgres, t: nat, user: nat, cost: nat, key: nat, addedAt: nat) {
    && (t in pg.rows ==> pg.rows[t].user == user && pg.rows[t].cost == cost && pg.rows[t].key == key)
    && (t in r.markers ==>
          r.markers[t] == Marker(user, cost, key, r.markers[t].createdAt) && r.markers[t].createdAt >= addedAt)
  }

  lemma PerformKeepsTerms(cfg: Config, now: nat, r: Redis, pg: Postgres, t: nat, op: Op, c: Choice, user: nat,
                          cost: nat, key: nat, addedAt: nat)
    requires StoresKeepTerms(r, pg, t, user, cost, key, addedAt) && OpTermsOk(op, user, cost, key) && now >= addedAt
    ensures var (r', pg', _) := Perform(cfg, now, r, pg, t, op, c);
            StoresKeepTerms(r', pg', t, user, cost, key, addedAt)
  {}

  lemma CleaningAfter(w: World, p: nat, c: Choice, t: nat)
    requires Inv(w) && p in w.procs && t == TaskOf(p, w.procs[p]) && t in w.slots && !OpOf(w.procs[p]).OpAdmit?
    ensures var x := w.procs[p]; var w' := RunProc(w, p, c);
            && Cleaning(w', t) == (if Unfinished(x) then CleaningBy(w'.procs[p]) else Cleaning(w, t))
            && Forgetting(w', t) == (if Unfinished(x) then ForgettingBy(w'.procs[p]) else Forgetting(w, t))
            && (Unfinished(x) ==> Cleaning(w, t) == CleaningBy(x) && Forgetting(w, t) == ForgettingBy(x))
  {
    hide Perform;
    hide OpOf;
    assert TaskOk(w, t) && ProcOk(w, p);
  }

  lemma TermsStep(w: World, p: nat, c: Choice, t: nat)
    requires Inv(w) && p in w.procs && t == TaskOf(p, w.procs[p]) && t in w.slots && !OpOf(w.procs[p]).OpAdmit?
    ensures WasAdmitted(w, t)
    ensures var w' := RunProc(w, p, c);
            StoresKeepTerms(w'.redis, w'.pg, t, w.procs[t].user, w.procs[t].cost, w.procs[t].key,
                            w.redis.stream[t].addedAt)
  {
    hide Perform;
    hide OpOf;
    assert TaskOk(w, t) && ProcOk(w, p);
    var x := w.procs[t];
    TermsCarryOver(w.procs[p], x.user, x.cost, x.key);
    PerformKeepsTerms(w.cfg, w.now, w.redis, w.pg, t, OpOf(w.procs[p]), c, x.user, x.cost, x.key,
                      w.redis.stream[t].addedAt);
  }

  lemma KeyStep(w: World, p: nat, c: Choice, t: nat)
    requires Inv(w) && p in w.procs && t == TaskOf(p, w.procs[p]) && t in w.slots && !OpOf(w.procs[p]).OpAdmit?
    requires var w' := RunProc(w, p, c);
             WasAdmitted(w, t) && WasAdmitted(w', t) && KeepsKey(ViewOf(w', t), Forgetting(w', t))
    ensures var w' := RunProc(w, p, c); var uk := (w.procs[t].user, w.procs[t].key);
            uk in w'.redis.idem && w'.redis.idem[uk] == t
  {
    var w' := RunProc(w, p, c);
    var x, e := w.procs[p], AnswerOf(w, p, c);
    assert TaskOk(w, t) && ProcOk(w, p);
    CleaningAfter(w, p, c, t);
    StepHasEffect(w, p, c, t);
    LocalPreHolds(w, p, t);
    hide Perform;
    assert x.Submit? ==> w'.procs[p].spc == AdvanceSubmit(x.spc, e);
    PerformKeepsKeys(w.cfg, w.now, w.redis, w.pg, t, OpOf(x), c, (w.procs[t].user, w.procs[t].key));
  }

  lemma StepKeepsAdmission(w: World, p: nat, c: Choice, t: nat)
    requires Inv(w) && p in w.procs && t == TaskOf(p, w.procs[p]) && t in w.slots && !OpOf(w.procs[p]).OpAdmit?
    ensures var w' := RunProc(w, p, c);
            && WasAdmitted(w, t) && WasAdmitted(w', t)
            && w'.slots[t].user == w.slots[t].user && w'.slots[t].cost == w.slots[t].cost
            && w'.redis.stream[t].addedAt == w.redis.stream[t].addedAt
            && w'.procs[t].user == w.procs[t].user && w'.procs[t].cost == w.procs[t].cost
                 && w'.procs[t].key == w.procs[t].key
            && w'.now == w.now && w'.cfg == w.cfg
  {
    assert TaskOk(w, t);
  }

  lemma TaskViewOk(w: World, p: nat, c: Choice, t: nat)
    requires Inv(w) && p in w.procs && t == TaskOf(p, w.procs[p]) && t in w.slots && !OpOf(w.procs[p]).OpAdmit?
    ensures var w' := RunProc(w, p, c);
            && WasAdmitted(w', t) && ViewOk(ViewOf(w', t), t, w'.reaper, Cleaning(w', t))
            && PayerOk(w', t, w'.slots[t].phase)
            && (InWindow(w'.procs[t].spc) ==> w'.now < w'.redis.stream[t].addedAt + w'.cfg.orphanTimeout)
  {
    var w' := RunProc(w, p, c);
    assert TaskOk(w, t);
    assert p in w'.procs && TaskOf(p, w'.procs[p]) == t && w'.procs == w.procs[p := w'.procs[p]];
    StepKeepsAdmission(w, p, c, t);
    LocalStep(w, p, c, t);
    CleaningAfter(w, p, c, t);
    hide RunProc;
    hide Inv;
    hide ViewOk;
    hide DebtOk;
    hide ProgressOk;
  }

  lemma TaskStepOk(w: World, p: nat, c: Choice, t: nat)
    requires Inv(w) && p in w.procs && t == TaskOf(p, w.procs[p]) && t in w.slots && !OpOf(w.procs[p]).OpAdmit?
    ensures TaskOk(RunProc(w, p, c), t)
  {
    var w' := RunProc(w, p, c);
    StepKeepsAdmission(w, p, c, t);
    TaskViewOk(w, p, c, t);
    TermsStep(w, p, c, t);
    if KeepsKey(ViewOf(w', t), Forgetting(w', t)) { KeyStep(w, p, c, t); }
    hide RunProc;
    hide Inv;
    hide ViewOk;
    hide PayerOk;
    hide KeepsKey;
  }

  lemma ProcStepOk(w: World, p: nat, c: Choice, t: nat)
    requires Inv(w) && p in w.procs && t == TaskOf(p, w.procs[p]) && t in w.slots && !OpOf(w.procs[p]).OpAdmit?
    requires Focused(w, RunProc(w, p, c), p, t)
    ensures ProcOk(RunProc(w, p, c), p)
  {
    var w' := RunProc(w, p, c);
    assert ProcOk(w, p);
    StepKeepsAdmission(w, p, c, t);
    LocalStep(w, p, c, t);
    AnswerReadsTerms(w, p, c, t);
    StepHasEffect(w, p, c, t);
    AdvanceKeepsTerms(w.cfg, w.now, w.procs[p], AnswerOf(w, p, c), w.procs[t].user, w.procs[t].cost, w.procs[t].key,
                      w.redis.stream[t].addedAt);
    hide RunProc;
    hide AnswerOf;
    hide Advance;
    hide ProgressOk;
    hide DebtOk;
    hide TermsOk;
  }

  lemma AdmittedStepKeepsInv(w: World, p: nat, c: Choice, t: nat)
    requires Inv(w) && p in w.procs && t == TaskOf(p, w.procs[p]) && t in w.slots && !OpOf(w.procs[p]).OpAdmit?
    ensures Inv(RunProc(w, p, c))
  {
    if OpOf(w.procs[p]).OpForgetKey? { ForgetsOwnKey(w, p, t); }
    StepIsFocused(w, p, c, t);
    LedgerStep(w, p, c, t);
    StepKeepsAdmission(w, p, c, t);
    LocalStep(w, p, c, t);
    TaskStepOk(w, p, c, t);
    ProcStepOk(w, p, c, t);
    hide RunProc;
    FocusedStepKeepsInv(w, RunProc(w, p, c), p, t);
  }
}
