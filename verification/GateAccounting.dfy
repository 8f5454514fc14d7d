/** Solution 1: Redis balances and concurrency slots account for the Postgres ledger in every reachable state. */
module GateAccounting {
  import opened Sums
  import opened Gate
  import opened GateInvariant
  import opened GateSteps
  import opened GateRuns

  // ----- What a balance is made of -----

  ghost function LedgerSum(ledger: seq<LedgerEntry>, u: nat): int {
    if ledger == [] then 0
    else
      var last := ledger[|ledger| - 1];
      LedgerSum(ledger[..|ledger| - 1], u) + if last.user == u then last.delta else 0
  }

  lemma LedgerSumAppend(ledger: seq<LedgerEntry>, es: seq<LedgerEntry>, u: nat)
    requires |es| <= 1
    ensures LedgerSum(ledger + es, u) == LedgerSum(ledger, u) + if |es| == 1 && es[0].user == u then es[0].delta else 0
  {
    if es == [] { assert ledger + es == ledger; }
    else { assert (ledger + es)[..|ledger|] == ledger; }
  }

  /** Credits taken in Redis that the ledger does not show: not persisted yet, or refunded only in Postgres. */
  function Withheld(s: Slot, u: nat): int {
    if s.user == u && (s.phase.Reserved? || s.phase.OwesCredit?) then s.cost else 0
  }

  function WithheldBy(slots: map<nat, Slot>, u: nat): map<nat, int> {
    map t | t in slots :: Withheld(slots[t], u)
  }

  ghost function Correction(slots: map<nat, Slot>, u: nat): int {
    Sum(WithheldBy(slots, u))
  }

  lemma CorrectionUpdate(slots: map<nat, Slot>, t: nat, s: Slot, u: nat)
    ensures Correction(slots[t := s], u) ==
              Correction(slots, u) - (if t in slots then Withheld(slots[t], u) else 0) + Withheld(s, u)
  {
    assert WithheldBy(slots[t := s], u) == WithheldBy(slots, u)[t := Withheld(s, u)];
    SumUpdate(WithheldBy(slots, u), t, Withheld(s, u));
  }

  /** The tasks that hold one of `u`'s concurrency slots. */
  function Holding(slots: map<nat, Slot>, u: nat): set<nat> {
    set t | t in slots && slots[t].user == u && !slots[t].phase.Freed?
  }

  ghost predicate CreditsOk(w: World, u: nat) {
    && (u in w.redis.credits <==> u in w.cfg.opening)
    && (u in w.redis.credits ==>
          && w.redis.credits[u] == w.cfg.opening[u] + LedgerSum(w.pg.ledger, u) - Correction(w.slots, u)
          && w.redis.credits[u] >= 0)
  }

  predicate ActiveOk(w: World, u: nat) {
    ActiveOf(w.redis, u) == |Holding(w.slots, u)| <= LimitOf(w.cfg, u)
  }

  ghost predicate Accounts(w: World) {
    && (forall u: nat :: CreditsOk(w, u) && ActiveOk(w, u))
    && (forall t | t in w.slots :: w.slots[t].user in w.cfg.opening)
  }

  // ----- One step -----

  lemma PerformMovesCounters(cfg: Config, now: nat, r: Redis, pg: Postgres, t: nat, op: Op, c: Choice, u: nat)
    requires !op.OpAdmit?
    ensures var (r', pg', e) := Perform(cfg, now, r, pg, t, op, c);
            && r'.credits == (if op.OpAddCredits? then AddCredits(r, op.user, op.cost).credits else r.credits)
            && ActiveOf(r', u) == ActiveOf(r, u) -
                 (if op.OpDecrement? && op.user == u then (if ActiveOf(r, u) > 0 then 1 else ActiveOf(r, u)) else 0)
  {}

  /** What `p`'s next operation finds. */
  lemma ReadyToRun(w: World, p: nat, c: Choice, t: nat)
    requires Inv(w) && p in w.procs && t == TaskOf(p, w.procs[p]) && t in w.slots && !OpOf(w.procs[p]).OpAdmit?
    ensures var op := OpOf(w.procs[p]); var e := AnswerOf(w, p, c); var s := w.slots[t];
            && WasAdmitted(w, t) && OpTermsOk(op, s.user, s.cost, w.procs[t].key)
            && (op.OpAddCredits? ==> s.phase.Reserved? || s.phase.OwesCredit?)
            && (op.OpPersist? ==> s.phase.Reserved?)
            && (op.OpDecrement? ==> s.phase == OwesSlot(p))
            && ((op.OpFinish? || op.OpComplete?) && e == Flag(true) ==> s.phase.Live?)
            && RunProc(w, p, c).slots == w.slots[t := s.(phase := PhaseAfter(s.phase, p, op, e))]
  {
    LocalPreHolds(w, p, t);
    StepHasEffect(w, p, c, t);
    assert ProcOk(w, p);
    TermsCarryOver(w.procs[p], w.slots[t].user, w.slots[t].cost, w.procs[t].key);
  }

  lemma RunWritesLedger(w: World, p: nat, c: Choice, t: nat, u: nat)
    requires p in w.procs && t == TaskOf(p, w.procs[p])
    ensures var op, e := OpOf(w.procs[p]), AnswerOf(w, p, c);
            LedgerSum(RunProc(w, p, c).pg.ledger, u) ==
            LedgerSum(w.pg.ledger, u) +
              if e != Flag(true) || !(op.OpPersist? || op.OpFinish?) || op.user != u then 0
              else if op.OpPersist? then -(op.cost as int)
              else op.cost
  {
    hide Perform;
    hide OpOf;
    PerformWritesLedger(w.cfg, w.now, w.redis, w.pg, t, OpOf(w.procs[p]), c);
    var ledger' := RunProc(w, p, c).pg.ledger;
    var added := ledger'[|w.pg.ledger|..];
    assert ledger' == w.pg.ledger + added;
    LedgerSumAppend(w.pg.ledger, added, u);
  }

  /** Only returned credits change the difference between the ledger and what is withheld. */
  lemma RunMovesMoney(w: World, p: nat, c: Choice, t: nat, u: nat)
    requires Inv(w) && p in w.procs && t == TaskOf(p, w.procs[p]) && t in w.slots && !OpOf(w.procs[p]).OpAdmit?
    ensures var w', op := RunProc(w, p, c), OpOf(w.procs[p]);
            LedgerSum(w'.pg.ledger, u) - Correction(w'.slots, u) ==
            LedgerSum(w.pg.ledger, u) - Correction(w.slots, u) +
              if op.OpAddCredits? && op.user == u then op.cost else 0
  {
    hide Perform;
    hide OpOf;
    hide RunProc;
    hide AnswerOf;
    hide Correction;
    hide LedgerSum;
    hide Inv;
    hide WasAdmitted;
    var op, e, s := OpOf(w.procs[p]), AnswerOf(w, p, c), w.slots[t];
    ReadyToRun(w, p, c, t);
    RunWritesLedger(w, p, c, t, u);
    CorrectionUpdate(w.slots, t, s.(phase := PhaseAfter(s.phase, p, op, e)), u);
  }

  lemma RunKeepsCredits(w: World, p: nat, c: Choice, t: nat, u: nat)
    requires Inv(w) && Accounts(w) && p in w.procs && t == TaskOf(p, w.procs[p]) && t in w.slots
         && !OpOf(w.procs[p]).OpAdmit?
    ensures CreditsOk(RunProc(w, p, c), u)
  {
    hide Perform;
    hide OpOf;
    hide Correction;
    hide LedgerSum;
    assert CreditsOk(w, u) && CreditsOk(w, w.slots[t].user);
    ReadyToRun(w, p, c, t);
    RunMovesMoney(w, p, c, t, u);
    PerformMovesCounters(w.cfg, w.now, w.redis, w.pg, t, OpOf(w.procs[p]), c, u);
    hide Inv;
  }

  lemma RunKeepsActive(w: World, p: nat, c: Choice, t: nat, u: nat)
    requires Inv(w) && Accounts(w) && p in w.procs && t == TaskOf(p, w.procs[p]) && t in w.slots
         && !OpOf(w.procs[p]).OpAdmit?
    ensures ActiveOk(RunProc(w, p, c), u)
  {
    hide Perform;
    hide OpOf;
    var op, e, s := OpOf(w.procs[p]), AnswerOf(w, p, c), w.slots[t];
    assert ActiveOk(w, u);
    ReadyToRun(w, p, c, t);
    PerformMovesCounters(w.cfg, w.now, w.redis, w.pg, t, op, c, u);
    var w' := RunProc(w, p, c);
    if op.OpDecrement? && op.user == u {
      assert t in Holding(w.slots, u);
      assert Holding(w'.slots, u) == Holding(w.slots, u) - {t};
    } else {
      if !op.OpDecrement? { PhaseStaysFreed(w, p, c, t); }
      assert Holding(w'.slots, u) == Holding(w.slots, u);
    }
  }

  /** A slot is given back once, by a decrement. */
  lemma PhaseStaysFreed(w: World, p: nat, c: Choice, t: nat)
    requires Inv(w) && p in w.procs && t == TaskOf(p, w.procs[p]) && t in w.slots && !OpOf(w.procs[p]).OpAdmit?
    requires !OpOf(w.procs[p]).OpDecrement?
    ensures t in RunProc(w, p, c).slots
    ensures RunProc(w, p, c).slots[t].phase.Freed? <==> w.slots[t].phase.Freed?
  {
    hide Perform;
    hide OpOf;
    ReadyToRun(w, p, c, t);
  }

  /** What an admission takes. */
  predicate Takes(w: World, w': World, p: nat, user: nat, cost: nat) {
    && p !in w.slots && user in w.redis.credits && w.redis.credits[user] >= cost
    && ActiveOf(w.redis, user) < LimitOf(w.cfg, user)
    && w'.redis.credits == w.redis.credits[user := w.redis.credits[user] - cost]
    && w'.redis.active == w.redis.active[user := ActiveOf(w.redis, user) + 1]
    && w'.pg == w.pg && w'.cfg == w.cfg && w'.slots == w.slots[p := Slot(user, cost, Reserved)]
  }

  lemma AdmissionTakes(w: World, p: nat, c: Choice)
    requires p in w.procs && w.procs[p].Submit? && w.procs[p].spc.AdGate? && p !in w.slots
    requires AnswerOf(w, p, c) == Decision(Admitted)
    ensures Takes(w, RunProc(w, p, c), p, w.procs[p].user, w.procs[p].cost)
  {}

  lemma TakingKeepsCredits(w: World, w': World, p: nat, user: nat, cost: nat, u: nat)
    requires Takes(w, w', p, user, cost) && CreditsOk(w, u)
    ensures CreditsOk(w', u)
  {
    CorrectionUpdate(w.slots, p, Slot(user, cost, Reserved), u);
    hide Correction;
  }

  lemma TakingKeepsActive(w: World, w': World, p: nat, user: nat, cost: nat, u: nat)
    requires Takes(w, w', p, user, cost) && ActiveOk(w, u)
    ensures ActiveOk(w', u)
  {
    assert Holding(w'.slots, u) == Holding(w.slots, u) + if u == user then {p} else {};
  }

  lemma RefusalTakesNothing(w: World, p: nat, c: Choice)
    requires p in w.procs && w.procs[p].Submit? && w.procs[p].spc.AdGate?
    requires AnswerOf(w, p, c) != Decision(Admitted)
    ensures var w' := RunProc(w, p, c); w'.redis == w.redis && w'.pg == w.pg && w'.slots == w.slots && w'.cfg == w.cfg
  {}

  lemma AdmissionKeepsAccounts(w: World, p: nat, c: Choice, u: nat)
    requires Inv(w) && Accounts(w) && p in w.procs && OpOf(w.procs[p]).OpAdmit?
    ensures CreditsOk(RunProc(w, p, c), u) && ActiveOk(RunProc(w, p, c), u)
  {
    AdmitsOnlyNewTasks(w, p);
    var w', x := RunProc(w, p, c), w.procs[p];
    hide RunProc;
    hide Perform;
    assert CreditsOk(w, u) && ActiveOk(w, u);
    if AnswerOf(w, p, c) == Decision(Admitted) {
      AdmissionTakes(w, p, c);
      TakingKeepsCredits(w, w', p, x.user, x.cost, u);
      TakingKeepsActive(w, w', p, x.user, x.cost, u);
    } else {
      RefusalTakesNothing(w, p, c);
    }
  }

  lemma IdleStepMovesNothing(w: World, p: nat, c: Choice)
    requires Inv(w) && p in w.procs && TaskOf(p, w.procs[p]) !in w.slots && !OpOf(w.procs[p]).OpAdmit?
    ensures RunProc(w, p, c).redis == w.redis && RunProc(w, p, c).pg == w.pg && RunProc(w, p, c).slots == w.slots
  {
    assert ProcOk(w, p);
  }

  lemma RunKeepsAccounts(w: World, p: nat, c: Choice)
    requires Inv(w) && Accounts(w) && p in w.procs
    ensures Accounts(RunProc(w, p, c))
  {
    var t := TaskOf(p, w.procs[p]);
    if OpOf(w.procs[p]).OpAdmit? {
      forall u: nat ensures CreditsOk(RunProc(w, p, c), u) && ActiveOk(RunProc(w, p, c), u) {
        AdmissionKeepsAccounts(w, p, c, u);
      }
      AdmittedUsersKnown(w, p, c);
    } else if t in w.slots {
      forall u: nat ensures CreditsOk(RunProc(w, p, c), u) && ActiveOk(RunProc(w, p, c), u) {
        RunKeepsCredits(w, p, c, t, u);
        RunKeepsActive(w, p, c, t, u);
      }
      ReadyToRun(w, p, c, t);
      hide Perform;
    } else {
      IdleStepMovesNothing(w, p, c);
      hide RunProc;
      SameMoneySameAccounts(w, RunProc(w, p, c));
    }
  }

  lemma AdmittedUsersKnown(w: World, p: nat, c: Choice)
    requires Inv(w) && Accounts(w) && p in w.procs && OpOf(w.procs[p]).OpAdmit?
    ensures forall t | t in RunProc(w, p, c).slots :: RunProc(w, p, c).slots[t].user in w.cfg.opening
  {
    AdmitsOnlyNewTasks(w, p);
    assert CreditsOk(w, w.procs[p].user);
  }

  lemma SameMoneySameAccounts(w: World, w': World)
    requires Accounts(w) && w'.cfg == w.cfg && w'.slots == w.slots
    requires w'.redis.credits == w.redis.credits && w'.redis.active == w.redis.active && w'.pg.ledger == w.pg.ledger
    ensures Accounts(w')
  {
    forall u: nat ensures CreditsOk(w', u) && ActiveOk(w', u) {
      assert CreditsOk(w, u) && ActiveOk(w, u);
    }
  }

  lemma NextKeepsAccounts(w: World, ev: Event)
    requires Inv(w) && Accounts(w)
    ensures Accounts(Next(w, ev))
  {
    if ev.Run? && ev.p in w.procs { RunKeepsAccounts(w, ev.p, ev.choice); }
    else { SameMoneySameAccounts(w, Next(w, ev)); }
  }

  lemma InitiallyAccounts(cfg: Config)
    ensures Accounts(Initial(cfg))
  {
    forall u: nat ensures CreditsOk(Initial(cfg), u) && ActiveOk(Initial(cfg), u) {
      assert Holding(map[], u) == {};
      assert WithheldBy(map[], u) == map[];
    }
  }

  // ----- Every run -----

  /**
   * Every Redis balance equals the opening balance plus the user's ledger entries, minus what is admitted
   * but not persisted, minus refunds committed in Postgres but not yet applied; and it is never negative.
   */
  lemma {:induction false} EveryRunKeepsAccounts(cfg: Config, evs: seq<Event>)
    requires InTime(cfg)
    ensures var w := Exec(Initial(cfg), evs); Inv(w) && w.cfg == cfg && Accounts(w)
  {
    EveryRunKeepsInv(cfg, evs);
    if evs == [] { InitiallyAccounts(cfg); }
    else {
      EveryRunKeepsAccounts(cfg, evs[..|evs| - 1]);
      NextKeepsAccounts(Exec(Initial(cfg), evs[..|evs| - 1]), evs[|evs| - 1]);
    }
  }

  function LiveRows(w: World, u: nat): set<nat> {
    set t | t in w.pg.rows && w.pg.rows[t].user == u && w.pg.rows[t].status in CANCELLABLE
  }

  function Unpersisted(w: World, u: nat): set<nat> {
    set t | t in w.slots && w.slots[t].user == u && w.slots[t].phase.Reserved?
  }

  /** Live rows and admitted requests on their way never outnumber the counter, nor that the tier's limit. */
  lemma ConcurrencyBound(cfg: Config, evs: seq<Event>, u: nat)
    requires InTime(cfg)
    ensures var w := Exec(Initial(cfg), evs);
            |LiveRows(w, u)| + |Unpersisted(w, u)| <= ActiveOf(w.redis, u) <= LimitOf(cfg, u)
  {
    EveryRunKeepsAccounts(cfg, evs);
    var w := Exec(Initial(cfg), evs);
    hide Exec;
    forall t | t in LiveRows(w, u) ensures t in w.slots && w.slots[t].user == u && w.slots[t].phase.Live? {
      assert TaskOk(w, t);
    }
    assert ActiveOk(w, u);
    assert LiveRows(w, u) + Unpersisted(w, u) <= Holding(w.slots, u);
    assert LiveRows(w, u) !! Unpersisted(w, u);
    SubsetCardinality(LiveRows(w, u) + Unpersisted(w, u), Holding(w.slots, u));
  }

  lemma {:induction false} SubsetCardinality(a: set<nat>, b: set<nat>)
    requires a <= b
    ensures |a| <= |b|
  {
    if a != {} {
      var k :| k in a;
      SubsetCardinality(a - {k}, b - {k});
    }
  }

  /** The decrement script never meets a counter at zero. */
  lemma ClampNeverFires(cfg: Config, evs: seq<Event>, p: nat)
    requires InTime(cfg)
    requires var w := Exec(Initial(cfg), evs); p in w.procs && OpOf(w.procs[p]).OpDecrement?
    ensures var w := Exec(Initial(cfg), evs); !DecrementClamped(w.redis, OpOf(w.procs[p]).user).1
  {
    EveryRunKeepsAccounts(cfg, evs);
    var w := Exec(Initial(cfg), evs);
    hide Exec;
    var t := TaskOf(p, w.procs[p]);
    assert ProcOk(w, p);
    ReadyToRun(w, p, Choice(true, true), t);
    assert t in Holding(w.slots, w.slots[t].user);
    assert ActiveOk(w, w.slots[t].user);
  }

  // ----- When everything has come to rest -----

  predicate AtRest(x: Proc) {
    match x
    case Submit(_, _, _, pc) => pc.AdDone? || pc.AdDead? || pc.AdGone?
    case Worker(_, _, _, pc) => pc.WkDone? || pc.WkDead?
    case Cancel(_, pc) => pc.CnDone? || pc.CnDead?
    case Stuck(_, _, _, pc) => pc.SkDone? || pc.SkDead?
    case Reap(_, pc) => pc.RpDone?
  }

  /** All processes have ended and the reaper has removed every marker. */
  predicate Quiet(w: World) {
    w.redis.markers == map[] && forall p | p in w.procs :: AtRest(w.procs[p])
  }

  /** A handler that died between the admission script and its marker. */
  predicate Leaked(w: World, t: nat) {
    t in w.slots && t in w.procs && w.procs[t].Submit? && w.procs[t].spc == AdDead(false)
  }

  lemma NobodyOwesAtRest(w: World, t: nat)
    requires Inv(w) && Quiet(w) && t in w.slots
    ensures !w.slots[t].phase.OwesCredit? && !w.slots[t].phase.OwesSlot?
  {
    assert TaskOk(w, t);
    var phase := w.slots[t].phase;
    assert phase.OwesCredit? || phase.OwesSlot? ==> ProcOk(w, phase.payer);
  }

  /** At rest a task withholds its cost exactly if its handler died before the marker was written. */
  lemma OnlyLeaksWithhold(w: World, t: nat, u: nat)
    requires Inv(w) && Quiet(w) && t in w.slots
    ensures Withheld(w.slots[t], u) == if Leaked(w, t) && w.slots[t].user == u then w.slots[t].cost else 0
  {
    assert TaskOk(w, t);
    NobodyOwesAtRest(w, t);
  }

  function LeaksOf(w: World, u: nat): set<nat> {
    set t | t in w.slots && w.slots[t].user == u && Leaked(w, t)
  }

  /** At rest the balance agrees with the ledger if and only if none of the user's admissions leaked. */
  lemma QuietBalanceMatchesLedger(cfg: Config, evs: seq<Event>, u: nat)
    requires InTime(cfg) && u in cfg.opening
    requires Quiet(Exec(Initial(cfg), evs))
    ensures var w := Exec(Initial(cfg), evs);
            && u in w.redis.credits
            && (w.redis.credits[u] == cfg.opening[u] + LedgerSum(w.pg.ledger, u) <==> LeaksOf(w, u) == {})
  {
    EveryRunKeepsAccounts(cfg, evs);
    EveryRunKeepsInv(cfg, evs);
    var w := Exec(Initial(cfg), evs);
    hide Exec;
    var m := WithheldBy(w.slots, u);
    forall t | t in w.slots ensures m[t] == if t in LeaksOf(w, u) then w.slots[t].cost else 0 {
      OnlyLeaksWithhold(w, t, u);
    }
    assert CreditsOk(w, u);
    if LeaksOf(w, u) == {} {
      SumZero(m);
    } else {
      var t :| t in LeaksOf(w, u);
      assert TaskOk(w, t);
      SumAtLeast(m, t);
    }
  }

  /** At rest a task holds a slot exactly if its row is live or its admission leaked. */
  lemma QuietHolders(w: World, u: nat, t: nat)
    requires Inv(w) && Quiet(w)
    ensures t in Holding(w.slots, u) <==> t in LiveRows(w, u) || t in LeaksOf(w, u)
    ensures t in LiveRows(w, u) ==> t !in LeaksOf(w, u)
  {
    assert TaskOk(w, t);
    if t in w.slots { NobodyOwesAtRest(w, t); }
  }

  /** At rest the concurrency counter is the number of the user's live rows and leaked admissions. */
  lemma QuietCounterMatchesRows(cfg: Config, evs: seq<Event>, u: nat)
    requires InTime(cfg) && Quiet(Exec(Initial(cfg), evs))
    ensures var w := Exec(Initial(cfg), evs); ActiveOf(w.redis, u) == |LiveRows(w, u)| + |LeaksOf(w, u)|
  {
    EveryRunKeepsAccounts(cfg, evs);
    var w := Exec(Initial(cfg), evs);
    hide Exec;
    forall t: nat
      ensures t in Holding(w.slots, u) <==> t in LiveRows(w, u) + LeaksOf(w, u)
      ensures t in LiveRows(w, u) ==> t !in LeaksOf(w, u)
    {
      QuietHolders(w, u, t);
    }
    hide Inv;
    assert Holding(w.slots, u) == LiveRows(w, u) + LeaksOf(w, u);
    assert ActiveOk(w, u);
  }

  lemma LeakStaysInNext(w: World, ev: Event, t: nat)
    requires Inv(w) && Leaked(w, t)
    ensures Leaked(Next(w, ev), t) && Next(w, ev).slots[t] == w.slots[t]
  {
    hide Perform;
    assert TaskOk(w, t);
    if ev.Run? && ev.p in w.procs && TaskOf(ev.p, w.procs[ev.p]) == t {
      var x := w.procs[ev.p];
      assert ProcOk(w, ev.p);
      if !OpOf(x).OpAdmit? { LeakedTaskIsLeftAlone(w, ev.p, t); }
    }
  }

  /** No process ever acts for a leaked task: there is no row to refund and no marker to reap. */
  lemma LeakedTaskIsLeftAlone(w: World, p: nat, t: nat)
    requires Inv(w) && Leaked(w, t) && p in w.procs && t == TaskOf(p, w.procs[p])
    ensures var op := OpOf(w.procs[p]);
            op.OpNone? || op.OpReadRow? || op.OpReadMarker? || op.OpReadAge? || op.OpAck? || op.OpStart?
  {
    assert TaskOk(w, t) && ProcOk(w, p);
  }

  /** A leaked admission keeps the user's credits and slot for ever: nothing in the system repairs it. */
  lemma {:induction false} LeaksAreNeverRepaired(cfg: Config, evs: seq<Event>, more: seq<Event>, t: nat)
    requires InTime(cfg) && Leaked(Exec(Initial(cfg), evs), t)
    ensures var w, w' := Exec(Initial(cfg), evs), Exec(Exec(Initial(cfg), evs), more);
            && Inv(w') && w'.cfg == cfg
            && Leaked(w', t) && w'.slots[t] == w.slots[t] && w'.slots[t].phase.Reserved?
  {
    var w := Exec(Initial(cfg), evs);
    EveryRunKeepsInv(cfg, evs);
    if more == [] {
      assert TaskOk(w, t);
    } else {
      LeaksAreNeverRepaired(cfg, evs, more[..|more| - 1], t);
      var w1, ev := Exec(w, more[..|more| - 1]), more[|more| - 1];
      LeakStaysInNext(w1, ev, t);
      NextKeepsInv(w1, ev);
      assert TaskOk(Next(w1, ev), t);
    }
  }
}
