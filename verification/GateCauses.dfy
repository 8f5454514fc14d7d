/**
 * Solution 1: what outcomes, statuses and refunds say about what was done, in every run. A completed task had a model
 * that returned, and a failure refund one that raised, whoever raced, crashed or was restarted.
 */
module GateCauses {
  import opened Gate
  import opened GateInvariant
  import opened GateSteps
  import opened GateLedger
  import opened GateDeeds

  // ----- Every process is told -----

  lemma RunAdvances(w: World, p: nat, c: Choice)
    requires p in w.procs
    ensures p in RunProc(w, p, c).procs
    ensures RunProc(w, p, c).procs[p] == Advance(w.cfg, w.now, w.procs[p], AnswerIs(w, p, c))
  {}

  lemma StepTold(w: World, p: nat, c: Choice, deeds: set<Deed>)
    requires LedgerInv(w) && p in w.procs && ToldOf(deeds, p, w.procs[p])
    ensures p in RunProc(w, p, c).procs && ToldOf(deeds + {DeedOf(w, p, c)}, p, RunProc(w, p, c).procs[p])
  {
    hide RunProc;
    hide Perform;
    hide Extends;
    hide RowFacts;
    hide RedisFacts;
    hide LedgerInv;
    hide OpOf;
    hide SubmitTold;
    hide WorkerTold;
    hide CancelTold;
    hide StuckTold;
    hide ReapTold;
    hide AnswerIs;
    hide AdvanceSubmit;
    hide AdvanceWorker;
    hide AdvanceCancel;
    hide AdvanceStuck;
    hide AdvanceReap;
    var x, d, e := w.procs[p], DeedOf(w, p, c), AnswerIs(w, p, c);
    RunAdvances(w, p, c);
    RowDeed(w, p, c);
    RedisDeed(w, p, c);
    OneMore(deeds, d);
    match x
    case Submit(u, cost, key, pc) => SubmitMoveTold(deeds, d, deeds + {d}, e, p, u, cost, key, pc);
    case Worker(t, u, cost, pc) => WorkerStepTold(deeds, d, e, t, u, cost, pc);
    case Cancel(t, pc) => CancelMoveTold(deeds, d, deeds + {d}, e, t, pc);
    case Stuck(t, u, cost, pc) => StuckMoveTold(deeds, d, deeds + {d}, e, t, u, cost, pc);
    case Reap(t, pc) => ReapMoveTold(deeds, d, deeds + {d}, e, t, pc);
  }

  lemma WorkerStepTold(deeds: set<Deed>, d: Deed, e: Entry, t: nat, u: nat, cost: nat, pc: WorkerPc)
    requires WorkerTold(deeds, t, u, cost, pc) && Extends(deeds, d, deeds + {d}) && d.t == t
    requires d.op == OpOf(Worker(t, u, cost, pc)) && RowFacts(d, e) && RedisFacts(d, e)
    ensures WorkerTold(deeds + {d}, t, u, cost, AdvanceWorker(d.before.cfg, d.before.now, pc, e))
  {
    if !pc.WkDead? { WorkerMoveTold(deeds, d, deeds + {d}, e, t, u, cost, pc); }
  }

  lemma DeathIsTold(deeds: set<Deed>, p: nat, x: Proc)
    requires ToldOf(deeds, p, x)
    ensures ToldOf(deeds, p, Dying(x))
  {}

  /** Whoever has just begun has done nothing. */
  lemma StandsStill(w: World, e: RoughEvent, p: nat)
    requires !(e.Usual? && e.ev.Run? && e.ev.p == p && p in w.procs)
    ensures var w' := RoughNext(w, e);
            if p in w.procs then p in w'.procs && (w'.procs[p] == w.procs[p] || w'.procs[p] == Dying(w.procs[p]))
            else p in w'.procs ==> ToldOf({}, p, w'.procs[p])
  {
    hide Perform;
    hide OpOf;
  }

  lemma DeedsNow(cfg: Config, es: seq<RoughEvent>, p: nat)
    requires es != []
    ensures var before, e := es[..|es| - 1], es[|es| - 1]; var w := RoughExec(Initial(cfg), before);
            && RoughExec(Initial(cfg), es) == RoughNext(w, e)
            && Deeds(cfg, es, p) == Deeds(cfg, before, p) +
                 if e.Usual? && e.ev.Run? && e.ev.p == p && p in w.procs then {DeedOf(w, p, e.ev.choice)} else {}
  {}

  ghost predicate ToldIn(w: World, p: nat, deeds: set<Deed>) {
    if p in w.procs then ToldOf(deeds, p, w.procs[p]) else deeds == {}
  }

  lemma OwnStepTold(w: World, p: nat, c: Choice, deeds: set<Deed>)
    requires LedgerInv(w) && p in w.procs && ToldIn(w, p, deeds)
    ensures ToldIn(RoughNext(w, Usual(Run(p, c))), p, deeds + {DeedOf(w, p, c)})
  {
    StepTold(w, p, c, deeds);
    hide ToldOf;
    hide RunProc;
    hide LedgerInv;
  }

  lemma OtherStepTold(w: World, e: RoughEvent, p: nat, deeds: set<Deed>)
    requires !(e.Usual? && e.ev.Run? && e.ev.p == p && p in w.procs) && ToldIn(w, p, deeds)
    ensures ToldIn(RoughNext(w, e), p, deeds)
  {
    StandsStill(w, e, p);
    if p in w.procs { DeathIsTold(deeds, p, w.procs[p]); }
    hide RoughNext;
    hide ToldOf;
    hide Dying;
  }

  /** In every rough run, what each process has done is what its next step or its outcome says. */
  lemma {:induction false} EveryProcessIsTold(cfg: Config, es: seq<RoughEvent>, p: nat)
    ensures ToldIn(RoughExec(Initial(cfg), es), p, Deeds(cfg, es, p))
  {
    if es != [] {
      var before, e := es[..|es| - 1], es[|es| - 1];
      var w := RoughExec(Initial(cfg), before);
      EveryProcessIsTold(cfg, before, p);
      DeedsNow(cfg, es, p);
      hide RoughExec;
      hide RoughNext;
      hide Deeds;
      hide ToldIn;
      hide DeedOf;
      if e.Usual? && e.ev.Run? && e.ev.p == p && p in w.procs {
        EveryRunKeepsLedger(cfg, before);
        OwnStepTold(w, p, e.ev.choice, Deeds(cfg, before, p));
        assert e == Usual(Run(p, e.ev.choice));
      } else {
        OtherStepTold(w, e, p, Deeds(cfg, before, p));
        assert Deeds(cfg, es, p) == Deeds(cfg, before, p);
      }
    }
  }

  lemma {:induction false} DeedsGrow(cfg: Config, es: seq<RoughEvent>, more: seq<RoughEvent>, p: nat)
    requires es <= more
    ensures Deeds(cfg, es, p) <= Deeds(cfg, more, p)
    decreases |more|
  {
    if |more| > |es| { DeedsGrow(cfg, es, more[..|more| - 1], p); } else { assert es == more; }
  }

  // ----- Ledger entries -----

  /** Who wrote an entry, and what had been done by then. */
  ghost predicate EntryCause(deeds: set<Deed>, p: nat, x: Proc, entry: LedgerEntry) {
    match entry.reason
    case TaskDeduct =>
      x.Submit? && p == entry.task && entry.delta == -(x.cost as int) && DidInsert(deeds, p, x.user, x.cost, x.key)
    case FailureRefund => x.Worker? && Computed(deeds, false) && Ended(deeds, entry.task, FAILED, entry)
    case CancelRefund => x.Cancel? && Ended(deeds, entry.task, CANCELLED, entry)
    case StuckRefund => x.Stuck? && Ended(deeds, entry.task, FAILED, entry)
  }

  predicate SameKind(x: Proc, y: Proc) {
    match x
    case Submit(u, cost, key, _) => y.Submit? && y.user == u && y.cost == cost && y.key == key
    case Worker(t, u, cost, _) => y.Worker? && y.task == t && y.user == u && y.cost == cost
    case Cancel(t, _) => y.Cancel? && y.task == t
    case Stuck(t, u, cost, _) => y.Stuck? && y.task == t && y.user == u && y.cost == cost
    case Reap(t, _) => y.Reap? && y.task == t
  }

  lemma KindStays(w: World, e: RoughEvent, p: nat)
    requires p in w.procs
    ensures p in RoughNext(w, e).procs && SameKind(w.procs[p], RoughNext(w, e).procs[p])
  {
    hide Perform;
    hide OpOf;
  }

  lemma EntryCauseStays(deeds: set<Deed>, more: set<Deed>, p: nat, x: Proc, y: Proc, entry: LedgerEntry)
    requires deeds <= more && SameKind(x, y) && EntryCause(deeds, p, x, entry)
    ensures EntryCause(more, p, y, entry)
  {
    hide Ends;
    hide Inserts;
  }

  /** What an operation has just written. */
  predicate WritesNow(d: Deed, entry: LedgerEntry) {
    d.after.pg.ledger == d.before.pg.ledger + [entry] && entry.task == d.t
    && match d.op
       case OpPersist(u, cost, key) =>
         entry.reason == TaskDeduct && entry.delta == -(cost as int) && Inserts(d, d.t, u, cost, key)
       case OpFinish(to, u, cost, reason) => entry.reason == reason && Ends(d, d.t, to, entry)
       case _ => false
  }

  lemma LedgerWrites(w: World, p: nat, c: Choice)
    requires LedgerInv(w) && p in w.procs && RunProc(w, p, c).pg.ledger != w.pg.ledger
    ensures var ledger := RunProc(w, p, c).pg.ledger;
            |ledger| == |w.pg.ledger| + 1 && WritesNow(DeedOf(w, p, c), ledger[|w.pg.ledger|])
  {
    var x := w.procs[p];
    PerformWritesLedger(w.cfg, w.now, w.redis, w.pg, TaskOf(p, x), OpOf(x), c);
    RowDeed(w, p, c);
    hide Perform;
    hide OpOf;
    hide LedgerInv;
    hide Moves;
  }

  /** The only operations that write to the ledger, and what had been done by then. */
  lemma WriterHasCause(deeds: set<Deed>, d: Deed, p: nat, x: Proc, entry: LedgerEntry)
    requires ToldOf(deeds, p, x) && WritesNow(d, entry) && d.op == OpOf(x) && d.t == TaskOf(p, x)
    ensures EntryCause(deeds + {d}, p, x, entry)
  {
    OneMoreOfRow(deeds, d);
    OneMoreOfGate(deeds, d);
    hide Ends;
    hide Inserts;
    hide Moves;
    hide OnlyLooked;
    hide Moved;
    hide Ended;
    hide Computed;
    hide DidInsert;
    hide Saw;
    hide WasLetIn;
    hide LostStart;
    hide LostEnd;
    hide SawMarker;
    hide SawAt;
    hide SawAge;
    hide Paid;
    hide GaveSlot;
    hide DidAck;
    hide Forgot;
    hide Unmarked;
    hide WasRefused;
    hide DidMark;
    hide PersistFailed;
    hide TableUntouched;
    hide NeverPaid;
  }

  /** Every ledger entry was written by a process of its task that had cause to. */
  lemma {:induction false} EntriesHaveCauses(cfg: Config, es: seq<RoughEvent>, entry: LedgerEntry) returns (p: nat)
    requires entry in RoughExec(Initial(cfg), es).pg.ledger
    ensures var w := RoughExec(Initial(cfg), es);
            && p in w.procs && TaskOf(p, w.procs[p]) == entry.task
            && EntryCause(Deeds(cfg, es, p), p, w.procs[p], entry)
  {
    var before, e := es[..|es| - 1], es[|es| - 1];
    var w := RoughExec(Initial(cfg), before);
    if entry in w.pg.ledger {
      p := EntriesHaveCauses(cfg, before, entry);
      DeedsGrow(cfg, before, es, p);
    } else {
      p := NewEntryHasCause(cfg, before, e, entry);
    }
    DeedsNow(cfg, es, p);
    KindStays(w, e, p);
    hide RoughExec;
    hide RoughNext;
    hide Deeds;
    EntryCauseStays(if entry in w.pg.ledger then Deeds(cfg, before, p) else Deeds(cfg, es, p), Deeds(cfg, es, p), p,
                    w.procs[p], RoughNext(w, e).procs[p], entry);
  }

  lemma NewEntryHasCause(cfg: Config, before: seq<RoughEvent>, e: RoughEvent, entry: LedgerEntry) returns (p: nat)
    requires var w := RoughExec(Initial(cfg), before);
             entry !in w.pg.ledger && entry in RoughNext(w, e).pg.ledger
    ensures var w := RoughExec(Initial(cfg), before);
            && e.Usual? && e.ev.Run? && e.ev.p == p && p in w.procs && TaskOf(p, w.procs[p]) == entry.task
            && EntryCause(Deeds(cfg, before, p) + {DeedOf(w, p, e.ev.choice)}, p, w.procs[p], entry)
  {
    var w := RoughExec(Initial(cfg), before);
    hide RoughExec;
    LedgerGrowsByRuns(w, e);
    p := e.ev.p;
    EveryRunKeepsLedger(cfg, before);
    EveryProcessIsTold(cfg, before, p);
    LedgerWrites(w, p, e.ev.choice);
    var d := DeedOf(w, p, e.ev.choice);
    assert d.after.pg == RoughNext(w, e).pg;
    hide RoughNext;
    hide RunProc;
    hide Deeds;
    assert entry == d.after.pg.ledger[|w.pg.ledger|];
    WriterHasCause(Deeds(cfg, before, p), d, p, w.procs[p], entry);
  }

  lemma LedgerGrowsByRuns(w: World, e: RoughEvent)
    requires RoughNext(w, e).pg != w.pg
    ensures e.Usual? && e.ev.Run? && e.ev.p in w.procs && RoughNext(w, e).pg == RunProc(w, e.ev.p, e.ev.choice).pg
  {}

  // ----- Statuses -----

  /** Who gave a row its status, and what had been done by then; terminal refunds are told by the ledger. */
  ghost predicate StatusCause(deeds: set<Deed>, x: Proc, t: nat, st: TaskStatus) {
    match st
    case PENDING => true
    case RUNNING => x.Worker?
    case COMPLETED => x.Worker? && Computed(deeds, true) && Moved(deeds, t, RUNNING, COMPLETED)
    case FAILED => (x.Worker? && Computed(deeds, false)) || x.Stuck?
    case CANCELLED => x.Cancel?
  }

  lemma StatusCauseStays(deeds: set<Deed>, more: set<Deed>, x: Proc, y: Proc, t: nat, st: TaskStatus)
    requires deeds <= more && SameKind(x, y) && StatusCause(deeds, x, t, st)
    ensures StatusCause(more, y, t, st)
  {
    hide Moves;
  }

  /** How an operation moves a row. */
  predicate MovesNow(d: Deed, st: TaskStatus) {
    match d.op
    case OpPersist(_, _, _) => st.PENDING?
    case OpStart => st.RUNNING?
    case OpComplete => st.COMPLETED? && Moves(d, d.t, RUNNING, COMPLETED)
    case OpFinish(to, _, _, _) => st == to
    case _ => false
  }

  lemma RowMoves(w: World, p: nat, c: Choice, t: nat)
    requires LedgerInv(w) && p in w.procs
    requires t in RunProc(w, p, c).pg.rows && StatusOf(RunProc(w, p, c), t) != StatusOf(w, t)
    ensures TaskOf(p, w.procs[p]) == t && MovesNow(DeedOf(w, p, c), RunProc(w, p, c).pg.rows[t].status)
  {
    var x := w.procs[p];
    if TaskOf(p, x) != t { PerformTouchesOneTask(w.cfg, w.now, w.redis, w.pg, TaskOf(p, x), OpOf(x), c, t); }
    PerformMovesRow(w.cfg, w.now, w.redis, w.pg, TaskOf(p, x), OpOf(x), c);
    RowDeed(w, p, c);
    hide Perform;
    hide OpOf;
    hide LedgerInv;
    hide Ends;
    hide Inserts;
    hide TooLateToEnd;
    hide TooLateToStart;
  }

  lemma MoverHasCause(deeds: set<Deed>, d: Deed, p: nat, x: Proc, st: TaskStatus)
    requires ToldOf(deeds, p, x) && MovesNow(d, st) && d.op == OpOf(x) && d.t == TaskOf(p, x)
    ensures StatusCause(deeds + {d}, x, d.t, st)
  {
    OneMoreOfRow(deeds, d);
    hide Ends;
    hide Inserts;
    hide Moves;
    hide OnlyLooked;
    hide Moved;
    hide Ended;
    hide Computed;
    hide DidInsert;
    hide Saw;
    hide WasLetIn;
    hide LostStart;
    hide LostEnd;
    hide SawMarker;
    hide SawAt;
    hide SawAge;
    hide Paid;
    hide GaveSlot;
    hide DidAck;
    hide Forgot;
    hide Unmarked;
    hide WasRefused;
    hide DidMark;
    hide PersistFailed;
    hide TableUntouched;
    hide NeverPaid;
  }

  lemma NewStatusHasCause(cfg: Config, before: seq<RoughEvent>, e: RoughEvent, t: nat) returns (p: nat)
    requires var w := RoughExec(Initial(cfg), before);
             t in RoughNext(w, e).pg.rows && StatusOf(RoughNext(w, e), t) != StatusOf(w, t)
    ensures var w := RoughExec(Initial(cfg), before);
            && e.Usual? && e.ev.Run? && e.ev.p == p && p in w.procs && TaskOf(p, w.procs[p]) == t
            && StatusCause(Deeds(cfg, before, p) + {DeedOf(w, p, e.ev.choice)}, w.procs[p], t,
                           RoughNext(w, e).pg.rows[t].status)
  {
    var w := RoughExec(Initial(cfg), before);
    hide RoughExec;
    LedgerGrowsByRuns(w, e);
    p := e.ev.p;
    EveryRunKeepsLedger(cfg, before);
    EveryProcessIsTold(cfg, before, p);
    RowMoves(w, p, e.ev.choice, t);
    var d := DeedOf(w, p, e.ev.choice);
    hide RoughNext;
    hide RunProc;
    hide Deeds;
    MoverHasCause(Deeds(cfg, before, p), d, p, w.procs[p], RoughNext(w, e).pg.rows[t].status);
  }

  /** Every row has its status from a process of the task that had cause to give it. */
  lemma {:induction false} StatusesHaveCauses(cfg: Config, es: seq<RoughEvent>, t: nat) returns (p: nat)
    requires t in RoughExec(Initial(cfg), es).pg.rows
    ensures var w := RoughExec(Initial(cfg), es);
            && p in w.procs && TaskOf(p, w.procs[p]) == t
            && StatusCause(Deeds(cfg, es, p), w.procs[p], t, w.pg.rows[t].status)
  {
    var before, e := es[..|es| - 1], es[|es| - 1];
    var w := RoughExec(Initial(cfg), before);
    var w' := RoughNext(w, e);
    if StatusOf(w', t) == StatusOf(w, t) {
      p := StatusesHaveCauses(cfg, before, t);
      DeedsGrow(cfg, before, es, p);
    } else {
      p := NewStatusHasCause(cfg, before, e, t);
    }
    DeedsNow(cfg, es, p);
    KindStays(w, e, p);
    hide RoughExec;
    hide RoughNext;
    hide Deeds;
    StatusCauseStays(if StatusOf(w', t) == StatusOf(w, t) then Deeds(cfg, before, p) else Deeds(cfg, es, p),
                     Deeds(cfg, es, p), w.procs[p], w'.procs[p], t, w'.pg.rows[t].status);
  }
}
