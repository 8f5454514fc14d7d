/** Crashing and replaying workflow invocations changes no outcome of Solution 4. */
module CrashReplay {
  import opened Ledger
  import opened Options
  import opened Protocol
  import opened ProtocolInvariant
  import opened ProtocolSteps
  import opened Agreement

  /**
   * Replaying runs the handler again from its start. Journaled calls answer from the journal; the one
   * unjournaled release is made again each time the replay passes it, and answers `released`.
   */
  function Feed(pc: WorkflowPc, e: Entry, released: bool): WorkflowPc {
    AdvanceWorkflow(if pc.WUnjournaledRelease? then AdvanceWorkflow(pc, Flag(released)) else pc, e)
  }

  function Replay(journal: seq<Entry>, released: bool): WorkflowPc {
    if journal == [] then WMarkRunning
    else Feed(Replay(journal[..|journal| - 1], released), journal[|journal| - 1], released)
  }

  /** The replay makes the unjournaled release again on its way through the journal. */
  predicate PassesRelease(journal: seq<Entry>, released: bool) {
    journal != [] &&
    (Replay(journal[..|journal| - 1], released).WUnjournaledRelease?
         || PassesRelease(journal[..|journal| - 1], released))
  }

  datatype FaultyEvent = Normal(ev: Event) | Crash(p: nat)

  /**
   * The invocation loses its local state and is driven again from its journal. This may happen at any time,
   * also after its last journaled step: its output may not have been recorded yet.
   */
  function CrashAndReplay(s: State, p: nat): State {
    if p in s.procs && s.procs[p].Workflow? then
      var x := s.procs[p];
      var (book, released) := Release(s.book, x.tid);
      s.(book := if PassesRelease(x.journal, released) then book else s.book,
         procs := s.procs[p := x.(wpc := Replay(x.journal, released))])
    else s
  }

  function FaultyNext(s: State, f: FaultyEvent): State {
    match f
    case Normal(ev) => Next(s, ev)
    case Crash(p) => CrashAndReplay(s, p)
  }

  function FaultyExec(s: State, fs: seq<FaultyEvent>): State {
    if fs == [] then s else FaultyNext(FaultyExec(s, fs[..|fs| - 1]), fs[|fs| - 1])
  }

  // ----- The journal determines the program counter -----

  predicate JournalOk(x: Proc) {
    x.Workflow? ==>
      || Replay(x.journal, false) == x.wpc
      || (x.wpc.WMetricAfterRelease? && Replay(x.journal, false).WUnjournaledRelease?)
  }

  /** Where the unjournaled release may be made, for the first time or again by a replay. */
  predicate MayRelease(pc: WorkflowPc) {
    pc.WUnjournaledRelease? || pc.WMetricAfterRelease? || pc == WDone(true, Answer(FAILED))
  }

  /** A capture that failed leaves nothing to release: the unjournaled call answers false and changes nothing. */
  lemma UnjournaledReleaseIsHarmless(evs: seq<Event>, p: nat)
    requires var s := Reached(evs); p in s.procs && s.procs[p].Workflow? && MayRelease(s.procs[p].wpc)
    ensures Release(Reached(evs).book, Reached(evs).procs[p].tid) == (Reached(evs).book, false)
  {
    var s := Reached(evs);
    ReachedInv(evs);
    assert ProcOk(s, p) && RowOk(s, s.procs[p].task);
  }

  lemma AdvanceKeepsJournalOk(p: nat, x: Proc, e: Entry)
    requires JournalOk(x) && x.Workflow? && (x.wpc.WUnjournaledRelease? ==> e == Flag(false))
    requires !x.wpc.WInvalidateAfterRelease?
    ensures JournalOk(Advance(p, x, e))
  {
    var x' := Advance(p, x, e);
    if !x.wpc.WUnjournaledRelease? {
      assert x'.journal[..|x'.journal| - 1] == x.journal;
    }
  }

  lemma OthersKeepTheirState(s: State, ev: Event, p: nat)
    requires p in s.procs && !(ev.Run? && ev.p == p)
    ensures p in Next(s, ev).procs && Next(s, ev).procs[p] == s.procs[p]
  {}

  lemma {:induction false} EveryRunKeepsJournal(evs: seq<Event>, p: nat)
    ensures var s := Reached(evs); p in s.procs ==> JournalOk(s.procs[p])
  {
    if evs != [] {
      var before, ev := evs[..|evs| - 1], evs[|evs| - 1];
      EveryRunKeepsJournal(before, p);
      var s := Reached(before);
      if p in s.procs {
        if ev.Run? && ev.p == p && s.procs[p].Workflow? {
          ReachedInv(before);
          assert ProcOk(s, p);
          if s.procs[p].wpc.WUnjournaledRelease? { UnjournaledReleaseIsHarmless(before, p); }
          AdvanceKeepsJournalOk(p, s.procs[p], AnswerOf(s, p, ev.choice));
        } else if !(ev.Run? && ev.p == p) {
          OthersKeepTheirState(s, ev, p);
        }
      }
    }
  }

  /**
   * Whether a replay passes the release does not depend on the release's answer. A replay that does not pass
   * it ignores that answer; one that does passes it on a false answer to the end.
   */
  lemma {:induction false} ReplayAndRelease(journal: seq<Entry>, released: bool)
    ensures PassesRelease(journal, released) == PassesRelease(journal, false)
    ensures !PassesRelease(journal, false) ==> Replay(journal, released) == Replay(journal, false)
    ensures PassesRelease(journal, false) ==> Replay(journal, false) == WDone(true, Answer(FAILED))
  {
    if journal != [] {
      ReplayAndRelease(journal[..|journal| - 1], released);
    }
  }

  // ----- Equivalence -----

  /** The crashed process may have to make its harmless release once more; nothing else differs. */
  predicate SameProc(x: Proc, y: Proc) {
    || x == y
    || (x.Workflow? && y.Workflow? && y == x.(wpc := WMetricAfterRelease) && x.wpc.WUnjournaledRelease?)
  }

  ghost predicate Same(s: State, c: State) {
    && s.book == c.book && s.table == c.table && s.owner == c.owner && s.reservedBy == c.reservedBy
    && s.procs.Keys == c.procs.Keys
    && (forall p | p in s.procs :: SameProc(s.procs[p], c.procs[p]))
  }

  /** The replay of a crash-free invocation ends where it was, up to the release it may make once more. */
  lemma ReplayReturns(evs: seq<Event>, p: nat)
    requires var s := Reached(evs); p in s.procs && s.procs[p].Workflow?
    ensures var s := Reached(evs); var x := s.procs[p]; var (book, released) := Release(s.book, x.tid);
            && (PassesRelease(x.journal, released) ==> book == s.book)
            && SameProc(x.(wpc := Replay(x.journal, released)), x)
  {
    var s := Reached(evs);
    var x := s.procs[p];
    EveryRunKeepsJournal(evs, p);
    ReplayAndRelease(x.journal, Release(s.book, x.tid).1);
    if PassesRelease(x.journal, false) { UnjournaledReleaseIsHarmless(evs, p); }
  }

  lemma CrashIsInvisible(s: State, evs: seq<Event>, p: nat)
    requires Same(s, Reached(evs))
    ensures Same(CrashAndReplay(s, p), Reached(evs))
  {
    if p in s.procs && s.procs[p].Workflow? {
      assert SameProc(s.procs[p], Reached(evs).procs[p]);
      ReplayReturns(evs, p);
    }
  }

  lemma ReleaseAgainIsInvisible(s: State, evs: seq<Event>, p: nat, ch: Choice)
    requires Same(s, Reached(evs)) && p in s.procs && s.procs[p] != Reached(evs).procs[p]
    ensures Same(RunProc(s, p, ch), Reached(evs))
  {
    assert SameProc(s.procs[p], Reached(evs).procs[p]);
    UnjournaledReleaseIsHarmless(evs, p);
  }

  lemma AppendRun(evs: seq<Event>, ev: Event)
    ensures Reached(evs + [ev]) == Next(Reached(evs), ev)
  {
    assert (evs + [ev])[..|evs|] == evs;
  }

  /** Every run with crashes ends as some run without crashes does. */
  lemma {:induction false} CrashesChangeNoOutcome(fs: seq<FaultyEvent>) returns (evs: seq<Event>)
    ensures Same(FaultyExec(INITIAL, fs), Reached(evs))
  {
    if fs == [] {
      evs := [];
    } else {
      var s, f := FaultyExec(INITIAL, fs[..|fs| - 1]), fs[|fs| - 1];
      evs := CrashesChangeNoOutcome(fs[..|fs| - 1]);
      match f
      case Crash(p) => CrashIsInvisible(s, evs, p);
      case Normal(ev) =>
        if ev.Run? && ev.p in s.procs && s.procs[ev.p] != Reached(evs).procs[ev.p] {
          ReleaseAgainIsInvisible(s, evs, ev.p, ev.choice);
        } else {
          AppendRun(evs, ev);
          evs := evs + [ev];
        }
    }
  }

  /** In particular charge and status agree, as without crashes, in every run with any crashes and replays. */
  lemma ChargesAgreeDespiteCrashes(fs: seq<FaultyEvent>, t: nat)
    requires t in FaultyExec(INITIAL, fs).table.rows
    ensures var s := FaultyExec(INITIAL, fs); var r := s.table.rows[t];
            && (r.status.COMPLETED? ==> Charged(s, r.tid))
            && (Charged(s, r.tid) ==> r.status.COMPLETED? || (Live(r.status) && BeingCompleted(s, t)))
            && (r.status.FAILED? || r.status.CANCELLED? ==> !Charged(s, r.tid))
  {
    var s := FaultyExec(INITIAL, fs);
    var evs := CrashesChangeNoOutcome(fs);
    ChargeAgreesWithStatus(evs);
    var c := Reached(evs);
    if BeingCompleted(c, t) {
      assert SameProc(s.procs[s.owner[t]], c.procs[c.owner[t]]);
    }
  }

  // ----- A start can be lost -----

  const CHOICE := Choice(NoFault, true, true)

  /** Cancel `p` takes the task and fails to release; invocation `q` loses its start meanwhile, then reads PENDING. */
  function LostStart(t: nat, p: nat, q: nat): seq<Event> {
    [StartCancel(p, t), Run(p, CHOICE), Run(p, CHOICE), Invoke(q, t), Run(q, CHOICE),
     Run(p, CHOICE), Run(p, CHOICE), Run(q, CHOICE)]
  }

  lemma ExecPrefix(s: State, evs: seq<Event>, k: nat)
    requires k < |evs|
    ensures Exec(s, evs[..k + 1]) == Next(Exec(s, evs[..k]), evs[k])
  {
    assert evs[..k + 1][..k] == evs[..k];
  }

  lemma CancelTakesTask(s: State, t: nat, p: nat)
    requires t in s.table.rows && s.table.rows[t].status.PENDING? && GivenBack(s, s.table.rows[t].tid) && p !in s.procs
    ensures var s' := Exec(s, LostStart(t, p, p)[..3]); var r := s.table.rows[t];
            && s'.book == s.book && s'.table.rows == s.table.rows[t := r.(status := CANCELLED)]
            && s'.procs == s.procs[p := Cancel(t, CaRelease(r.tid, r.cost))]
  {
    var evs := LostStart(t, p, p);
    var r := s.table.rows[t];
    ExecPrefix(s, evs, 0);
    assert Exec(s, evs[..1]) == s.(procs := s.procs[p := Cancel(t, CaGet)]);
    ExecPrefix(s, evs, 1);
    assert Exec(s, evs[..2]) == s.(procs := s.procs[p := Cancel(t, CaCasPending(r.tid, r.cost))]);
    ExecPrefix(s, evs, 2);
  }

  /** Invocation `q` starts and loses its start to the cancel. */
  lemma StartIsLost(s: State, t: nat, q: nat)
    requires t in s.table.rows && s.table.rows[t].status.CANCELLED? && q !in s.procs
    ensures var s' := Next(Next(s, Invoke(q, t)), Run(q, CHOICE));
            && s'.table == s.table && s'.book == s.book
            && q in s'.procs && s'.procs[q].Workflow? && s'.procs[q].task == t && s'.procs[q].wpc == WReadAfterStart
            && forall p | p in s.procs :: p in s'.procs && s'.procs[p] == s.procs[p]
  {}

  /** Cancel `p` fails to release a hold that is gone and puts the task back. */
  lemma CancelRollsBack(s: State, t: nat, p: nat)
    requires t in s.table.rows && s.table.rows[t].status.CANCELLED? && GivenBack(s, s.table.rows[t].tid)
    requires p in s.procs && s.procs[p] == Cancel(t, CaRelease(s.table.rows[t].tid, s.table.rows[t].cost))
    ensures var s' := Next(Next(s, Run(p, CHOICE)), Run(p, CHOICE));
            && t in s'.table.rows && s'.table.rows[t].status.PENDING?
            && forall q | q in s.procs && q != p :: q in s'.procs && s'.procs[q] == s.procs[q]
  {
    var s1 := Next(s, Run(p, CHOICE));
    assert s1.table == s.table && s1.procs == s.procs[p := Cancel(t, CaRollback)];
  }

  lemma StartReadsPending(s: State, t: nat, q: nat)
    requires t in s.table.rows && s.table.rows[t].status.PENDING?
    requires q in s.procs && s.procs[q].Workflow? && s.procs[q].task == t && s.procs[q].wpc == WReadAfterStart
    ensures var s' := Next(s, Run(q, CHOICE));
            && s'.table == s.table
            && q in s'.procs && s'.procs[q].Workflow? && s'.procs[q].wpc == WDone(false, Rejected)
  {}

  lemma LostStartTail(s: State, evs: seq<Event>)
    requires |evs| == 8
    ensures Exec(s, evs) == Next(Next(Next(Next(Next(Exec(s, evs[..3]), evs[3]), evs[4]), evs[5]), evs[6]), evs[7])
  {
    hide Next;
    ExecPrefix(s, evs, 3); ExecPrefix(s, evs, 4); ExecPrefix(s, evs, 5); ExecPrefix(s, evs, 6); ExecPrefix(s, evs, 7);
    assert evs[..8] == evs;
  }

  /**
   * So REJECTED is reachable: whenever a pending task has lost its hold (say to the ledger timeout), a
   * failing cancel and a start can interleave so that the start is lost. The task stays PENDING.
   */
  lemma RejectionIsReachable(s: State, t: nat, p: nat, q: nat)
    requires t in s.table.rows && s.table.rows[t].status.PENDING? && GivenBack(s, s.table.rows[t].tid)
    requires p !in s.procs && q !in s.procs && p != q
    ensures var s' := Exec(s, LostStart(t, p, q));
            && t in s'.table.rows && s'.table.rows[t].status.PENDING?
            && q in s'.procs && s'.procs[q].Workflow? && s'.procs[q].wpc == WDone(false, Rejected)
  {
    var evs := LostStart(t, p, q);
    CancelTakesTask(s, t, p);
    assert evs[..3] == LostStart(t, p, p)[..3];
    LostStartTail(s, evs);
    var s1 := Exec(s, evs[..3]);
    StartIsLost(s1, t, q);
    var s2 := Next(Next(s1, evs[3]), evs[4]);
    CancelRollsBack(s2, t, p);
    StartReadsPending(Next(Next(s2, evs[5]), evs[6]), t, q);
  }

  /** User 7 buys ten credits, task 0 holds all of them, and the hold times out. */
  const TIMED_OUT: seq<Event> :=
    [AdminTopUp(7, 100, 10), StartSubmit(0, 7, 10, 1, None), Run(0, CHOICE), Run(0, CHOICE), Run(0, CHOICE),
     HoldTimeout(1)]

  const FUNDED := map[Revenue := Account(0, 10, 0, 0), Escrow := EMPTY_ACCOUNT, User(7) := Account(0, 0, 0, 10)]

  lemma Funded()
    ensures Next(INITIAL, TIMED_OUT[0]) == INITIAL.(book := Book(FUNDED, map[100 := TopUp(7, 10)]))
  {
    assert EnsureUser(OPENING, 7).accounts ==
           map[Revenue := EMPTY_ACCOUNT, Escrow := EMPTY_ACCOUNT, User(7) := EMPTY_ACCOUNT];
  }

  /** Two steps of the submit: its account exists, and the hold takes everything. */
  lemma HoldIsTaken(s: State)
    requires s == INITIAL.(book := Book(FUNDED, map[100 := TopUp(7, 10)]))
    ensures var s' := Next(Next(Next(s, TIMED_OUT[1]), TIMED_OUT[2]), TIMED_OUT[3]);
            && IsPending(s'.book, 1) && s'.book.transfers[1] == Hold(7, 10, Pending)
            && User(7) in s'.book.accounts && Escrow in s'.book.accounts
            && s'.table == INITIAL.table && s'.procs == map[0 := Submit(7, 10, 1, None, SInsert)]
  {
    var s1 := Next(s, TIMED_OUT[1]);
    var s2 := Next(s1, TIMED_OUT[2]);
    assert s2.book == s.book && s2.table == s.table && s2.procs == map[0 := Submit(7, 10, 1, None, SReserve)];
    assert Available(s2.book, 7) == 10;
  }

  lemma RowIsInsertedAndHoldExpires(s: State)
    requires IsPending(s.book, 1) && s.book.transfers[1] == Hold(7, 10, Pending)
    requires User(7) in s.book.accounts && Escrow in s.book.accounts
    requires s.table == INITIAL.table && s.procs == map[0 := Submit(7, 10, 1, None, SInsert)]
    ensures var s' := Next(Next(s, TIMED_OUT[4]), TIMED_OUT[5]);
            && 0 in s'.table.rows && s'.table.rows[0] == Row(7, 10, 1, None, PENDING) && GivenBack(s', 1)
            && s'.procs.Keys == {0}
  {
    var s1 := Next(s, TIMED_OUT[4]);
    assert s1.book == s.book && s1.table.rows == map[0 := Row(7, 10, 1, None, PENDING)];
  }

  /** A run from the very start that ends with a REJECTED start of a task that is still PENDING. */
  lemma RejectionFromTheStart() returns (evs: seq<Event>)
    ensures var s := Reached(evs);
            && 0 in s.table.rows && s.table.rows[0].status.PENDING?
            && 2 in s.procs && s.procs[2].Workflow? && s.procs[2].wpc == WDone(false, Rejected)
  {
    Funded();
    HoldIsTaken(Next(INITIAL, TIMED_OUT[0]));
    var funded := Next(INITIAL, TIMED_OUT[0]);
    RowIsInsertedAndHoldExpires(Next(Next(Next(funded, TIMED_OUT[1]), TIMED_OUT[2]), TIMED_OUT[3]));
    TimedOutRun();
    var s := Reached(TIMED_OUT);
    RejectionIsReachable(s, 0, 1, 2);
    evs := TIMED_OUT + LostStart(0, 1, 2);
    ExecConcat(INITIAL, TIMED_OUT, LostStart(0, 1, 2));
  }

  lemma TimedOutRun()
    ensures var held := Next(Next(Next(Next(INITIAL, TIMED_OUT[0]), TIMED_OUT[1]), TIMED_OUT[2]), TIMED_OUT[3]);
            Reached(TIMED_OUT) == Next(Next(held, TIMED_OUT[4]), TIMED_OUT[5])
  {
    hide Next;
    var evs := TIMED_OUT;
    ExecPrefix(INITIAL, evs, 0); ExecPrefix(INITIAL, evs, 1); ExecPrefix(INITIAL, evs, 2);
    ExecPrefix(INITIAL, evs, 3); ExecPrefix(INITIAL, evs, 4); ExecPrefix(INITIAL, evs, 5);
    assert evs[..6] == evs;
  }

  /** Runs compose; the runs of Solution 1 have their own `Exec`, and this lemma about it. */
  lemma {:induction false} ExecConcat(s: State, a: seq<Event>, b: seq<Event>)
    ensures Exec(s, a + b) == Exec(Exec(s, a), b)
  {
    if b == [] {
      assert a + b == a;
    } else {
      ExecConcat(s, a, b[..|b| - 1]);
      assert (a + b)[..|a + b| - 1] == a + b[..|b| - 1];
    }
  }
}
