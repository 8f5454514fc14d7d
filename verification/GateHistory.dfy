/** Solution 1: what holds at the end of a history, and what every longer history still shows. */
module GateHistory {
  import opened Options
  import opened Gate
  import opened GateInvariant
  import opened GateLedger
  import opened GateRuns
  import opened GateAccounting
  import opened GateOutcomes
  import opened GateLostWork
  import opened GateDeeds
  import opened GateCauses

  function Reached(cfg: Config, evs: seq<Event>): World { Exec(Initial(cfg), evs) }

  lemma AppendRun(cfg: Config, evs: seq<Event>, ev: Event)
    ensures Reached(cfg, evs + [ev]) == Next(Reached(cfg, evs), ev)
  {
    assert (evs + [ev])[..|evs|] == evs;
  }

  /** No event but its own operations and its own death moves a process. */
  lemma OthersKeepProcess(w: World, ev: Event, p: nat)
    requires p in w.procs && !(ev.Run? && ev.p == p) && !(ev.Die? && ev.p == p)
    ensures p in Next(w, ev).procs && Next(w, ev).procs[p] == w.procs[p]
  {
    hide Perform;
  }

  /** What a later history still shows of a row that has left PENDING. */
  lemma RowsOnlyMoveOn(cfg: Config, evs: seq<Event>, more: seq<Event>, t: nat)
    requires evs <= more && t in Reached(cfg, evs).pg.rows
    ensures var row, row' := Reached(cfg, evs).pg.rows[t], Reached(cfg, more).pg.rows;
            && t in row' && row'[t].user == row.user && row'[t].cost == row.cost
            && (Terminal(row.status) ==> row'[t] == row)
  {
    assert more == evs + more[|evs|..];
    ExecConcat(Initial(cfg), evs, more[|evs|..]);
    TerminalForGood(Reached(cfg, evs), more[|evs|..], t);
  }

  // ----- Credits, slots and acknowledgements -----

  /** What later histories keep: an admission given back, and a stream entry with its terms and acknowledgement. */
  predicate Keeps(w: World, w': World, t: nat) {
    && (t in w.slots && w.slots[t].phase.Freed? ==> t in w'.slots && w'.slots[t].phase.Freed?)
    && (t in w.redis.stream ==>
          && t in w'.redis.stream && (w.redis.stream[t].acked ==> w'.redis.stream[t].acked)
          && w'.redis.stream[t] == w.redis.stream[t].(acked := w'.redis.stream[t].acked))
  }

  lemma PerformKeepsEntry(cfg: Config, now: nat, r: Redis, pg: Postgres, t: nat, op: Op, c: Choice, t2: nat)
    requires t2 in r.stream && !(op.OpAdmit? && t == t2)
    ensures var r' := Perform(cfg, now, r, pg, t, op, c).0;
            && t2 in r'.stream && r'.stream[t2] == r.stream[t2].(acked := r'.stream[t2].acked)
            && (r.stream[t2].acked ==> r'.stream[t2].acked)
  {}

  lemma RunKeepsWork(w: World, p: nat, c: Choice, t: nat)
    requires Inv(w) && p in w.procs
    ensures Keeps(w, RunProc(w, p, c), t)
  {
    hide Perform;
    var x := w.procs[p];
    assert TaskOk(w, t);
    if OpOf(x).OpAdmit? { AdmitsOnlyNewTasks(w, p); }
    else if TaskOf(p, x) == t && t in w.slots { ReadyToRun(w, p, c, t); }
    if t in w.redis.stream {
      PerformKeepsEntry(w.cfg, w.now, w.redis, w.pg, TaskOf(p, x), OpOf(x), c, t);
    }
  }

  lemma NextKeepsWork(w: World, ev: Event, t: nat)
    requires Inv(w)
    ensures Keeps(w, Next(w, ev), t)
  {
    if ev.Run? && ev.p in w.procs { RunKeepsWork(w, ev.p, ev.choice, t); }
    hide Perform;
  }

  lemma {:induction false} WorkStaysDone(cfg: Config, evs: seq<Event>, more: seq<Event>, t: nat)
    requires InTime(cfg) && evs <= more
    ensures Keeps(Reached(cfg, evs), Reached(cfg, more), t)
    decreases |more|
  {
    if |more| > |evs| {
      var rest := more[..|more| - 1];
      assert evs <= rest && more == rest + [more[|more| - 1]];
      WorkStaysDone(cfg, evs, rest, t);
      AppendRun(cfg, rest, more[|more| - 1]);
      EveryRunKeepsInv(cfg, rest);
      NextKeepsWork(Reached(cfg, rest), more[|more| - 1], t);
    } else {
      assert evs == more;
    }
  }

  /**
   * Nothing of the admission is left to give back, neither credits nor slot, and the ledger tells the
   * outcome: nothing without a row, and a deduction with its one refund for a failed or cancelled one.
   */
  ghost predicate PaidBack(w: World, t: nat) {
    && t in w.slots && w.slots[t].phase.Freed?
    && Told(Entries(w.pg.ledger, t), t, w.slots[t].user, w.slots[t].cost, StatusOf(w, t))
  }

  /** A decrement is the last thing that anybody owes for a task. */
  lemma DecrementPaysBack(cfg: Config, evs: seq<Event>, p: nat)
    requires InTime(cfg)
    requires var w := Reached(cfg, evs); p in w.procs && OpOf(w.procs[p]).OpDecrement?
    ensures PaidBack(Reached(cfg, evs + [Run(p, CHOICE)]), TaskOf(p, Reached(cfg, evs).procs[p]))
  {
    var w := Reached(cfg, evs);
    EveryRunKeepsInv(cfg, evs);
    EveryRunKeepsInv(cfg, evs + [Run(p, CHOICE)]);
    AppendRun(cfg, evs, Run(p, CHOICE));
    hide Exec;
    assert ProcOk(w, p);
    ReadyToRun(w, p, CHOICE, TaskOf(p, w.procs[p]));
    hide Perform;
    assert LedgerOk(Reached(cfg, evs + [Run(p, CHOICE)]), TaskOf(p, w.procs[p]));
  }

  /** Once paid back, for good. */
  lemma PaidBackForGood(cfg: Config, evs: seq<Event>, more: seq<Event>, t: nat)
    requires InTime(cfg) && evs <= more && PaidBack(Reached(cfg, evs), t)
    ensures PaidBack(Reached(cfg, more), t)
  {
    WorkStaysDone(cfg, evs, more, t);
    EveryRunKeepsInv(cfg, more);
    hide Exec;
    assert LedgerOk(Reached(cfg, more), t);
  }

  predicate Acked(w: World, t: nat) { t in w.redis.stream && w.redis.stream[t].acked }

  /** The entry of a delivery that acknowledges it is acknowledged afterwards. */
  lemma AckLands(cfg: Config, evs: seq<Event>, p: nat)
    requires InTime(cfg)
    requires var w := Reached(cfg, evs); p in w.procs && OpOf(w.procs[p]).OpAck?
    ensures Acked(Reached(cfg, evs + [Run(p, CHOICE)]), TaskOf(p, Reached(cfg, evs).procs[p]))
  {
    EveryRunKeepsInv(cfg, evs);
    AppendRun(cfg, evs, Run(p, CHOICE));
    hide Exec;
    assert ProcOk(Reached(cfg, evs), p) && TaskOk(Reached(cfg, evs), TaskOf(p, Reached(cfg, evs).procs[p]));
  }

  // ----- Deeds -----

  /** Everything that `p` has done by the end of a history. */
  ghost function Done(cfg: Config, evs: seq<Event>, p: nat): set<Deed> { Deeds(cfg, AsRough(evs), p) }

  lemma DoneIsTold(cfg: Config, evs: seq<Event>, p: nat)
    ensures ToldIn(Reached(cfg, evs), p, Done(cfg, evs, p))
  {
    UsualRunsAreRough(Initial(cfg), evs);
    EveryProcessIsTold(cfg, AsRough(evs), p);
  }

  lemma AsRoughSplit(evs: seq<Event>)
    requires evs != []
    ensures AsRough(evs) != [] && AsRough(evs)[|evs| - 1] == Usual(evs[|evs| - 1])
    ensures AsRough(evs)[..|evs| - 1] == AsRough(evs[..|evs| - 1])
  {}

  /** A deed was done before, or is the last operation. */
  lemma LastDeed(cfg: Config, evs: seq<Event>, p: nat, d: Deed)
    requires d in Done(cfg, evs, p)
    ensures evs != []
    ensures var before := evs[..|evs| - 1];
            || d in Done(cfg, before, p)
            || (&& evs == before + [Run(p, d.choice)] && p in Reached(cfg, before).procs
                && d == DeedOf(Reached(cfg, before), p, d.choice))
  {
    AsRoughSplit(evs);
    UsualRunsAreRough(Initial(cfg), evs[..|evs| - 1]);
    hide RoughNext;
    hide RunProc;
    hide OpOf;
    DeedsNow(cfg, AsRough(evs), p);
    hide Deeds;
    hide Exec;
    hide RoughExec;
  }

  /** Every deed found the state of some moment of the history. */
  lemma {:induction false} DeedsHappened(cfg: Config, evs: seq<Event>, p: nat, d: Deed) returns (h: seq<Event>)
    requires d in Done(cfg, evs, p)
    ensures h < evs && d.before == Reached(cfg, h) && d.after == Reached(cfg, h + [Run(p, d.choice)])
    ensures h + [Run(p, d.choice)] <= evs
  {
    hide RunProc;
    hide OpOf;
    hide Deeds;
    LastDeed(cfg, evs, p, d);
    h := evs[..|evs| - 1];
    if d in Done(cfg, h, p) {
      h := DeedsHappened(cfg, h, p, d);
    } else {
      AppendRun(cfg, h, Run(p, d.choice));
    }
    hide Exec;
    hide Done;
  }

  /** A terminal status that a process gave a row is the row's status for good. */
  lemma EndedForGood(cfg: Config, evs: seq<Event>, p: nat, t: nat, d: Deed)
    requires d in Done(cfg, evs, p) && StatusOf(d.after, t).Some? && Terminal(StatusOf(d.after, t).value)
    ensures StatusOf(Reached(cfg, evs), t) == StatusOf(d.after, t)
  {
    var h := DeedsHappened(cfg, evs, p, d);
    RowsOnlyMoveOn(cfg, h + [Run(p, d.choice)], evs, t);
  }

  /** What a delivery completed or failed itself is so for good. */
  lemma DeliveryLasts(cfg: Config, evs: seq<Event>, p: nat)
    requires var w := Reached(cfg, evs); p in w.procs && w.procs[p].Worker? && w.procs[p].wpc.WkDone?
    ensures var w := Reached(cfg, evs); var x := w.procs[p];
            && (x.wpc.outcome.Completed? ==> StatusOf(w, x.task) == Some(COMPLETED))
            && (x.wpc.outcome.Failed? ==> StatusOf(w, x.task) == Some(FAILED))
  {
    var x := Reached(cfg, evs).procs[p];
    DoneIsTold(cfg, evs, p);
    hide Reached;
    hide Done;
    hide Computed;
    hide Paid;
    hide NeverPaid;
    match x.wpc.outcome {
      case Completed =>
        var d :| d in Done(cfg, evs, p) && Moves(d, x.task, RUNNING, COMPLETED);
        EndedForGood(cfg, evs, p, x.task, d);
      case Failed =>
        var d :| d in Done(cfg, evs, p) && Ends(d, x.task, FAILED, LedgerEntry(x.user, x.task, x.cost, FailureRefund));
        EndedForGood(cfg, evs, p, x.task, d);
      case _ =>
    }
  }

  // ----- The gate's decisions -----

  /** Why a submit was refused: what the gate found, and for the concurrency limit that every slot was taken. */
  ghost predicate RefusedFor(deeds: set<Deed>, cfg: Config, u: nat, cost: nat, key: nat, verdict: Verdict) {
    exists d :: d in deeds && RefusesAs(d, u, cost, key, verdict)
                && (verdict.Concurrency? ==> |Holding(d.before.slots, u)| == LimitOf(cfg, u))
  }

  lemma RefusalHasCause(cfg: Config, evs: seq<Event>, p: nat)
    requires InTime(cfg)
    requires var w := Reached(cfg, evs);
             p in w.procs && w.procs[p].Submit? && w.procs[p].spc.AdDone? && w.procs[p].spc.end.Refused?
    ensures var x := Reached(cfg, evs).procs[p];
            RefusedFor(Done(cfg, evs, p), cfg, x.user, x.cost, x.key, x.spc.end.verdict)
  {
    var x := Reached(cfg, evs).procs[p];
    DoneIsTold(cfg, evs, p);
    var d :| d in Done(cfg, evs, p) && RefusesAs(d, x.user, x.cost, x.key, x.spc.end.verdict);
    var h := DeedsHappened(cfg, evs, p, d);
    EveryRunKeepsAccounts(cfg, h);
    hide Exec;
    assert ActiveOk(d.before, x.user);
  }

  /**
   * The gate admits a request if and only if its key is unused, the user holds fewer slots than the limit, and has
   * credits enough.
   */
  lemma AdmittedExactlyWhen(cfg: Config, evs: seq<Event>, p: nat, c: Choice)
    requires InTime(cfg)
    requires var w := Reached(cfg, evs); p in w.procs && w.procs[p].Submit? && w.procs[p].spc.AdGate?
    ensures var w := Reached(cfg, evs); var x := w.procs[p];
            Next(w, Run(p, c)).procs[p].spc.AdMark? <==>
              && (x.user, x.key) !in w.redis.idem && |Holding(w.slots, x.user)| < LimitOf(cfg, x.user)
              && x.user in w.redis.credits && w.redis.credits[x.user] >= x.cost
  {
    EveryRunKeepsAccounts(cfg, evs);
    hide Exec;
    assert ActiveOk(Reached(cfg, evs), Reached(cfg, evs).procs[p].user);
  }

  // ----- Drops -----

  /** At the end of `evs` worker `p` is about to read a row that is not there. */
  ghost predicate ReadsNoRow(cfg: Config, evs: seq<Event>, p: nat, t: nat) {
    var w := Reached(cfg, evs); At(w, p, WkReadRow, t) && t !in w.pg.rows
  }

  /** An entry read without a row is dropped for good unless its handler could still insert the row, early on. */
  lemma DropsForGood(cfg: Config, evs: seq<Event>, more: seq<Event>, p: nat, t: nat)
    requires InTime(cfg) && evs <= more && ReadsNoRow(cfg, evs, p, t)
    ensures var w := Reached(cfg, evs);
            && t in w.redis.stream && (Late(w, t) ==> !MayInsert(w, t))
            && (!MayInsert(w, t) ==> MissingForGood(Reached(cfg, more), t))
  {
    var w := Reached(cfg, evs);
    EveryRunKeepsInv(cfg, evs);
    assert ProcOk(w, p) && TaskOk(w, t);
    if !MayInsert(w, t) {
      assert more == evs + more[|evs|..];
      ExecConcat(Initial(cfg), evs, more[|evs|..]);
      MissingForEver(w, more[|evs|..], t);
    }
  }

  // ----- What the invariant tells a handler -----

  lemma SubmitEndsTruly(cfg: Config, evs: seq<Event>, p: nat)
    requires InTime(cfg)
    requires var w := Reached(cfg, evs); p in w.procs && w.procs[p].Submit? && w.procs[p].spc.AdDone?
    ensures var w := Reached(cfg, evs); var x := w.procs[p];
            match x.spc.end
            case Accepted => p in w.pg.rows && w.pg.rows[p].user == x.user && w.pg.rows[p].cost == x.cost
            case Compensated => p !in w.pg.rows && p !in w.redis.markers && PaidBack(w, p)
            case Refused(verdict) =>
              && Untouched(w, p) && Entries(w.pg.ledger, p) == []
              && (verdict.Idempotent? ==> Names(w, verdict.task, x.user, x.key))
  {
    EveryRunKeepsInv(cfg, evs);
    ReplaysNameTheSameRequest(cfg, evs);
    hide Exec;
    assert ProcOk(Reached(cfg, evs), p) && TaskOk(Reached(cfg, evs), p) && LedgerOk(Reached(cfg, evs), p);
  }

  /** The entries of a persisted task are those of its terms and its status. */
  lemma RowsAreTold(cfg: Config, evs: seq<Event>, t: nat)
    requires t in Reached(cfg, evs).pg.rows
    ensures var w := Reached(cfg, evs); var row := w.pg.rows[t];
            && Told(Entries(w.pg.ledger, t), t, row.user, row.cost, Some(row.status))
            && (InTime(cfg) && PaidBack(w, t) ==> Terminal(row.status))
  {
    UsualRunsAreRough(Initial(cfg), evs);
    EveryRunKeepsLedger(cfg, AsRough(evs));
    if InTime(cfg) { EveryRunKeepsInv(cfg, evs); }
    hide Exec;
    hide RoughExec;
    assert RowTold(Reached(cfg, evs), t);
    assert InTime(cfg) ==> TaskOk(Reached(cfg, evs), t);
  }

  lemma AcknowledgedRowsHaveStarted(cfg: Config, evs: seq<Event>, p: nat)
    requires var w := Reached(cfg, evs); p in w.procs && w.procs[p].Worker? && w.procs[p].wpc.WkAck?
    ensures var w := Reached(cfg, evs); HasStarted(w.pg, w.procs[p].task)
  {
    UsualRunsAreRough(Initial(cfg), evs);
    AcksFollowStarts(cfg, AsRough(evs), p);
  }

  lemma StartedInNext(w: World, ev: Event, t: nat)
    requires t in w.pg.rows && !w.pg.rows[t].status.PENDING?
    ensures t in Next(w, ev).pg.rows && !Next(w, ev).pg.rows[t].status.PENDING?
  {
    hide Perform;
    if ev.Run? && ev.p in w.procs {
      var x := w.procs[ev.p];
      PerformNeverRestarts(w.cfg, w.now, w.redis, w.pg, TaskOf(ev.p, x), OpOf(x), ev.choice, t);
    }
  }

  /** A row that has left PENDING never returns to it. */
  lemma {:induction false} StartedForGood(cfg: Config, evs: seq<Event>, more: seq<Event>, t: nat)
    requires evs <= more && t in Reached(cfg, evs).pg.rows && !Reached(cfg, evs).pg.rows[t].status.PENDING?
    ensures t in Reached(cfg, more).pg.rows && !Reached(cfg, more).pg.rows[t].status.PENDING?
    decreases |more|
  {
    if |more| > |evs| {
      var rest := more[..|more| - 1];
      assert evs <= rest && more == rest + [more[|more| - 1]];
      StartedForGood(cfg, evs, rest, t);
      AppendRun(cfg, rest, more[|more| - 1]);
      StartedInNext(Reached(cfg, rest), more[|more| - 1], t);
    } else {
      assert evs == more;
    }
  }

  /** A terminal update that succeeds leaves its status behind. */
  lemma FinishWins(cfg: Config, evs: seq<Event>, p: nat)
    requires var w := Reached(cfg, evs); p in w.procs && OpOf(w.procs[p]).OpFinish?
    ensures var w, w' := Reached(cfg, evs), Reached(cfg, evs + [Run(p, CHOICE)]); var t := TaskOf(p, w.procs[p]);
            Perform(cfg, w.now, w.redis, w.pg, t, OpOf(w.procs[p]), CHOICE).2 == Flag(true) ==>
              t in w'.pg.rows && w'.pg.rows[t].status == OpOf(w.procs[p]).to
  {
    AppendRun(cfg, evs, Run(p, CHOICE));
    hide Exec;
  }

  predicate Dead(w: World, t: nat) {
    t in w.procs && w.procs[t].Submit? && w.procs[t].spc == AdDead(true) && t !in w.pg.rows
  }

  lemma OrphansHaveDeadHandlers(cfg: Config, evs: seq<Event>, p: nat)
    requires InTime(cfg)
    requires var w := Reached(cfg, evs);
             p in w.procs && w.procs[p].Reap? && (w.procs[p].rpc.RpRefund? || w.procs[p].rpc.RpUnmark?)
    ensures Dead(Reached(cfg, evs), Reached(cfg, evs).procs[p].task)
  {
    EveryRunKeepsInv(cfg, evs);
    hide Exec;
    var w := Reached(cfg, evs);
    assert ProcOk(w, p) && TaskOk(w, w.procs[p].task);
  }

  lemma OrphanUnmarked(cfg: Config, evs: seq<Event>, p: nat)
    requires InTime(cfg)
    requires var w := Reached(cfg, evs); p in w.procs && w.procs[p].Reap? && w.procs[p].rpc.RpUnmark?
    ensures var w := Reached(cfg, evs + [Run(p, CHOICE)]); var t := Reached(cfg, evs).procs[p].task;
            Dead(w, t) && t !in w.redis.markers
  {
    OrphansHaveDeadHandlers(cfg, evs, p);
    AppendRun(cfg, evs, Run(p, CHOICE));
    hide Exec;
  }

  /** A dead handler's task without a marker has been paid back by the reaper. */
  lemma UnmarkedDeadArePaidBack(cfg: Config, evs: seq<Event>, t: nat)
    requires InTime(cfg) && Dead(Reached(cfg, evs), t) && t !in Reached(cfg, evs).redis.markers
    ensures PaidBack(Reached(cfg, evs), t) && Entries(Reached(cfg, evs).pg.ledger, t) == []
  {
    EveryRunKeepsInv(cfg, evs);
    hide Exec;
    assert TaskOk(Reached(cfg, evs), t) && LedgerOk(Reached(cfg, evs), t) && ProcOk(Reached(cfg, evs), t);
  }

  lemma NobodyMarksForTheDead(w: World, ev: Event, t: nat)
    requires Dead(w, t) && t !in w.redis.markers
    ensures Dead(Next(w, ev), t) && t !in Next(w, ev).redis.markers
  {
    hide Perform;
    if ev.Run? && ev.p in w.procs {
      var x := w.procs[ev.p];
      OnlyHandlersCreate(w.cfg, w.now, w.redis, w.pg, TaskOf(ev.p, x), OpOf(x), ev.choice, t);
    }
  }

  lemma OnlyHandlersCreate(cfg: Config, now: nat, r: Redis, pg: Postgres, t: nat, op: Op, c: Choice, t2: nat)
    requires t2 !in pg.rows && t2 !in r.markers && !(t == t2 && (op.OpPersist? || op.OpMark?))
    ensures var (r', pg', _) := Perform(cfg, now, r, pg, t, op, c); t2 !in pg'.rows && t2 !in r'.markers
  {}

  /** A dead handler's task has neither row nor marker ever again once the marker is gone. */
  lemma {:induction false} DeadForGood(cfg: Config, evs: seq<Event>, more: seq<Event>, t: nat)
    requires evs <= more && Dead(Reached(cfg, evs), t) && t !in Reached(cfg, evs).redis.markers
    ensures Dead(Reached(cfg, more), t) && t !in Reached(cfg, more).redis.markers
    decreases |more|
  {
    if |more| > |evs| {
      var rest := more[..|more| - 1];
      assert evs <= rest && more == rest + [more[|more| - 1]];
      DeadForGood(cfg, evs, rest, t);
      AppendRun(cfg, rest, more[|more| - 1]);
      NobodyMarksForTheDead(Reached(cfg, rest), more[|more| - 1], t);
    } else {
      assert evs == more;
    }
  }
}
