/** Every run of Solution 4 explains its answers, statuses and charges by what its handlers have done. */
module ProtocolCauses {
  import opened Options
  import opened Protocol
  import opened ProtocolInvariant
  import opened Agreement
  import opened ProtocolDeeds

  // ----- Every run -----

  lemma StepTold(s: State, p: nat, c: Choice, deeds: set<Deed>)
    requires Inv(s) && p in s.procs && Told(deeds, p, s.procs[p])
    ensures p in RunProc(s, p, c).procs && Told(deeds + {DeedOf(s, p, c)}, p, RunProc(s, p, c).procs[p])
  {
    match s.procs[p]
    case Submit(_, _, _, _, _) => SubmitStepTold(s, p, c, deeds);
    case Cancel(_, _) => CancelStepTold(s, p, c, deeds);
    case Workflow(_, _, _, _) => WorkflowStepTold(s, p, c, deeds);
  }

  /** In every run, what each handler has done is what its next step or its answer says. */
  lemma {:induction false} EveryHandlerIsTold(evs: seq<Event>, p: nat)
    ensures var s := Reached(evs); if p in s.procs then Told(Deeds(evs, p), p, s.procs[p]) else Deeds(evs, p) == {}
  {
    if evs != [] {
      var before, ev := evs[..|evs| - 1], evs[|evs| - 1];
      var s := Reached(before);
      EveryHandlerIsTold(before, p);
      if ev.Run? && ev.p == p && p in s.procs {
        ReachedInv(before);
        assert Deeds(evs, p) == Deeds(before, p) + {DeedOf(s, p, ev.choice)};
        StepTold(s, p, ev.choice, Deeds(before, p));
      } else {
        assert Deeds(evs, p) == Deeds(before, p);
        StandsStill(s, ev, p);
        hide Next;
        hide Told;
      }
    }
  }

  lemma StandsStill(s: State, ev: Event, p: nat)
    requires !(ev.Run? && ev.p == p && p in s.procs)
    ensures p in s.procs ==> p in Next(s, ev).procs && Next(s, ev).procs[p] == s.procs[p]
    ensures p !in s.procs && p in Next(s, ev).procs ==> Told({}, p, Next(s, ev).procs[p])
  {
    hide Perform;
    hide OpOf;
  }

  // ----- What statuses and charges say -----

  lemma DeedsGrow(evs: seq<Event>, more: seq<Event>, p: nat)
    requires evs <= more
    ensures Deeds(evs, p) <= Deeds(more, p)
    decreases |more|
  {
    if |more| > |evs| { DeedsGrow(evs, more[..|more| - 1], p); } else { assert evs == more; }
  }

  /** An invocation that has charged its hold has computed, and its computation succeeded. */
  lemma ChargersHaveComputed(deeds: set<Deed>, t: nat, tid: nat, pc: WorkflowPc)
    requires WorkflowTold(deeds, t, tid, pc) && DidCharge(deeds, tid)
    ensures ComputedOnly(deeds, true)
  {
    if OnlyLooked(deeds) { LookingMovesNoCredits(deeds); }
    assert !NeverCharged(deeds);
  }

  /** Every charge was made by an invocation of the hold's task. */
  lemma {:induction false} ChargesAreMade(evs: seq<Event>, tid: nat) returns (p: nat)
    requires Charged(Reached(evs), tid)
    ensures var s := Reached(evs);
            p in s.procs && s.procs[p].Workflow? && s.procs[p].tid == tid && DidCharge(Deeds(evs, p), tid)
  {
    var before, ev := evs[..|evs| - 1], evs[|evs| - 1];
    var s := Reached(before);
    hide Next;
    hide RunProc;
    hide Charges;
    hide Charged;
    if Charged(s, tid) {
      p := ChargesAreMade(before, tid);
      DeedsGrow(before, evs, p);
    } else {
      p := ev.p;
      ReachedInv(before);
      ChargeIsADeed(s, ev, tid);
      assert DeedOf(s, p, ev.choice) in Deeds(evs, p);
    }
    WorkflowStays(s, ev, p);
  }

  lemma WorkflowStays(s: State, ev: Event, p: nat)
    requires p in s.procs && s.procs[p].Workflow?
    ensures var s' := Next(s, ev); p in s'.procs && s'.procs[p].Workflow? && s'.procs[p].tid == s.procs[p].tid
                                   && s'.procs[p].task == s.procs[p].task
  {
    hide Perform;
    hide OpOf;
  }

  lemma ChargeIsADeed(s: State, ev: Event, tid: nat)
    requires Inv(s) && !Charged(s, tid) && Charged(Next(s, ev), tid)
    ensures ev.Run? && ev.p in s.procs && s.procs[ev.p].Workflow? && s.procs[ev.p].tid == tid
    ensures Charges(DeedOf(s, ev.p, ev.choice), tid)
  {
    OnlyRunsCharge(s, ev, tid);
    LedgerDeed(s, ev.p, ev.choice);
    OnlyCapturesCharge(s, ev.p, ev.choice, tid);
    hide Inv;
    hide RunProc;
    hide Perform;
  }

  lemma OnlyRunsCharge(s: State, ev: Event, tid: nat)
    requires !Charged(s, tid) && Charged(Next(s, ev), tid)
    ensures ev.Run? && ev.p in s.procs
  {
    hide RunProc;
  }

  lemma OnlyCapturesCharge(s: State, p: nat, c: Choice, tid: nat)
    requires p in s.procs && !Charged(s, tid) && Charged(RunProc(s, p, c), tid)
    ensures OpOf(p, s.procs[p]) == OpCapture(tid)
  {
    hide OpOf;
  }

  /** Invocation `p` of the task charged its hold, after a computation that succeeded. */
  ghost predicate PaidFor(evs: seq<Event>, t: nat, p: nat) {
    var s := Reached(evs);
    && t in s.table.rows && p in s.procs && s.procs[p].Workflow? && s.procs[p].task == t
    && ComputedOnly(Deeds(evs, p), true) && DidCharge(Deeds(evs, p), s.table.rows[t].tid)
  }

  /**
   * Nobody pays for a failed computation: a COMPLETED row, and any charged hold, has an invocation of its task that
   * charged the hold after a computation that succeeded, and whose computation never failed.
   */
  lemma PaidIsComputed(evs: seq<Event>, t: nat) returns (p: nat)
    requires t in Reached(evs).table.rows
    requires var r := Reached(evs).table.rows[t]; r.status.COMPLETED? || Charged(Reached(evs), r.tid)
    ensures PaidFor(evs, t, p)
  {
    ChargeAgreesWithStatus(evs);
    var tid := Reached(evs).table.rows[t].tid;
    p := ChargesAreMade(evs, tid);
    EveryHandlerIsTold(evs, p);
    var x := Reached(evs).procs[p];
    ChargersHaveComputed(Deeds(evs, p), x.task, tid, x.wpc);
    ReachedInv(evs);
    assert ProcOk(Reached(evs), p) && RowOk(Reached(evs), t) && RowOk(Reached(evs), x.task);
  }

  /** Why a row may have a status: what the handler that wrote it had done by then. */
  ghost predicate Cause(deeds: set<Deed>, x: Proc, tid: nat, t: nat, st: Status) {
    match st
    case PENDING => true
    case RUNNING => x.Workflow?
    case CANCEL_REQUESTED => x.Cancel?
    case COMPLETED => x.Workflow? && Computed(deeds, true) && DidCharge(deeds, tid)
    case FAILED =>
      || (x.Workflow? && (Computed(deeds, false) || FoundGone(deeds, OpCapture(tid), tid)))
      || (x.Submit? && HandedOff(deeds, false))
    case CANCELLED => x.Cancel? || (x.Workflow? && Saw(deeds, t, Some(CANCEL_REQUESTED)) && Gave(deeds, tid))
  }

  lemma CauseStays(deeds: set<Deed>, more: set<Deed>, x: Proc, y: Proc, tid: nat, t: nat, st: Status)
    requires deeds <= more && Cause(deeds, x, tid, t, st)
    requires (y.Workflow? <==> x.Workflow?) && (y.Cancel? <==> x.Cancel?) && (y.Submit? <==> x.Submit?)
    ensures Cause(more, y, tid, t, st)
  {}

  lemma MoveHasCause(s: State, p: nat, c: Choice, t: nat, deeds: set<Deed>)
    requires Inv(s) && p in s.procs && Told(deeds, p, s.procs[p])
    requires t in s.table.rows && StatusAt(RunProc(s, p, c), t) != StatusAt(s, t)
    ensures TaskOf(p, s.procs[p]) == t && t in RunProc(s, p, c).table.rows
    ensures Cause(deeds, s.procs[p], s.table.rows[t].tid, t, RunProc(s, p, c).table.rows[t].status)
  {
    MoveIsAnUpdate(s, p, c, t);
    if s.procs[p].Workflow? { assert ProcOk(s, p); }
    UpdateHasCause(deeds, p, s.procs[p], s.table.rows[t].tid);
    hide *;
  }

  /** An update of a row's status is made by a handler of the task, with cause. */
  lemma UpdateHasCause(deeds: set<Deed>, p: nat, x: Proc, tid: nat)
    requires Told(deeds, p, x) && OpOf(p, x).OpCas?
    ensures TaskOf(p, x) == OpOf(p, x).task
    ensures (x.Workflow? ==> x.tid == tid) ==> Cause(deeds, x, tid, TaskOf(p, x), OpOf(p, x).to)
  {
    hide Moved;
    hide Lost;
    hide Saw;
    hide Gave;
    hide DidCharge;
    hide FoundGone;
    hide Computed;
    hide OnlyLooked;
    hide TableUntouched;
    hide NeverAsked;
    hide NeverCharged;
    hide NeverGave;
  }

  lemma MoveIsAnUpdate(s: State, p: nat, c: Choice, t: nat)
    requires p in s.procs && t in s.table.rows && StatusAt(RunProc(s, p, c), t) != StatusAt(s, t)
    ensures var op, s' := OpOf(p, s.procs[p]), RunProc(s, p, c);
            op.OpCas? && op.task == t && t in s'.table.rows && s'.table.rows[t].status == op.to
  {
    hide OpOf;
  }

  /** Every status but PENDING was written by a handler of the task that had cause to. */
  lemma {:induction false} StatusHasCause(evs: seq<Event>, t: nat) returns (p: nat)
    requires t in Reached(evs).table.rows && !Reached(evs).table.rows[t].status.PENDING?
    ensures var s := Reached(evs); var r := s.table.rows[t];
            p in s.procs && TaskOf(p, s.procs[p]) == t && Cause(Deeds(evs, p), s.procs[p], r.tid, t, r.status)
  {
    var before, ev := evs[..|evs| - 1], evs[|evs| - 1];
    var s := Reached(before);
    RowIsOld(s, ev, t);
    RowsKeepTheirTerms(s, ev, t);
    if StatusAt(Next(s, ev), t) == StatusAt(s, t) {
      p := StatusHasCause(before, t);
      DeedsGrow(before, evs, p);
    } else {
      p := ev.p;
      ReachedInv(before);
      EveryHandlerIsTold(before, p);
      MoveHasCause(s, p, ev.choice, t, Deeds(before, p));
      DeedsGrow(before, evs, p);
    }
    KindStays(s, ev, p);
    CauseStays(Deeds(before, p), Deeds(evs, p), s.procs[p], Next(s, ev).procs[p], s.table.rows[t].tid, t,
               Next(s, ev).table.rows[t].status);
    hide Next;
    hide Cause;
  }

  /** Rows begin PENDING, and only operations move them. */
  lemma RowIsOld(s: State, ev: Event, t: nat)
    requires t in Next(s, ev).table.rows && !Next(s, ev).table.rows[t].status.PENDING?
    ensures t in s.table.rows
    ensures StatusAt(Next(s, ev), t) != StatusAt(s, t) ==> ev.Run? && ev.p in s.procs
  {}

  lemma KindStays(s: State, ev: Event, p: nat)
    requires p in s.procs
    ensures var s' := Next(s, ev);
            && p in s'.procs && TaskOf(p, s'.procs[p]) == TaskOf(p, s.procs[p])
            && (s'.procs[p].Workflow? <==> s.procs[p].Workflow?) && (s'.procs[p].Cancel? <==> s.procs[p].Cancel?)
            && (s'.procs[p].Submit? <==> s.procs[p].Submit?)
  {
    hide Perform;
    hide OpOf;
  }
}
