/** What Solution 4 promises in every reachable state: charges agree with statuses, and nobody is charged twice. */
module Agreement {
  import opened Ledger
  import opened Protocol
  import opened ProtocolInvariant
  import opened ProtocolSteps

  ghost function Reached(evs: seq<Event>): State { Exec(INITIAL, evs) }

  lemma ReachedInv(evs: seq<Event>)
    ensures Inv(Reached(evs))
  {
    InitiallyInv();
    EveryRunKeepsInv(INITIAL, evs);
  }

  predicate Charged(s: State, tid: nat) { IsPosted(s.book, tid) }

  predicate Held(s: State, tid: nat) { IsPending(s.book, tid) }

  predicate GivenBack(s: State, tid: nat) {
    tid in s.book.transfers && s.book.transfers[tid].Hold? && Settled(s.book.transfers[tid].state)
  }

  /** Some workflow of the task has captured its hold and not yet written COMPLETED. */
  predicate BeingCompleted(s: State, t: nat) {
    t in s.owner && s.owner[t] in s.procs &&
    var x := s.procs[s.owner[t]];
    x.Workflow? && x.task == t && Completing(x.wpc)
  }

  /**
   * COMPLETED means charged; charged means COMPLETED or about to be; FAILED and CANCELLED tasks are
   * never charged. This holds under every interleaving of submits, cancels, duplicate invocations,
   * handoff failures, top-ups and ledger timeouts.
   */
  lemma ChargeAgreesWithStatus(evs: seq<Event>)
    ensures var s := Reached(evs);
            forall t | t in s.table.rows ::
              var r := s.table.rows[t];
              && (r.status.COMPLETED? ==> Charged(s, r.tid))
              && (Charged(s, r.tid) ==> r.status.COMPLETED? || (Live(r.status) && BeingCompleted(s, t)))
              && (r.status.FAILED? || r.status.CANCELLED? ==> !Charged(s, r.tid))
  {
    var s := Reached(evs);
    ReachedInv(evs);
    forall t | t in s.table.rows
      ensures var r := s.table.rows[t];
              && (r.status.COMPLETED? ==> Charged(s, r.tid))
              && (Charged(s, r.tid) ==> r.status.COMPLETED? || (Live(r.status) && BeingCompleted(s, t)))
              && (r.status.FAILED? || r.status.CANCELLED? ==> !Charged(s, r.tid))
    {
      assert RowOk(s, t);
    }
  }

  /** No credit is ever charged outside a task: each charged hold is the hold of exactly one row. */
  lemma EveryChargeHasItsRow(evs: seq<Event>, tid: nat)
    requires Charged(Reached(evs), tid)
    ensures var s := Reached(evs);
            && (exists t :: t in s.table.rows && s.table.rows[t].tid == tid)
            && (forall t, t' | t in s.table.rows && t' in s.table.rows
                 && s.table.rows[t].tid == s.table.rows[t'].tid == tid ::
                  t == t')
  {
    var s := Reached(evs);
    ReachedInv(evs);
    assert HoldLinked(s, tid);
    var p := s.reservedBy[tid];
    assert ProcOk(s, p) && RowOk(s, p);
    assert p in s.table.rows && s.table.rows[p].tid == tid;
    forall t, t' | t in s.table.rows && t' in s.table.rows && s.table.rows[t].tid == s.table.rows[t'].tid == tid
      ensures t == t'
    {
      assert RowOk(s, t) && RowOk(s, t');
    }
  }

  /** At most one invocation per task gets past `mark_running`, ever; while it executes the task is live. */
  lemma SingleExecutor(evs: seq<Event>, p: nat, q: nat)
    requires var s := Reached(evs);
             && p in s.procs && s.procs[p].Workflow? && Started(s.procs[p].wpc)
             && q in s.procs && s.procs[q].Workflow? && Started(s.procs[q].wpc)
             && s.procs[p].task == s.procs[q].task
    ensures p == q
    ensures var s := Reached(evs); var t := s.procs[p].task;
            t in s.table.rows && (Executing(s.procs[p].wpc) ==> Live(s.table.rows[t].status))
  {
    ReachedInv(evs);
    assert ProcOk(Reached(evs), p) && ProcOk(Reached(evs), q);
  }

  /**
   * What the executing invocation answers is true of the task then and ever after; once it has
   * captured, neither a REJECTED answer nor the read after a lost late completion can be reached.
   */
  lemma ExecutorAnswersTruly(evs: seq<Event>, p: nat)
    requires var s := Reached(evs); p in s.procs && s.procs[p].Workflow?
    ensures var s := Reached(evs); var x := s.procs[p];
            && x.task in s.table.rows && x.tid == s.table.rows[x.task].tid
            && !x.wpc.WReadAfterLate? && !x.wpc.WInvalidateAfterRelease?
            && x.wpc != WDone(true, Rejected)
            && (x.wpc == WDone(true, Answer(COMPLETED)) ==>
                  s.table.rows[x.task].status == COMPLETED && Charged(s, x.tid))
            && (x.wpc == WDone(true, Answer(CANCELLED)) ==>
                  s.table.rows[x.task].status == CANCELLED && GivenBack(s, x.tid))
            && (x.wpc == WDone(true, Answer(FAILED)) ==>
                  s.table.rows[x.task].status in {FAILED, CANCEL_REQUESTED} && GivenBack(s, x.tid))
  {
    ReachedInv(evs);
    assert ProcOk(Reached(evs), p) && RowOk(Reached(evs), Reached(evs).procs[p].task);
  }

  // ----- Rollbacks -----

  /** Only the two rollbacks write PENDING over another status. */
  lemma OnlyRollbacksWritePending(s: State, ev: Event, t: nat)
    requires t in s.table.rows && !s.table.rows[t].status.PENDING?
    requires t in Next(s, ev).table.rows && Next(s, ev).table.rows[t].status.PENDING?
    ensures ev.Run? && ev.p in s.procs
    ensures s.procs[ev.p] == Cancel(t, CaRollback) || (ev.p == t && s.procs[t].Submit? && s.procs[t].spc.HfRollback?)
  {}

  /** A rollback to PENDING is made by the handler whose transition it undoes, over a settled, uncharged hold. */
  lemma RollbackIsOwned(evs: seq<Event>, ev: Event, t: nat)
    requires t in Reached(evs).table.rows && !Reached(evs).table.rows[t].status.PENDING?
    requires t in Next(Reached(evs), ev).table.rows && Next(Reached(evs), ev).table.rows[t].status.PENDING?
    ensures var s := Reached(evs);
            && ev.Run? && t in s.owner && s.owner[t] == ev.p
            && GivenBack(s, s.table.rows[t].tid)
            && s.table.rows[t].status in {CANCELLED, FAILED}
  {
    ReachedInv(evs);
    OnlyRollbacksWritePending(Reached(evs), ev, t);
    assert RowOk(Reached(evs), t) && ProcOk(Reached(evs), ev.p);
  }

  lemma SettledHoldStays(s: State, ev: Event, tid: nat)
    requires GivenBack(s, tid)
    ensures GivenBack(Next(s, ev), tid)
  {}

  /** A settled hold is never charged afterwards, so a rolled back task can never complete. */
  lemma {:induction false} NeverChargedAfterwards(evs: seq<Event>, more: seq<Event>, t: nat)
    requires t in Reached(evs).table.rows && GivenBack(Reached(evs), Reached(evs).table.rows[t].tid)
    ensures var s' := Reached(evs + more); var tid := Reached(evs).table.rows[t].tid;
            && t in s'.table.rows && s'.table.rows[t].tid == tid
            && GivenBack(s', tid) && !Charged(s', tid)
            && !s'.table.rows[t].status.COMPLETED?
  {
    if more == [] {
      assert evs + more == evs;
    } else {
      var shorter := more[..|more| - 1];
      assert (evs + more)[..|evs + more| - 1] == evs + shorter;
      NeverChargedAfterwards(evs, shorter, t);
      SettledHoldStays(Reached(evs + shorter), more[|more| - 1], Reached(evs).table.rows[t].tid);
      RowsKeepTheirTerms(Reached(evs + shorter), more[|more| - 1], t);
    }
    ReachedInv(evs + more);
    assert RowOk(Reached(evs + more), t);
  }

  // ----- Rejected starts -----

  lemma OnlyReadsReject(p: nat, x: Proc, e: Entry)
    requires x.Workflow? && !x.wpc.WDone?
    requires Advance(p, x, e).wpc.WDone? && Advance(p, x, e).wpc.answer.Rejected?
    ensures OpOf(p, x).OpRead?
  {}

  /**
   * An invocation answers REJECTED exactly when it lost the start and then read PENDING: a rollback
   * slipped in between. The task is then not executed, and its hold is settled without a charge.
   */
  lemma RejectedMeansRolledBack(evs: seq<Event>, p: nat, c: Choice)
    requires var s := Reached(evs); p in s.procs && s.procs[p].Workflow? && !s.procs[p].wpc.WDone?
    ensures var s := Reached(evs); var x := s.procs[p]; var pc' := RunProc(s, p, c).procs[p].wpc;
            && x.task in s.table.rows
            && (pc'.WDone? && pc'.answer.Rejected? <==> x.wpc.WReadAfterStart? && s.table.rows[x.task].status.PENDING?)
            && (pc'.WDone? && pc'.answer.Rejected? ==> GivenBack(s, x.tid))
  {
    var s := Reached(evs);
    ReachedInv(evs);
    var x := s.procs[p];
    var t := x.task;
    assert ProcOk(s, p) && RowOk(s, t);
    var e := AnswerOf(s, p, c);
    if OpOf(p, x).OpRead? {
    } else if Advance(p, x, e).wpc.WDone? && Advance(p, x, e).wpc.answer.Rejected? {
      OnlyReadsReject(p, x, e);
    }
  }

  // ----- Quiet states -----

  predicate Finished(x: Proc) {
    match x
    case Submit(_, _, _, _, pc) => pc.SDone?
    case Cancel(_, pc) => pc.CaDone?
    case Workflow(_, _, pc, _) => pc.WDone?
  }

  ghost predicate Quiet(s: State) { forall p | p in s.procs :: Finished(s.procs[p]) }

  /** A row that nobody is working on any more. */
  predicate RowSettled(s: State, t: nat)
    requires t in s.table.rows
  {
    var r := s.table.rows[t];
    && (Charged(s, r.tid) <==> r.status.COMPLETED?)
    && !r.status.RUNNING?
    && (Held(s, r.tid) ==> r.status.PENDING? || r.status.CANCEL_REQUESTED?)
  }

  /** The hold belongs to the row of the submit that reserved it, and to no other. */
  predicate HasItsRow(s: State, tid: nat) {
    && tid in s.reservedBy && s.reservedBy[tid] in s.table.rows
    && forall t | t in s.table.rows :: s.table.rows[t].tid == tid <==> t == s.reservedBy[tid]
  }

  lemma QuietRowIsSettled(s: State, t: nat)
    requires Inv(s) && Quiet(s) && t in s.table.rows
    ensures RowSettled(s, t)
  {
    assert RowOk(s, t);
    assert Finished(s.procs[s.owner[t]]);
  }

  lemma QuietHoldHasItsRow(s: State, tid: nat)
    requires Inv(s) && Quiet(s) && (Charged(s, tid) || Held(s, tid))
    ensures HasItsRow(s, tid)
  {
    assert HoldLinked(s, tid);
    forall t | t in s.table.rows ensures s.table.rows[t].tid == tid ==> t == s.reservedBy[tid] {
      assert RowOk(s, t);
    }
    var p := s.reservedBy[tid];
    assert ProcOk(s, p) && RowOk(s, p) && Finished(s.procs[p]);
  }

  /**
   * When all handlers have returned: charged is COMPLETED, no task is left RUNNING, FAILED and CANCELLED
   * tasks hold nothing, and every hold still open belongs to exactly one row, PENDING or CANCEL_REQUESTED.
   */
  lemma QuietStatesAreSettled(evs: seq<Event>)
    requires Quiet(Reached(evs))
    ensures var s := Reached(evs);
            && (forall t | t in s.table.rows :: RowSettled(s, t))
            && (forall tid | Charged(s, tid) || Held(s, tid) :: HasItsRow(s, tid))
  {
    var s := Reached(evs);
    ReachedInv(evs);
    forall t | t in s.table.rows ensures RowSettled(s, t) { QuietRowIsSettled(s, t); }
    forall tid | Charged(s, tid) || Held(s, tid) ensures HasItsRow(s, tid) { QuietHoldHasItsRow(s, tid); }
  }

  // ----- Idempotent submission -----

  /** A replaying submit answers with another submit's row under the same user and key. */
  predicate ReplayOk(s: State, p: nat) {
    p in s.procs && s.procs[p].Submit? ==>
      var x := s.procs[p];
      (x.spc.SReleaseReplay? ==> SameKey(s, p, x.spc.existing)) &&
      (x.spc.SDone? && x.spc.answer.Replayed? ==> SameKey(s, p, x.spc.answer.task))
  }

  predicate SameKey(s: State, p: nat, t: nat)
    requires p in s.procs && s.procs[p].Submit?
  {
    && t != p && t in s.table.rows && s.procs[p].key.Some?
    && s.table.rows[t].user == s.procs[p].user && s.table.rows[t].key == s.procs[p].key
  }

  lemma RowsKeepTheirTerms(s: State, ev: Event, t: nat)
    requires t in s.table.rows
    ensures var s' := Next(s, ev);
            t in s'.table.rows && s'.table.rows[t] == s.table.rows[t].(status := s'.table.rows[t].status)
  {}

  lemma SubmitsKeepTheirTerms(s: State, ev: Event, p: nat)
    requires p in s.procs && s.procs[p].Submit?
    ensures var s' := Next(s, ev);
            p in s'.procs && s'.procs[p].Submit? && s'.procs[p] == s.procs[p].(spc := s'.procs[p].spc)
  {
    hide Perform;
  }

  lemma SameKeyStays(s: State, ev: Event, p: nat, t: nat)
    requires p in s.procs && s.procs[p].Submit? && SameKey(s, p, t)
    ensures var s' := Next(s, ev); p in s'.procs && s'.procs[p].Submit? && SameKey(s', p, t)
  {
    SubmitsKeepTheirTerms(s, ev, p);
    RowsKeepTheirTerms(s, ev, t);
  }

  /** The unique index answers an insert with a row of the same user and key. */
  lemma InsertNamesSameKey(s: State, p: nat, c: Choice)
    requires Inv(s) && p in s.procs && s.procs[p].Submit? && s.procs[p].spc.SInsert?
    requires RunProc(s, p, c).procs[p].spc.SReleaseReplay?
    ensures SameKey(s, p, RunProc(s, p, c).procs[p].spc.existing)
  {
    assert KeysOk(s.table);
    hide Inv;
  }

  /** Only an insert starts a replay, and a replay answers with the row it started with. */
  lemma ReplaysComeFromInserts(s: State, ev: Event, p: nat)
    requires p in s.procs && s.procs[p].Submit?
    ensures var pc' := Next(s, ev).procs[p].spc; var pc := s.procs[p].spc;
            && (pc'.SReleaseReplay? ==> pc' == pc || (pc.SInsert? && ev.Run? && ev.p == p))
            && (pc'.SDone? && pc'.answer.Replayed? ==>
                  pc' == pc || (pc.SReleaseReplay? && pc.existing == pc'.answer.task))
  {
    hide Perform;
  }

  lemma StepKeepsReplayOk(s: State, ev: Event, p: nat)
    requires Inv(s) && ReplayOk(s, p)
    ensures ReplayOk(Next(s, ev), p)
  {
    if p in s.procs && s.procs[p].Submit? {
      SubmitsKeepTheirTerms(s, ev, p);
      ReplaysComeFromInserts(s, ev, p);
      var pc' := Next(s, ev).procs[p].spc;
      if s.procs[p].spc.SInsert? && pc'.SReleaseReplay? { InsertNamesSameKey(s, p, ev.choice); }
      hide Inv;
      hide SameKey;
      if pc'.SReleaseReplay? { SameKeyStays(s, ev, p, pc'.existing); }
      if pc'.SDone? && pc'.answer.Replayed? { SameKeyStays(s, ev, p, pc'.answer.task); }
    } else {
      NoReplayAtStart(s, ev, p);
    }
  }

  lemma NoReplayAtStart(s: State, ev: Event, p: nat)
    requires !(p in s.procs && s.procs[p].Submit?)
    ensures ReplayOk(Next(s, ev), p)
  {
    hide Perform;
  }

  lemma {:induction false} EveryRunKeepsReplayOk(evs: seq<Event>, p: nat)
    ensures ReplayOk(Reached(evs), p)
  {
    if evs != [] {
      EveryRunKeepsReplayOk(evs[..|evs| - 1], p);
      ReachedInv(evs[..|evs| - 1]);
      StepKeepsReplayOk(Reached(evs[..|evs| - 1]), evs[|evs| - 1], p);
    }
  }

  /**
   * Any number of submits with one user and key share one row. A submit that was answered with that
   * row has given its own reservation back.
   */
  lemma SubmitIsIdempotent(evs: seq<Event>, p: nat)
    requires var s := Reached(evs); p in s.procs && s.procs[p].Submit? && s.procs[p].key.Some?
    ensures var s := Reached(evs); var x := s.procs[p];
            && (forall t, t' | t in s.table.rows && t' in s.table.rows
                               && s.table.rows[t].user == s.table.rows[t'].user
                               && s.table.rows[t].key == s.table.rows[t'].key == x.key :: t == t')
            && (x.spc.SDone? && x.spc.answer.Replayed? ==>
                  && SameKey(s, p, x.spc.answer.task) && p !in s.table.rows
                  && GivenBack(s, x.tid))
            && (x.spc.SDone? && x.spc.answer.Accepted? ==> p in s.table.rows && s.table.rows[p].tid == x.tid)
  {
    var s := Reached(evs);
    ReachedInv(evs);
    assert ProcOk(s, p) && RowOk(s, p);
    EveryRunKeepsReplayOk(evs, p);
    forall t, t' | t in s.table.rows && t' in s.table.rows && s.table.rows[t].user == s.table.rows[t'].user
                   && s.table.rows[t].key == s.table.rows[t'].key == s.procs[p].key
      ensures t == t'
    {
      var uk := (s.table.rows[t].user, s.procs[p].key.value);
      assert s.table.keys[uk] == t && s.table.keys[uk] == t';
    }
  }
}
