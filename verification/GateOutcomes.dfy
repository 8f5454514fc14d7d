/** Solution 1: terminal updates, idempotency keys and acknowledgements, in every reachable state. */
module GateOutcomes {
  import opened Gate
  import opened GateInvariant
  import opened GateSteps
  import opened GateLedger
  import opened GateRuns

  // ----- One terminal winner -----

  predicate Terminal(st: TaskStatus) { st !in CANCELLABLE }

  predicate Wins(w: World, ev: Event, t: nat) {
    && ev.Run? && ev.p in w.procs && TaskOf(ev.p, w.procs[ev.p]) == t
    && (OpOf(w.procs[ev.p]).OpComplete? || OpOf(w.procs[ev.p]).OpFinish?)
    && AnswerOf(w, ev.p, ev.choice) == Flag(true)
  }

  lemma RowMovesOn(w: World, ev: Event, t: nat)
    requires t in w.pg.rows
    ensures var w' := Next(w, ev);
            && t in w'.pg.rows && w'.pg.rows[t].user == w.pg.rows[t].user && w'.pg.rows[t].cost == w.pg.rows[t].cost
            && (Terminal(w.pg.rows[t].status) ==> w'.pg.rows[t] == w.pg.rows[t])
  {
    hide Perform;
    hide OpOf;
    if ev.Run? && ev.p in w.procs {
      var t', op := TaskOf(ev.p, w.procs[ev.p]), OpOf(w.procs[ev.p]);
      if t' == t { PerformMovesRow(w.cfg, w.now, w.redis, w.pg, t, op, ev.choice); }
      else { PerformTouchesOneTask(w.cfg, w.now, w.redis, w.pg, t', op, ev.choice, t); }
    }
  }

  /** Rows are never deleted, keep their terms, and keep a terminal status for good. */
  lemma {:induction false} TerminalForGood(w: World, evs: seq<Event>, t: nat)
    requires t in w.pg.rows
    ensures var w' := Exec(w, evs);
            && t in w'.pg.rows && w'.pg.rows[t].user == w.pg.rows[t].user && w'.pg.rows[t].cost == w.pg.rows[t].cost
            && (Terminal(w.pg.rows[t].status) ==> w'.pg.rows[t] == w.pg.rows[t])
  {
    if evs != [] {
      TerminalForGood(w, evs[..|evs| - 1], t);
      RowMovesOn(Exec(w, evs[..|evs| - 1]), evs[|evs| - 1], t);
      hide Next;
    }
  }

  lemma WinnerEndsTheTask(w: World, ev: Event, t: nat)
    requires Wins(w, ev, t)
    ensures t in w.pg.rows && !Terminal(w.pg.rows[t].status)
    ensures t in Next(w, ev).pg.rows && Terminal(Next(w, ev).pg.rows[t].status)
  {
    var x := w.procs[ev.p];
    assert OpOf(x).OpFinish? ==> Terminal(OpOf(x).to);
  }

  /** Complete, fail, cancel and stuck: once one of them has won a task, none ever wins it again. */
  lemma OneWinner(w: World, ev: Event, evs: seq<Event>, ev2: Event, t: nat)
    requires Wins(w, ev, t)
    ensures !Wins(Exec(Next(w, ev), evs), ev2, t)
  {
    WinnerEndsTheTask(w, ev, t);
    var w1 := Next(w, ev);
    TerminalForGood(w1, evs, t);
    if Wins(Exec(w1, evs), ev2, t) { WinnerEndsTheTask(Exec(w1, evs), ev2, t); }
  }

  // ----- Idempotency -----

  predicate Names(w: World, t: nat, user: nat, key: nat) {
    t in w.procs && w.procs[t].Submit? && w.procs[t].user == user && w.procs[t].key == key && t in w.slots
  }

  /** Keys, and the answers of replayed submits, name an admitted request of the same user and key. */
  ghost predicate KeysOk(w: World) {
    && (forall uk | uk in w.redis.idem :: Names(w, w.redis.idem[uk], uk.0, uk.1))
    && (forall p | p in w.procs && w.procs[p].Submit? && w.procs[p].spc.AdDone? && w.procs[p].spc.end.Refused?
                   && w.procs[p].spc.end.verdict.Idempotent? ::
          Names(w, w.procs[p].spc.end.verdict.task, w.procs[p].user, w.procs[p].key))
  }

  lemma PerformOnKeys(cfg: Config, now: nat, r: Redis, pg: Postgres, t: nat, op: Op, c: Choice, uk: (nat, nat))
    ensures var (r', _, e) := Perform(cfg, now, r, pg, t, op, c);
            && (uk in r'.idem ==> (uk in r.idem && r'.idem[uk] == r.idem[uk])
                                  || (op.OpAdmit? && e == Decision(Admitted) && uk == (op.user, op.key)
                                       && r'.idem[uk] == t))
            && (op.OpAdmit? && e.Decision? && e.verdict.Idempotent? ==>
                  (op.user, op.key) in r.idem && r.idem[(op.user, op.key)] == e.verdict.task)
            && (op.OpAdmit? <==> e.Decision?)
  {}

  lemma NamesStay(w: World, ev: Event, t: nat, user: nat, key: nat)
    requires Names(w, t, user, key)
    ensures Names(Next(w, ev), t, user, key)
  {
    hide Perform;
    hide OpOf;
  }

  lemma NextKeepsKeys(w: World, ev: Event)
    requires KeysOk(w)
    ensures KeysOk(Next(w, ev))
  {
    var w' := Next(w, ev);
    forall uk | uk in w'.redis.idem ensures Names(w', w'.redis.idem[uk], uk.0, uk.1) {
      KeyStaysNamed(w, ev, uk);
    }
    forall p | p in w'.procs && w'.procs[p].Submit? && w'.procs[p].spc.AdDone? && w'.procs[p].spc.end.Refused?
               && w'.procs[p].spc.end.verdict.Idempotent?
      ensures Names(w', w'.procs[p].spc.end.verdict.task, w'.procs[p].user, w'.procs[p].key)
    {}
  }

  lemma KeyStaysNamed(w: World, ev: Event, uk: (nat, nat))
    requires KeysOk(w) && uk in Next(w, ev).redis.idem
    ensures Names(Next(w, ev), Next(w, ev).redis.idem[uk], uk.0, uk.1)
  {
    hide Perform;
    if ev.Run? && ev.p in w.procs {
      var x := w.procs[ev.p];
      PerformOnKeys(w.cfg, w.now, w.redis, w.pg, TaskOf(ev.p, x), OpOf(x), ev.choice, uk);
    }
    if uk in w.redis.idem { NamesStay(w, ev, w.redis.idem[uk], uk.0, uk.1); }
  }

  /** A submit told that its key was used before is told of an admitted request of the same user and key. */
  lemma {:induction false} ReplaysNameTheSameRequest(cfg: Config, evs: seq<Event>)
    ensures KeysOk(Exec(Initial(cfg), evs))
  {
    if evs != [] {
      ReplaysNameTheSameRequest(cfg, evs[..|evs| - 1]);
      NextKeepsKeys(Exec(Initial(cfg), evs[..|evs| - 1]), evs[|evs| - 1]);
    }
  }

  // ----- Acknowledgements -----

  /** The handler of `t` may still insert the row. */
  predicate MayInsert(w: World, t: nat) {
    t in w.procs && w.procs[t].Submit? && (w.procs[t].spc.AdGate? || w.procs[t].spc.AdMark?
         || w.procs[t].spc.AdPersist?)
  }

  predicate Acks(w: World, p: nat) {
    p in w.procs && w.procs[p].Worker? && OpOf(w.procs[p]).OpAck?
  }

  /** About to drop an entry whose row was read missing when the orphan timeout was over. */
  predicate DropsLate(w: World, p: nat) {
    && p in w.procs && w.procs[p].Worker? && w.procs[p].wpc.WkDrop? && w.procs[p].task in w.redis.stream
    && w.procs[p].wpc.readAt >= w.redis.stream[w.procs[p].task].addedAt + w.cfg.orphanTimeout
  }

  /**
   * A worker acknowledges an entry only when the row has left PENDING, or by dropping a missing row; and a
   * drop whose row was read missing after the orphan timeout is for good, if submits can be in time.
   */
  lemma AcksLoseNoWork(cfg: Config, evs: seq<Event>, p: nat)
    requires Acks(Exec(Initial(cfg), evs), p)
    ensures var w := Exec(Initial(cfg), evs); var t := w.procs[p].task;
            && (w.procs[p].wpc.WkAck? ==> HasStarted(w.pg, t))
            && (InTime(cfg) ==> t in w.redis.stream)
            && (InTime(cfg) && DropsLate(w, p) ==> t !in w.pg.rows && !MayInsert(w, t))
  {
    var w := Exec(Initial(cfg), evs);
    UsualRunsAreRough(Initial(cfg), evs);
    if w.procs[p].wpc.WkAck? { AcksFollowStarts(cfg, AsRough(evs), p); }
    if InTime(cfg) {
      EveryRunKeepsInv(cfg, evs);
      hide Exec;
      assert ProcOk(w, p) && TaskOk(w, w.procs[p].task);
    }
  }
}
