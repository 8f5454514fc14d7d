/** One dispatcher's promotion loop in its own form, with every other process moving between its commands. */
module WebhookDispatcher {
  import opened Webhooks
  import opened WebhookTools

  lemma ExecAppend(s: State, steps: seq<Step>, step: Step)
    ensures Exec(s, steps + [step]) == Next(Exec(s, steps), step)
  {
    assert (steps + [step])[..|steps|] == steps;
  }

  /** What `p` has pushed to the head of the queue in the course of a history. */
  ghost function PushedBy(s: State, steps: seq<Step>, p: nat): seq<Payload> {
    if steps == [] then []
    else
      var before, step := steps[..|steps| - 1], steps[|steps| - 1];
      PushedBy(s, before, p) + Pushes(Exec(s, before), step, p)
  }

  function Pushes(s: State, step: Step, p: nat): seq<Payload> {
    if step.Run? && step.p == p && p in s.procs && s.procs[p].Push? then [s.procs[p].raw] else []
  }

  lemma PushedAppend(s: State, steps: seq<Step>, step: Step, p: nat)
    ensures PushedBy(s, steps + [step], p) == PushedBy(s, steps, p) + Pushes(Exec(s, steps), step, p)
  {
    assert (steps + [step])[..|steps|] == steps;
  }

  /** The members of `due` that were won, in order. */
  function Won(due: seq<Payload>, won: set<Payload>): seq<Payload> {
    if due == [] then []
    else Won(due[..|due| - 1], won) + if due[|due| - 1] in won then [due[|due| - 1]] else []
  }

  lemma {:induction false} WonElsewhere(due: seq<Payload>, won: set<Payload>, raw: Payload)
    requires raw !in due
    ensures Won(due, won + {raw}) == Won(due, won)
  {
    if due != [] { WonElsewhere(due[..|due| - 1], won, raw); }
  }

  lemma WonNext(due: seq<Payload>, i: nat, won: set<Payload>)
    requires i < |due| && due[i] !in due[..i] && due[i] !in won
    ensures Won(due[..i + 1], won) == Won(due[..i], won)
    ensures Won(due[..i + 1], won + {due[i]}) == Won(due[..i], won) + [due[i]]
  {
    assert due[..i + 1][..i] == due[..i];
    WonElsewhere(due[..i], won, due[i]);
  }

  /** In order of their due times, each once. */
  predicate InDueOrder(scheduled: map<Payload, int>, q: seq<Payload>) {
    && (forall raw | raw in q :: raw in scheduled)
    && (forall i, j | 0 <= i < j < |q| :: q[i] != q[j] && scheduled[q[i]] <= scheduled[q[j]])
  }

  /** What was won are the due members that were won, in order of their due times. */
  lemma {:induction false} WonIs(scheduled: map<Payload, int>, due: seq<Payload>, won: set<Payload>)
    requires InDueOrder(scheduled, due)
    ensures forall raw :: raw in Won(due, won) <==> raw in due && raw in won
    ensures InDueOrder(scheduled, Won(due, won))
  {
    if due != [] {
      var init, last := due[..|due| - 1], due[|due| - 1];
      WonIs(scheduled, init, won);
      var q := Won(init, won);
      forall i | 0 <= i < |q| ensures q[i] != last && scheduled[q[i]] <= scheduled[last] {
        assert q[i] in init;
        var j :| 0 <= j < |init| && init[j] == q[i];
        assert due[j] == q[i];
      }
      assert due == init + [last];
    }
  }

  /** Nothing but `p` moves, and no setting changes. */
  predicate MovesOnly(s: State, s': State, p: nat) {
    && s'.maxAttempts == s.maxAttempts && s'.batch == s.batch && s'.maxLength == s.maxLength
    && p in s'.procs && s'.procs == s.procs[p := s'.procs[p]]
  }

  lemma HandlingMovesOnly(s: State, p: nat, raw: Payload, lookup: Lookup)
    ensures MovesOnly(s, HandleRaw(s, p, raw, lookup), p)
  {}

  lemma SendingMovesOnly(s: State, p: nat, raw: Payload, sent: Sent)
    requires raw.Event?
    ensures MovesOnly(s, SendRaw(s, p, raw, sent), p)
  {}

  lemma ExhumingMovesOnly(s: State, p: nat)
    requires p in s.procs
    ensures MovesOnly(s, ExhumeRaw(s, p), p)
  {
    assert s.procs == s.procs[p := s.procs[p]];
  }

  lemma PromotingMovesOnly(s: State, p: nat, due: seq<Payload>)
    ensures MovesOnly(s, PromoteNext(s, p, due), p)
  {}

  lemma PoppingMovesOnly(s: State, p: nat)
    ensures MovesOnly(s, PopRaw(s, p), p)
  {}

  lemma RunMovesOnly(s: State, p: nat, c: Choice)
    requires p in s.procs
    ensures MovesOnly(s, RunProc(s, p, c), p)
  {
    assert s.procs == s.procs[p := s.procs[p]];
    match s.procs[p]
    case Promote(due) => PromotingMovesOnly(s, p, due);
    case Pop => PoppingMovesOnly(s, p);
    case Handle(raw) => HandlingMovesOnly(s, p, raw, c.lookup);
    case Send(raw) => if raw.Event? { SendingMovesOnly(s, p, raw, c.sent); }
    case Exhume => ExhumingMovesOnly(s, p);
    case _ =>
      hide HandleRaw;
      hide SendRaw;
      hide ExhumeRaw;
      hide PromoteNext;
      hide PopRaw;
      hide DueOk;
  }

  /** No step of another process moves `p`, and no step changes the settings. */
  lemma OthersKeepProcess(s: State, step: Step, p: nat)
    requires p in s.procs && !(step.Run? && step.p == p)
    ensures p in Next(s, step).procs && Next(s, step).procs[p] == s.procs[p]
  {
    if step.Run? && step.p in s.procs { RunMovesOnly(s, step.p, step.choice); }
    hide RunProc;
    hide Ids;
  }

  lemma NextKeepsSettings(s: State, step: Step)
    ensures var s' := Next(s, step);
            s'.maxAttempts == s.maxAttempts && s'.batch == s.batch && s'.maxLength == s.maxLength
  {
    if step.Run? && step.p in s.procs { RunMovesOnly(s, step.p, step.choice); }
    hide RunProc;
    hide Ids;
  }

  /** What ZREM and LPUSH are in the step system. */
  lemma PromoteRuns(s: State, p: nat, c: Choice)
    requires p in s.procs && (s.procs[p].Promote? || s.procs[p].Push?)
    ensures s.procs[p].Promote? ==> RunProc(s, p, c) == PromoteNext(s, p, s.procs[p].due)
    ensures s.procs[p].Push? ==>
              RunProc(s, p, c) ==
              s.(procs := s.procs[p := Promote(s.procs[p].due)], queue := [s.procs[p].raw] + s.queue)
  {}

  /** All processes of a deployment and what they share. */
  class Deployment {
    const maxAttempts: nat
    const batch: nat
    const maxLength: nat
    var now: int
    var queue: seq<Payload>
    var scheduled: map<Payload, int>
    var dlq: seq<Payload>
    var procs: map<nat, Pc>
    var delivered: multiset<nat>
    var dropped: multiset<nat>
    var issued: set<nat>
    var sends: map<nat, nat>
    ghost var history: seq<Step>

    function Seen(): State
      reads this
    {
      State(maxAttempts, batch, maxLength, now, queue, scheduled, dlq, procs, delivered, dropped, issued, sends)
    }

    function First(): State { Initial(maxAttempts, batch, maxLength) }

    /** The shared state is the one that the recorded history leads to. */
    ghost predicate Valid()
      reads this
    {
      Seen() == Exec(First(), history)
    }

    constructor (maxAttempts: nat, batch: nat, maxLength: nat)
      ensures Valid() && history == []
    {
      this.maxAttempts, this.batch, this.maxLength := maxAttempts, batch, maxLength;
      now, queue, scheduled, dlq, procs := 0, [], map[], [], map[];
      delivered, dropped, issued, sends, history := multiset{}, multiset{}, {}, map[], [];
    }

    predicate At(p: nat, pc: Pc) reads this { p in procs && procs[p] == pc }

    method Load(s: State)
      requires s.maxAttempts == maxAttempts && s.batch == batch && s.maxLength == maxLength
      modifies this
      ensures Seen() == s && history == old(history)
    {
      now, queue, scheduled, dlq, procs := s.now, s.queue, s.scheduled, s.dlq, s.procs;
      delivered, dropped, issued, sends := s.delivered, s.dropped, s.issued, s.sends;
    }

    /** One step of any process. */
    method Serve(step: Step)
      requires Valid()
      modifies this
      ensures Valid() && history == old(history) + [step]
      ensures Seen() == Next(old(Seen()), step)
    {
      hide Next;
      hide Exec;
      var s := Next(Seen(), step);
      NextKeepsSettings(Seen(), step);
      ExecAppend(First(), history, step);
      Load(s);
      history := history + [step];
    }

    /** Anything all other processes may do while `p` is between two commands. */
    method Interfere(p: nat)
      requires Valid() && p in procs
      modifies this
      ensures Valid() && old(history) <= history && p in procs && procs[p] == old(procs[p])
      ensures PushedBy(First(), history, p) == PushedBy(First(), old(history), p)
    {
      hide Exec;
      hide Next;
      hide PushedBy;
      var steps: nat := *;
      while steps > 0
        invariant Valid() && old(history) <= history && p in procs && procs[p] == old(procs[p])
        invariant PushedBy(First(), history, p) == PushedBy(First(), old(history), p)
      {
        var step: Step := *;
        if !(step.Run? && step.p == p) {
          OthersKeepProcess(Seen(), step, p);
          PushedAppend(First(), history, step, p);
          Serve(step);
        }
        steps := steps - 1;
      }
    }

    /** Records that `p` has carried out its command on the shared lists. */
    ghost method Note(p: nat, c: Choice, s: State)
      requires s == Exec(First(), history) && p in s.procs && Seen() == RunProc(s, p, c)
      modifies this`history
      ensures Valid() && history == old(history) + [Run(p, c)]
      ensures PushedBy(First(), history, p) == PushedBy(First(), old(history), p) + Pushes(s, Run(p, c), p)
    {
      ExecAppend(First(), history, Run(p, c));
      PushedAppend(First(), history, Run(p, c), p);
      history := history + [Run(p, c)];
      hide Exec;
      hide RunProc;
      hide PushedBy;
    }

    /** `raw` was no longer scheduled at some moment since `since`: somebody else had taken it. */
    ghost predicate TakenSince(since: seq<Step>, raw: Payload)
      reads this
    {
      exists h :: since <= h <= history && raw !in Exec(First(), h).scheduled
    }

    /** ZRANGEBYSCORE: the due members at this moment. */
    method ReadDue(p: nat) returns (due: seq<Payload>)
      requires Valid() && At(p, Poll)
      modifies this
      ensures Valid() && old(history) <= history && At(p, Promote(due))
      ensures EarliestDue(old(scheduled), old(now), batch, due)
      ensures PushedBy(First(), history, p) == PushedBy(First(), old(history), p)
    {
      hide Exec;
      hide PushedBy;
      due := DueMembers(scheduled, now, batch);
      ghost var s := Seen();
      ghost var c := Choice(due, NoSubscription, Accepted, 0);
      procs := procs[p := Promote(due)];
      Note(p, c, s);
      Interfere(p);
    }

    /** ZREM. */
    method RemoveMember(p: nat, due: seq<Payload>) returns (removed: bool)
      requires Valid() && At(p, Promote(due)) && due != []
      modifies this
      ensures Valid() && old(history) <= history
      ensures At(p, if removed then Push(due[0], due[1..]) else Promote(due[1..]))
      ensures PushedBy(First(), history, p) == PushedBy(First(), old(history), p)
      ensures removed <==> due[0] in old(scheduled)
    {
      hide Exec;
      hide PushedBy;
      hide RunProc;
      ghost var c, s := Choice([], NoSubscription, Accepted, 0), Seen();
      PromoteRuns(s, p, c);
      removed := due[0] in scheduled;
      if removed {
        scheduled := scheduled - {due[0]};
        procs := procs[p := Push(due[0], due[1..])];
      } else {
        procs := procs[p := Promote(due[1..])];
      }
      Note(p, c, s);
      Interfere(p);
    }

    /** LPUSH. */
    method PushMember(p: nat, raw: Payload, due: seq<Payload>)
      requires Valid() && At(p, Push(raw, due))
      modifies this
      ensures Valid() && old(history) <= history && At(p, Promote(due))
      ensures PushedBy(First(), history, p) == PushedBy(First(), old(history), p) + [raw]
    {
      hide Exec;
      hide PushedBy;
      hide RunProc;
      ghost var c, s := Choice([], NoSubscription, Accepted, 0), Seen();
      PromoteRuns(s, p, c);
      queue := [raw] + queue;
      procs := procs[p := Promote(due)];
      Note(p, c, s);
      Interfere(p);
    }

    /** ZREM, and LPUSH if it removed the member; other processes move after each of the two. */
    method PromoteMember(p: nat, due: seq<Payload>) returns (removed: bool)
      requires Valid() && At(p, Promote(due)) && due != []
      modifies this
      ensures Valid() && old(history) <= history && At(p, Promote(due[1..]))
      ensures PushedBy(First(), history, p) ==
              PushedBy(First(), old(history), p) + if removed then [due[0]] else []
      ensures removed <==> due[0] in old(scheduled)
    {
      hide Exec;
      hide PushedBy;
      removed := RemoveMember(p, due);
      if removed {
        PushMember(p, due[0], due[1..]);
      }
    }

    /** Of the first `i` due members those in `won` have been pushed since `since`, and others took the rest. */
    ghost predicate Promoting(p: nat, since: seq<Step>, due: seq<Payload>, i: nat, won: set<Payload>, promoted: nat)
      reads this
    {
      && i <= |due| && Valid() && since <= history && At(p, Promote(due[i..]))
      && (forall raw | raw in won :: raw in due[..i])
      && PushedBy(First(), history, p) == PushedBy(First(), since, p) + Won(due[..i], won)
      && promoted == |Won(due[..i], won)|
      && (forall raw | raw in due[..i] && raw !in won :: TakenSince(since, raw))
    }

    method PromoteOne(p: nat, ghost since: seq<Step>, due: seq<Payload>, i: nat, ghost won: set<Payload>, promoted: nat)
        returns (count: nat, ghost wins: set<Payload>)
      requires Promoting(p, since, due, i, won, promoted) && i < |due| && due[i] !in due[..i]
      modifies this
      ensures Promoting(p, since, due, i + 1, wins, count)
    {
      hide Exec;
      hide PushedBy;
      hide Won;
      assert due[i..][1..] == due[i + 1..] && due[..i + 1] == due[..i] + [due[i]];
      WonNext(due, i, won);
      ghost var before := history;
      var removed := PromoteMember(p, due[i..]);
      if removed {
        count, wins := promoted + 1, won + {due[i]};
      } else {
        count, wins := promoted, won;
        assert since <= before <= history && due[i] !in Exec(First(), before).scheduled;
      }
    }

    /**
     * The promotion loop. Of the members that were due when it started, in order of their due times, it pushes
     * each one that nobody else has taken meanwhile, and reports how many those were.
     */
    method PromoteScheduledEvents(p: nat)
        returns (promoted: nat, ghost due: seq<Payload>, ghost won: set<Payload>)
      requires Valid() && At(p, Poll)
      modifies this
      ensures Valid() && old(history) <= history && At(p, Pop)
      ensures EarliestDue(old(scheduled), old(now), batch, due)
      ensures PushedBy(First(), history, p) == PushedBy(First(), old(history), p) + Won(due, won)
      ensures promoted == |Won(due, won)|
      ensures forall raw | raw in due && raw !in won :: TakenSince(old(history), raw)
      ensures forall raw :: raw in Won(due, won) <==> raw in due && raw in won
      ensures InDueOrder(old(scheduled), Won(due, won))
    {
      hide Exec;
      hide PushedBy;
      var members := ReadDue(p);
      due, won, promoted := members, {}, 0;
      var i := 0;
      while i < |members|
        invariant Promoting(p, old(history), members, i, won, promoted)
      {
        promoted, won := PromoteOne(p, old(history), members, i, won, promoted);
        i := i + 1;
      }
      assert members[..|members|] == members;
      WonIs(old(scheduled), members, won);
      Leave(p);
    }

    /** The loop is over: the dispatcher goes on to pop. */
    method Leave(p: nat)
      requires Valid() && At(p, Promote([]))
      modifies this
      ensures Valid() && old(history) <= history && At(p, Pop)
      ensures PushedBy(First(), history, p) == PushedBy(First(), old(history), p)
    {
      hide Exec;
      hide PushedBy;
      ghost var s := Seen();
      procs := procs[p := Pop];
      Note(p, Choice([], NoSubscription, Accepted, 0), s);
      Interfere(p);
    }
  }
}
