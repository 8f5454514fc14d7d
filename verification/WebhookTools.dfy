/** The webhook code of Solution 1 that changes the Redis lists in place: producer, dispatcher and replay script. */
module WebhookTools {
  import opened Options
  import opened Webhooks

  function Reversed(q: seq<Payload>): seq<Payload> {
    if q == [] then [] else Reversed(q[1..]) + [q[0]]
  }

  /** The members of `due` that are there to be taken, each once. */
  function Taken(due: seq<Payload>, scheduled: map<Payload, int>): seq<Payload> {
    if due == [] then []
    else if due[0] in scheduled then [due[0]] + Taken(due[1..], scheduled - {due[0]})
    else Taken(due[1..], scheduled)
  }

  /** What a replay puts back: the events that parse, in order, as good as new. */
  function Revived(q: seq<Payload>): (r: seq<Payload>)
    ensures |r| <= |q|
  {
    if q == [] then [] else (if q[0].Event? then [Event(q[0].id, 0, None)] else []) + Revived(q[1..])
  }

  /** Due members in order of their due times; a due one is left out only when the batch is full of earlier ones. */
  predicate EarliestDue(scheduled: map<Payload, int>, now: int, batch: nat, due: seq<Payload>) {
    && |due| <= batch
    && (forall i | 0 <= i < |due| :: due[i] in scheduled && scheduled[due[i]] <= now)
    && (forall i, j | 0 <= i < j < |due| :: due[i] != due[j] && scheduled[due[i]] <= scheduled[due[j]])
    && (forall raw, i | raw in scheduled && raw !in due && scheduled[raw] <= now && 0 <= i < |due| ::
          scheduled[due[i]] <= scheduled[raw])
    && (|due| == batch || forall raw | raw in scheduled && scheduled[raw] <= now :: raw in due)
  }

  /** `due` has been selected in order, and nothing in `rest` is earlier. */
  predicate Selecting(scheduled: map<Payload, int>, now: int, due: seq<Payload>, rest: set<Payload>) {
    && (forall i | 0 <= i < |due| :: due[i] in scheduled && scheduled[due[i]] <= now && due[i] !in rest)
    && (forall i, j | 0 <= i < j < |due| :: due[i] != due[j] && scheduled[due[i]] <= scheduled[due[j]])
    && (forall raw | raw in rest :: raw in scheduled && scheduled[raw] <= now)
    && (forall raw, i | raw in rest && 0 <= i < |due| :: scheduled[due[i]] <= scheduled[raw])
    && (forall raw | raw in scheduled && scheduled[raw] <= now :: raw in due || raw in rest)
  }

  lemma {:induction false} EarliestExists(scheduled: map<Payload, int>, rest: set<Payload>)
    requires rest != {} && forall raw | raw in rest :: raw in scheduled
    ensures exists raw :: raw in rest && forall other | other in rest :: scheduled[raw] <= scheduled[other]
  {
    var raw :| raw in rest;
    if rest == {raw} {
      assert forall other | other in rest :: other == raw;
    } else {
      EarliestExists(scheduled, rest - {raw});
      var first :| first in rest - {raw} &&
        forall other | other in rest - {raw} :: scheduled[first] <= scheduled[other];
      var earlier := if scheduled[raw] <= scheduled[first] then raw else first;
      assert forall other | other in rest :: other == raw || other in rest - {raw};
      assert earlier in rest && forall other | other in rest :: scheduled[earlier] <= scheduled[other];
    }
  }

  function Tail(q: seq<Payload>, n: nat): (r: seq<Payload>)
    ensures |r| == (if n <= |q| then n else |q|) && r == q[|q| - |r|..]
  {
    if n <= |q| then q[|q| - n..] else q
  }

  /** The ids of the payloads that parse, in order. */
  function EventIds(q: seq<Payload>): seq<nat> {
    if q == [] then []
    else EventIds(q[..|q| - 1]) + if q[|q| - 1].Event? then [q[|q| - 1].id] else []
  }

  /** Payloads as good as new: never attempted, without an error. */
  predicate Fresh(q: seq<Payload>) { forall i | 0 <= i < |q| :: q[i] == Event(q[i].id, 0, None) }

  /** One delivery of the step system, from the popped payload until the dispatcher polls again. */
  function Settle(s: State, p: nat, c: Choice): State
    requires p in s.procs
  {
    if s.procs[p].Poll? then s else RunProc(s, p, c)
  }

  datatype Outcome = Invalid | LookupRetry | Skipped | Ok | DeadLetter | SendRetry

  datatype Summary = Summary(replayed: nat, invalid: nat, candidate: nat)

  /** Which members are due: the earliest ones, in order of their due times, up to the batch size. */
  method DueMembers(scheduled: map<Payload, int>, now: int, batch: nat) returns (due: seq<Payload>)
    ensures EarliestDue(scheduled, now, batch, due)
  {
    due := [];
    var rest := set raw | raw in scheduled && scheduled[raw] <= now;
    while |due| < batch && rest != {}
      invariant |due| <= batch && Selecting(scheduled, now, due, rest)
      decreases rest
    {
      EarliestExists(scheduled, rest);
      var raw :| raw in rest && forall other | other in rest :: scheduled[raw] <= scheduled[other];
      due, rest := due + [raw], rest - {raw};
    }
  }

  class Lists {
    var queue: seq<Payload>
    var scheduled: map<Payload, int>
    var dlq: seq<Payload>

    constructor ()
      ensures queue == [] && scheduled == map[] && dlq == []
    {
      queue, scheduled, dlq := [], map[], [];
    }

    /** Appends, then keeps the newest `maxLength` payloads. */
    method EnqueueTerminalEvent(raw: Payload, maxLength: Option<int>)
      modifies this`queue
      ensures queue == if maxLength.Some? && maxLength.value > 0 then Tail(old(queue) + [raw], maxLength.value)
                       else old(queue) + [raw]
    {
      queue := queue + [raw];
      if maxLength.Some? && maxLength.value > 0 {
        if |queue| > maxLength.value {
          queue := queue[|queue| - maxLength.value..];
        }
      }
    }

    /**
     * Left alone, moves the earliest due members to the head of the queue, one by one, so that they end up in
     * reverse order of their due times.
     */
    method PromoteAlone(now: int, batch: nat) returns (promoted: nat, ghost due: seq<Payload>)
      modifies this`queue, this`scheduled
      ensures EarliestDue(old(scheduled), now, batch, due)
      ensures queue == Reversed(due) + old(queue)
      ensures scheduled == old(scheduled) - (set raw | raw in due)
      ensures promoted == |due|
    {
      var members := DueMembers(scheduled, now, batch);
      AllTaken(members, scheduled);
      due := members;
      promoted := PromoteMembers(members);
    }

    /** A member that another dispatcher has removed since it was read is skipped. */
    method PromoteMembers(due: seq<Payload>) returns (promoted: nat)
      modifies this`queue, this`scheduled
      ensures queue == Reversed(Taken(due, old(scheduled))) + old(queue)
      ensures scheduled == old(scheduled) - (set raw | raw in due)
      ensures promoted == |Taken(due, old(scheduled))|
    {
      promoted := 0;
      var i := 0;
      ghost var scheduled0 := scheduled;
      assert Reversed([]) + queue == queue;
      while i < |due|
        invariant 0 <= i <= |due| && promoted == |Taken(due[..i], scheduled0)|
        invariant queue == Reversed(Taken(due[..i], scheduled0)) + old(queue)
        invariant scheduled == scheduled0 - (set raw | raw in due[..i])
      {
        assert due[..i + 1] == due[..i] + [due[i]];
        TakenAppend(due[..i], due[i], scheduled0);
        if due[i] in scheduled {
          ghost var taken := Taken(due[..i], scheduled0);
          ReversedAppend(taken, due[i]);
          assert [due[i]] + (Reversed(taken) + old(queue)) == [due[i]] + Reversed(taken) + old(queue);
          scheduled := scheduled - {due[i]};
          queue := [due[i]] + queue;
          promoted := promoted + 1;
        } else {
          assert Taken(due[..i + 1], scheduled0) == Taken(due[..i], scheduled0);
        }
        i := i + 1;
      }
      assert due[..|due|] == due;
    }

    /** One popped payload, with what the lookup and the HTTP request return. */
    method ProcessRawEvent(raw: Payload, maxAttempts: nat, lookup: Lookup, sent: Sent,
                           dueAt: int) returns (outcome: Outcome)
      modifies this`scheduled, this`dlq
      ensures outcome.Invalid? <==> raw.Garbage?
      ensures outcome.LookupRetry? <==> raw.Event? && lookup.LookupFailed?
      ensures outcome.SendRetry? <==>
          raw.Event? && lookup.Subscribed? && sent.SendFailed? && raw.attempt + 1 < maxAttempts
      ensures outcome.DeadLetter? <==>
          raw.Event? && lookup.Subscribed? && sent.SendFailed? && raw.attempt + 1 >= maxAttempts
      ensures scheduled ==
                if outcome.LookupRetry? then old(scheduled)[Retried(raw, lookup.error) := dueAt]
                else if outcome.SendRetry? then old(scheduled)[Retried(raw, sent.error) := dueAt]
                else old(scheduled)
      ensures dlq == if outcome.DeadLetter? then old(dlq) + [Retried(raw, sent.error)] else old(dlq)
      ensures outcome.Ok? <==> raw.Event? && lookup.Subscribed? && sent.Accepted?
    {
      if raw.Garbage? { return Invalid; }
      if lookup.LookupFailed? {
        scheduled := scheduled[Retried(raw, lookup.error) := dueAt];
        return LookupRetry;
      }
      if lookup.NoSubscription? { return Skipped; }
      if sent.Accepted? { return Ok; }
      if raw.attempt + 1 >= maxAttempts {
        dlq := dlq + [Retried(raw, sent.error)];
        return DeadLetter;
      }
      scheduled := scheduled[Retried(raw, sent.error) := dueAt];
      outcome := SendRetry;
    }

    /** Pops the newest dead letter and, unless it is a dry run, puts it at the head of the queue. */
    method ReplayOnce(dryRun: bool) returns (result: Option<bool>)
      modifies this`queue, this`dlq
      ensures old(dlq) == [] ==> result.None? && queue == old(queue) && dlq == old(dlq)
      ensures old(dlq) != [] ==>
                && result == Some(old(dlq)[|old(dlq)| - 1].Event?)
                && (if dryRun then dlq == old(dlq) && queue == old(queue)
                    else dlq == old(dlq)[..|old(dlq)| - 1] && queue == Revived([old(dlq)[|old(dlq)| - 1]]) + old(queue))
    {
      if dlq == [] { return None; }
      var raw := dlq[|dlq| - 1];
      dlq := dlq[..|dlq| - 1];
      if raw.Garbage? {
        if dryRun { dlq := dlq + [raw]; }
        return Some(false);
      }
      if dryRun {
        dlq := dlq + [raw];
        return Some(true);
      }
      queue := [Event(raw.id, 0, None)] + queue;
      result := Some(true);
    }

    /**
     * The replay script. A real run takes the newest `limit` dead letters and puts exactly the valid ones, in
     * their original order, before everything that waits; a dry run looks at the newest one again and again.
     */
    method ReplayDeadLetters(limit: int, dryRun: bool) returns (summary: Summary)
      modifies this`queue, this`dlq
      ensures !dryRun ==>
                var taken := Tail(old(dlq), Rounds(limit));
                && old(dlq) == dlq + taken && queue == Revived(taken) + old(queue)
                && summary == Summary(|Revived(taken)|, |taken| - |Revived(taken)|, 0)
      ensures dryRun ==> dlq == old(dlq) && queue == old(queue) && summary == DryRunSummary(old(dlq), limit)
      ensures !dryRun ==>
                var taken, added := Tail(old(dlq), Rounds(limit)), queue[..|queue| - |old(queue)|];
                && queue == added + old(queue) && Fresh(added) && IdSeq(added) == EventIds(taken)
                && summary.replayed == |EventIds(taken)| && summary.invalid == |taken| - |EventIds(taken)|
    {
      summary := Summary(0, 0, 0);
      var n, empty := 0, false;
      ghost var all, waiting := dlq, queue;
      ReplayStarts(dryRun, all, waiting);
      hide Replaying;
      hide DryRunSummary;
      hide Fresh;
      hide EventIds;
      hide Tally;
      hide Tail;
      while n < limit && !empty
        invariant 0 <= n <= Rounds(limit) && Replaying(dryRun, all, waiting, n, dlq, queue, summary)
        invariant empty ==> dlq == []
        decreases limit - n, !empty
      {
        ghost var letters, queued := dlq, queue;
        var result := ReplayOnce(dryRun);
        if result.None? {
          empty := true;
        } else {
          ReplayStep(dryRun, all, waiting, n, letters, queued, summary, dlq, queue, result.value);
          summary := Tally(summary, dryRun, result.value);
          n := n + 1;
        }
      }
      ReplayEnds(dryRun, all, waiting, n, limit, dlq, queue, summary);
    }
  }

  lemma PutBefore(back: seq<Payload>, waiting: seq<Payload>)
    ensures (back + waiting)[..|back + waiting| - |waiting|] == back
  {}

  function Tally(summary: Summary, dryRun: bool, valid: bool): Summary {
    if !valid then summary.(invalid := summary.invalid + 1)
    else if dryRun then summary.(candidate := summary.candidate + 1)
    else summary.(replayed := summary.replayed + 1)
  }

  /** After `n` letters of `all` have been replayed onto `waiting`, or looked at. */
  ghost predicate Replaying(dryRun: bool, all: seq<Payload>, waiting: seq<Payload>, n: nat, dlq: seq<Payload>,
                            queue: seq<Payload>, summary: Summary) {
    if dryRun then dlq == all && queue == waiting && summary == DryRunSummary(all, n)
    else
      && n <= |all| && dlq == all[..|all| - n] && queue == Revived(all[|all| - n..]) + waiting
      && summary == Summary(|Revived(all[|all| - n..])|, n - |Revived(all[|all| - n..])|, 0)
  }

  lemma ReplayStarts(dryRun: bool, all: seq<Payload>, waiting: seq<Payload>)
    ensures Replaying(dryRun, all, waiting, 0, all, waiting, Summary(0, 0, 0))
  {
    assert all[..|all|] == all && all[|all|..] == [];
    assert Revived([]) + waiting == waiting;
  }

  lemma ReplayStep(dryRun: bool, all: seq<Payload>, waiting: seq<Payload>, n: nat, dlq: seq<Payload>,
                   queue: seq<Payload>, summary: Summary, dlq': seq<Payload>, queue': seq<Payload>, valid: bool)
    requires Replaying(dryRun, all, waiting, n, dlq, queue, summary) && dlq != [] && valid == dlq[|dlq| - 1].Event?
    requires if dryRun then dlq' == dlq && queue' == queue
             else dlq' == dlq[..|dlq| - 1] && queue' == Revived([dlq[|dlq| - 1]]) + queue
    ensures Replaying(dryRun, all, waiting, n + 1, dlq', queue', Tally(summary, dryRun, valid))
  {
    if !dryRun {
      var raw := dlq[|dlq| - 1];
      assert all[|all| - n - 1..] == [raw] + all[|all| - n..];
      RevivedKeepsOrder([raw], all[|all| - n..]);
      RevivedOne(raw);
      Regroup(Revived([raw]), Revived(all[|all| - n..]), waiting);
    }
    hide Revived;
  }

  lemma ReplayEnds(dryRun: bool, all: seq<Payload>, waiting: seq<Payload>, n: nat, limit: int, dlq: seq<Payload>,
                   queue: seq<Payload>, summary: Summary)
    requires Replaying(dryRun, all, waiting, n, dlq, queue, summary)
    requires n <= Rounds(limit) && (n < Rounds(limit) ==> dlq == [])
    ensures !dryRun ==>
              var taken := Tail(all, Rounds(limit));
              && all == dlq + taken && queue == Revived(taken) + waiting
              && summary == Summary(|Revived(taken)|, |taken| - |Revived(taken)|, 0)
    ensures dryRun ==> dlq == all && queue == waiting && summary == DryRunSummary(all, limit)
    ensures !dryRun ==>
              var taken, added := Tail(all, Rounds(limit)), queue[..|queue| - |waiting|];
              && queue == added + waiting && Fresh(added) && IdSeq(added) == EventIds(taken)
              && summary.replayed == |EventIds(taken)| && summary.invalid == |taken| - |EventIds(taken)|
  {
    if !dryRun {
      var taken := Tail(all, Rounds(limit));
      assert taken == all[|all| - n..];
      assert all == all[..|all| - n] + all[|all| - n..];
      RevivedIsFresh(taken);
      PutBefore(Revived(taken), waiting);
    }
  }

  function Rounds(limit: int): nat { if limit > 0 then limit else 0 }

  /** A dry run counts the newest dead letter once per round. */
  function DryRunSummary(dlq: seq<Payload>, limit: int): Summary {
    if dlq == [] then Summary(0, 0, 0)
    else if dlq[|dlq| - 1].Event? then Summary(0, 0, Rounds(limit))
    else Summary(0, Rounds(limit), 0)
  }

  /** What is taken are the due members that are still there, each once and in order. */
  lemma {:induction false} TakenIs(due: seq<Payload>, scheduled: map<Payload, int>)
    ensures forall raw :: raw in Taken(due, scheduled) <==> raw in due && raw in scheduled
    ensures forall i, j | 0 <= i < j < |Taken(due, scheduled)| :: Taken(due, scheduled)[i] != Taken(due, scheduled)[j]
  {
    if due != [] {
      TakenIs(due[1..], scheduled - {due[0]});
      TakenIs(due[1..], scheduled);
      assert forall raw :: raw in due <==> raw == due[0] || raw in due[1..];
    }
  }

  lemma {:induction false} TakenAppend(due: seq<Payload>, raw: Payload, scheduled: map<Payload, int>)
    ensures Taken(due + [raw], scheduled) ==
              Taken(due, scheduled) + if raw in scheduled - (set d | d in due) then [raw] else []
  {
    if due == [] {
      assert [raw][1..] == [];
    } else {
      assert (due + [raw])[1..] == due[1..] + [raw];
      assert (set d | d in due) == {due[0]} + (set d | d in due[1..]);
      var rest := if due[0] in scheduled then scheduled - {due[0]} else scheduled;
      TakenAppend(due[1..], raw, rest);
      assert rest - (set d | d in due[1..]) == scheduled - (set d | d in due);
    }
  }

  /** With every due member still scheduled, all are taken, in order. */
  lemma {:induction false} AllTaken(due: seq<Payload>, scheduled: map<Payload, int>)
    requires forall i | 0 <= i < |due| :: due[i] in scheduled
    requires forall i, j | 0 <= i < j < |due| :: due[i] != due[j]
    ensures Taken(due, scheduled) == due
  {
    if due != [] {
      assert forall i | 1 <= i < |due| :: due[i] in scheduled - {due[0]};
      AllTaken(due[1..], scheduled - {due[0]});
    }
  }

  lemma {:induction false} ReversedAt(q: seq<Payload>, k: nat)
    requires k < |q|
    ensures |Reversed(q)| == |q| && Reversed(q)[k] == q[|q| - 1 - k]
  {
    if |q| > 1 { ReversedAt(q[1..], if k < |q| - 1 then k else 0); }
  }

  lemma {:induction false} ReversedAppend(q: seq<Payload>, raw: Payload)
    ensures Reversed(q + [raw]) == [raw] + Reversed(q)
  {
    if q == [] {
      assert [raw][1..] == [];
    } else {
      ReversedAppend(q[1..], raw);
      assert (q + [raw])[1..] == q[1..] + [raw];
    }
  }

  lemma {:induction false} RevivedLength(q: seq<Payload>)
    ensures |Revived(q)| == |q| <==> forall raw | raw in q :: raw.Event?
    ensures |Revived(q)| == 0 <==> forall raw | raw in q :: raw.Garbage?
  {
    if q != [] {
      RevivedLength(q[1..]);
      assert q == [q[0]] + q[1..];
      assert q[0] in q && forall raw | raw in q[1..] :: raw in q;
    }
  }

  /** What a replay puts back are the events among the letters taken, in order, each as good as new. */
  lemma {:induction false} RevivedIsFresh(q: seq<Payload>)
    ensures Fresh(Revived(q)) && IdSeq(Revived(q)) == EventIds(q)
  {
    if q != [] {
      var init, last := q[..|q| - 1], [q[|q| - 1]];
      RevivedIsFresh(init);
      RevivedKeepsOrder(init, last);
      assert q == init + last;
      assert last[1..] == [];
      assert IdSeq(Revived(init) + Revived(last)) == IdSeq(Revived(init)) + IdSeq(Revived(last));
    }
  }

  /** The order of the dead-letter list survives a replay: the revived events are its valid ones, first to last. */
  lemma {:induction false} RevivedKeepsOrder(a: seq<Payload>, b: seq<Payload>)
    ensures Revived(a + b) == Revived(a) + Revived(b)
  {
    if a == [] {
      assert a + b == b;
    } else {
      RevivedKeepsOrder(a[1..], b);
      RevivedFirst(a);
      RevivedFirst(a + b);
      assert (a + b)[1..] == a[1..] + b;
      assert Revived([a[0]]) + (Revived(a[1..]) + Revived(b)) == (Revived([a[0]]) + Revived(a[1..])) + Revived(b);
    }
  }

  lemma RevivedFirst(q: seq<Payload>)
    requires q != []
    ensures Revived(q) == Revived([q[0]]) + Revived(q[1..])
  {
    assert [q[0]][1..] == [];
  }

  /**
   * A dry run announces as many candidates as a real run would replay exactly if there is nothing to look at,
   * or its only sample speaks for all rounds: valid, with at least `limit` letters, all of the newest valid; or
   * invalid, with none of the newest valid.
   */
  lemma DryRunCountsExactlyWhen(dlq: seq<Payload>, limit: int)
    ensures DryRunSummary(dlq, limit).candidate == |Revived(Tail(dlq, Rounds(limit)))| <==>
            || dlq == [] || limit <= 0
            || (dlq[|dlq| - 1].Event? && limit <= |dlq| && forall raw | raw in Tail(dlq, limit) :: raw.Event?)
            || (dlq[|dlq| - 1].Garbage? && forall raw | raw in Tail(dlq, limit) :: raw.Garbage?)
  {
    var taken := Tail(dlq, Rounds(limit));
    RevivedLength(taken);
    if dlq != [] && limit > 0 {
      assert taken[|taken| - 1] == dlq[|dlq| - 1];
      assert |taken| <= limit;
    }
  }

  lemma RevivedOne(raw: Payload)
    ensures Revived([raw]) == if raw.Event? then [Event(raw.id, 0, None)] else []
  {
    assert [raw][1..] == [];
  }

  lemma NewestSpeaks(dlq: seq<Payload>, limit: nat)
    requires dlq != [] && dlq[|dlq| - 1].Event?
    ensures DryRunSummary(dlq, limit) == Summary(0, 0, limit)
  {}

  /** Two letters, limit two, and a dry run that is wrong: one candidate of two rounds is not there. */
  lemma DryRunMiscounts()
    ensures var dlq := [Garbage(1), Event(2, 5, None)];
            DryRunSummary(dlq, 2).candidate == 2 && |Revived(Tail(dlq, 2))| == 1
  {
    var garbage, event := Garbage(1), Event(2, 5, None);
    RevivedOne(garbage);
    RevivedOne(event);
    RevivedKeepsOrder([garbage], [event]);
    hide Revived;
    hide DryRunSummary;
    var dlq := [garbage, event];
    assert dlq == [garbage] + [event];
    hide *;
    assert Tail(dlq, 2) == dlq;
    assert DryRunSummary(dlq, 2) == Summary(0, 0, 2) by { NewestSpeaks(dlq, 2); }
  }

  /** Dispatcher `p` runs `n` commands and nobody else moves. */
  function Alone(s: State, p: nat, c: Choice, n: nat): State
    decreases n
  {
    if n == 0 || p !in s.procs then s else Alone(RunProc(s, p, c), p, c, n - 1)
  }

  /** What the loop makes of the lists. */
  function Promoted(s: State, p: nat, due: seq<Payload>): State {
    s.(queue := Reversed(Taken(due, s.scheduled)) + s.queue, scheduled := s.scheduled - (set raw | raw in due),
       procs := s.procs[p := Pop])
  }

  function FirstPromoted(s: State, p: nat, due: seq<Payload>): State
    requires due != []
  {
    s.(queue := (if due[0] in s.scheduled then [due[0]] else []) + s.queue, scheduled := s.scheduled - {due[0]},
       procs := s.procs[p := Promote(due[1..])])
  }

  lemma FirstThenRest(s: State, p: nat, due: seq<Payload>)
    requires due != []
    ensures Promoted(FirstPromoted(s, p, due), p, due[1..]) == Promoted(s, p, due)
  {
    var first := if due[0] in s.scheduled then [due[0]] else [];
    var s1 := FirstPromoted(s, p, due);
    var rest := Taken(due[1..], s1.scheduled);
    assert s.scheduled - (set raw | raw in due) == s1.scheduled - (set raw | raw in due[1..]);
    TakenFirst(due, s.scheduled);
    ReversedFirst(first, rest);
    Regroup(Reversed(rest), first, s.queue);
    hide Taken;
    hide Reversed;
  }

  lemma TakenFirst(due: seq<Payload>, scheduled: map<Payload, int>)
    requires due != []
    ensures Taken(due, scheduled) ==
            (if due[0] in scheduled then [due[0]] else []) + Taken(due[1..], scheduled - {due[0]})
  {
    assert due[0] !in scheduled ==> scheduled - {due[0]} == scheduled;
  }

  lemma ReversedFirst(first: seq<Payload>, rest: seq<Payload>)
    requires |first| <= 1
    ensures Reversed(first + rest) == Reversed(rest) + first
  {
    if first == [] { assert first + rest == rest; }
    else { assert (first + rest)[1..] == rest; }
  }

  lemma FirstSteps(s: State, p: nat, due: seq<Payload>, c: Choice, rest: nat)
    requires p in s.procs && s.procs[p] == Promote(due) && due != []
    ensures var n := if due[0] in s.scheduled then 2 else 1;
            Alone(s, p, c, rest + n) == Alone(FirstPromoted(s, p, due), p, c, rest)
  {
    var after := RunProc(s, p, c);
    if due[0] in s.scheduled {
      var s1 := RunProc(after, p, c);
      assert s1.procs == s.procs[p := Promote(due[1..])];
      assert Alone(s, p, c, rest + 2) == Alone(after, p, c, rest + 1) == Alone(s1, p, c, rest);
    } else {
      assert s.scheduled - {due[0]} == s.scheduled && [] + s.queue == s.queue;
    }
  }

  /** The dispatcher's loop and the step system promote alike. */
  lemma {:induction false} PromotionMatchesSteps(s: State, p: nat, due: seq<Payload>, c: Choice) returns (n: nat)
    requires p in s.procs && s.procs[p] == Promote(due)
    ensures Alone(s, p, c, n) == Promoted(s, p, due)
    decreases |due|
  {
    if due == [] {
      n := 1;
      assert Alone(s, p, c, 1) == Alone(RunProc(s, p, c), p, c, 0) == LeaveAs(s, p, Pop);
      assert Reversed([]) + s.queue == s.queue && s.scheduled - (set raw | raw in due) == s.scheduled;
    } else {
      FirstThenRest(s, p, due);
      var rest := PromotionMatchesSteps(FirstPromoted(s, p, due), p, due[1..], c);
      FirstSteps(s, p, due, c, rest);
      n := rest + if due[0] in s.scheduled then 2 else 1;
      hide Promoted;
      hide Alone;
    }
  }

  /** What the replay script makes of the lists; it also counts the requests of what it puts back from zero again. */
  predicate ReplayedAs(s: State, s': State, p: nat, rounds: nat) {
    var taken := Tail(s.dlq, rounds);
    && s.dlq == s'.dlq + taken && s'.queue == Revived(taken) + s.queue && s'.scheduled == s.scheduled
    && p in s'.procs && s'.procs[p] == Exhume
  }

  lemma NothingToReplay(s: State, p: nat, rounds: nat)
    requires p in s.procs && s.procs[p] == Exhume && (rounds == 0 || s.dlq == [])
    ensures ReplayedAs(s, s, p, rounds)
  {
    assert Tail(s.dlq, rounds) == [] && Revived([]) + s.queue == s.queue && s.dlq + [] == s.dlq;
  }

  /** The state after the newest letter has been dealt with. */
  function AfterLetter(s: State, p: nat): State
    requires s.dlq != []
  {
    var raw := s.dlq[|s.dlq| - 1];
    if raw.Event? then RequeueRaw(ExhumeRaw(s, p), p, raw) else ExhumeRaw(s, p)
  }

  /** It takes two commands to put an event back, and one to drop what does not parse. */
  lemma AfterLetterSteps(s: State, p: nat, c: Choice, rest: nat)
    requires p in s.procs && s.procs[p] == Exhume && s.dlq != []
    ensures var n := if s.dlq[|s.dlq| - 1].Event? then 2 else 1;
            Alone(s, p, c, rest + n) == Alone(AfterLetter(s, p), p, c, rest)
  {
    var s1 := ExhumeRaw(s, p);
    assert RunProc(s, p, c) == s1;
    if s.dlq[|s.dlq| - 1].Event? {
      assert RunProc(s1, p, c) == RequeueRaw(s1, p, s.dlq[|s.dlq| - 1]);
      assert Alone(s, p, c, rest + 2) == Alone(s1, p, c, rest + 1);
    }
  }

  lemma AfterLetterIs(s: State, p: nat)
    requires p in s.procs && s.procs[p] == Exhume && s.dlq != []
    ensures var raw := s.dlq[|s.dlq| - 1]; var s2 := AfterLetter(s, p);
            && s.dlq == s2.dlq + [raw] && s2.queue == Revived([raw]) + s.queue && s2.scheduled == s.scheduled
            && p in s2.procs && s2.procs[p] == Exhume
  {
    var raw := s.dlq[|s.dlq| - 1];
    RevivedOne(raw);
    assert [] + s.queue == s.queue;
  }

  /** The replay script and the step system's replay process, left alone, do the same. */
  lemma {:induction false} ReplayMatchesSteps(s: State, p: nat, c: Choice, rounds: nat) returns (n: nat)
    requires p in s.procs && s.procs[p] == Exhume
    ensures ReplayedAs(s, Alone(s, p, c, n), p, rounds)
    decreases rounds
  {
    hide RunProc;
    hide Revived;
    hide ReplayedAs;
    hide AfterLetter;
    hide ExhumeRaw;
    if rounds == 0 || s.dlq == [] {
      n := 0;
      NothingToReplay(s, p, rounds);
    } else {
      var raw := s.dlq[|s.dlq| - 1];
      AfterLetterIs(s, p);
      var rest := ReplayMatchesSteps(AfterLetter(s, p), p, c, rounds - 1);
      n := rest + if raw.Event? then 2 else 1;
      AfterLetterSteps(s, p, c, rest);
      hide Alone;
      ReplayedOn(s, AfterLetter(s, p), Alone(s, p, c, n), p, raw, rounds);
    }
  }

  lemma ReplayedOn(s: State, s2: State, s': State, p: nat, raw: Payload, rounds: nat)
    requires rounds > 0 && s.dlq == s2.dlq + [raw] && s2.queue == Revived([raw]) + s.queue
    requires s2.scheduled == s.scheduled && ReplayedAs(s2, s', p, rounds - 1)
    ensures ReplayedAs(s, s', p, rounds)
  {
    hide Revived;
    var taken := Tail(s2.dlq, rounds - 1);
    assert Tail(s.dlq, rounds) == taken + [raw];
    RevivedKeepsOrder(taken, [raw]);
    Regroup(s'.dlq, taken, [raw]);
    Regroup(Revived(taken), Revived([raw]), s.queue);
  }

  lemma Regroup(a: seq<Payload>, b: seq<Payload>, c: seq<Payload>)
    ensures a + (b + c) == a + b + c
  {}

  lemma SendSettles(s: State, p: nat, raw: Payload, c: Choice)
    requires p in s.procs && s.procs[p] == Send(raw) && raw.Event?
    ensures var s' := Settle(Settle(s, p, c), p, c);
            && p in s'.procs && s'.procs[p] == Poll && s'.queue == s.queue
            && s'.scheduled == (if c.sent.SendFailed? && raw.attempt + 1 < s.maxAttempts
                                then s.scheduled[Retried(raw, c.sent.error) := c.dueAt] else s.scheduled)
            && s'.dlq == (if c.sent.SendFailed? && raw.attempt + 1 >= s.maxAttempts
                          then s.dlq + [Retried(raw, c.sent.error)] else s.dlq)
  {}

  /** The dispatcher's method and the step system deliver alike. */
  lemma ProcessMatchesSteps(s: State, p: nat, raw: Payload, c: Choice)
    requires p in s.procs && s.procs[p] == Handle(raw)
    ensures var s' := Settle(Settle(Settle(s, p, c), p, c), p, c);
            && p in s'.procs && s'.procs[p] == Poll && s'.queue == s.queue
            && s'.scheduled == (if raw.Event?
                 && c.lookup.LookupFailed? then s.scheduled[Retried(raw, c.lookup.error) := c.dueAt]
                                else if raw.Event? && c.lookup.Subscribed? && c.sent.SendFailed?
                                     && raw.attempt + 1 < s.maxAttempts
                                then s.scheduled[Retried(raw, c.sent.error) := c.dueAt]
                                else s.scheduled)
            && s'.dlq == (if raw.Event? && c.lookup.Subscribed? && c.sent.SendFailed?
                 && raw.attempt + 1 >= s.maxAttempts
                          then s.dlq + [Retried(raw, c.sent.error)] else s.dlq)
  {
    if raw.Event? && c.lookup.Subscribed? {
      SendSettles(LeaveAs(s, p, Send(raw)), p, raw, c);
    }
  }

  /** An enqueue and its trim leave the queue that the producer's method leaves. */
  lemma EnqueueMatchesSteps(s: State, id: nat, garbage: bool)
    requires id !in s.issued
    ensures var raw := if garbage then Garbage(id) else Event(id, 0, None);
            Next(Next(s, Enqueue(id, garbage)), Trim).queue
            == if s.maxLength > 0 then Tail(s.queue + [raw], s.maxLength) else s.queue + [raw]
  {}
}
