/**
 * Webhook delivery in Solution 1: the pending list, the scheduled set and the dead-letter list in Redis, and
 * any number of dispatchers, producers and replay scripts that interleave one command at a time.
 */
module Webhooks {
  import opened Options
  import opened Sums

  /** A queue payload; `Garbage` does not parse. `id` tells payloads apart. */
  datatype Payload = Event(id: nat, attempt: nat, lastError: Option<nat>) | Garbage(id: nat)

  /** A dispatcher (first eight) or a replay script (last two) between two commands. */
  datatype Pc =
    | Poll
    | Promote(due: seq<Payload>)
    | Push(raw: Payload, due: seq<Payload>)
    | Pop
    | Handle(raw: Payload)
    | Send(raw: Payload)
    | Retry(raw: Payload, error: nat)
    | Bury(raw: Payload, error: nat)
    | Exhume
    | Requeue(raw: Payload)

  datatype Lookup = LookupFailed(error: nat) | NoSubscription | Subscribed

  datatype Sent = Accepted | SendFailed(error: nat)

  /** What the environment decides: which due members are returned, lookup and HTTP outcome, and the due time. */
  datatype Choice = Choice(due: seq<Payload>, lookup: Lookup, sent: Sent, dueAt: int)

  /**
   * `delivered` and `dropped` record where payloads end; `issued` the payloads ever enqueued; `sends` the
   * HTTP requests made for each since it was enqueued or last replayed.
   */
  datatype State = State(
    maxAttempts: nat, batch: nat, maxLength: nat, now: int,
    queue: seq<Payload>, scheduled: map<Payload, int>, dlq: seq<Payload>, procs: map<nat, Pc>,
    delivered: multiset<nat>, dropped: multiset<nat>, issued: set<nat>, sends: map<nat, nat>)

  datatype Step =
    | Enqueue(id: nat, garbage: bool)
    | Trim
    | Tick(ms: nat)
    | StartDispatcher(p: nat)
    | StartReplay(p: nat)
    | Run(p: nat, choice: Choice)

  function Sends(s: State, id: nat): nat { if id in s.sends then s.sends[id] else 0 }

  // ----- Commands -----

  /** Members that ZRANGEBYSCORE may return. */
  predicate DueOk(s: State, due: seq<Payload>) {
    && |due| <= s.batch
    && (forall i | 0 <= i < |due| :: due[i] in s.scheduled && s.scheduled[due[i]] <= s.now)
    && (forall i, j | 0 <= i < j < |due| :: due[i] != due[j])
  }

  function LeaveAs(s: State, p: nat, pc: Pc): State { s.(procs := s.procs[p := pc]) }

  function Drop(s: State, p: nat, id: nat): State {
    LeaveAs(s, p, Poll).(dropped := s.dropped + multiset{id})
  }

  function Retried(raw: Payload, error: nat): Payload
    requires raw.Event?
  {
    Event(raw.id, raw.attempt + 1, Some(error))
  }

  function HandleRaw(s: State, p: nat, raw: Payload, lookup: Lookup): State {
    if raw.Garbage? then Drop(s, p, raw.id)
    else
      match lookup
      case LookupFailed(error) => LeaveAs(s, p, Retry(raw, error))
      case NoSubscription => Drop(s, p, raw.id)
      case Subscribed => LeaveAs(s, p, Send(raw))
  }

  function SendRaw(s: State, p: nat, raw: Payload, sent: Sent): State
    requires raw.Event?
  {
    var counted := s.(sends := s.sends[raw.id := Sends(s, raw.id) + 1]);
    match sent
    case Accepted => LeaveAs(counted, p, Poll).(delivered := s.delivered + multiset{raw.id})
    case SendFailed(error) =>
      if raw.attempt + 1 >= s.maxAttempts then LeaveAs(counted, p, Bury(raw, error))
      else LeaveAs(counted, p, Retry(raw, error))
  }

  function PromoteNext(s: State, p: nat, due: seq<Payload>): State {
    if due == [] then LeaveAs(s, p, Pop)
    else if due[0] in s.scheduled then
      LeaveAs(s, p, Push(due[0], due[1..])).(scheduled := s.scheduled - {due[0]})
    else LeaveAs(s, p, Promote(due[1..]))
  }

  function PopRaw(s: State, p: nat): State {
    if s.queue == [] then LeaveAs(s, p, Poll)
    else LeaveAs(s, p, Handle(s.queue[0])).(queue := s.queue[1..])
  }

  function RetryRaw(s: State, p: nat, raw: Payload, error: nat, dueAt: int): State
    requires raw.Event?
  {
    LeaveAs(s, p, Poll).(scheduled := s.scheduled[Retried(raw, error) := dueAt])
  }

  function BuryRaw(s: State, p: nat, raw: Payload, error: nat): State
    requires raw.Event?
  {
    LeaveAs(s, p, Poll).(dlq := s.dlq + [Retried(raw, error)])
  }

  function ExhumeRaw(s: State, p: nat): State {
    if s.dlq == [] then s
    else
      var raw := s.dlq[|s.dlq| - 1];
      var rest := s.dlq[..|s.dlq| - 1];
      if raw.Garbage? then LeaveAs(s, p, Exhume).(dlq := rest, dropped := s.dropped + multiset{raw.id})
      else LeaveAs(s, p, Requeue(raw)).(dlq := rest)
  }

  function RequeueRaw(s: State, p: nat, raw: Payload): State {
    LeaveAs(s, p, Exhume).(queue := [Event(raw.id, 0, None)] + s.queue, sends := s.sends[raw.id := 0])
  }

  function RunProc(s: State, p: nat, c: Choice): State
    requires p in s.procs
  {
    match s.procs[p]
    case Poll => if DueOk(s, c.due) then LeaveAs(s, p, Promote(c.due)) else s
    case Promote(due) => PromoteNext(s, p, due)
    case Push(raw, due) => LeaveAs(s, p, Promote(due)).(queue := [raw] + s.queue)
    case Pop => PopRaw(s, p)
    case Handle(raw) => HandleRaw(s, p, raw, c.lookup)
    case Send(raw) => if raw.Event? then SendRaw(s, p, raw, c.sent) else s
    case Retry(raw, error) => if raw.Event? then RetryRaw(s, p, raw, error, c.dueAt) else s
    case Bury(raw, error) => if raw.Event? then BuryRaw(s, p, raw, error) else s
    case Exhume => ExhumeRaw(s, p)
    case Requeue(raw) => RequeueRaw(s, p, raw)
  }

  function Next(s: State, step: Step): State {
    match step
    case Enqueue(id, garbage) =>
      if id in s.issued then s
      else s.(queue := s.queue + [if garbage then Garbage(id) else Event(id, 0, None)], issued := s.issued + {id})
    case Trim =>
      if s.maxLength > 0 && |s.queue| > s.maxLength then
        s.(queue := s.queue[|s.queue| - s.maxLength..], dropped := s.dropped + Ids(s.queue[..|s.queue| - s.maxLength]))
      else s
    case Tick(ms) => s.(now := s.now + ms)
    case StartDispatcher(p) => if p in s.procs then s else LeaveAs(s, p, Poll)
    case StartReplay(p) => if p in s.procs then s else LeaveAs(s, p, Exhume)
    case Run(p, c) => if p in s.procs then RunProc(s, p, c) else s
  }

  function IdSeq(q: seq<Payload>): seq<nat> { seq(|q|, i requires 0 <= i < |q| => q[i].id) }

  function Ids(q: seq<Payload>): multiset<nat> { multiset(IdSeq(q)) }

  function Initial(maxAttempts: nat, batch: nat, maxLength: nat): State {
    State(maxAttempts, batch, maxLength, 0, [], map[], [], map[], multiset{}, multiset{}, {}, map[])
  }

  function Exec(s: State, steps: seq<Step>): State {
    if steps == [] then s else Next(Exec(s, steps[..|steps| - 1]), steps[|steps| - 1])
  }

  // ----- Where a payload is -----

  lemma IdsConcat(a: seq<Payload>, b: seq<Payload>)
    ensures Ids(a + b) == Ids(a) + Ids(b)
  {
    assert IdSeq(a + b) == IdSeq(a) + IdSeq(b);
  }

  lemma IdsAppend(q: seq<Payload>, raw: Payload, id: nat)
    ensures Ids(q + [raw])[id] == Ids(q)[id] + if raw.id == id then 1 else 0
    ensures Ids([raw] + q)[id] == Ids(q)[id] + if raw.id == id then 1 else 0
  {
    IdsConcat(q, [raw]);
    IdsConcat([raw], q);
    assert IdSeq([raw]) == [raw.id];
  }

  lemma IdsHas(q: seq<Payload>, raw: Payload)
    requires raw in q
    ensures raw.id in Ids(q)
  {
    var i :| 0 <= i < |q| && q[i] == raw;
    assert IdSeq(q)[i] == raw.id;
  }

  /** The payload a process has taken out of Redis and not put back yet. */
  function Held(pc: Pc): Option<Payload> {
    match pc
    case Push(raw, _) => Some(raw)
    case Handle(raw) => Some(raw)
    case Send(raw) => Some(raw)
    case Retry(raw, _) => Some(raw)
    case Bury(raw, _) => Some(raw)
    case Requeue(raw) => Some(raw)
    case _ => None
  }

  function Holds(pc: Pc, id: nat): int { if Held(pc).Some? && Held(pc).value.id == id then 1 else 0 }

  function HoldsBy(procs: map<nat, Pc>, id: nat): map<nat, int> { map p | p in procs :: Holds(procs[p], id) }

  ghost function InFlight(procs: map<nat, Pc>, id: nat): int { Sum(HoldsBy(procs, id)) }

  function ScheduledWith(scheduled: map<Payload, int>, id: nat): set<Payload> { set k | k in scheduled && k.id == id }

  /** In how many places payload `id` is. */
  ghost function Count(s: State, id: nat): int {
    Ids(s.queue)[id] + |ScheduledWith(s.scheduled, id)| + InFlight(s.procs, id) + Ids(s.dlq)[id]
    + s.delivered[id] + s.dropped[id]
  }

  ghost predicate Conserved(s: State, id: nat) {
    Count(s, id) == if id in s.issued then 1 else 0
  }

  lemma InFlightUpdate(procs: map<nat, Pc>, p: nat, pc: Pc, id: nat)
    ensures InFlight(procs[p := pc], id) ==
            InFlight(procs, id) - (if p in procs then Holds(procs[p], id) else 0) + Holds(pc, id)
  {
    assert HoldsBy(procs[p := pc], id) == HoldsBy(procs, id)[p := Holds(pc, id)];
    SumUpdate(HoldsBy(procs, id), p, Holds(pc, id));
  }

  /** A payload in flight is nowhere else. */
  lemma HeldOnce(s: State, p: nat, id: nat)
    requires Conserved(s, id) && p in s.procs && Holds(s.procs[p], id) == 1
    ensures id in s.issued && Ids(s.queue)[id] == 0 && ScheduledWith(s.scheduled, id) == {} && Ids(s.dlq)[id] == 0
    ensures s.delivered[id] == 0 && s.dropped[id] == 0
    ensures forall q | q in s.procs && q != p :: Holds(s.procs[q], id) == 0
  {
    var m := HoldsBy(s.procs, id);
    SumPick(m, p);
    SumNonNegative(m - {p});
    forall q | q in s.procs && q != p ensures Holds(s.procs[q], id) == 0 {
      SumAtLeast(m - {p}, q);
    }
  }

  // ----- Conservation -----

  lemma ScheduledRemove(scheduled: map<Payload, int>, raw: Payload, id: nat)
    requires raw in scheduled
    ensures |ScheduledWith(scheduled - {raw}, id)| == |ScheduledWith(scheduled, id)| - if raw.id == id then 1 else 0
  {
    if raw.id == id { assert ScheduledWith(scheduled - {raw}, id) == ScheduledWith(scheduled, id) - {raw}; }
    else { assert ScheduledWith(scheduled - {raw}, id) == ScheduledWith(scheduled, id); }
  }

  lemma ScheduledAdd(scheduled: map<Payload, int>, raw: Payload, due: int, id: nat)
    requires ScheduledWith(scheduled, raw.id) == {}
    ensures |ScheduledWith(scheduled[raw := due], id)| == |ScheduledWith(scheduled, id)| + if raw.id == id then 1 else 0
  {
    assert raw !in ScheduledWith(scheduled, raw.id);
    if raw.id == id { assert ScheduledWith(scheduled[raw := due], id) == ScheduledWith(scheduled, id) + {raw}; }
    else { assert ScheduledWith(scheduled[raw := due], id) == ScheduledWith(scheduled, id); }
  }

  /** What a step changes about the places of `id`, the sum of which stays what it was. */
  ghost predicate Balanced(s: State, s': State, id: nat) {
    Count(s', id) == Count(s, id) && s'.issued == s.issued
  }

  /** It is enough to look at the stores and at the process that moved. */
  lemma Balances(s: State, s': State, p: nat, id: nat)
    requires p in s.procs && p in s'.procs && s'.procs == s.procs[p := s'.procs[p]] && s'.issued == s.issued
    requires Ids(s'.queue)[id] + |ScheduledWith(s'.scheduled, id)| + Holds(s'.procs[p], id) + Ids(s'.dlq)[id]
             + s'.delivered[id] + s'.dropped[id]
          == Ids(s.queue)[id] + |ScheduledWith(s.scheduled, id)| + Holds(s.procs[p], id) + Ids(s.dlq)[id]
             + s.delivered[id] + s.dropped[id]
    ensures Balanced(s, s', id)
  {
    InFlightUpdate(s.procs, p, s'.procs[p], id);
  }

  lemma PromoteBalances(s: State, p: nat, due: seq<Payload>, id: nat)
    requires p in s.procs && s.procs[p] == Promote(due)
    ensures Balanced(s, PromoteNext(s, p, due), id)
  {
    hide Ids;
    hide Count;
    if due != [] && due[0] in s.scheduled { ScheduledRemove(s.scheduled, due[0], id); }
    Balances(s, PromoteNext(s, p, due), p, id);
  }

  lemma PushBalances(s: State, s': State, p: nat, pushed: Payload, id: nat)
    requires p in s.procs && Held(s.procs[p]).Some? && Held(s.procs[p]).value.id == pushed.id
    requires p in s'.procs && Held(s'.procs[p]).None?
    requires s' == LeaveAs(s, p, s'.procs[p]).(queue := [pushed] + s.queue, sends := s'.sends)
    ensures Balanced(s, s', id)
  {
    hide Ids;
    hide Count;
    IdsAppend(s.queue, pushed, id);
    Balances(s, s', p, id);
  }

  lemma PopBalances(s: State, p: nat, id: nat)
    requires p in s.procs && s.procs[p].Pop?
    ensures Balanced(s, PopRaw(s, p), id)
  {
    hide Ids;
    hide Count;
    if s.queue != [] {
      assert s.queue == [s.queue[0]] + s.queue[1..];
      IdsAppend(s.queue[1..], s.queue[0], id);
    }
    Balances(s, PopRaw(s, p), p, id);
  }

  lemma DropBalances(s: State, p: nat, raw: Payload, id: nat)
    requires p in s.procs && Held(s.procs[p]) == Some(raw)
    ensures Balanced(s, Drop(s, p, raw.id), id)
  {
    hide Ids;
    hide Count;
    assert (s.dropped + multiset{raw.id})[id] == s.dropped[id] + if raw.id == id then 1 else 0;
    Balances(s, Drop(s, p, raw.id), p, id);
  }

  lemma KeepBalances(s: State, p: nat, pc: Pc, sends: map<nat, nat>, id: nat)
    requires p in s.procs && Holds(pc, id) == Holds(s.procs[p], id)
    ensures Balanced(s, LeaveAs(s, p, pc).(sends := sends), id)
  {
    hide Ids;
    hide Count;
    Balances(s, LeaveAs(s, p, pc).(sends := sends), p, id);
  }

  lemma DeliveryBalances(s: State, p: nat, raw: Payload, sends: map<nat, nat>, id: nat)
    requires p in s.procs && Held(s.procs[p]) == Some(raw)
    ensures Balanced(s, LeaveAs(s.(sends := sends), p, Poll).(delivered := s.delivered + multiset{raw.id}), id)
  {
    hide Ids;
    hide Count;
    assert (s.delivered + multiset{raw.id})[id] == s.delivered[id] + if raw.id == id then 1 else 0;
    Balances(s, LeaveAs(s.(sends := sends), p, Poll).(delivered := s.delivered + multiset{raw.id}), p, id);
  }

  lemma HandleBalances(s: State, p: nat, raw: Payload, lookup: Lookup, id: nat)
    requires p in s.procs && s.procs[p] == Handle(raw)
    ensures Balanced(s, HandleRaw(s, p, raw, lookup), id)
  {
    hide Count;
    if raw.Garbage? || lookup.NoSubscription? { DropBalances(s, p, raw, id); }
    else { KeepBalances(s, p, HandleRaw(s, p, raw, lookup).procs[p], s.sends, id); }
  }

  lemma SendBalances(s: State, p: nat, raw: Payload, sent: Sent, id: nat)
    requires p in s.procs && s.procs[p] == Send(raw) && raw.Event?
    ensures Balanced(s, SendRaw(s, p, raw, sent), id)
  {
    hide Count;
    var sends := s.sends[raw.id := Sends(s, raw.id) + 1];
    if sent.Accepted? { DeliveryBalances(s, p, raw, sends, id); }
    else { KeepBalances(s, p, SendRaw(s, p, raw, sent).procs[p], sends, id); }
  }

  lemma RetryBalances(s: State, p: nat, raw: Payload, error: nat, dueAt: int, id: nat)
    requires p in s.procs && s.procs[p] == Retry(raw, error) && raw.Event? && Conserved(s, raw.id)
    ensures Balanced(s, RetryRaw(s, p, raw, error, dueAt), id)
  {
    HeldOnce(s, p, raw.id);
    hide Ids;
    hide Count;
    ScheduledAdd(s.scheduled, Retried(raw, error), dueAt, id);
    Balances(s, RetryRaw(s, p, raw, error, dueAt), p, id);
  }

  lemma BuryBalances(s: State, p: nat, raw: Payload, error: nat, id: nat)
    requires p in s.procs && s.procs[p] == Bury(raw, error) && raw.Event?
    ensures Balanced(s, BuryRaw(s, p, raw, error), id)
  {
    hide Ids;
    hide Count;
    IdsAppend(s.dlq, Retried(raw, error), id);
    Balances(s, BuryRaw(s, p, raw, error), p, id);
  }

  lemma ExhumeBalances(s: State, p: nat, id: nat)
    requires p in s.procs && s.procs[p].Exhume?
    ensures Balanced(s, ExhumeRaw(s, p), id)
  {
    hide Ids;
    hide Count;
    if s.dlq != [] {
      var raw := s.dlq[|s.dlq| - 1];
      assert s.dlq == s.dlq[..|s.dlq| - 1] + [raw];
      IdsAppend(s.dlq[..|s.dlq| - 1], raw, id);
      assert (s.dropped + multiset{raw.id})[id] == s.dropped[id] + if raw.id == id then 1 else 0;
      Balances(s, ExhumeRaw(s, p), p, id);
    }
  }

  lemma RunBalances(s: State, p: nat, c: Choice, id: nat)
    requires p in s.procs && (Held(s.procs[p]).Some? ==> Conserved(s, Held(s.procs[p]).value.id))
    ensures Balanced(s, RunProc(s, p, c), id)
  {
    hide Count;
    hide Ids;
    match s.procs[p] {
      case Promote(due) => PromoteBalances(s, p, due, id);
      case Push(raw, _) => PushBalances(s, RunProc(s, p, c), p, raw, id);
      case Requeue(raw) => PushBalances(s, RunProc(s, p, c), p, Event(raw.id, 0, None), id);
      case Pop => PopBalances(s, p, id);
      case Handle(raw) => HandleBalances(s, p, raw, c.lookup, id);
      case Send(raw) => if raw.Event? { SendBalances(s, p, raw, c.sent, id); }
      case Retry(raw, error) => if raw.Event? { RetryBalances(s, p, raw, error, c.dueAt, id); }
      case Bury(raw, error) => if raw.Event? { BuryBalances(s, p, raw, error, id); }
      case Exhume => ExhumeBalances(s, p, id);
      case Poll => if DueOk(s, c.due) { KeepBalances(s, p, Promote(c.due), s.sends, id); }
    }
  }

  lemma TrimBalances(s: State, id: nat)
    ensures Balanced(s, Next(s, Trim), id)
  {
    if s.maxLength > 0 && |s.queue| > s.maxLength {
      var n := |s.queue| - s.maxLength;
      assert s.queue == s.queue[..n] + s.queue[n..];
      IdsConcat(s.queue[..n], s.queue[n..]);
    }
  }

  lemma StartBalances(s: State, p: nat, pc: Pc, id: nat)
    requires p !in s.procs && Held(pc).None?
    ensures Balanced(s, LeaveAs(s, p, pc), id)
  {
    InFlightUpdate(s.procs, p, pc, id);
  }

  lemma EnqueueConserves(s: State, i: nat, garbage: bool, id: nat)
    requires Conserved(s, id)
    ensures Conserved(Next(s, Enqueue(i, garbage)), id)
  {
    var raw := if garbage then Garbage(i) else Event(i, 0, None);
    IdsAppend(s.queue, raw, id);
    hide Ids;
  }

  lemma NextConserves(s: State, step: Step, id: nat)
    requires forall i: nat :: Conserved(s, i)
    ensures Conserved(Next(s, step), id)
  {
    hide RunProc;
    assert Conserved(s, id);
    match step {
      case Run(p, c) =>
        if p in s.procs {
          if Held(s.procs[p]).Some? { assert Conserved(s, Held(s.procs[p]).value.id); }
          RunBalances(s, p, c, id);
        }
      case StartDispatcher(p) => if p !in s.procs { StartBalances(s, p, Poll, id); }
      case StartReplay(p) => if p !in s.procs { StartBalances(s, p, Exhume, id); }
      case Enqueue(i, garbage) => EnqueueConserves(s, i, garbage, id);
      case Trim => TrimBalances(s, id);
      case Tick(_) =>
    }
  }

  /**
   * With any number of racing dispatchers, producers and replays, every payload ever enqueued is in exactly
   * one of the queue, the scheduled set, a dispatcher's hands, the dead-letter list, delivered or dropped.
   */
  lemma {:induction false} EveryRunConserves(maxAttempts: nat, batch: nat, maxLength: nat, steps: seq<Step>)
    ensures forall id: nat :: Conserved(Exec(Initial(maxAttempts, batch, maxLength), steps), id)
  {
    var s0 := Initial(maxAttempts, batch, maxLength);
    if steps == [] {
      forall id: nat ensures Conserved(s0, id) {
        assert ScheduledWith(map[], id) == {};
        assert HoldsBy(map[], id) == map[];
      }
    } else {
      EveryRunConserves(maxAttempts, batch, maxLength, steps[..|steps| - 1]);
      var s, step := Exec(s0, steps[..|steps| - 1]), steps[|steps| - 1];
      assert Exec(s0, steps) == Next(s, step);
      forall id: nat ensures Conserved(Exec(s0, steps), id) {
        NextConserves(s, step, id);
      }
    }
  }
}
