/** Webhook deliveries in Solution 1 are bounded: in HTTP requests per event, and in work per run. */
module WebhookBounds {
  import opened Options
  import opened Sums
  import opened Webhooks

  // ----- HTTP requests per event -----

  /** An event still waiting has been sent at most `attempt` times, and less often than allowed. */
  predicate Budget(s: State, raw: Payload) {
    raw.Event? ==> Sends(s, raw.id) <= raw.attempt && Sends(s, raw.id) < s.maxAttempts
  }

  predicate HeldOk(s: State, pc: Pc) {
    match pc
    case Push(raw, _) => Budget(s, raw)
    case Handle(raw) => Budget(s, raw)
    case Send(raw) => raw.Event? && Budget(s, raw)
    case Retry(raw, _) => raw.Event? && Sends(s, raw.id) <= raw.attempt + 1 && Sends(s, raw.id) < s.maxAttempts
    case Bury(raw, _) => raw.Event? && Sends(s, raw.id) <= s.maxAttempts
    case Requeue(raw) => raw.Event?
    case _ => true
  }

  predicate SentWithin(s: State, id: nat) {
    Sends(s, id) <= s.maxAttempts && (id !in s.issued ==> Sends(s, id) == 0)
  }

  ghost predicate Bounded(s: State) {
    && (forall raw | raw in s.queue :: Budget(s, raw))
    && (forall raw | raw in s.scheduled :: Budget(s, raw))
    && (forall p | p in s.procs :: HeldOk(s, s.procs[p]))
    && (forall id: nat :: SentWithin(s, id))
    && (forall id: nat :: Conserved(s, id))
  }

  /** A step that counts a request or resets the count does so for the event in `p`'s hands, which is nowhere else. */
  lemma OthersKeepTheirBudget(s: State, p: nat, s': State, id: nat)
    requires Bounded(s) && p in s.procs && Holds(s.procs[p], id) == 1 && s'.maxAttempts == s.maxAttempts
    requires forall i: nat | i != id :: Sends(s', i) == Sends(s, i)
    ensures forall raw | raw in s.queue :: Budget(s', raw)
    ensures forall raw | raw in s.scheduled :: Budget(s', raw)
    ensures forall q | q in s.procs && q != p :: HeldOk(s', s.procs[q])
  {
    assert Conserved(s, id);
    HeldOnce(s, p, id);
    forall raw | raw in s.queue ensures Budget(s', raw) {
      IdsHas(s.queue, raw);
      assert Budget(s, raw);
    }
    forall raw | raw in s.scheduled ensures Budget(s', raw) {
      assert raw in ScheduledWith(s.scheduled, raw.id);
      assert Budget(s, raw);
    }
    forall q | q in s.procs && q != p ensures HeldOk(s', s.procs[q]) {
      assert HeldOk(s, s.procs[q]) && Holds(s.procs[q], id) == 0;
    }
  }

  lemma RunKeepsConserved(s: State, p: nat, c: Choice, id: nat)
    requires (forall i: nat :: Conserved(s, i)) && p in s.procs
    ensures Conserved(RunProc(s, p, c), id) && RunProc(s, p, c).issued == s.issued
  {
    hide RunProc;
    hide Count;
    assert Conserved(s, id);
    if Held(s.procs[p]).Some? { assert Conserved(s, Held(s.procs[p]).value.id); }
    RunBalances(s, p, c, id);
  }

  /** A request sent for `raw` is counted, and only for `raw`. */
  lemma SendCounts(s: State, p: nat, c: Choice)
    requires p in s.procs && s.procs[p].Send? && HeldOk(s, s.procs[p])
    ensures var s', raw := RunProc(s, p, c), s.procs[p].raw;
            && s'.maxAttempts == s.maxAttempts && s'.queue == s.queue && s'.scheduled == s.scheduled
            && s'.procs == s.procs[p := s'.procs[p]] && HeldOk(s', s'.procs[p])
            && Sends(s', raw.id) == Sends(s, raw.id) + 1 <= s.maxAttempts
            && forall i: nat | i != raw.id :: Sends(s', i) == Sends(s, i)
  {}

  lemma SendKeepsBounded(s: State, p: nat, c: Choice)
    requires Bounded(s) && p in s.procs && s.procs[p].Send?
    ensures Bounded(RunProc(s, p, c))
  {
    hide RunProc;
    var s', raw := RunProc(s, p, c), s.procs[p].raw;
    assert HeldOk(s, s.procs[p]) && Conserved(s, raw.id);
    SendCounts(s, p, c);
    OthersKeepTheirBudget(s, p, s', raw.id);
    HeldOnce(s, p, raw.id);
    hide Conserved;
    forall id: nat ensures SentWithin(s', id) && Conserved(s', id) {
      assert SentWithin(s, id);
      RunKeepsConserved(s, p, c, id);
    }
  }

  lemma RequeueKeepsBounded(s: State, p: nat, c: Choice)
    requires Bounded(s) && p in s.procs && s.procs[p].Requeue? && s.maxAttempts >= 1
    ensures Bounded(RunProc(s, p, c))
  {
    var s', raw := RunProc(s, p, c), s.procs[p].raw;
    OthersKeepTheirBudget(s, p, s', raw.id);
    forall id: nat ensures SentWithin(s', id) && Conserved(s', id) {
      assert SentWithin(s, id);
      RunKeepsConserved(s, p, c, id);
    }
    forall q | q in s'.queue ensures Budget(s', q) {
      assert q == Event(raw.id, 0, None) || q in s.queue;
    }
  }

  /** Every other command leaves the counts alone. */
  lemma OtherRunsKeepBounded(s: State, p: nat, c: Choice)
    requires Bounded(s) && p in s.procs && !s.procs[p].Send? && !s.procs[p].Requeue?
    ensures Bounded(RunProc(s, p, c))
  {
    var s' := RunProc(s, p, c);
    assert s'.sends == s.sends && s'.maxAttempts == s.maxAttempts && s'.issued == s.issued;
    assert HeldOk(s, s.procs[p]);
    forall id: nat ensures SentWithin(s', id) && Conserved(s', id) {
      assert SentWithin(s, id);
      RunKeepsConserved(s, p, c, id);
    }
    BudgetsMoveAlong(s, p, c);
  }

  predicate AllBudgets(s: State) {
    && (forall raw | raw in s.queue :: Budget(s, raw))
    && (forall raw | raw in s.scheduled :: Budget(s, raw))
    && (forall q | q in s.procs :: HeldOk(s, s.procs[q]))
  }

  lemma OnlyPushQueues(s: State, p: nat, c: Choice, raw: Payload)
    requires p in s.procs && !s.procs[p].Requeue? && raw in RunProc(s, p, c).queue
    ensures raw in s.queue || (s.procs[p].Push? && raw == s.procs[p].raw)
  {}

  lemma OnlyRetrySchedules(s: State, p: nat, c: Choice, raw: Payload)
    requires p in s.procs && raw in RunProc(s, p, c).scheduled
    ensures raw in s.scheduled
         || (s.procs[p].Retry? && s.procs[p].raw.Event? && raw == Retried(s.procs[p].raw, s.procs[p].error))
  {}

  lemma QueueMovesAlong(s: State, p: nat, c: Choice, raw: Payload)
    requires p in s.procs && !s.procs[p].Send? && !s.procs[p].Requeue? && AllBudgets(s)
    requires raw in RunProc(s, p, c).queue
    ensures Budget(RunProc(s, p, c), raw)
  {
    hide RunProc;
    OnlySendsCount(s, p, c);
    OnlyPushQueues(s, p, c, raw);
    assert HeldOk(s, s.procs[p]);
  }

  lemma ScheduledMovesAlong(s: State, p: nat, c: Choice, raw: Payload)
    requires p in s.procs && !s.procs[p].Send? && !s.procs[p].Requeue? && AllBudgets(s)
    requires raw in RunProc(s, p, c).scheduled
    ensures Budget(RunProc(s, p, c), raw)
  {
    hide RunProc;
    OnlySendsCount(s, p, c);
    OnlyRetrySchedules(s, p, c, raw);
    assert HeldOk(s, s.procs[p]);
  }

  lemma HandlingIsBudgeted(s: State, p: nat, raw: Payload, lookup: Lookup)
    requires Budget(s, raw)
    ensures p in HandleRaw(s, p, raw, lookup).procs && HeldOk(s, HandleRaw(s, p, raw, lookup).procs[p])
  {}

  lemma NextHeldIsBudgeted(s: State, p: nat, c: Choice)
    requires p in s.procs && !s.procs[p].Send? && !s.procs[p].Requeue?
    requires HeldOk(s, s.procs[p]) && (s.queue != [] ==> Budget(s, s.queue[0]))
    requires forall raw | raw in s.scheduled :: Budget(s, raw)
    ensures p in RunProc(s, p, c).procs && HeldOk(s, RunProc(s, p, c).procs[p])
  {
    hide DueOk;
    hide SendRaw;
    hide RequeueRaw;
    hide HandleRaw;
    hide Budget;
    if s.procs[p].Handle? { HandlingIsBudgeted(s, p, s.procs[p].raw, c.lookup); }
  }

  lemma HeldMovesAlong(s: State, p: nat, c: Choice)
    requires p in s.procs && !s.procs[p].Send? && !s.procs[p].Requeue? && AllBudgets(s)
    ensures p in RunProc(s, p, c).procs && HeldOk(RunProc(s, p, c), RunProc(s, p, c).procs[p])
  {
    assert HeldOk(s, s.procs[p]) && (s.queue != [] ==> s.queue[0] in s.queue);
    NextHeldIsBudgeted(s, p, c);
    OnlySendsCount(s, p, c);
    hide RunProc;
    hide AllBudgets;
  }

  lemma OnlySendsCount(s: State, p: nat, c: Choice)
    requires p in s.procs && !s.procs[p].Send? && !s.procs[p].Requeue?
    ensures RunProc(s, p, c).sends == s.sends && RunProc(s, p, c).maxAttempts == s.maxAttempts
  {
    hide DueOk;
    hide SendRaw;
    hide RequeueRaw;
    hide HandleRaw;
    hide ExhumeRaw;
    if s.procs[p].Handle? { HandlingSendsNothing(s, p, s.procs[p].raw, c.lookup); }
    if s.procs[p].Exhume? { ExhumingSendsNothing(s, p); }
  }

  lemma HandlingSendsNothing(s: State, p: nat, raw: Payload, lookup: Lookup)
    ensures var s' := HandleRaw(s, p, raw, lookup); s'.sends == s.sends && s'.maxAttempts == s.maxAttempts
  {}

  lemma ExhumingSendsNothing(s: State, p: nat)
    ensures ExhumeRaw(s, p).sends == s.sends && ExhumeRaw(s, p).maxAttempts == s.maxAttempts
  {}

  lemma HandlingMovesOne(s: State, p: nat, raw: Payload, lookup: Lookup, q: nat)
    requires q != p && q in HandleRaw(s, p, raw, lookup).procs
    ensures q in s.procs && HandleRaw(s, p, raw, lookup).procs[q] == s.procs[q]
  {}

  lemma OthersStandStill(s: State, p: nat, c: Choice, q: nat)
    requires p in s.procs && !s.procs[p].Send? && !s.procs[p].Requeue? && q in RunProc(s, p, c).procs && q != p
    ensures q in s.procs && RunProc(s, p, c).procs[q] == s.procs[q]
  {
    hide DueOk;
    hide SendRaw;
    hide RequeueRaw;
    hide HandleRaw;
    if s.procs[p].Handle? { HandlingMovesOne(s, p, s.procs[p].raw, c.lookup, q); }
  }

  lemma BudgetsMoveAlong(s: State, p: nat, c: Choice)
    requires p in s.procs && !s.procs[p].Send? && !s.procs[p].Requeue? && AllBudgets(s)
    ensures AllBudgets(RunProc(s, p, c))
  {
    var s' := RunProc(s, p, c);
    OnlySendsCount(s, p, c);
    HeldMovesAlong(s, p, c);
    hide RunProc;
    forall raw | raw in s'.queue ensures Budget(s', raw) { QueueMovesAlong(s, p, c, raw); }
    forall raw | raw in s'.scheduled ensures Budget(s', raw) { ScheduledMovesAlong(s, p, c, raw); }
    forall q | q in s'.procs ensures HeldOk(s', s'.procs[q]) {
      if q != p {
        OthersStandStill(s, p, c, q);
        assert HeldOk(s, s.procs[q]);
      }
    }
  }

  /** Steps that are no command of a process. */
  lemma OutsideStepKeepsBudgets(s: State, step: Step)
    requires AllBudgets(s) && !step.Run? && s.maxAttempts >= 1
    requires step.Enqueue? && step.id !in s.issued ==> Sends(s, step.id) == 0
    ensures AllBudgets(Next(s, step))
  {
    hide RunProc;
    hide Ids;
    var s' := Next(s, step);
    assert s'.sends == s.sends && s'.maxAttempts == s.maxAttempts && s'.scheduled == s.scheduled;
    forall raw | raw in s'.queue ensures Budget(s', raw) {
      QueueOutside(s, step, raw);
    }
    forall q | q in s'.procs ensures HeldOk(s', s'.procs[q]) {
      assert q in s.procs ==> HeldOk(s, s.procs[q]);
    }
  }

  lemma QueueOutside(s: State, step: Step, raw: Payload)
    requires !step.Run? && raw in Next(s, step).queue
    ensures raw in s.queue
         || (step.Enqueue? && step.id !in s.issued
              && raw == if step.garbage then Garbage(step.id) else Event(step.id, 0, None))
  {}

  lemma OutsideStepKeepsBounded(s: State, step: Step)
    requires Bounded(s) && !step.Run? && s.maxAttempts >= 1
    ensures Bounded(Next(s, step)) && Next(s, step).maxAttempts == s.maxAttempts
  {
    var s' := Next(s, step);
    forall id: nat ensures SentWithin(s', id) {
      assert SentWithin(s, id);
    }
    forall id: nat ensures Conserved(s', id) {
      NextConserves(s, step, id);
    }
    if step.Enqueue? { assert SentWithin(s, step.id); }
    OutsideStepKeepsBudgets(s, step);
  }

  lemma NextKeepsBounded(s: State, step: Step)
    requires Bounded(s) && s.maxAttempts >= 1
    ensures Bounded(Next(s, step)) && Next(s, step).maxAttempts == s.maxAttempts
  {
    hide Bounded;
    if !step.Run? {
      OutsideStepKeepsBounded(s, step);
    } else if step.p in s.procs {
      var p, c := step.p, step.choice;
      if s.procs[p].Send? { SendKeepsBounded(s, p, c); }
      else if s.procs[p].Requeue? { RequeueKeepsBounded(s, p, c); }
      else { OtherRunsKeepBounded(s, p, c); }
    }
  }

  /** No event is ever sent more than `maxAttempts` times between replays, lookup errors or not. */
  lemma {:induction false} SendsAreBounded(maxAttempts: nat, batch: nat, maxLength: nat, steps: seq<Step>)
    requires maxAttempts >= 1
    ensures var s := Exec(Initial(maxAttempts, batch, maxLength), steps);
            Bounded(s) && s.maxAttempts == maxAttempts && forall id: nat :: Sends(s, id) <= maxAttempts
  {
    var s0 := Initial(maxAttempts, batch, maxLength);
    if steps == [] {
      EveryRunConserves(maxAttempts, batch, maxLength, []);
      assert Exec(s0, []) == s0;
    } else {
      SendsAreBounded(maxAttempts, batch, maxLength, steps[..|steps| - 1]);
      NextKeepsBounded(Exec(s0, steps[..|steps| - 1]), steps[|steps| - 1]);
    }
    var s := Exec(s0, steps);
    forall id: nat ensures Sends(s, id) <= maxAttempts {
      assert SentWithin(s, id);
    }
  }

  // ----- Work per run -----

  function Remaining(max: nat, raw: Payload): nat {
    if raw.Event? && raw.attempt < max then max - raw.attempt else 0
  }

  function HeldWork(max: nat, pc: Pc): nat {
    match pc
    case Push(raw, _) => 8 * Remaining(max, raw) + 6
    case Handle(raw) => 8 * Remaining(max, raw) + 4
    case Send(raw) => 8 * Remaining(max, raw) + 3
    case Retry(raw, error) => if raw.Event? then 8 * Remaining(max, Retried(raw, error)) + 8 else 0
    case Bury(raw, _) => 1
    case _ => 0
  }

  ghost function QueueWork(max: nat, q: seq<Payload>): nat {
    if q == [] then 0 else 8 * Remaining(max, q[0]) + 5 + QueueWork(max, q[1..])
  }

  function ScheduledWork(max: nat, scheduled: map<Payload, int>): map<Payload, int> {
    map raw | raw in scheduled :: 8 * Remaining(max, raw) + 7
  }

  function ProcWork(max: nat, procs: map<nat, Pc>): map<nat, int> {
    map p | p in procs :: HeldWork(max, procs[p])
  }

  ghost function Work(s: State): int {
    QueueWork(s.maxAttempts, s.queue) + Sum(ScheduledWork(s.maxAttempts, s.scheduled))
    + Sum(ProcWork(s.maxAttempts, s.procs))
  }

  lemma WorkNonNegative(s: State)
    ensures Work(s) >= 0
  {
    SumNonNegative(ScheduledWork(s.maxAttempts, s.scheduled));
    SumNonNegative(ProcWork(s.maxAttempts, s.procs));
  }

  lemma ProcWorkUpdate(max: nat, procs: map<nat, Pc>, p: nat, pc: Pc)
    requires p in procs
    ensures Sum(ProcWork(max, procs[p := pc])) ==
            Sum(ProcWork(max, procs)) - HeldWork(max, procs[p]) + HeldWork(max, pc)
  {
    assert ProcWork(max, procs[p := pc]) == ProcWork(max, procs)[p := HeldWork(max, pc)];
    SumUpdate(ProcWork(max, procs), p, HeldWork(max, pc));
  }

  predicate Dispatching(pc: Pc) { !pc.Exhume? && !pc.Requeue? }

  /** The command takes a payload one station further. */
  predicate Moves(s: State, p: nat)
    requires p in s.procs
  {
    match s.procs[p]
    case Poll => false
    case Promote(due) => due != [] && due[0] in s.scheduled
    case Pop => s.queue != []
    case _ => true
  }

  /** A failed subscription lookup for an event whose attempts are already used up. */
  predicate Futile(s: State, p: nat, c: Choice)
    requires p in s.procs
  {
    s.procs[p].Handle? && s.procs[p].raw.Event? && c.lookup.LookupFailed? && s.procs[p].raw.attempt >= s.maxAttempts
  }

  lemma ScheduledRemoveWork(max: nat, scheduled: map<Payload, int>, raw: Payload)
    requires raw in scheduled
    ensures Sum(ScheduledWork(max, scheduled - {raw})) ==
            Sum(ScheduledWork(max, scheduled)) - (8 * Remaining(max, raw) + 7)
  {
    assert ScheduledWork(max, scheduled - {raw}) == ScheduledWork(max, scheduled) - {raw};
    SumPick(ScheduledWork(max, scheduled), raw);
  }

  lemma ScheduledAddWork(max: nat, scheduled: map<Payload, int>, raw: Payload, due: int)
    requires raw !in scheduled
    ensures Sum(ScheduledWork(max, scheduled[raw := due])) ==
            Sum(ScheduledWork(max, scheduled)) + 8 * Remaining(max, raw) + 7
  {
    assert ScheduledWork(max, scheduled[raw := due]) ==
           ScheduledWork(max, scheduled)[raw := 8 * Remaining(max, raw) + 7];
    SumUpdate(ScheduledWork(max, scheduled), raw, 8 * Remaining(max, raw) + 7);
  }

  /** The work after a command, in terms of the work before it. */
  ghost predicate WorkChanges(s: State, p: nat, c: Choice, d: int)
    requires p in s.procs
  {
    Work(RunProc(s, p, c)) == Work(s) + d
  }

  lemma PromoteWork(s: State, p: nat, c: Choice)
    requires p in s.procs && s.procs[p].Promote?
    ensures WorkChanges(s, p, c, if Moves(s, p) then -1 else 0)
  {
    var due := s.procs[p].due;
    ProcWorkUpdate(s.maxAttempts, s.procs, p, RunProc(s, p, c).procs[p]);
    if Moves(s, p) { ScheduledRemoveWork(s.maxAttempts, s.scheduled, due[0]); }
  }

  lemma PushWork(s: State, p: nat, c: Choice)
    requires p in s.procs && s.procs[p].Push?
    ensures WorkChanges(s, p, c, -1)
  {
    ProcWorkUpdate(s.maxAttempts, s.procs, p, RunProc(s, p, c).procs[p]);
    assert ([s.procs[p].raw] + s.queue)[1..] == s.queue;
  }

  lemma PollWork(s: State, p: nat, c: Choice)
    requires p in s.procs && (s.procs[p].Poll? || s.procs[p].Pop?)
    ensures WorkChanges(s, p, c, if Moves(s, p) then -1 else 0)
  {
    ProcWorkUpdate(s.maxAttempts, s.procs, p, RunProc(s, p, c).procs[p]);
    assert s.procs[p := s.procs[p]] == s.procs;
  }

  lemma OnlyHeldWork(s: State, s': State, p: nat)
    requires p in s.procs && p in s'.procs && s'.procs == s.procs[p := s'.procs[p]] && s'.maxAttempts == s.maxAttempts
    requires s'.queue == s.queue && s'.scheduled == s.scheduled
    ensures Work(s') == Work(s) - HeldWork(s.maxAttempts, s.procs[p]) + HeldWork(s.maxAttempts, s'.procs[p])
  {
    ProcWorkUpdate(s.maxAttempts, s.procs, p, s'.procs[p]);
  }

  lemma HandleWork(s: State, p: nat, c: Choice)
    requires p in s.procs && s.procs[p].Handle?
    ensures if Futile(s, p, c) then WorkChanges(s, p, c, 4) else Work(RunProc(s, p, c)) < Work(s)
  {
    hide Work;
    OnlyHeldWork(s, RunProc(s, p, c), p);
  }

  lemma SendWork(s: State, p: nat, c: Choice)
    requires p in s.procs && s.procs[p].Send? && HeldOk(s, s.procs[p])
    ensures Work(RunProc(s, p, c)) < Work(s)
  {
    hide Work;
    OnlyHeldWork(s, RunProc(s, p, c), p);
  }

  lemma BuryWork(s: State, p: nat, c: Choice)
    requires p in s.procs && s.procs[p].Bury? && HeldOk(s, s.procs[p])
    ensures WorkChanges(s, p, c, -1)
  {
    hide Work;
    OnlyHeldWork(s, RunProc(s, p, c), p);
  }

  lemma RetryWork(s: State, p: nat, c: Choice)
    requires p in s.procs && s.procs[p].Retry? && HeldOk(s, s.procs[p]) && Conserved(s, s.procs[p].raw.id)
    ensures WorkChanges(s, p, c, -1)
  {
    var retried := Retried(s.procs[p].raw, s.procs[p].error);
    HeldOnce(s, p, retried.id);
    assert retried !in ScheduledWith(s.scheduled, retried.id);
    ProcWorkUpdate(s.maxAttempts, s.procs, p, Poll);
    ScheduledAddWork(s.maxAttempts, s.scheduled, retried, c.dueAt);
  }

  /** Every command of a dispatcher uses up work exactly if it moves a payload and is no futile lookup. */
  lemma WorkShrinks(s: State, p: nat, c: Choice)
    requires Bounded(s) && p in s.procs && Dispatching(s.procs[p])
    ensures var s' := RunProc(s, p, c);
            && (Moves(s, p) && !Futile(s, p, c) <==> Work(s') < Work(s))
            && (!Moves(s, p) ==> Work(s') == Work(s))
            && (Futile(s, p, c) ==> Work(s') == Work(s) + 4)
  {
    hide Work;
    hide RunProc;
    assert HeldOk(s, s.procs[p]);
    match s.procs[p] {
      case Promote(_) => PromoteWork(s, p, c);
      case Push(_, _) => PushWork(s, p, c);
      case Handle(_) => HandleWork(s, p, c);
      case Send(_) => SendWork(s, p, c);
      case Bury(_, _) => BuryWork(s, p, c);
      case Retry(raw, _) => assert Conserved(s, raw.id); RetryWork(s, p, c);
      case _ => PollWork(s, p, c);
    }
  }

  /** A run of dispatchers alone, without futile lookups. */
  predicate Dispatches(s: State, step: Step) {
    match step
    case Run(p, c) => p in s.procs && Dispatching(s.procs[p]) && !Futile(s, p, c)
    case Tick(_) => true
    case _ => false
  }

  ghost predicate DispatchRun(s: State, steps: seq<Step>) {
    steps == [] || (DispatchRun(s, steps[..|steps| - 1])
         && Dispatches(Exec(s, steps[..|steps| - 1]), steps[|steps| - 1]))
  }

  ghost function MovesMade(s: State, steps: seq<Step>): nat {
    if steps == [] then 0
    else
      var before, step := Exec(s, steps[..|steps| - 1]), steps[|steps| - 1];
      MovesMade(s, steps[..|steps| - 1]) + if step.Run? && step.p in before.procs && Moves(before, step.p) then 1 else 0
  }

  /** Without futile lookups, dispatchers left alone move payloads at most `Work(s)` times in all. */
  lemma {:induction false} WorkIsFinite(s: State, steps: seq<Step>)
    requires Bounded(s) && s.maxAttempts >= 1 && DispatchRun(s, steps)
    ensures Bounded(Exec(s, steps)) && Exec(s, steps).maxAttempts == s.maxAttempts
    ensures MovesMade(s, steps) + Work(Exec(s, steps)) <= Work(s)
    ensures MovesMade(s, steps) <= Work(s)
  {
    if steps != [] {
      var before, step := Exec(s, steps[..|steps| - 1]), steps[|steps| - 1];
      WorkIsFinite(s, steps[..|steps| - 1]);
      NextKeepsBounded(before, step);
      if step.Run? { WorkShrinks(before, step.p, step.choice); }
    }
    WorkNonNegative(Exec(s, steps));
  }
}
