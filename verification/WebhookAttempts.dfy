/** A webhook payload's attempt count is the number of its failures, no more and no less, in every run. */
module WebhookAttempts {
  import opened Options
  import opened Webhooks

  /** How often the handling of an event has failed since it was enqueued or replayed, and how it failed last. */
  datatype Failures = Failures(count: nat, last: Option<nat>, lastIsSend: bool)

  const NO_FAILURE := Failures(0, None, false)

  /** The payload that the process about to step has in hand. */
  function InHand(s: State, step: Step): Option<Payload> {
    if step.Run? && step.p in s.procs then Held(s.procs[step.p]) else None
  }

  /** The lookup for event `id` fails at this step. */
  predicate LookupFails(s: State, step: Step, id: nat) {
    && InHand(s, step).Some? && InHand(s, step).value.Event? && InHand(s, step).value.id == id
    && s.procs[step.p].Handle? && step.choice.lookup.LookupFailed?
  }

  /** The request for event `id` fails at this step. */
  predicate SendFails(s: State, step: Step, id: nat) {
    && InHand(s, step).Some? && InHand(s, step).value.Event? && InHand(s, step).value.id == id
    && s.procs[step.p].Send? && step.choice.sent.SendFailed?
  }

  /** A replay script puts event `id` back. */
  predicate Replays(s: State, step: Step, id: nat) {
    InHand(s, step).Some? && s.procs[step.p].Requeue? && InHand(s, step).value.id == id
  }

  function FailuresNext(f: Failures, s: State, step: Step, id: nat): Failures {
    if LookupFails(s, step, id) then Failures(f.count + 1, Some(step.choice.lookup.error), false)
    else if SendFails(s, step, id) then Failures(f.count + 1, Some(step.choice.sent.error), true)
    else if Replays(s, step, id) then NO_FAILURE
    else f
  }

  ghost function FailuresOf(s0: State, steps: seq<Step>, id: nat): Failures {
    if steps == [] then NO_FAILURE
    else FailuresNext(FailuresOf(s0, steps[..|steps| - 1], id), Exec(s0, steps[..|steps| - 1]), steps[|steps| - 1], id)
  }

  /** The payload says how often and how it failed. */
  predicate Counted(f: Failures, raw: Payload) { raw.Event? ==> raw.attempt == f.count && raw.lastError == f.last }

  /** A failed request has used up the attempts. */
  predicate UsedUp(f: Failures, maxAttempts: nat) { f.lastIsSend && f.count >= maxAttempts }

  /** What a process holds, counted; a failure that is not written back yet is counted already. */
  predicate HeldCounted(f: Failures, pc: Pc, maxAttempts: nat) {
    match pc
    case Push(raw, _) => Counted(f, raw) && !UsedUp(f, maxAttempts)
    case Handle(raw) => Counted(f, raw) && !UsedUp(f, maxAttempts)
    case Send(raw) => raw.Event? && Counted(f, raw) && !UsedUp(f, maxAttempts)
    case Retry(raw, error) =>
      raw.Event? && f.count == raw.attempt + 1 && f.last == Some(error) && !UsedUp(f, maxAttempts)
    case Bury(raw, error) =>
      raw.Event? && f.count == raw.attempt + 1 && f.last == Some(error) && UsedUp(f, maxAttempts)
    case _ => true
  }

  /**
   * Wherever event `id` is, its payload counts its failures. It is queued or scheduled as long as its attempts
   * are not used up, and a dead letter afterwards.
   */
  ghost predicate IdCounted(s: State, f: Failures, id: nat) {
    && (forall raw | raw in s.queue :: raw.id == id ==> Counted(f, raw) && !UsedUp(f, s.maxAttempts))
    && (forall raw | raw in s.scheduled :: raw.id == id ==> Counted(f, raw) && !UsedUp(f, s.maxAttempts))
    && (forall raw | raw in s.dlq :: raw.id == id ==> raw.Event? && Counted(f, raw) && UsedUp(f, s.maxAttempts))
    && (forall p | p in s.procs :: Holds(s.procs[p], id) == 1 ==> HeldCounted(f, s.procs[p], s.maxAttempts))
    && (id !in s.issued ==> f == NO_FAILURE)
  }

  /** No payload `id` is in Redis or with a process other than `p`. */
  ghost predicate OnlyWith(s: State, p: nat, id: nat) {
    && (forall raw | raw in s.queue :: raw.id != id)
    && (forall raw | raw in s.scheduled :: raw.id != id)
    && (forall raw | raw in s.dlq :: raw.id != id)
    && (forall q | q in s.procs && q != p :: Holds(s.procs[q], id) == 0)
    && id in s.issued
  }

  lemma HeldIsOnlyWith(s: State, p: nat, id: nat)
    requires Conserved(s, id) && p in s.procs && Holds(s.procs[p], id) == 1
    ensures OnlyWith(s, p, id)
  {
    HeldOnce(s, p, id);
    forall raw | raw in s.queue ensures raw.id != id { IdsHas(s.queue, raw); }
    forall raw | raw in s.dlq ensures raw.id != id { IdsHas(s.dlq, raw); }
    assert forall raw | raw in s.scheduled :: raw.id == id ==> raw in ScheduledWith(s.scheduled, id);
  }

  /** A process that holds `id`: its payload, and the new one in a list, are all there is of `id`. */
  lemma HolderKeepsCounted(s: State, p: nat, c: Choice, f: Failures, id: nat)
    requires IdCounted(s, f, id) && p in s.procs && Holds(s.procs[p], id) == 1 && OnlyWith(s, p, id)
    ensures IdCounted(RunProc(s, p, c), FailuresNext(f, s, Run(p, c), id), id)
  {
    hide DueOk;
    assert HeldCounted(f, s.procs[p], s.maxAttempts);
    if s.procs[p].Handle? || s.procs[p].Send? { WaiterKeepsCounted(s, p, c, f, id); }
    else {
      match s.procs[p] {
        case Push(_, _) =>
        case Retry(_, _) =>
        case Bury(_, _) =>
        case Requeue(_) =>
      }
    }
  }

  lemma WaiterKeepsCounted(s: State, p: nat, c: Choice, f: Failures, id: nat)
    requires IdCounted(s, f, id) && p in s.procs && Holds(s.procs[p], id) == 1 && OnlyWith(s, p, id)
    requires s.procs[p].Handle? || s.procs[p].Send?
    ensures IdCounted(RunProc(s, p, c), FailuresNext(f, s, Run(p, c), id), id)
  {
    hide DueOk;
    assert HeldCounted(f, s.procs[p], s.maxAttempts);
  }

  /** A process with nothing in hand can only take `id` out of a list. */
  lemma TakerKeepsCounted(s: State, p: nat, c: Choice, f: Failures, id: nat)
    requires IdCounted(s, f, id) && p in s.procs && Held(s.procs[p]).None?
    ensures IdCounted(RunProc(s, p, c), f, id)
  {
    hide DueOk;
    hide PopRaw;
    hide ExhumeRaw;
    hide PromoteNext;
    match s.procs[p] {
      case Poll =>
      case Promote(due) => PromoteKeepsCounted(s, p, due, f, id);
      case Pop => PopKeepsCounted(s, p, f, id);
      case Exhume => ExhumeKeepsCounted(s, p, f, id);
    }
  }

  lemma PopKeepsCounted(s: State, p: nat, f: Failures, id: nat)
    requires IdCounted(s, f, id) && p in s.procs
    ensures IdCounted(PopRaw(s, p), f, id)
  {
  }

  lemma ExhumeKeepsCounted(s: State, p: nat, f: Failures, id: nat)
    requires IdCounted(s, f, id) && p in s.procs
    ensures IdCounted(ExhumeRaw(s, p), f, id)
  {
  }

  lemma PromoteKeepsCounted(s: State, p: nat, due: seq<Payload>, f: Failures, id: nat)
    requires IdCounted(s, f, id) && p in s.procs
    ensures IdCounted(PromoteNext(s, p, due), f, id)
  {
  }

  /** What a process does with another payload leaves `id` alone. */
  lemma OthersKeepCounted(s: State, p: nat, c: Choice, f: Failures, id: nat)
    requires IdCounted(s, f, id) && p in s.procs && Held(s.procs[p]).Some? && Held(s.procs[p]).value.id != id
    ensures IdCounted(RunProc(s, p, c), f, id)
  {
    hide RunProc;
    HandKeepsOthers(s, p, c, id);
    ListsKeepOthers(s, p, c, id);
  }

  lemma HandKeepsOthers(s: State, p: nat, c: Choice, id: nat)
    requires p in s.procs && Held(s.procs[p]).Some? && Held(s.procs[p]).value.id != id
    ensures var s' := RunProc(s, p, c);
            && p in s'.procs && Holds(s'.procs[p], id) == 0
            && (forall q | q in s'.procs && q != p :: q in s.procs && s'.procs[q] == s.procs[q])
            && s'.issued == s.issued && s'.maxAttempts == s.maxAttempts
  {
    hide DueOk;
    match s.procs[p] {
      case Push(_, _) =>
      case Handle(_) =>
      case Send(_) =>
      case Retry(_, _) =>
      case Bury(_, _) =>
      case Requeue(_) =>
    }
  }

  lemma ListsKeepOthers(s: State, p: nat, c: Choice, id: nat)
    requires p in s.procs && Held(s.procs[p]).Some? && Held(s.procs[p]).value.id != id
    ensures forall raw | raw in RunProc(s, p, c).queue :: raw.id == id ==> raw in s.queue
    ensures forall raw | raw in RunProc(s, p, c).scheduled :: raw.id == id ==> raw in s.scheduled
    ensures forall raw | raw in RunProc(s, p, c).dlq :: raw.id == id ==> raw in s.dlq
  {
    match s.procs[p] {
      case Push(_, _) =>
      case Handle(_) =>
      case Send(_) =>
      case Retry(_, _) =>
      case Bury(_, _) =>
      case Requeue(_) =>
    }
  }

  lemma RunKeepsCounted(s: State, p: nat, c: Choice, f: Failures, id: nat)
    requires IdCounted(s, f, id) && Conserved(s, id) && p in s.procs
    ensures IdCounted(RunProc(s, p, c), FailuresNext(f, s, Run(p, c), id), id)
  {
    hide IdCounted;
    hide RunProc;
    hide OnlyWith;
    hide Conserved;
    if Holds(s.procs[p], id) == 1 {
      HeldIsOnlyWith(s, p, id);
      HolderKeepsCounted(s, p, c, f, id);
    } else if Held(s.procs[p]).Some? {
      OthersKeepCounted(s, p, c, f, id);
    } else {
      TakerKeepsCounted(s, p, c, f, id);
    }
  }

  lemma NextKeepsCounted(s: State, step: Step, f: Failures, id: nat)
    requires IdCounted(s, f, id) && Conserved(s, id)
    ensures IdCounted(Next(s, step), FailuresNext(f, s, step, id), id)
  {
    hide RunProc;
    hide Conserved;
    if step.Run? && step.p in s.procs {
      hide IdCounted;
      RunKeepsCounted(s, step.p, step.choice, f, id);
    }
  }

  /**
   * However many dispatchers, producers and replays interleave: wherever event `id` is, its attempt count is
   * the number of lookups and requests that failed for it since it was enqueued or last replayed, and its error
   * is that of the last one. It is a dead letter if and only if the last failure was a request that used up the
   * attempts; otherwise it is still queued, scheduled or in hand.
   */
  lemma {:induction false} AttemptsAreFailures(
    maxAttempts: nat, batch: nat, maxLength: nat, steps: seq<Step>, id: nat)
    ensures var s0 := Initial(maxAttempts, batch, maxLength);
            IdCounted(Exec(s0, steps), FailuresOf(s0, steps, id), id) && Exec(s0, steps).maxAttempts == maxAttempts
  {
    var s0 := Initial(maxAttempts, batch, maxLength);
    if steps != [] {
      var before := steps[..|steps| - 1];
      AttemptsAreFailures(maxAttempts, batch, maxLength, before, id);
      EveryRunConserves(maxAttempts, batch, maxLength, before);
      var s, f, step := Exec(s0, before), FailuresOf(s0, before, id), steps[|steps| - 1];
      assert Exec(s0, steps) == Next(s, step);
      assert FailuresOf(s0, steps, id) == FailuresNext(f, s, step, id);
      NextKeepsCounted(s, step, f, id);
      MaxAttemptsStay(s, step);
    }
  }

  lemma MaxAttemptsStay(s: State, step: Step)
    ensures Next(s, step).maxAttempts == s.maxAttempts
  {
    hide DueOk;
    hide Ids;
  }
}
