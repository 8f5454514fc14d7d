/** The reaper's snapshot flush and drift audit in Solution 1. */
module Snapshots {
  import opened Options

  /** What a `credits:` key holds; `Text` is not an integer. */
  datatype Value = Number(n: int) | Text

  /** Members of the dirty set; `Foreign` does not name a credits key. */
  datatype Key = Credits(user: nat) | Foreign(name: nat)

  datatype Action = HydratedFromSnapshot | ResetFromSnapshot | SnapshotReconciled

  datatype Audit = Audit(user: nat, redisBalance: int, dbBalance: int, drift: int, action: Option<Action>)

  // ----- What the two loops compute -----

  function FlushedUsers(credits: map<nat, Value>, dirty: set<Key>): set<nat> {
    set k | k in dirty && k.Credits? && k.user in credits :: k.user
  }

  predicate AllNumbers(credits: map<nat, Value>, dirty: set<Key>) {
    forall k | k in dirty && k.Credits? && k.user in credits :: credits[k.user].Number?
  }

  /** Snapshots after the users in `flushed` have been written. */
  function FlushedSnapshots(snapshots: map<nat, int>, credits: map<nat, Value>, flushed: set<nat>): map<nat, int> {
    map u | u in snapshots.Keys + flushed ::
      if u in flushed && u in credits && credits[u].Number? then credits[u].n
      else if u in snapshots then snapshots[u] else 0
  }

  predicate Present(credits: map<nat, Value>, u: nat) { u in credits && credits[u].Number? }

  function AuditedCredits(credits: map<nat, Value>, snapshots: map<nat, int>): map<nat, Value> {
    map u | u in credits.Keys + snapshots.Keys ::
      if u in snapshots && !Present(credits, u) then Number(snapshots[u]) else credits[u]
  }

  function AuditedSnapshots(credits: map<nat, Value>, snapshots: map<nat, int>): map<nat, int> {
    map u | u in snapshots :: if Present(credits, u) then credits[u].n else snapshots[u]
  }

  function Drifted(credits: map<nat, Value>, snapshots: map<nat, int>): set<nat> {
    set u | u in snapshots && Present(credits, u) && credits[u].n != snapshots[u]
  }

  function AuditOf(credits: map<nat, Value>, snapshots: map<nat, int>, u: nat): Audit
    requires u in snapshots
  {
    var db := snapshots[u];
    if u !in credits then Audit(u, db, db, 0, Some(HydratedFromSnapshot))
    else if credits[u].Text? then Audit(u, db, db, 0, Some(ResetFromSnapshot))
    else Audit(u, credits[u].n, db, credits[u].n - db, if credits[u].n == db then None else Some(SnapshotReconciled))
  }

  /** One audit row per listed snapshot, in order. */
  function AuditLog(order: seq<nat>, credits: map<nat, Value>, snapshots: map<nat, int>): seq<Audit> {
    if order == [] then []
    else
      var u := order[|order| - 1];
      AuditLog(order[..|order| - 1], credits, snapshots)
      + if u in snapshots then [AuditOf(credits, snapshots, u)] else []
  }

  lemma AuditLogGrows(order: seq<nat>, i: nat, credits: map<nat, Value>, snapshots: map<nat, int>)
    requires i < |order|
    ensures order[i] in snapshots ==>
              AuditLog(order[..i + 1], credits, snapshots) ==
              AuditLog(order[..i], credits, snapshots) + [AuditOf(credits, snapshots, order[i])]
  {
    assert order[..i + 1][..i] == order[..i];
  }

  /**
   * One row per snapshot, each telling what Redis now holds, what the table held, the difference, and whether Redis
   * had no balance, one that is no number, or a different one.
   */
  predicate AuditRowsOk(rows: seq<Audit>, found: map<nat, Value>, credits: map<nat, Value>, before: map<nat, int>) {
    && |rows| == |before|
    && (forall i, j | 0 <= i < j < |rows| :: rows[i].user != rows[j].user)
    && (forall a | a in rows :: a.user in before && RowOk(a, found, credits, before[a.user]))
  }

  predicate RowOk(a: Audit, found: map<nat, Value>, credits: map<nat, Value>, before: int) {
    && a.dbBalance == before && a.user in credits && credits[a.user] == Number(a.redisBalance)
    && a.drift == a.redisBalance - a.dbBalance
    && (a.action == Some(HydratedFromSnapshot) <==> a.user !in found)
    && (a.action == Some(ResetFromSnapshot) <==> a.user in found && found[a.user].Text?)
    && (a.action == Some(SnapshotReconciled) <==> Present(found, a.user) && a.drift != 0)
  }

  lemma {:induction false} AuditLogIs(order: seq<nat>, credits: map<nat, Value>, snapshots: map<nat, int>)
    requires forall k | 0 <= k < |order| :: order[k] in snapshots
    ensures |AuditLog(order, credits, snapshots)| == |order|
    ensures forall k | 0 <= k < |order| ::
              AuditLog(order, credits, snapshots)[k] == AuditOf(credits, snapshots, order[k])
  {
    if order != [] { AuditLogIs(order[..|order| - 1], credits, snapshots); }
  }

  /** A row of the log tells the truth about its snapshot. */
  lemma LoggedRowOk(order: seq<nat>, log: seq<Audit>, credits: map<nat, Value>, before: map<nat, int>, k: nat)
    requires k < |order| == |log| && order[k] in before && log[k] == AuditOf(credits, before, order[k])
    ensures log[k].user == order[k] && RowOk(log[k], credits, AuditedCredits(credits, before), before[order[k]])
  {
    AuditsTellTheDrift(credits, before, order[k]);
  }

  /** What the audit appends is in order, whatever the order in which the table lists its snapshots. */
  lemma AuditLogRows(order: seq<nat>, credits: map<nat, Value>, before: map<nat, int>)
    requires Lists(order, before.Keys)
    ensures AuditRowsOk(AuditLog(order, credits, before), credits, AuditedCredits(credits, before), before)
  {
    ListedOnce(order, before.Keys);
    KeyCount(before);
    AuditLogIs(order, credits, before);
    var log := AuditLog(order, credits, before);
    forall k | 0 <= k < |log|
      ensures log[k].user == order[k] && RowOk(log[k], credits, AuditedCredits(credits, before), before[order[k]])
    {
      LoggedRowOk(order, log, credits, before, k);
    }
    RowsInOrder(order, log, credits, AuditedCredits(credits, before), before);
  }

  lemma KeyCount(m: map<nat, int>)
    ensures |m.Keys| == |m|
  {}

  lemma RowsInOrder(order: seq<nat>, log: seq<Audit>, found: map<nat, Value>, credits: map<nat, Value>,
                    before: map<nat, int>)
    requires Lists(order, before.Keys) && |log| == |order| == |before|
    requires forall k | 0 <= k < |order| :: order[k] in before
    requires forall k | 0 <= k < |log| :: log[k].user == order[k] && RowOk(log[k], found, credits, before[order[k]])
    ensures AuditRowsOk(log, found, credits, before)
  {
    forall i, j | 0 <= i < j < |log| ensures log[i].user != log[j].user { ListedApart(order, before.Keys, i, j); }
  }

  lemma ListedApart<T>(order: seq<T>, members: set<T>, i: nat, j: nat)
    requires Lists(order, members) && i < j < |order|
    ensures order[i] != order[j]
  {}

  /** Over reconciled stores every row reports that nothing was out of step. */
  lemma IdleAuditLog(order: seq<nat>, credits: map<nat, Value>, before: map<nat, int>)
    requires Lists(order, before.Keys) && Reconciled(credits, before)
    ensures forall a | a in AuditLog(order, credits, before) :: a.drift == 0 && a.action.None?
  {
    ListedOnce(order, before.Keys);
    AuditLogIs(order, credits, before);
    var log := AuditLog(order, credits, before);
    hide AuditLog;
    hide Lists;
    forall a | a in log ensures a.drift == 0 && a.action.None? {
      var k :| 0 <= k < |log| && log[k] == a;
      assert a == AuditOf(credits, before, order[k]);
    }
  }

  /** Some order in which a store may list its members. */
  method ListMembers<T(==)>(members: set<T>) returns (order: seq<T>)
    ensures Lists(order, members)
  {
    order := [];
    var rest := members;
    while rest != {}
      invariant (set i | 0 <= i < |order| :: order[i]) == members - rest && rest <= members
      invariant forall i, j | 0 <= i < j < |order| :: order[i] != order[j]
      decreases |rest|
    {
      var x :| x in rest;
      ghost var listed := set i | 0 <= i < |order| :: order[i];
      assert forall i | 0 <= i < |order| :: order[i] in listed;
      assert (set i | 0 <= i < |order| + 1 :: (order + [x])[i]) == listed + {x} by { ListedAppend(order, x); }
      order := order + [x];
      rest := rest - {x};
    }
  }

  lemma ListedAppend<T>(order: seq<T>, x: T)
    ensures (set i | 0 <= i < |order + [x]| :: (order + [x])[i]) == (set i | 0 <= i < |order| :: order[i]) + {x}
  {
    var listed := set i | 0 <= i < |order| :: order[i];
    forall y ensures y in (set i | 0 <= i < |order + [x]| :: (order + [x])[i]) <==> y in listed + {x} {
      if y in listed {
        var i :| 0 <= i < |order| && order[i] == y;
        assert (order + [x])[i] == y;
      }
      assert (order + [x])[|order|] == x;
    }
  }

  predicate Lists<T(==)>(order: seq<T>, members: set<T>) {
    (set i | 0 <= i < |order| :: order[i]) == members && forall i, j | 0 <= i < j < |order| :: order[i] != order[j]
  }

  class Reconciler {
    var credits: map<nat, Value>
    var dirty: set<Key>
    var snapshots: map<nat, int>
    var audits: seq<Audit>

    /**
     * Writes every dirty balance to its snapshot and clears the dirty set; a dirty balance that is not a
     * number raises, and leaves the work done so far. `order` is the order in which Redis lists the set.
     */
    method FlushCreditSnapshots(order: seq<Key>) returns (flushed: Option<nat>)
      requires Lists(order, dirty)
      modifies this`dirty, this`snapshots
      ensures flushed.Some? <==> AllNumbers(credits, old(dirty))
      ensures flushed.Some? ==>
                && dirty == {} && flushed.value == |FlushedUsers(credits, old(dirty))|
                && snapshots == FlushedSnapshots(old(snapshots), credits, FlushedUsers(credits, old(dirty)))
      ensures flushed.None? ==> exists written: set<nat> ::
                && written <= FlushedUsers(credits, old(dirty))
                && snapshots == FlushedSnapshots(old(snapshots), credits, written)
    {
      var count, i := 0, 0;
      ghost var written: set<nat> := {};
      ghost var dirty0, snapshots0 := dirty, snapshots;
      FlushStarts(order, credits, dirty0, snapshots0);
      hide Flushing;
      while i < |order|
        invariant 0 <= i <= |order| && count == |written|
        invariant Flushing(order, i, dirty, snapshots, written, credits, dirty0, snapshots0)
      {
        var key := order[i];
        FlushStep(order, i, dirty, snapshots, written, credits, dirty0, snapshots0);
        if key.Credits? && key.user in credits {
          if credits[key.user].Text? { return None; }
          snapshots := snapshots[key.user := credits[key.user].n];
          written := written + {key.user};
          count := count + 1;
        }
        dirty := dirty - {key};
        i := i + 1;
      }
      FlushEnds(order, dirty, snapshots, written, credits, dirty0, snapshots0);
      flushed := Some(count);
    }

    /** Compares every snapshot with Redis; `order` is the order in which the table lists them. */
    method RunCreditDriftAudit(order: seq<nat>) returns (audited: nat, reconciled: nat)
      requires Lists(order, snapshots.Keys)
      modifies this`credits, this`snapshots, this`audits
      ensures credits == AuditedCredits(old(credits), old(snapshots))
      ensures snapshots == AuditedSnapshots(old(credits), old(snapshots))
      ensures audited == |order| == |old(snapshots)|
      ensures reconciled == |Drifted(old(credits), old(snapshots))|
      ensures audits == old(audits) + AuditLog(order, old(credits), old(snapshots))
    {
      audited, reconciled := 0, 0;
      var i := 0;
      ghost var credits0, snapshots0, audits0 := credits, snapshots, audits;
      hide *;
      while i < |order|
        invariant 0 <= i <= |order| && audited == i
        invariant Auditing(order, i, credits, snapshots, audits, reconciled, credits0, snapshots0, audits0)
      {
        AuditStep(order, i, credits, snapshots, audits, reconciled, credits0, snapshots0, audits0);
        var drift := AuditSnapshot(order[i]);
        if drift != 0 {
          reconciled := reconciled + 1;
        }
        audited := audited + 1;
        i := i + 1;
      }
      AuditEnds(order, credits, snapshots, audits, reconciled, credits0, snapshots0, audits0);
    }

    /** One snapshot against its Redis balance. */
    method AuditSnapshot(user: nat) returns (drift: int)
      requires user in snapshots
      modifies this`credits, this`snapshots, this`audits
      ensures credits == CreditsAfter(old(credits), old(snapshots), user)
      ensures snapshots == SnapshotsAfter(old(credits), old(snapshots), user)
      ensures audits == old(audits) + [AuditOf(old(credits), old(snapshots), user)]
      ensures drift == AuditOf(old(credits), old(snapshots), user).drift
    {
      var dbBalance := snapshots[user];
      var redisBalance, action := dbBalance, None;
      if user !in credits {
        credits := credits[user := Number(dbBalance)];
        action := Some(HydratedFromSnapshot);
      } else if credits[user].Text? {
        credits := credits[user := Number(dbBalance)];
        action := Some(ResetFromSnapshot);
      } else {
        redisBalance := credits[user].n;
      }
      drift := redisBalance - dbBalance;
      if drift != 0 {
        snapshots := snapshots[user := redisBalance];
        action := Some(SnapshotReconciled);
      }
      audits := audits + [Audit(user, redisBalance, dbBalance, drift, action)];
    }

    /**
     * The snapshot part of one reaper cycle: the flush and, unless it raised, the audit. Afterwards every
     * snapshot equals its Redis balance, balances that were present are untouched, and one audit row per
     * snapshot records Redis minus snapshot.
     */
    method ReconcileSnapshots() returns (flushed: Option<nat>, reconciled: nat)
      modifies this
      ensures flushed.Some? <==> AllNumbers(old(credits), old(dirty))
      ensures flushed.None? ==> credits == old(credits) && audits == old(audits) && reconciled == 0
      ensures flushed.Some? ==>
                && flushed.value == |FlushedUsers(old(credits), old(dirty))| && dirty == {}
                && Reconciled(credits, snapshots)
                && snapshots.Keys == old(snapshots).Keys + FlushedUsers(old(credits), old(dirty))
                && (forall u | Present(old(credits), u) :: u in credits && credits[u] == old(credits)[u])
                && (forall u | u in credits && u !in old(credits) :: u in old(snapshots))
                && (forall u | u in old(snapshots) && !Present(old(credits), u) :: snapshots[u] == old(snapshots)[u])
      ensures flushed.Some? ==>
                var before := FlushedSnapshots(old(snapshots), old(credits), FlushedUsers(old(credits), old(dirty)));
                && old(audits) <= audits && AuditRowsOk(audits[|old(audits)|..], old(credits), credits, before)
                && reconciled == |Drifted(old(credits), before)|
      ensures old(dirty) == {} && Reconciled(old(credits), old(snapshots)) ==>
                && flushed == Some(0) && reconciled == 0 && credits == old(credits) && snapshots == old(snapshots)
                && forall a | a in audits[|old(audits)|..] :: a.drift == 0 && a.action.None?
    {
      ghost var credits0, dirty0, snapshots0 := credits, dirty, snapshots;
      if dirty0 == {} && Reconciled(credits0, snapshots0) { SecondPassIsIdle(credits0, snapshots0); }
      hide *;
      var keys := ListMembers(dirty);
      flushed := FlushCreditSnapshots(keys);
      if flushed.None? {
        reconciled := 0;
      } else {
        ghost var before := snapshots;
        var users := ListMembers(snapshots.Keys);
        var audited;
        audited, reconciled := RunCreditDriftAudit(users);
        PassReconciles(credits0, snapshots0, dirty0);
        AuditLogRows(users, credits0, before);
        if dirty0 == {} && Reconciled(credits0, snapshots0) { IdleAuditLog(users, credits0, before); }
      }
    }

    /** Two cycles in a row: the second one finds nothing to do. */
    method ReconcileTwice() returns (flushed: Option<nat>, again: Option<nat>, first: nat, second: nat)
      modifies this
      ensures flushed.Some? <==> AllNumbers(old(credits), old(dirty))
      ensures flushed.Some? ==>
                && again == Some(0) && second == 0 && dirty == {} && Reconciled(credits, snapshots)
                && snapshots.Keys == old(snapshots).Keys + FlushedUsers(old(credits), old(dirty))
                && (forall u | Present(old(credits), u) :: u in credits && credits[u] == old(credits)[u])
    {
      flushed, first := ReconcileSnapshots();
      ghost var credits1, snapshots1 := credits, snapshots;
      again, second := ReconcileSnapshots();
      assert flushed.Some? ==> credits == credits1 && snapshots == snapshots1;
    }
  }

  function CreditsAfter(credits: map<nat, Value>, snapshots: map<nat, int>, u: nat): map<nat, Value>
    requires u in snapshots
  {
    if Present(credits, u) then credits else credits[u := Number(snapshots[u])]
  }

  function SnapshotsAfter(credits: map<nat, Value>, snapshots: map<nat, int>, u: nat): map<nat, int>
    requires u in snapshots
  {
    if Present(credits, u) && credits[u].n != snapshots[u] then snapshots[u := credits[u].n] else snapshots
  }

  // ----- The flush loop -----

  ghost predicate Flushing(order: seq<Key>, i: nat, dirty: set<Key>, snapshots: map<nat, int>, written: set<nat>,
                           credits: map<nat, Value>, dirty0: set<Key>, snapshots0: map<nat, int>) {
    && i <= |order| && Lists(order, dirty0)
    && dirty == (set k | i <= k < |order| :: order[k])
    && AllNumbers(credits, dirty0 - dirty)
    && written == FlushedUsers(credits, dirty0 - dirty)
    && snapshots == FlushedSnapshots(snapshots0, credits, written)
  }

  lemma FlushStarts(order: seq<Key>, credits: map<nat, Value>, dirty0: set<Key>, snapshots0: map<nat, int>)
    requires Lists(order, dirty0)
    ensures Flushing(order, 0, dirty0, snapshots0, {}, credits, dirty0, snapshots0)
  {
    assert dirty0 == (set k | 0 <= k < |order| :: order[k]);
    assert dirty0 - dirty0 == {};
    assert FlushedSnapshots(snapshots0, credits, {}) == snapshots0;
  }

  /** What the next key changes; a number that cannot be read stops the loop with some users written. */
  lemma FlushStep(order: seq<Key>, i: nat, dirty: set<Key>, snapshots: map<nat, int>, written: set<nat>,
                  credits: map<nat, Value>, dirty0: set<Key>, snapshots0: map<nat, int>)
    requires i < |order| && Flushing(order, i, dirty, snapshots, written, credits, dirty0, snapshots0)
    ensures var key := order[i];
            if key.Credits? && key.user in credits then
              if credits[key.user].Text? then
                && !AllNumbers(credits, dirty0)
                && written <= FlushedUsers(credits, dirty0)
                     && snapshots == FlushedSnapshots(snapshots0, credits, written)
              else
                && key.user !in written
                && Flushing(order, i + 1, dirty - {key}, snapshots[key.user := credits[key.user].n],
                            written + {key.user}, credits, dirty0, snapshots0)
            else Flushing(order, i + 1, dirty - {key}, snapshots, written, credits, dirty0, snapshots0)
  {
    var key := order[i];
    var done := dirty0 - dirty;
    assert dirty0 - (dirty - {key}) == done + {key};
    if key.Credits? && key.user in credits {
      if credits[key.user].Number? {
        assert FlushedUsers(credits, done + {key}) == FlushedUsers(credits, done) + {key.user};
        assert snapshots[key.user := credits[key.user].n] ==
               FlushedSnapshots(snapshots0, credits, written + {key.user});
      }
    } else {
      assert FlushedUsers(credits, done + {key}) == FlushedUsers(credits, done);
    }
  }

  lemma FlushEnds(order: seq<Key>, dirty: set<Key>, snapshots: map<nat, int>, written: set<nat>,
                  credits: map<nat, Value>, dirty0: set<Key>, snapshots0: map<nat, int>)
    requires Flushing(order, |order|, dirty, snapshots, written, credits, dirty0, snapshots0)
    ensures dirty == {} && AllNumbers(credits, dirty0) && written == FlushedUsers(credits, dirty0)
    ensures snapshots == FlushedSnapshots(snapshots0, credits, written)
  {
    assert dirty0 - {} == dirty0;
  }

  // ----- The audit loop -----

  function DriftedUpTo(order: seq<nat>, i: nat, credits: map<nat, Value>, snapshots: map<nat, int>): set<nat>
    requires i <= |order|
  {
    set k | 0 <= k < i && order[k] in Drifted(credits, snapshots) :: order[k]
  }

  /** The stores after the first `i` snapshots have been audited. */
  ghost predicate StoresAudited(order: seq<nat>, i: nat, credits: map<nat, Value>, snapshots: map<nat, int>,
                                credits0: map<nat, Value>, snapshots0: map<nat, int>) {
    && i <= |order| && Lists(order, snapshots0.Keys) && snapshots.Keys == snapshots0.Keys
    && (forall k | i <= k < |order| :: order[k] in snapshots0 && snapshots[order[k]] == snapshots0[order[k]]
         && SameAt(credits, credits0, order[k]))
    && (forall k | 0 <= k < i :: Settled(credits, snapshots, credits0, snapshots0, order[k]))
    && (forall u | u !in snapshots0 :: SameAt(credits, credits0, u))
  }

  ghost predicate Auditing(order: seq<nat>, i: nat, credits: map<nat, Value>, snapshots: map<nat, int>,
                           audits: seq<Audit>, reconciled: nat,
                           credits0: map<nat, Value>, snapshots0: map<nat, int>, audits0: seq<Audit>) {
    && StoresAudited(order, i, credits, snapshots, credits0, snapshots0)
    && reconciled == |DriftedUpTo(order, i, credits0, snapshots0)|
    && audits == audits0 + AuditLog(order[..i], credits0, snapshots0)
  }

  lemma StoresStep(order: seq<nat>, i: nat, credits: map<nat, Value>, snapshots: map<nat, int>,
                   credits0: map<nat, Value>, snapshots0: map<nat, int>)
    requires i < |order| && StoresAudited(order, i, credits, snapshots, credits0, snapshots0)
    ensures order[i] in snapshots && order[i] in snapshots0
    ensures AuditOf(credits, snapshots, order[i]) == AuditOf(credits0, snapshots0, order[i])
    ensures StoresAudited(order, i + 1, CreditsAfter(credits, snapshots, order[i]),
                          SnapshotsAfter(credits, snapshots, order[i]), credits0, snapshots0)
  {
    assert order[i] in snapshots0 && SameAt(credits, credits0, order[i]);
  }

  lemma AuditStep(order: seq<nat>, i: nat, credits: map<nat, Value>, snapshots: map<nat, int>, audits: seq<Audit>,
                  reconciled: nat,
                  credits0: map<nat, Value>, snapshots0: map<nat, int>, audits0: seq<Audit>)
    requires i < |order| && Auditing(order, i, credits, snapshots, audits, reconciled, credits0, snapshots0, audits0)
    ensures order[i] in snapshots
    ensures var u := order[i]; var a := AuditOf(credits, snapshots, u);
            Auditing(order, i + 1, CreditsAfter(credits, snapshots, u), SnapshotsAfter(credits, snapshots, u),
                     audits + [a], if a.drift != 0 then reconciled + 1 else reconciled,
                     credits0, snapshots0, audits0)
  {
    StoresStep(order, i, credits, snapshots, credits0, snapshots0);
    AuditLogGrows(order, i, credits0, snapshots0);
    DriftedStep(order, i, credits0, snapshots0);
    hide StoresAudited;
    hide AuditLog;
    hide DriftedUpTo;
    hide AuditOf;
    hide Drifted;
  }

  lemma DriftedStep(order: seq<nat>, i: nat, credits0: map<nat, Value>, snapshots0: map<nat, int>)
    requires i < |order| && Lists(order, snapshots0.Keys)
    ensures var drifted := DriftedUpTo(order, i, credits0, snapshots0);
            |DriftedUpTo(order, i + 1, credits0, snapshots0)| ==
            |drifted| + if order[i] in Drifted(credits0, snapshots0) then 1 else 0
  {
    var drifted := DriftedUpTo(order, i, credits0, snapshots0);
    assert order[i] !in drifted;
    assert DriftedUpTo(order, i + 1, credits0, snapshots0) ==
           drifted + if order[i] in Drifted(credits0, snapshots0) then {order[i]} else {};
  }

  lemma AllDrifted(order: seq<nat>, credits0: map<nat, Value>, snapshots0: map<nat, int>)
    requires Lists(order, snapshots0.Keys)
    ensures DriftedUpTo(order, |order|, credits0, snapshots0) == Drifted(credits0, snapshots0)
  {
    var drifted := DriftedUpTo(order, |order|, credits0, snapshots0);
    forall u | u in Drifted(credits0, snapshots0) ensures u in drifted {
      assert u in (set k | 0 <= k < |order| :: order[k]);
    }
  }

  lemma AuditEnds(order: seq<nat>, credits: map<nat, Value>, snapshots: map<nat, int>, audits: seq<Audit>,
                  reconciled: nat,
                  credits0: map<nat, Value>, snapshots0: map<nat, int>, audits0: seq<Audit>)
    requires Auditing(order, |order|, credits, snapshots, audits, reconciled, credits0, snapshots0, audits0)
    ensures credits == AuditedCredits(credits0, snapshots0) && snapshots == AuditedSnapshots(credits0, snapshots0)
    ensures reconciled == |Drifted(credits0, snapshots0)| && |order| == |snapshots0|
    ensures audits == audits0 + AuditLog(order, credits0, snapshots0)
  {
    AllSettled(order, credits, snapshots, credits0, snapshots0);
    ListedOnce(order, snapshots0.Keys);
    AllDrifted(order, credits0, snapshots0);
    hide StoresAudited;
    hide AuditLog;
    hide DriftedUpTo;
    hide Drifted;
    hide AuditedCredits;
    hide AuditedSnapshots;
    assert order[..|order|] == order;
  }

  predicate SameAt(a: map<nat, Value>, b: map<nat, Value>, u: nat) {
    (u in a <==> u in b) && (u in a ==> a[u] == b[u])
  }

  predicate Settled(credits: map<nat, Value>, snapshots: map<nat, int>, credits0: map<nat, Value>,
                    snapshots0: map<nat, int>, u: nat) {
    && u in credits && u in snapshots && u in snapshots0
    && credits[u] == (if Present(credits0, u) then credits0[u] else Number(snapshots0[u]))
    && snapshots[u] == (if Present(credits0, u) then credits0[u].n else snapshots0[u])
  }

  lemma ListedOnce<T>(order: seq<T>, members: set<T>)
    requires Lists(order, members)
    ensures |order| == |members|
    ensures forall i | 0 <= i < |order| :: order[i] in members
  {
    ListedCount(order, |order|);
    forall i | 0 <= i < |order| ensures order[i] in members {
      assert order[i] in set k | 0 <= k < |order| :: order[k];
    }
  }

  lemma {:induction false} ListedCount<T>(order: seq<T>, n: nat)
    requires n <= |order| && forall i, j | 0 <= i < j < |order| :: order[i] != order[j]
    ensures |set i | 0 <= i < n :: order[i]| == n
  {
    if n > 0 {
      ListedCount(order, n - 1);
      assert (set i | 0 <= i < n :: order[i]) == (set i | 0 <= i < n - 1 :: order[i]) + {order[n - 1]};
    }
  }

  lemma AllSettled(order: seq<nat>, credits: map<nat, Value>, snapshots: map<nat, int>, credits0: map<nat, Value>,
                   snapshots0: map<nat, int>)
    requires Lists(order, snapshots0.Keys) && snapshots.Keys == snapshots0.Keys
    requires forall k | 0 <= k < |order| :: Settled(credits, snapshots, credits0, snapshots0, order[k])
    requires forall u | u !in snapshots0 :: SameAt(credits, credits0, u)
    ensures credits == AuditedCredits(credits0, snapshots0) && snapshots == AuditedSnapshots(credits0, snapshots0)
  {
    forall u | u in snapshots0 ensures Settled(credits, snapshots, credits0, snapshots0, u) {
      assert u in set i | 0 <= i < |order| :: order[i];
    }
    forall u ensures u in credits <==> u in credits0.Keys + snapshots0.Keys {
      if u in snapshots0 { assert Settled(credits, snapshots, credits0, snapshots0, u); }
      else { assert SameAt(credits, credits0, u); }
    }
    forall u | u in credits ensures credits[u] == AuditedCredits(credits0, snapshots0)[u] {
      if u !in snapshots0 { assert SameAt(credits, credits0, u); }
    }
  }

  // ----- One pass, and a second one -----

  /** Every snapshot equals its Redis balance. */
  predicate Reconciled(credits: map<nat, Value>, snapshots: map<nat, int>) {
    forall u | u in snapshots :: u in credits && credits[u] == Number(snapshots[u])
  }

  /** After flush and audit the two sides agree, and a balance that was present is the one they agree on. */
  lemma PassReconciles(credits: map<nat, Value>, snapshots: map<nat, int>, dirty: set<Key>)
    requires AllNumbers(credits, dirty)
    ensures var flushed := FlushedSnapshots(snapshots, credits, FlushedUsers(credits, dirty));
            var credits', snapshots' := AuditedCredits(credits, flushed), AuditedSnapshots(credits, flushed);
            && Reconciled(credits', snapshots')
            && snapshots'.Keys == snapshots.Keys + FlushedUsers(credits, dirty)
            && (forall u | Present(credits, u) :: u in credits' && credits'[u] == credits[u])
            && (forall u | u in credits' && u !in credits :: u in snapshots)
            && (forall u | u in snapshots' && Present(credits, u) :: snapshots'[u] == credits[u].n)
            && (forall u | u in snapshots && !Present(credits, u) :: u in snapshots' && snapshots'[u] == snapshots[u])
            && (forall u | u in FlushedUsers(credits, dirty) :: u !in Drifted(credits, flushed))
  {
    var flushed := FlushedSnapshots(snapshots, credits, FlushedUsers(credits, dirty));
    forall u | u in FlushedUsers(credits, dirty) ensures u in flushed && flushed[u] == credits[u].n {
      assert Credits(u) in dirty;
    }
  }

  /** The audit log records what Redis held, what the table held, and their difference. */
  lemma AuditsTellTheDrift(credits: map<nat, Value>, snapshots: map<nat, int>, u: nat)
    requires u in snapshots
    ensures var a := AuditOf(credits, snapshots, u);
            && a.drift == a.redisBalance - a.dbBalance && a.dbBalance == snapshots[u]
            && AuditedCredits(credits, snapshots)[u] == Number(a.redisBalance)
            && AuditedSnapshots(credits, snapshots)[u] == a.redisBalance
            && (a.drift != 0 <==> u in Drifted(credits, snapshots))
            && (a.action.None? <==> u in credits && credits[u] == Number(snapshots[u]))
  {}

  /** A second pass over reconciled stores changes nothing and reconciles nothing. */
  lemma SecondPassIsIdle(credits: map<nat, Value>, snapshots: map<nat, int>)
    requires Reconciled(credits, snapshots)
    ensures AllNumbers(credits, {}) && FlushedUsers(credits, {}) == {}
    ensures FlushedSnapshots(snapshots, credits, FlushedUsers(credits, {})) == snapshots
    ensures AuditedCredits(credits, snapshots) == credits && AuditedSnapshots(credits, snapshots) == snapshots
    ensures Drifted(credits, snapshots) == {}
    ensures forall u | u in snapshots :: AuditOf(credits, snapshots, u).action.None?
  {
    assert FlushedUsers(credits, {}) == {};
  }
}
