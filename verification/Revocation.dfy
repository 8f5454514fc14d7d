/**
 * Token revocation in Solution 1: per-user, per-day Redis sets with a time to live in front of a durable table.
 * Time is counted in ticks of the database clock.
 */
module Revocation {

  const DAY: int := 86_400_000_000

  type Token = (nat, nat)

  datatype Bucket = Bucket(members: set<nat>, expireAt: int)

  type Buckets = map<(nat, int), Bucket>

  datatype Row = Row(user: nat, jti: nat, revokedAt: int, expiresAt: int)

  function DayOf(t: int): int { t / DAY }

  // ----- Redis -----

  function Members(b: Buckets, now: int, user: nat, day: int): set<nat> {
    if (user, day) in b && now < b[(user, day)].expireAt then b[(user, day)].members else {}
  }

  /** SADD followed by EXPIRE; a bucket past its time is gone. */
  function Add(b: Buckets, now: int, ttl: int, user: nat, day: int, jti: nat): Buckets {
    b[(user, day) := Bucket(Members(b, now, user, day) + {jti}, now + ttl)]
  }

  /** The two lookups of a request: today's bucket and yesterday's. */
  predicate Found(b: Buckets, now: int, user: nat, jti: nat) {
    jti in Members(b, now, user, DayOf(now)) || jti in Members(b, now, user, DayOf(now) - 1)
  }

  // ----- Postgres -----

  predicate Revoked(rows: seq<Row>, now: int, jti: nat) {
    exists r :: r in rows && r.jti == jti && r.expiresAt > now
  }

  predicate Reloads(r: Row, now: int) { r.revokedAt >= now - DAY && r.expiresAt > now }

  function Reloaded(rows: seq<Row>, now: int): seq<Row> {
    if rows == [] then []
    else Reloaded(rows[..|rows| - 1], now) + if Reloads(rows[|rows| - 1], now) then [rows[|rows| - 1]] else []
  }

  function AddAll(b: Buckets, now: int, ttl: int, rows: seq<Row>): Buckets {
    if rows == [] then b
    else
      var r := rows[|rows| - 1];
      Add(AddAll(b, now, ttl, rows[..|rows| - 1]), now, ttl, r.user, DayOf(r.revokedAt), r.jti)
  }

  // ----- The system -----

  /** A revocation between its two writes. */
  datatype Revocation = Revocation(token: Token, begunAt: int)

  /**
   * `expiry` is what the tokens themselves say. The last three fields only record history: `asked` the tokens
   * whose revocation was asked for, `begun` when the revocation behind a row began, and `kept` the tokens added
   * to Redis since it was last flushed, each with the latest moment whose day it was added to.
   */
  datatype World = World(
    ttl: int, expiry: map<Token, int>, now: int, buckets: Buckets, rows: seq<Row>,
    pending: map<nat, Revocation>, asked: set<Token>, begun: map<Row, int>, kept: map<Token, int>)

  datatype Event =
    | Begin(p: nat, token: Token, redisUp: bool)
    | Insert(p: nat, dbUp: bool)
    | Check(token: Token, redisUp: bool, writes: bool)
    | Rehydrate
    | Flush
    | Tick(ticks: nat)

  function Initial(ttl: int, expiry: map<Token, int>, now: int): World {
    World(ttl, expiry, now, map[], [], map[], {}, map[], map[])
  }

  function TokenOf(r: Row): Token { (r.user, r.jti) }

  function Keep(kept: map<Token, int>, token: Token, at: int): map<Token, int> {
    kept[token := if token in kept && kept[token] > at then kept[token] else at]
  }

  function KeepAll(kept: map<Token, int>, rows: seq<Row>): map<Token, int> {
    if rows == [] then kept
    else
      var r := rows[|rows| - 1];
      Keep(KeepAll(kept, rows[..|rows| - 1]), TokenOf(r), r.revokedAt)
  }

  function Next(w: World, ev: Event): World {
    match ev
    case Begin(p, token, redisUp) =>
      if p in w.pending || token !in w.expiry then w
      else
        var w' := w.(pending := w.pending[p := Revocation(token, w.now)], asked := w.asked + {token});
        if redisUp then
          w'.(buckets := Add(w.buckets, w.now, if w.ttl < 1 then 1 else w.ttl, token.0, DayOf(w.now), token.1),
              kept := Keep(w.kept, token, w.now))
        else w'
    case Insert(p, dbUp) =>
      if p !in w.pending || w.pending[p].token !in w.expiry then w
      else
        var token := w.pending[p].token;
        var r := Row(token.0, token.1, w.now, w.expiry[token]);
        var w' := w.(pending := w.pending - {p});
        if dbUp then w'.(rows := w.rows + [r], begun := w.begun[r := w.pending[p].begunAt]) else w'
    case Check(token, redisUp, writes) =>
      if token in w.expiry && !redisUp && writes && Revoked(w.rows, w.now, token.1) then
        w.(buckets := Add(w.buckets, w.now, w.ttl, token.0, DayOf(w.now), token.1), kept := Keep(w.kept, token, w.now))
      else w
    case Rehydrate =>
      var rows := Reloaded(w.rows, w.now);
      w.(buckets := AddAll(w.buckets, w.now, w.ttl, rows), kept := KeepAll(w.kept, rows))
    case Flush => w.(buckets := map[], kept := map[])
    case Tick(ticks) => w.(now := w.now + ticks)
  }

  function Exec(w: World, evs: seq<Event>): World {
    if evs == [] then w else Next(Exec(w, evs[..|evs| - 1]), evs[|evs| - 1])
  }

  // ----- Invariant -----

  /** The life that one addition covers: a day, or the time to live of a bucket if that is shorter. */
  function Span(ttl: int): int { if ttl < DAY then ttl else DAY }

  /** Some bucket holds the token, lives as long as it and stays within the two days looked up. */
  ghost predicate Covered(b: Buckets, now: int, token: Token, expiresAt: int) {
    exists d :: CoveredBy(b, now, token, expiresAt, d)
  }

  predicate CoveredBy(b: Buckets, now: int, token: Token, expiresAt: int, d: int) {
    (token.0, d) in b && token.1 in b[(token.0, d)].members && b[(token.0, d)].expireAt >= expiresAt
    && d * DAY <= now && expiresAt <= (d + 2) * DAY
  }

  /** The issuer gives no two tokens the same identifier. */
  predicate UniqueJtis(expiry: map<Token, int>) {
    forall t1, t2 | t1 in expiry && t2 in expiry && t1.1 == t2.1 :: t1 == t2
  }

  ghost predicate KeptOk(w: World, b: Buckets, kept: map<Token, int>, token: Token)
    requires token in kept
  {
    && token in w.asked && token in w.expiry && kept[token] <= w.now
    && (w.now < w.expiry[token] <= kept[token] + Span(w.ttl) ==> Covered(b, w.now, token, w.expiry[token]))
  }

  predicate BucketsOk(w: World, b: Buckets, kept: map<Token, int>) {
    forall k | k in b :: b[k].expireAt <= w.now + w.ttl && forall jti | jti in b[k].members :: (k.0, jti) in kept
  }

  ghost predicate CacheOk(w: World, b: Buckets, kept: map<Token, int>) {
    BucketsOk(w, b, kept) && forall token | token in kept :: KeptOk(w, b, kept, token)
  }

  predicate RowOk(w: World, r: Row) {
    && TokenOf(r) in w.asked && TokenOf(r) in w.expiry && r.expiresAt == w.expiry[TokenOf(r)]
    && r in w.begun && w.begun[r] <= r.revokedAt <= w.now
  }

  predicate PendingOk(w: World, x: Revocation) { x.token in w.asked && x.token in w.expiry && x.begunAt <= w.now }

  ghost predicate Inv(w: World) {
    && w.ttl >= 1 && UniqueJtis(w.expiry) && CacheOk(w, w.buckets, w.kept)
    && (forall r | r in w.rows :: RowOk(w, r))
    && (forall p | p in w.pending :: PendingOk(w, w.pending[p]))
  }

  // ----- Additions -----

  lemma AddKeepsCover(w: World, b: Buckets, kept: map<Token, int>, user: nat, day: int, jti: nat, token: Token,
                      expiresAt: int)
    requires w.ttl >= 1 && BucketsOk(w, b, kept) && Covered(b, w.now, token, expiresAt) && w.now < expiresAt
    ensures Covered(Add(b, w.now, w.ttl, user, day, jti), w.now, token, expiresAt)
  {
    var d :| CoveredBy(b, w.now, token, expiresAt, d);
    assert CoveredBy(Add(b, w.now, w.ttl, user, day, jti), w.now, token, expiresAt, d);
  }

  /** A token added on the day of `at` is covered if it expires within the span of `at`. */
  lemma AddCovers(w: World, b: Buckets, at: int, token: Token, expiresAt: int)
    requires at <= w.now && expiresAt <= at + Span(w.ttl)
    ensures Covered(Add(b, w.now, w.ttl, token.0, DayOf(at), token.1), w.now, token, expiresAt)
  {
    assert CoveredBy(Add(b, w.now, w.ttl, token.0, DayOf(at), token.1), w.now, token, expiresAt, DayOf(at));
  }

  lemma AddKeepsCache(w: World, b: Buckets, kept: map<Token, int>, token: Token, at: int)
    requires w.ttl >= 1 && CacheOk(w, b, kept) && token in w.asked && token in w.expiry && at <= w.now
    ensures CacheOk(w, Add(b, w.now, w.ttl, token.0, DayOf(at), token.1), Keep(kept, token, at))
  {
    var b', kept' := Add(b, w.now, w.ttl, token.0, DayOf(at), token.1), Keep(kept, token, at);
    forall t | t in kept' ensures KeptOk(w, b', kept', t) {
      assert t in kept ==> KeptOk(w, b, kept, t);
      if w.now < w.expiry[t] <= kept'[t] + Span(w.ttl) {
        if t == token && kept'[t] == at { AddCovers(w, b, at, token, w.expiry[token]); }
        else { AddKeepsCover(w, b, kept, token.0, DayOf(at), token.1, t, w.expiry[t]); }
      }
    }
  }

  lemma {:induction false} AddAllKeepsCache(w: World, b: Buckets, kept: map<Token, int>, rows: seq<Row>)
    requires w.ttl >= 1 && CacheOk(w, b, kept) && forall r | r in rows :: RowOk(w, r)
    ensures CacheOk(w, AddAll(b, w.now, w.ttl, rows), KeepAll(kept, rows))
  {
    if rows != [] {
      var init, r := rows[..|rows| - 1], rows[|rows| - 1];
      AddAllKeepsCache(w, b, kept, init);
      assert RowOk(w, r);
      AddKeepsCache(w, AddAll(b, w.now, w.ttl, init), KeepAll(kept, init), TokenOf(r), r.revokedAt);
    }
  }

  lemma {:induction false} ReloadedIn(rows: seq<Row>, now: int, r: Row)
    ensures r in Reloaded(rows, now) <==> r in rows && Reloads(r, now)
  {
    if rows != [] { ReloadedIn(rows[..|rows| - 1], now, r); }
  }

  // ----- Every run -----

  /** Time passing, and more history, uncover nothing. */
  lemma SameCacheStays(w: World, w': World)
    requires CacheOk(w, w.buckets, w.kept)
    requires w'.buckets == w.buckets && w'.kept == w.kept && w'.ttl == w.ttl && w'.expiry == w.expiry
    requires w.asked <= w'.asked && w.now <= w'.now
    ensures CacheOk(w', w'.buckets, w'.kept)
  {
    forall t | t in w'.kept ensures KeptOk(w', w'.buckets, w'.kept, t) {
      assert KeptOk(w, w.buckets, w.kept, t);
      if w'.now < w.expiry[t] <= w.kept[t] + Span(w.ttl) {
        var d :| CoveredBy(w.buckets, w.now, t, w.expiry[t], d);
        assert CoveredBy(w'.buckets, w'.now, t, w.expiry[t], d);
      }
    }
  }

  lemma BeginKeepsCache(w: World, p: nat, token: Token, redisUp: bool)
    requires Inv(w)
    ensures var w' := Next(w, Begin(p, token, redisUp)); CacheOk(w', w'.buckets, w'.kept)
  {
    var w' := Next(w, Begin(p, token, redisUp));
    var asked := w.(asked := w'.asked);
    hide CacheOk;
    SameCacheStays(w, asked);
    if w'.kept != w.kept || w'.buckets != w.buckets {
      AddKeepsCache(asked, w.buckets, w.kept, token, w.now);
      SameCacheOk(asked, w', w'.buckets, w'.kept);
    } else {
      SameCacheStays(w, w');
    }
  }

  lemma CheckKeepsCache(w: World, token: Token, redisUp: bool, writes: bool)
    requires Inv(w)
    ensures var w' := Next(w, Check(token, redisUp, writes)); CacheOk(w', w'.buckets, w'.kept)
  {
    var w' := Next(w, Check(token, redisUp, writes));
    hide CacheOk;
    if token in w.expiry && !redisUp && writes && Revoked(w.rows, w.now, token.1) {
      var r :| r in w.rows && r.jti == token.1 && r.expiresAt > w.now;
      assert RowOk(w, r) && TokenOf(r) == token;
      AddKeepsCache(w, w.buckets, w.kept, token, w.now);
      SameCacheOk(w, w', w'.buckets, w'.kept);
    }
  }

  lemma RehydrateKeepsCache(w: World)
    requires Inv(w)
    ensures var w' := Next(w, Rehydrate); CacheOk(w', w'.buckets, w'.kept)
  {
    var w', rows := Next(w, Rehydrate), Reloaded(w.rows, w.now);
    hide CacheOk;
    forall r | r in rows ensures RowOk(w, r) { ReloadedIn(w.rows, w.now, r); }
    AddAllKeepsCache(w, w.buckets, w.kept, rows);
    SameCacheOk(w, w', w'.buckets, w'.kept);
  }

  lemma NextKeepsCache(w: World, ev: Event)
    requires Inv(w)
    ensures var w' := Next(w, ev); CacheOk(w', w'.buckets, w'.kept)
  {
    match ev {
      case Begin(p, token, redisUp) => BeginKeepsCache(w, p, token, redisUp);
      case Check(token, redisUp, writes) => CheckKeepsCache(w, token, redisUp, writes);
      case Rehydrate => RehydrateKeepsCache(w);
      case Flush =>
      case _ => SameCacheStays(w, Next(w, ev));
    }
  }

  lemma SameCacheOk(w: World, w': World, b: Buckets, kept: map<Token, int>)
    requires CacheOk(w, b, kept) && w'.ttl == w.ttl && w'.expiry == w.expiry && w'.now == w.now && w'.asked == w.asked
    ensures CacheOk(w', b, kept)
  {
    forall t | t in kept ensures KeptOk(w', b, kept, t) { assert KeptOk(w, b, kept, t); }
  }

  lemma NextKeepsRow(w: World, ev: Event, r: Row)
    requires Inv(w) && r in Next(w, ev).rows
    ensures RowOk(Next(w, ev), r)
  {
    hide CacheOk;
    hide Reloads;
    hide AddAll;
    hide KeepAll;
    hide Add;
    if r in w.rows { assert RowOk(w, r); }
    if ev.Insert? && ev.p in w.pending { assert PendingOk(w, w.pending[ev.p]); }
  }

  /** What is pending was so before, or has just been asked for. */
  lemma PendingWasAskedFor(w: World, ev: Event, p: nat)
    requires p in Next(w, ev).pending
    ensures var x := Next(w, ev).pending[p];
            || (p in w.pending && x == w.pending[p])
            || (x.token in Next(w, ev).asked && x.token in w.expiry && x.begunAt == w.now)
  {}

  lemma NextKeepsPending(w: World, ev: Event, p: nat)
    requires Inv(w) && p in Next(w, ev).pending
    ensures PendingOk(Next(w, ev), Next(w, ev).pending[p])
  {
    PendingWasAskedFor(w, ev, p);
    NextKeepsTerms(w, ev);
    hide Next;
    hide CacheOk;
    if p in w.pending { assert PendingOk(w, w.pending[p]); }
  }

  lemma NextKeepsTerms(w: World, ev: Event)
    ensures var w' := Next(w, ev);
            w'.ttl == w.ttl && w'.expiry == w.expiry && w'.now >= w.now && w.asked <= w'.asked
  {}

  lemma NextKeepsInv(w: World, ev: Event)
    requires Inv(w)
    ensures Inv(Next(w, ev)) && Next(w, ev).ttl == w.ttl && Next(w, ev).expiry == w.expiry
  {
    var w' := Next(w, ev);
    NextKeepsTerms(w, ev);
    NextKeepsCache(w, ev);
    hide Next;
    hide CacheOk;
    hide RowOk;
    hide PendingOk;
    forall r | r in w'.rows ensures RowOk(w', r) { NextKeepsRow(w, ev, r); }
    forall p | p in w'.pending ensures PendingOk(w', w'.pending[p]) { NextKeepsPending(w, ev, p); }
  }

  lemma {:induction false} EveryRunKeepsInv(ttl: int, expiry: map<Token, int>, now: int, evs: seq<Event>)
    requires ttl >= 1 && UniqueJtis(expiry)
    ensures var w := Exec(Initial(ttl, expiry, now), evs); Inv(w) && w.expiry == expiry && w.ttl == ttl
  {
    if evs != [] {
      EveryRunKeepsInv(ttl, expiry, now, evs[..|evs| - 1]);
      NextKeepsInv(Exec(Initial(ttl, expiry, now), evs[..|evs| - 1]), evs[|evs| - 1]);
      hide Next;
      hide Inv;
    }
  }

  // ----- The cache agrees with the table -----

  /** A token added at a moment whose span it does not outlive is found until it expires or Redis is flushed. */
  lemma KeptIsFound(w: World, token: Token)
    requires Inv(w) && token in w.kept && token in w.expiry && w.now < w.expiry[token] <= w.kept[token] + Span(w.ttl)
    ensures Found(w.buckets, w.now, token.0, token.1)
  {
    assert KeptOk(w, w.buckets, w.kept, token);
    var d :| CoveredBy(w.buckets, w.now, token, w.expiry[token], d);
    CoverIsFound(w.buckets, w.now, token, w.expiry[token], d);
  }

  lemma CoverIsFound(b: Buckets, now: int, token: Token, expiresAt: int, d: int)
    requires CoveredBy(b, now, token, expiresAt, d) && now < expiresAt
    ensures Found(b, now, token.0, token.1)
  {
    assert DayOf(now) - 1 <= d <= DayOf(now);
  }

  /** Whatever is found had its revocation asked for by its own user, whether or not the row made it into the table. */
  lemma NothingUnrevokedIsFound(ttl: int, expiry: map<Token, int>, now: int, evs: seq<Event>, user: nat, jti: nat)
    requires ttl >= 1 && UniqueJtis(expiry)
    requires var w := Exec(Initial(ttl, expiry, now), evs); Found(w.buckets, w.now, user, jti)
    ensures (user, jti) in Exec(Initial(ttl, expiry, now), evs).asked
  {
    EveryRunKeepsInv(ttl, expiry, now, evs);
    var w := Exec(Initial(ttl, expiry, now), evs);
    hide Exec;
    assert (user, jti) in w.kept;
    assert KeptOk(w, w.buckets, w.kept, (user, jti));
  }

  /** What a rehydration keeps of a row: its token, at least as late as the row says. */
  lemma {:induction false} KeepAllHas(kept: map<Token, int>, rows: seq<Row>, token: Token, at: int)
    requires (token in kept && kept[token] >= at) || exists r :: r in rows && TokenOf(r) == token && r.revokedAt >= at
    ensures token in KeepAll(kept, rows) && KeepAll(kept, rows)[token] >= at
  {
    if rows != [] {
      var init, last := rows[..|rows| - 1], rows[|rows| - 1];
      if !(TokenOf(last) == token && last.revokedAt >= at) {
        if !(token in kept && kept[token] >= at) {
          var r :| r in rows && TokenOf(r) == token && r.revokedAt >= at;
          assert r in init;
        }
        KeepAllHas(kept, init, token, at);
      }
    }
  }

  lemma RehydrationKeeps(w: World, r: Row)
    requires r in w.rows && w.now < r.expiresAt <= r.revokedAt + Span(w.ttl)
    ensures var kept := Next(w, Rehydrate).kept; TokenOf(r) in kept && kept[TokenOf(r)] >= r.revokedAt
  {
    ReloadedIn(w.rows, w.now, r);
    KeepAllHas(w.kept, Reloaded(w.rows, w.now), TokenOf(r), r.revokedAt);
  }

  /** A rehydration restores every unexpired row written with at most a day to live, flushed or not. */
  lemma RehydrationRestoresTheTable(ttl: int, expiry: map<Token, int>, now: int, evs: seq<Event>, r: Row)
    requires ttl >= 1 && UniqueJtis(expiry)
    requires var w := Exec(Initial(ttl, expiry, now), evs);
             r in w.rows && w.now < r.expiresAt <= r.revokedAt + Span(ttl)
    ensures var w := Next(Exec(Initial(ttl, expiry, now), evs), Rehydrate); Found(w.buckets, w.now, r.user, r.jti)
  {
    EveryRunKeepsInv(ttl, expiry, now, evs);
    var w := Exec(Initial(ttl, expiry, now), evs);
    hide Exec;
    assert RowOk(w, r);
    RehydrationKeeps(w, r);
    NextKeepsInv(w, Rehydrate);
    KeptIsFound(Next(w, Rehydrate), TokenOf(r));
  }

  // ----- Runs in which Redis keeps up -----

  /** Redis was never flushed, or has been rehydrated since, however much happened in between. */
  predicate Restored(evs: seq<Event>) {
    evs == [] ||
    var before, ev := evs[..|evs| - 1], evs[|evs| - 1];
    ev.Rehydrate? || (!ev.Flush? && Restored(before))
  }

  /** A revocation of the token is between its two writes. */
  predicate IsPending(w: World, token: Token) { exists p :: p in w.pending && w.pending[p].token == token }

  /**
   * Since the last rehydration that found no revocation of this token pending, or from the start: every revocation
   * of this token reached Redis first, and every flush found none of them between its two writes.
   */
  predicate NothingMissed(w: World, evs: seq<Event>, token: Token) {
    evs == [] ||
    var before, ev := evs[..|evs| - 1], evs[|evs| - 1];
    || (ev.Rehydrate? && !IsPending(Exec(w, before), token))
    || (&& NothingMissed(w, before, token)
        && (ev.Begin? && ev.token == token ==> ev.redisUp)
        && (ev.Flush? ==> !IsPending(Exec(w, before), token)))
  }

  /** Redis was told of the token at `at` or later. */
  predicate KeptSince(w: World, token: Token, at: int) { token in w.kept && w.kept[token] >= at }

  /** The token of this row is unexpired, and its revocation began with at most a day to live. */
  predicate Matters(w: World, r: Row) { r in w.begun && w.now < r.expiresAt <= w.begun[r] + Span(w.ttl) }

  /** Redis knows every row of the token that matters. */
  predicate TableKnown(w: World, token: Token) {
    forall r | r in w.rows && TokenOf(r) == token && Matters(w, r) :: KeptSince(w, token, w.begun[r])
  }

  /** Redis knows every revocation of the token that is between its two writes. */
  predicate PendingKnown(w: World, token: Token) {
    forall p | p in w.pending && w.pending[p].token == token :: KeptSince(w, token, w.pending[p].begunAt)
  }

  lemma KeptLater(w: World, ev: Event, token: Token, at: int)
    requires KeptSince(w, token, at) && !ev.Flush?
    ensures KeptSince(Next(w, ev), token, at)
  {
    if ev.Rehydrate? { KeepAllHas(w.kept, Reloaded(w.rows, w.now), token, at); }
  }

  /** A row was there before, or a revocation has just written it. */
  lemma RowsComeFromRevocations(w: World, ev: Event, r: Row)
    requires r in Next(w, ev).rows && r in Next(w, ev).begun
    ensures var begunAt := Next(w, ev).begun[r];
            || (r in w.rows && r in w.begun && begunAt == w.begun[r])
            || (ev.Insert? && ev.p in w.pending && w.pending[ev.p] == Revocation(TokenOf(r), begunAt))
  {}

  /** A revocation was pending before, or has just begun and told Redis. */
  lemma PendingComesFromBegin(w: World, ev: Event, p: nat)
    requires p in Next(w, ev).pending
    requires ev.Begin? && ev.token == Next(w, ev).pending[p].token ==> ev.redisUp
    ensures var x := Next(w, ev).pending[p];
            (p in w.pending && x == w.pending[p]) || KeptSince(Next(w, ev), x.token, x.begunAt)
  {}

  lemma StepKeepsPendingKnown(w: World, ev: Event, token: Token)
    requires PendingKnown(w, token) && (ev.Begin? && ev.token == token ==> ev.redisUp)
    requires ev.Flush? ==> !IsPending(w, token)
    ensures PendingKnown(Next(w, ev), token)
  {
    var w' := Next(w, ev);
    hide Next;
    hide KeptSince;
    forall p | p in w'.pending && w'.pending[p].token == token ensures KeptSince(w', token, w'.pending[p].begunAt) {
      PendingComesFromBegin(w, ev, p);
      if p in w.pending && w'.pending[p] == w.pending[p] { KeptLater(w, ev, token, w.pending[p].begunAt); }
    }
  }

  lemma StepKeepsTableKnown(w: World, ev: Event, token: Token)
    requires TableKnown(w, token) && PendingKnown(w, token) && !ev.Flush?
    ensures TableKnown(Next(w, ev), token)
  {
    var w' := Next(w, ev);
    NextKeepsTerms(w, ev);
    hide Next;
    hide KeptSince;
    forall r | r in w'.rows && TokenOf(r) == token && Matters(w', r) ensures KeptSince(w', token, w'.begun[r]) {
      RowsComeFromRevocations(w, ev, r);
      if r in w.rows && r in w.begun && w'.begun[r] == w.begun[r] { assert Matters(w, r); }
      KeptLater(w, ev, token, w'.begun[r]);
    }
  }

  lemma RehydrationCatchesUp(w: World, token: Token)
    requires Inv(w)
    ensures TableKnown(Next(w, Rehydrate), token)
    ensures !IsPending(w, token) ==> PendingKnown(Next(w, Rehydrate), token)
  {
    forall r | r in w.rows && TokenOf(r) == token && Matters(w, r)
      ensures KeptSince(Next(w, Rehydrate), token, w.begun[r])
    {
      assert RowOk(w, r);
      RehydrationKeeps(w, r);
    }
  }

  lemma {:induction false} RunsKeepRedisInformed(ttl: int, expiry: map<Token, int>, now: int, evs: seq<Event>,
                                                 token: Token)
    requires ttl >= 1 && UniqueJtis(expiry) && NothingMissed(Initial(ttl, expiry, now), evs, token)
    ensures var w := Exec(Initial(ttl, expiry, now), evs);
            PendingKnown(w, token) && (Restored(evs) ==> TableKnown(w, token))
  {
    if evs != [] {
      var before, ev := evs[..|evs| - 1], evs[|evs| - 1];
      EveryRunKeepsInv(ttl, expiry, now, before);
      var w := Exec(Initial(ttl, expiry, now), before);
      if ev.Rehydrate? { RehydrationCatchesUp(w, token); }
      if !(ev.Rehydrate? && !IsPending(w, token)) {
        RunsKeepRedisInformed(ttl, expiry, now, before, token);
        StepKeepsPendingKnown(w, ev, token);
        if !ev.Rehydrate? && Restored(evs) { StepKeepsTableKnown(w, ev, token); }
      }
      hide Next;
      hide TableKnown;
      hide PendingKnown;
    }
  }

  /**
   * Once restored, with nothing missed of the token, Redis shows every unexpired row of the durable table whose own
   * revocation began with at most a day to live, whatever became of earlier revocations and of other tokens.
   */
  lemma TheTableIsFound(ttl: int, expiry: map<Token, int>, now: int, evs: seq<Event>, r: Row)
    requires ttl >= 1 && UniqueJtis(expiry)
    requires Restored(evs) && NothingMissed(Initial(ttl, expiry, now), evs, TokenOf(r))
    requires var w := Exec(Initial(ttl, expiry, now), evs); r in w.rows && Matters(w, r)
    ensures var w := Exec(Initial(ttl, expiry, now), evs); Found(w.buckets, w.now, r.user, r.jti)
  {
    EveryRunKeepsInv(ttl, expiry, now, evs);
    RunsKeepRedisInformed(ttl, expiry, now, evs, TokenOf(r));
    var w := Exec(Initial(ttl, expiry, now), evs);
    hide Exec;
    assert RowOk(w, r);
    KeptIsFound(w, TokenOf(r));
  }

  /** The second write of every revocation of the token reaches the table. */
  predicate Durable(w: World, evs: seq<Event>, token: Token) {
    evs == [] ||
    var before, ev := evs[..|evs| - 1], evs[|evs| - 1];
    && Durable(w, before, token)
    && (ev.Insert? && ev.p in Exec(w, before).pending && Exec(w, before).pending[ev.p].token == token ==> ev.dbUp)
  }

  /** The table knows the token, or its revocation is between the two writes. */
  predicate InTable(w: World, token: Token) {
    (exists r :: r in w.rows && TokenOf(r) == token) || IsPending(w, token)
  }

  /** One of those revocations began with at most a day to live. */
  predicate RevokedInTime(w: World, token: Token) {
    && token in w.expiry
    && (|| (exists r :: r in w.rows && TokenOf(r) == token && r in w.begun
                        && w.expiry[token] <= w.begun[r] + Span(w.ttl))
        || (exists p :: p in w.pending && w.pending[p].token == token
                        && w.expiry[token] <= w.pending[p].begunAt + Span(w.ttl)))
  }

  lemma {:induction false} KeepAllAdds(kept: map<Token, int>, rows: seq<Row>, token: Token)
    requires token in KeepAll(kept, rows)
    ensures token in kept || exists r :: r in rows && TokenOf(r) == token
  {
    if rows != [] && token != TokenOf(rows[|rows| - 1]) { KeepAllAdds(kept, rows[..|rows| - 1], token); }
  }

  lemma StepAddsOnlyTheTable(w: World, ev: Event, token: Token)
    requires Inv(w) && (ev.Insert? && ev.p in w.pending && w.pending[ev.p].token == token ==> ev.dbUp)
    requires token in w.kept ==> InTable(w, token)
    requires token in Next(w, ev).kept
    ensures InTable(Next(w, ev), token)
  {
    var w' := Next(w, ev);
    match ev {
      case Begin(p, t, redisUp) => BeginKeepsTable(w, p, t, redisUp, token);
      case Insert(p, dbUp) => InsertKeepsTable(w, p, dbUp, token);
      case Check(t, _, _) =>
        if token !in w.kept {
          var r :| r in w.rows && r.jti == token.1 && r.expiresAt > w.now;
          assert RowOk(w, r) && TokenOf(r) == token;
        }
      case Rehydrate =>
        if token !in w.kept {
          KeepAllAdds(w.kept, Reloaded(w.rows, w.now), token);
          var r :| r in Reloaded(w.rows, w.now) && TokenOf(r) == token;
          ReloadedIn(w.rows, w.now, r);
        }
      case _ =>
    }
  }

  /** An insertion turns a pending token into a row. */
  lemma InsertKeepsTable(w: World, p: nat, dbUp: bool, token: Token)
    requires Inv(w) && InTable(w, token) && (p in w.pending && w.pending[p].token == token ==> dbUp)
    ensures InTable(Next(w, Insert(p, dbUp)), token)
  {
    hide CacheOk;
    var w' := Next(w, Insert(p, dbUp));
    if r :| r in w.rows && TokenOf(r) == token {
      assert r in w'.rows;
    } else {
      var q :| q in w.pending && w.pending[q].token == token;
      if q == p {
        assert PendingOk(w, w.pending[q]);
        var r := w'.rows[|w.rows|];
        assert r in w'.rows && TokenOf(r) == token;
      } else {
        assert w'.pending[q].token == token;
      }
    }
  }

  /** A begun revocation is pending. */
  lemma BeginKeepsTable(w: World, p: nat, t: Token, redisUp: bool, token: Token)
    requires InTable(w, token) || (t == token && Next(w, Begin(p, t, redisUp)) != w)
    ensures InTable(Next(w, Begin(p, t, redisUp)), token)
  {
    var w' := Next(w, Begin(p, t, redisUp));
    if r :| r in w.rows && TokenOf(r) == token {
      assert r in w'.rows;
    } else if q :| q in w.pending && w.pending[q].token == token {
      assert w'.pending[q].token == token;
    } else {
      assert w'.pending[p].token == token;
    }
  }

  lemma {:induction false} DurableRunsAddOnlyTheTable(
      ttl: int, expiry: map<Token, int>, now: int, evs: seq<Event>, token: Token)
    requires ttl >= 1 && UniqueJtis(expiry) && Durable(Initial(ttl, expiry, now), evs, token)
    ensures var w := Exec(Initial(ttl, expiry, now), evs); token in w.kept ==> InTable(w, token)
  {
    if evs != [] {
      var before, ev := evs[..|evs| - 1], evs[|evs| - 1];
      DurableRunsAddOnlyTheTable(ttl, expiry, now, before, token);
      EveryRunKeepsInv(ttl, expiry, now, before);
      var w := Exec(Initial(ttl, expiry, now), before);
      if token in Next(w, ev).kept { StepAddsOnlyTheTable(w, ev, token); }
    }
  }

  /**
   * The cache agrees with the table. If the inserts of the token's revocations succeed, it is found only if it is in
   * the table or between its two writes. Once Redis is restored, with nothing missed of the token, it is found until
   * it expires if one of those revocations began with at most a day to live. Between the two lie only the tokens all
   * of whose revocations began earlier.
   */
  lemma CacheAgreesWithTable(ttl: int, expiry: map<Token, int>, now: int, evs: seq<Event>, token: Token)
    requires ttl >= 1 && UniqueJtis(expiry)
    ensures var w0 := Initial(ttl, expiry, now); var w := Exec(w0, evs);
            && (Durable(w0, evs, token) && Found(w.buckets, w.now, token.0, token.1) ==> InTable(w, token))
            && (Restored(evs) && NothingMissed(w0, evs, token) && RevokedInTime(w, token) && w.now < w.expiry[token] ==>
                  Found(w.buckets, w.now, token.0, token.1))
  {
    var w0 := Initial(ttl, expiry, now);
    var w := Exec(w0, evs);
    EveryRunKeepsInv(ttl, expiry, now, evs);
    if Durable(w0, evs, token) { DurableRunsAddOnlyTheTable(ttl, expiry, now, evs, token); }
    if Restored(evs) && NothingMissed(w0, evs, token) && RevokedInTime(w, token) && w.now < expiry[token] {
      RunsKeepRedisInformed(ttl, expiry, now, evs, token);
      hide Exec;
      if r :| r in w.rows && TokenOf(r) == token && r in w.begun && expiry[token] <= w.begun[r] + Span(w.ttl) {
        assert RowOk(w, r) && Matters(w, r);
      }
      KeptIsFound(w, token);
    }
  }

  // ----- What the table and a rehydration know -----

  /** Some revocation of the token has committed its insert. */
  predicate Committed(w: World, evs: seq<Event>, token: Token) {
    evs != [] &&
    var before, ev := evs[..|evs| - 1], evs[|evs| - 1];
    || Committed(w, before, token)
    || (&& ev.Insert? && ev.dbUp && ev.p in Exec(w, before).pending && Exec(w, before).pending[ev.p].token == token)
  }

  lemma {:induction false} RowsAreCommitted(ttl: int, expiry: map<Token, int>, now: int, evs: seq<Event>, token: Token)
    requires ttl >= 1 && UniqueJtis(expiry)
    ensures var w0 := Initial(ttl, expiry, now);
            (exists r :: r in Exec(w0, evs).rows && TokenOf(r) == token) <==> Committed(w0, evs, token)
  {
    if evs != [] {
      var w0, before, ev := Initial(ttl, expiry, now), evs[..|evs| - 1], evs[|evs| - 1];
      RowsAreCommitted(ttl, expiry, now, before, token);
      EveryRunKeepsInv(ttl, expiry, now, before);
      InsertCommits(Exec(w0, before), ev, token);
      hide Inv;
      hide Next;
    }
  }

  lemma InsertCommits(w: World, ev: Event, token: Token)
    requires Inv(w)
    ensures (exists r :: r in Next(w, ev).rows && TokenOf(r) == token) <==>
            || (exists r :: r in w.rows && TokenOf(r) == token)
            || (ev.Insert? && ev.dbUp && ev.p in w.pending && w.pending[ev.p].token == token)
  {
    hide CacheOk;
    if ev.Insert? && ev.p in w.pending {
      assert PendingOk(w, w.pending[ev.p]);
      if ev.dbUp { assert Next(w, ev).rows[|w.rows|] in Next(w, ev).rows; }
    }
    forall r | r in w.rows ensures r in Next(w, ev).rows {}
  }

  /**
   * In every run the table answers that a token is revoked if and only if one of its inserts has committed, and only
   * until it expires.
   */
  lemma RevokedExactlyWhen(ttl: int, expiry: map<Token, int>, now: int, evs: seq<Event>, token: Token)
    requires ttl >= 1 && UniqueJtis(expiry) && token in expiry
    ensures var w0 := Initial(ttl, expiry, now); var w := Exec(w0, evs);
            Revoked(w.rows, w.now, token.1) <==> Committed(w0, evs, token) && w.now < expiry[token]
  {
    var w := Exec(Initial(ttl, expiry, now), evs);
    RowsAreCommitted(ttl, expiry, now, evs, token);
    EveryRunKeepsInv(ttl, expiry, now, evs);
    hide Exec;
    hide CacheOk;
    assert forall r | r in w.rows :: RowOk(w, r) && (r.jti == token.1 <==> TokenOf(r) == token);
  }

  /** The identifiers in those rows that belong to a user and day. */
  function JtisOf(rows: seq<Row>, user: nat, day: int): set<nat> {
    set r | r in rows && r.user == user && DayOf(r.revokedAt) == day :: r.jti
  }

  /** A bulk addition adds to each bucket exactly the rows of its user and day. */
  lemma {:induction false} AddAllAdds(b: Buckets, now: int, ttl: int, rows: seq<Row>, user: nat, day: int)
    requires ttl >= 1
    ensures Members(AddAll(b, now, ttl, rows), now, user, day) == Members(b, now, user, day) + JtisOf(rows, user, day)
  {
    if rows != [] {
      var init, r := rows[..|rows| - 1], rows[|rows| - 1];
      AddAllAdds(b, now, ttl, init, user, day);
      assert rows == init + [r];
      assert JtisOf(rows, user, day) == JtisOf(init, user, day) + JtisOf([r], user, day);
      assert JtisOf([r], user, day) == if r.user == user && DayOf(r.revokedAt) == day then {r.jti} else {};
    }
  }

  /** A rehydration adds to each bucket the unexpired revocations of its user and day made in the last day. */
  lemma RehydrationAdds(w: World, user: nat, day: int)
    requires w.ttl >= 1
    ensures Members(Next(w, Rehydrate).buckets, w.now, user, day) ==
            Members(w.buckets, w.now, user, day)
            + set r | r in w.rows && r.user == user && DayOf(r.revokedAt) == day
                      && w.now - DAY <= r.revokedAt && w.now < r.expiresAt :: r.jti
  {
    AddAllAdds(w.buckets, w.now, w.ttl, Reloaded(w.rows, w.now), user, day);
    forall r { ReloadedIn(w.rows, w.now, r); }
  }

  // ----- Where the cache and the table part -----

  lemma ExecAppend(w: World, evs: seq<Event>, ev: Event)
    ensures Exec(w, evs + [ev]) == Next(Exec(w, evs), ev)
  {
    assert (evs + [ev])[..|evs|] == evs;
  }

  lemma ExecTwo(w: World, e1: Event, e2: Event)
    ensures Exec(w, [e1, e2]) == Next(Next(w, e1), e2)
  {
    ExecAppend(w, [], e1);
    ExecAppend(w, [e1], e2);
    assert [] + [e1] == [e1] && [e1] + [e2] == [e1, e2];
  }

  /** A revocation and its row are there, and began with at most a day to live. */
  predicate RowInTime(w: World, token: Token) {
    exists r :: r in w.rows && TokenOf(r) == token && Matters(w, r)
  }

  /** A flush and rehydration between the two writes of a revocation leave its row unseen. */
  lemma FlushBetweenWritesLosesToken(ttl: int, token: Token, now: int, expiresAt: int)
    requires ttl >= 1 && now < expiresAt <= now + Span(ttl)
    ensures var evs := [Begin(0, token, true), Flush, Rehydrate, Insert(0, true)];
            var w := Exec(Initial(ttl, map[token := expiresAt], now), evs);
            RowInTime(w, token) && !Found(w.buckets, w.now, token.0, token.1)
  {
    var w0 := Initial(ttl, map[token := expiresAt], now);
    var begin, insert := Begin(0, token, true), Insert(0, true);
    ExecTwo(w0, begin, Flush);
    ExecAppend(w0, [begin, Flush], Rehydrate);
    ExecAppend(w0, [begin, Flush, Rehydrate], insert);
    assert [begin, Flush] + [Rehydrate] == [begin, Flush, Rehydrate];
    assert [begin, Flush, Rehydrate] + [insert] == [begin, Flush, Rehydrate, insert];
    var w1 := Next(w0, begin);
    var w3 := Next(Next(w1, Flush), Rehydrate);
    assert w3 == w1.(buckets := map[], kept := map[]);
    var r := Row(token.0, token.1, now, expiresAt);
    assert r in Next(w3, insert).rows && Matters(Next(w3, insert), r);
  }

  /** A row is not seen after a flush until Redis is rehydrated. */
  lemma FlushLosesToken(ttl: int, token: Token, now: int, expiresAt: int)
    requires ttl >= 1 && now < expiresAt <= now + Span(ttl)
    ensures var evs := [Begin(0, token, true), Insert(0, true)] + [Flush];
            var w := Exec(Initial(ttl, map[token := expiresAt], now), evs);
            RowInTime(w, token) && !Found(w.buckets, w.now, token.0, token.1)
  {
    var w0 := Initial(ttl, map[token := expiresAt], now);
    ExecTwo(w0, Begin(0, token, true), Insert(0, true));
    ExecAppend(w0, [Begin(0, token, true), Insert(0, true)], Flush);
    var w := Next(Next(Next(w0, Begin(0, token, true)), Insert(0, true)), Flush);
    var r := Row(token.0, token.1, now, expiresAt);
    assert r in w.rows && Matters(w, r);
  }

  /** A revocation whose Redis write failed is not seen either, although nothing was flushed. */
  lemma FailedWriteLosesToken(ttl: int, token: Token, now: int, expiresAt: int)
    requires ttl >= 1 && now < expiresAt <= now + Span(ttl)
    ensures var w := Exec(Initial(ttl, map[token := expiresAt], now), [Begin(0, token, false), Insert(0, true)]);
            RowInTime(w, token) && !Found(w.buckets, w.now, token.0, token.1)
  {
    var w0 := Initial(ttl, map[token := expiresAt], now);
    ExecTwo(w0, Begin(0, token, false), Insert(0, true));
    var w := Next(Next(w0, Begin(0, token, false)), Insert(0, true));
    var r := Row(token.0, token.1, now, expiresAt);
    assert r in w.rows && Matters(w, r);
  }

  /** A revocation whose insert failed is found although the table does not know it. */
  lemma FailedInsertIsStillFound(ttl: int, token: Token, now: int, expiresAt: int)
    requires ttl >= 1 && now < expiresAt <= now + Span(ttl)
    ensures var w := Exec(Initial(ttl, map[token := expiresAt], now), [Begin(0, token, true), Insert(0, false)]);
            Found(w.buckets, w.now, token.0, token.1) && !InTable(w, token)
  {
    var w0 := Initial(ttl, map[token := expiresAt], now);
    ExecTwo(w0, Begin(0, token, true), Insert(0, false));
    assert Next(Next(w0, Begin(0, token, true)), Insert(0, false)).pending == map[];
  }

  /** Revoked with more than two days to live, and again two days later. */
  function RevokedEarly(token: Token): seq<Event> { [Begin(0, token, true), Insert(0, true)] + [Tick(2 * DAY)] }

  function RevokedTwice(token: Token): seq<Event> {
    RevokedEarly(token) + [Begin(1, token, true)] + [Insert(1, true)]
  }

  lemma KeepsUpAppend(w: World, evs: seq<Event>, ev: Event, token: Token)
    requires Restored(evs) && NothingMissed(w, evs, token) && Durable(w, evs, token)
    requires ev == Tick(2 * DAY) || (ev.Begin? && ev.redisUp) || (ev.Insert? && ev.dbUp)
    ensures Restored(evs + [ev]) && NothingMissed(w, evs + [ev], token) && Durable(w, evs + [ev], token)
  {
    assert (evs + [ev])[..|evs|] == evs;
  }

  lemma RevokedTwiceKeepsUp(w: World, token: Token)
    ensures var evs := RevokedTwice(token); Restored(evs) && NothingMissed(w, evs, token) && Durable(w, evs, token)
  {
    KeepsUpAppend(w, [], Begin(0, token, true), token);
    KeepsUpAppend(w, [Begin(0, token, true)], Insert(0, true), token);
    assert [] + [Begin(0, token, true)] == [Begin(0, token, true)];
    assert [Begin(0, token, true)] + [Insert(0, true)] == [Begin(0, token, true), Insert(0, true)];
    KeepsUpAppend(w, [Begin(0, token, true), Insert(0, true)], Tick(2 * DAY), token);
    KeepsUpAppend(w, RevokedEarly(token), Begin(1, token, true), token);
    KeepsUpAppend(w, RevokedEarly(token) + [Begin(1, token, true)], Insert(1, true), token);
  }

  /** Two days later the row is there, and its bucket belongs to neither day that is looked up. */
  predicate Forgotten(w: World, token: Token, now: int, expiresAt: int) {
    && w.expiry == map[token := expiresAt] && w.now == now + 2 * DAY && w.pending == map[]
    && w.rows == [Row(token.0, token.1, now, expiresAt)]
    && w.buckets == map[(token.0, DayOf(now)) := Bucket({token.1}, now + w.ttl)]
  }

  lemma RevokedEarlyIsForgotten(ttl: int, token: Token, now: int, expiresAt: int)
    requires ttl >= 1
    ensures var w := Exec(Initial(ttl, map[token := expiresAt], now), RevokedEarly(token));
            Forgotten(w, token, now, expiresAt) && w.ttl == ttl
  {
    var w0 := Initial(ttl, map[token := expiresAt], now);
    ExecTwo(w0, Begin(0, token, true), Insert(0, true));
    ExecAppend(w0, [Begin(0, token, true), Insert(0, true)], Tick(2 * DAY));
    assert Next(w0, Begin(0, token, true)).pending == map[0 := Revocation(token, now)];
    assert Members(map[], now, token.0, DayOf(now)) + {token.1} == {token.1};
  }

  lemma RevokedAgainIsFound(w: World, token: Token, now: int, expiresAt: int)
    requires Forgotten(w, token, now, expiresAt) && w.ttl >= DAY && w.now < expiresAt <= w.now + DAY
    ensures var w' := Next(Next(w, Begin(1, token, true)), Insert(1, true));
            RowInTime(w', token) && Found(w'.buckets, w'.now, token.0, token.1)
  {
    var w' := Next(Next(w, Begin(1, token, true)), Insert(1, true));
    var r := Row(token.0, token.1, w.now, expiresAt);
    assert r in w'.rows && Matters(w', r);
  }

  /**
   * A token revoked with more than two days to live falls out of the two days looked up, although its row is there
   * and no write failed; revoked again on its last day it is found.
   */
  lemma EarlyRevocationIsForgotten(ttl: int, token: Token, now: int, expiresAt: int)
    requires ttl >= DAY && now + 2 * DAY < expiresAt <= now + 3 * DAY
    ensures var w0 := Initial(ttl, map[token := expiresAt], now);
            var early, late := Exec(w0, RevokedEarly(token)), Exec(w0, RevokedTwice(token));
            && Restored(RevokedTwice(token)) && NothingMissed(w0, RevokedTwice(token), token)
            && Durable(w0, RevokedTwice(token), token)
            && Revoked(early.rows, early.now, token.1) && !Found(early.buckets, early.now, token.0, token.1)
            && RowInTime(late, token) && Found(late.buckets, late.now, token.0, token.1)
  {
    var w0 := Initial(ttl, map[token := expiresAt], now);
    RevokedTwiceKeepsUp(w0, token);
    RevokedEarlyIsForgotten(ttl, token, now, expiresAt);
    var early := Exec(w0, RevokedEarly(token));
    assert Row(token.0, token.1, now, expiresAt) in early.rows;
    RevokedAgainIsFound(early, token, now, expiresAt);
    ExecAppend(w0, RevokedEarly(token), Begin(1, token, true));
    ExecAppend(w0, RevokedEarly(token) + [Begin(1, token, true)], Insert(1, true));
    hide Next;
    hide Restored;
    hide NothingMissed;
    hide Durable;
  }

  predicate FoundAt(at: int, now: int, ttl: int) { Found(Add(map[], at, ttl, 0, DayOf(at), 0), now, 0, 0) }

  /** Is a token added at `at` found at every moment of its remaining `life`? */
  ghost predicate FoundFor(at: int, life: nat, ttl: int) {
    forall now | at <= now < at + life :: FoundAt(at, now, ttl)
  }

  ghost predicate AlwaysFound(life: nat, ttl: int) { forall at :: FoundFor(at, life, ttl) }

  /**
   * One addition is enough for a remaining life of `life` ticks, whenever it happens, if and only if the life
   * exceeds neither the bucket's time to live nor one day and the tick in which the token expires.
   */
  lemma LifeThatIsCovered(life: nat, ttl: int)
    ensures AlwaysFound(life, ttl) <==> life == 0 || (life <= ttl && life <= DAY + 1)
  {
    if life > 0 && !(life <= ttl && life <= DAY + 1) {
      var at := DAY - 1;
      assert !FoundAt(at, at + life - 1, ttl);
      assert !FoundFor(at, life, ttl);
    } else {
      forall at ensures FoundFor(at, life, ttl) {
        forall now | at <= now < at + life ensures FoundAt(at, now, ttl) {}
      }
    }
  }

  // ----- The code in its own form -----

  class RevocationStore {
    var buckets: Buckets
    var rows: seq<Row>

    constructor ()
      ensures buckets == map[] && rows == []
    {
      buckets, rows := map[], [];
    }

    method RevokeJti(now: int, user: nat, jti: nat, expiresAt: int, ttl: int, redisUp: bool)
      modifies this
      ensures buckets ==
              if redisUp then Add(old(buckets), now, if ttl < 1 then 1 else ttl, user, DayOf(now), jti)
              else old(buckets)
      ensures rows == old(rows) + [Row(user, jti, now, expiresAt)]
    {
      if redisUp {
        SetAdd(now, if ttl < 1 then 1 else ttl, user, DayOf(now), jti);
      }
      rows := rows + [Row(user, jti, now, expiresAt)];
    }

    method SetAdd(now: int, ttl: int, user: nat, day: int, jti: nat)
      modifies this`buckets
      ensures buckets == Add(old(buckets), now, ttl, user, day, jti)
    {
      var members := {};
      if (user, day) in buckets && now < buckets[(user, day)].expireAt {
        members := buckets[(user, day)].members;
      }
      buckets := buckets[(user, day) := Bucket(members + {jti}, now + ttl)];
    }

    /** Redis first; the table only if Redis is down, and then the answer is written through. */
    method IsTokenRevoked(now: int, user: nat, jti: nat, ttl: int, redisUp: bool, writes: bool) returns (revoked: bool)
      modifies this`buckets
      ensures revoked == if redisUp then Found(old(buckets), now, user, jti) else Revoked(rows, now, jti)
      ensures buckets == if !redisUp && revoked
           && writes then Add(old(buckets), now, ttl, user, DayOf(now), jti) else old(buckets)
    {
      if redisUp {
        return jti in Members(buckets, now, user, DayOf(now)) || jti in Members(buckets, now, user, DayOf(now) - 1);
      }
      var i := 0;
      revoked := false;
      while i < |rows| && !revoked
        invariant 0 <= i <= |rows|
        invariant revoked ==> Revoked(rows, now, jti)
        invariant !revoked ==> forall k | 0 <= k < i :: rows[k].jti != jti || rows[k].expiresAt <= now
        invariant buckets == old(buckets)
      {
        revoked := rows[i].jti == jti && rows[i].expiresAt > now;
        assert revoked ==> rows[i] in rows;
        i := i + 1;
      }
      if revoked && writes {
        SetAdd(now, ttl, user, DayOf(now), jti);
      }
    }

    /** Adds every active row of the last day to the bucket of the day it was revoked on. */
    method RehydrateRevocationCache(now: int, ttl: int) returns (count: nat)
      modifies this`buckets
      ensures buckets == AddAll(old(buckets), now, ttl, Reloaded(rows, now))
      ensures count == |Reloaded(rows, now)|
    {
      count := 0;
      var i := 0;
      while i < |rows|
        invariant 0 <= i <= |rows|
        invariant buckets == AddAll(old(buckets), now, ttl, Reloaded(rows[..i], now))
        invariant count == |Reloaded(rows[..i], now)|
      {
        var r := rows[i];
        assert rows[..i + 1][..i] == rows[..i];
        if Reloads(r, now) {
          ghost var before := Reloaded(rows[..i], now);
          assert Reloaded(rows[..i + 1], now) == before + [r];
          assert (before + [r])[..|before|] == before;
          assert AddAll(old(buckets), now, ttl, before + [r]) ==
                 Add(buckets, now, ttl, r.user, DayOf(r.revokedAt), r.jti);
          SetAdd(now, ttl, r.user, DayOf(r.revokedAt), r.jti);
          count := count + 1;
        } else {
          assert Reloaded(rows[..i + 1], now) == Reloaded(rows[..i], now);
        }
        i := i + 1;
      }
      assert rows[..|rows|] == rows;
    }
  }

  // ----- The code and the steps -----

  /** A revocation's two steps, with nothing in between, leave what `RevokeJti` leaves. */
  lemma RevokeMatchesSteps(w: World, p: nat, token: Token, redisUp: bool)
    requires p !in w.pending && token in w.expiry
    ensures var w' := Next(Next(w, Begin(p, token, redisUp)), Insert(p, true));
            var ttl := if w.ttl < 1 then 1 else w.ttl;
            && w'.buckets == (if redisUp then Add(w.buckets, w.now, ttl, token.0, DayOf(w.now), token.1) else w.buckets)
            && w'.rows == w.rows + [Row(token.0, token.1, w.now, w.expiry[token])]
            && w'.pending == w.pending
  {
    assert w.pending[p := Revocation(token, w.now)] - {p} == w.pending;
  }

  /** A lookup's and a rehydration's step leave what `IsTokenRevoked` and `RehydrateRevocationCache` leave. */
  lemma LookupsMatchSteps(w: World, token: Token, redisUp: bool, writes: bool)
    requires token in w.expiry
    ensures var revoked :=
              if redisUp then Found(w.buckets, w.now, token.0, token.1) else Revoked(w.rows, w.now, token.1);
            Next(w, Check(token, redisUp, writes)).buckets ==
              if !redisUp && revoked && writes then Add(w.buckets, w.now, w.ttl, token.0, DayOf(w.now), token.1)
              else w.buckets
    ensures Next(w, Rehydrate).buckets == AddAll(w.buckets, w.now, w.ttl, Reloaded(w.rows, w.now))
  {}
}
