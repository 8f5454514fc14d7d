/** The TigerBeetle ledger as Solution 4 uses it: accounts, two-phase holds and top-ups. */
module Ledger {
  import opened Sums

  datatype AccountId = Revenue | Escrow | User(user: nat)

  /** The four running totals that the ledger keeps for an account. */
  datatype Account = Account(debitsPending: int, debitsPosted: int, creditsPending: int, creditsPosted: int)

  const EMPTY_ACCOUNT := Account(0, 0, 0, 0)

  datatype HoldState = Pending | Posted | Voided | Expired

  /** A hold moves credits user -> escrow in two phases; a top-up moves revenue -> user at once. */
  datatype Transfer =
    | Hold(user: nat, amount: nat, state: HoldState)
    | TopUp(user: nat, amount: nat)

  datatype Book = Book(accounts: map<AccountId, Account>, transfers: map<nat, Transfer>)

  const OPENING := Book(map[Revenue := EMPTY_ACCOUNT, Escrow := EMPTY_ACCOUNT], map[])

  // ----- Operations -----

  function EnsureUser(b: Book, u: nat): Book {
    if User(u) in b.accounts then b else b.(accounts := b.accounts[User(u) := EMPTY_ACCOUNT])
  }

  /** Credits a user can still spend; an unknown account has none. */
  function Available(b: Book, u: nat): int {
    if User(u) in b.accounts then
      var a := b.accounts[User(u)];
      a.creditsPosted - a.debitsPosted - a.debitsPending
    else 0
  }

  function Reserve(b: Book, u: nat, tid: nat, amount: nat): (Book, bool) {
    if tid in b.transfers || User(u) !in b.accounts || Escrow !in b.accounts || Available(b, u) < amount then
      (b, false)
    else
      var debit, credit := b.accounts[User(u)], b.accounts[Escrow];
      (Book(b.accounts[User(u) := debit.(debitsPending := debit.debitsPending + amount)]
            [Escrow := credit.(creditsPending := credit.creditsPending + amount)],
            b.transfers[tid := Hold(u, amount, Pending)]),
       true)
  }

  predicate IsPending(b: Book, tid: nat) {
    tid in b.transfers && b.transfers[tid].Hold? && b.transfers[tid].state.Pending?
  }

  predicate IsPosted(b: Book, tid: nat) {
    tid in b.transfers && b.transfers[tid].Hold? && b.transfers[tid].state.Posted?
  }

  /** Ends a pending hold; only posting keeps the amount. */
  function Settle(b: Book, tid: nat, outcome: HoldState): (Book, bool)
    requires !outcome.Pending?
  {
    if !IsPending(b, tid) || User(b.transfers[tid].user) !in b.accounts || Escrow !in b.accounts then
      (b, false)
    else
      var h := b.transfers[tid];
      var kept := if outcome.Posted? then h.amount else 0;
      var debit, credit := b.accounts[User(h.user)], b.accounts[Escrow];
      (Book(b.accounts[User(h.user) := debit.(debitsPending := debit.debitsPending - h.amount,
                                              debitsPosted := debit.debitsPosted + kept)]
            [Escrow := credit.(creditsPending := credit.creditsPending - h.amount,
                               creditsPosted := credit.creditsPosted + kept)],
            b.transfers[tid := h.(state := outcome)]),
       true)
  }

  function Capture(b: Book, tid: nat): (Book, bool) { Settle(b, tid, Posted) }

  function Release(b: Book, tid: nat): (Book, bool) { Settle(b, tid, Voided) }

  function TimeOut(b: Book, tid: nat): Book { Settle(b, tid, Expired).0 }

  /** A replay of the very same top-up succeeds without moving money again. */
  function Deposit(b: Book, u: nat, tid: nat, amount: nat): (Book, bool) {
    if tid in b.transfers then (b, b.transfers[tid] == TopUp(u, amount))
    else if User(u) !in b.accounts || Revenue !in b.accounts then (b, false)
    else
      var debit, credit := b.accounts[Revenue], b.accounts[User(u)];
      (Book(b.accounts[Revenue := debit.(debitsPosted := debit.debitsPosted + amount)]
            [User(u) := credit.(creditsPosted := credit.creditsPosted + amount)],
            b.transfers[tid := TopUp(u, amount)]),
       true)
  }

  // ----- What the totals mean -----

  /** Which transfers a total counts. */
  datatype Slice =
    | HeldFrom(user: nat) | ChargedTo(user: nat) | DepositedTo(user: nat)
    | AllHeld | AllCharged | AllDeposited

  function Share(q: Slice, t: Transfer): int {
    match q
    case HeldFrom(u) => if t.Hold? && t.user == u && t.state.Pending? then t.amount else 0
    case ChargedTo(u) => if t.Hold? && t.user == u && t.state.Posted? then t.amount else 0
    case DepositedTo(u) => if t.TopUp? && t.user == u then t.amount else 0
    case AllHeld => if t.Hold? && t.state.Pending? then t.amount else 0
    case AllCharged => if t.Hold? && t.state.Posted? then t.amount else 0
    case AllDeposited => if t.TopUp? then t.amount else 0
  }

  ghost function Shares(ts: map<nat, Transfer>, q: Slice): map<nat, int> {
    map k | k in ts :: Share(q, ts[k])
  }

  ghost function Total(b: Book, q: Slice): int {
    Sum(Shares(b.transfers, q))
  }

  lemma TotalUpdate(b: Book, accounts: map<AccountId, Account>, tid: nat, t: Transfer, q: Slice)
    ensures Total(Book(accounts, b.transfers[tid := t]), q) ==
            Total(b, q) - (if tid in b.transfers then Share(q, b.transfers[tid]) else 0) + Share(q, t)
  {
    SumUpdate(Shares(b.transfers, q), tid, Share(q, t));
    assert Shares(b.transfers[tid := t], q) == Shares(b.transfers, q)[tid := Share(q, t)];
  }

  /** The running totals of a user are exactly what the transfers say, and never overdrawn. */
  ghost predicate UserBooked(b: Book, u: nat) {
    User(u) in b.accounts ==>
      && b.accounts[User(u)] == Account(Total(b, HeldFrom(u)), Total(b, ChargedTo(u)), 0, Total(b, DepositedTo(u)))
      && Available(b, u) >= 0
  }

  ghost predicate PlatformBooked(b: Book) {
    && Revenue in b.accounts && b.accounts[Revenue] == Account(0, Total(b, AllDeposited), 0, 0)
    && Escrow in b.accounts && b.accounts[Escrow] == Account(0, 0, Total(b, AllHeld), Total(b, AllCharged))
  }

  ghost predicate Booked(b: Book) {
    && PlatformBooked(b)
    && (forall u: nat :: UserBooked(b, u))
    && (forall k | k in b.transfers :: User(b.transfers[k].user) in b.accounts)
  }

  lemma OpeningBooked()
    ensures Booked(OPENING)
  {
    forall q { SumZero(Shares(OPENING.transfers, q)); }
  }

  /** A user nobody has transferred with owns zero totals. */
  lemma UnusedUserIsEmpty(b: Book, u: nat)
    requires Booked(b) && User(u) !in b.accounts
    ensures Total(b, HeldFrom(u)) == 0 && Total(b, ChargedTo(u)) == 0 && Total(b, DepositedTo(u)) == 0
  {
    SumZero(Shares(b.transfers, HeldFrom(u)));
    SumZero(Shares(b.transfers, ChargedTo(u)));
    SumZero(Shares(b.transfers, DepositedTo(u)));
  }

  lemma EnsureUserBooked(b: Book, u: nat)
    requires Booked(b)
    ensures Booked(EnsureUser(b, u))
  {
    var b' := EnsureUser(b, u);
    assert forall q :: Total(b', q) == Total(b, q);
    if User(u) !in b.accounts {
      UnusedUserIsEmpty(b, u);
    }
    forall v: nat ensures UserBooked(b', v) {
      assert UserBooked(b, v);
    }
  }

  ghost function Change(b: Book, tid: nat, t: Transfer, q: Slice): int {
    Share(q, t) - (if tid in b.transfers then Share(q, b.transfers[tid]) else 0)
  }

  lemma UserTotalsShift(b: Book, b': Book, tid: nat, t: Transfer, u: nat)
    requires b'.transfers == b.transfers[tid := t]
    ensures Total(b', HeldFrom(u)) == Total(b, HeldFrom(u)) + Change(b, tid, t, HeldFrom(u))
    ensures Total(b', ChargedTo(u)) == Total(b, ChargedTo(u)) + Change(b, tid, t, ChargedTo(u))
    ensures Total(b', DepositedTo(u)) == Total(b, DepositedTo(u)) + Change(b, tid, t, DepositedTo(u))
  {
    TotalUpdate(b, b'.accounts, tid, t, HeldFrom(u));
    TotalUpdate(b, b'.accounts, tid, t, ChargedTo(u));
    TotalUpdate(b, b'.accounts, tid, t, DepositedTo(u));
  }

  lemma PlatformTotalsShift(b: Book, b': Book, tid: nat, t: Transfer)
    requires b'.transfers == b.transfers[tid := t]
    ensures Total(b', AllHeld) == Total(b, AllHeld) + Change(b, tid, t, AllHeld)
    ensures Total(b', AllCharged) == Total(b, AllCharged) + Change(b, tid, t, AllCharged)
    ensures Total(b', AllDeposited) == Total(b, AllDeposited) + Change(b, tid, t, AllDeposited)
  {
    TotalUpdate(b, b'.accounts, tid, t, AllHeld);
    TotalUpdate(b, b'.accounts, tid, t, AllCharged);
    TotalUpdate(b, b'.accounts, tid, t, AllDeposited);
  }

  /** The change that writing transfer `t` must make to a user's running totals. */
  ghost predicate UserMovedBy(b: Book, b': Book, tid: nat, t: Transfer, v: nat) {
    && (User(v) in b'.accounts <==> User(v) in b.accounts)
    && (User(v) in b.accounts ==>
          var x, x' := b.accounts[User(v)], b'.accounts[User(v)];
          && x'.debitsPending == x.debitsPending + Change(b, tid, t, HeldFrom(v))
          && x'.debitsPosted == x.debitsPosted + Change(b, tid, t, ChargedTo(v))
          && x'.creditsPosted == x.creditsPosted + Change(b, tid, t, DepositedTo(v))
          && x'.creditsPending == x.creditsPending
          && Available(b', v) >= 0)
  }

  lemma UserStaysBooked(b: Book, b': Book, tid: nat, t: Transfer, v: nat)
    requires UserBooked(b, v) && b'.transfers == b.transfers[tid := t] && UserMovedBy(b, b', tid, t, v)
    ensures UserBooked(b', v)
  {
    UserTotalsShift(b, b', tid, t, v);
  }

  lemma ReserveBooked(b: Book, u: nat, tid: nat, amount: nat)
    requires Booked(b)
    ensures Booked(Reserve(b, u, tid, amount).0)
  {
    var (b', ok) := Reserve(b, u, tid, amount);
    if ok {
      PlatformTotalsShift(b, b', tid, Hold(u, amount, Pending));
      forall v: nat ensures UserBooked(b', v) {
        assert UserBooked(b, v);
        UserStaysBooked(b, b', tid, Hold(u, amount, Pending), v);
      }
      assert PlatformBooked(b');
    }
  }

  lemma SettleMovesUser(b: Book, tid: nat, outcome: HoldState, v: nat)
    requires UserBooked(b, v) && !outcome.Pending? && Settle(b, tid, outcome).1
    ensures UserMovedBy(b, Settle(b, tid, outcome).0, tid, b.transfers[tid].(state := outcome), v)
  {}

  lemma SettleMovesPlatform(b: Book, tid: nat, outcome: HoldState)
    requires PlatformBooked(b) && !outcome.Pending? && Settle(b, tid, outcome).1
    ensures PlatformBooked(Settle(b, tid, outcome).0)
  {
    PlatformTotalsShift(b, Settle(b, tid, outcome).0, tid, b.transfers[tid].(state := outcome));
  }

  lemma SettleBooked(b: Book, tid: nat, outcome: HoldState)
    requires Booked(b) && !outcome.Pending?
    ensures Booked(Settle(b, tid, outcome).0)
  {
    var (b', ok) := Settle(b, tid, outcome);
    if ok {
      var t := b.transfers[tid].(state := outcome);
      SettleMovesPlatform(b, tid, outcome);
      forall v: nat ensures UserBooked(b', v) {
        assert UserBooked(b, v);
        SettleMovesUser(b, tid, outcome, v);
        UserStaysBooked(b, b', tid, t, v);
      }
      hide UserBooked;
      hide PlatformBooked;
    }
  }

  lemma DepositMovesUser(b: Book, u: nat, tid: nat, amount: nat, v: nat)
    requires UserBooked(b, v) && Deposit(b, u, tid, amount).1 && tid !in b.transfers
    ensures UserMovedBy(b, Deposit(b, u, tid, amount).0, tid, TopUp(u, amount), v)
  {}

  lemma DepositBooked(b: Book, u: nat, tid: nat, amount: nat)
    requires Booked(b)
    ensures Booked(Deposit(b, u, tid, amount).0)
  {
    var (b', ok) := Deposit(b, u, tid, amount);
    if ok && tid !in b.transfers {
      PlatformTotalsShift(b, b', tid, TopUp(u, amount));
      forall v: nat ensures UserBooked(b', v) {
        assert UserBooked(b, v);
        DepositMovesUser(b, u, tid, amount, v);
        UserStaysBooked(b, b', tid, TopUp(u, amount), v);
      }
      assert PlatformBooked(b');
    }
  }

  // ----- Double entry -----

  ghost function PendingNet(accounts: map<AccountId, Account>): map<AccountId, int> {
    map a | a in accounts :: accounts[a].debitsPending - accounts[a].creditsPending
  }

  ghost function PostedNet(accounts: map<AccountId, Account>): map<AccountId, int> {
    map a | a in accounts :: accounts[a].debitsPosted - accounts[a].creditsPosted
  }

  /** Over all accounts together, debits equal credits, pending and posted alike. */
  ghost predicate DoubleEntry(b: Book) {
    Sum(PendingNet(b.accounts)) == 0 && Sum(PostedNet(b.accounts)) == 0
  }

  lemma SetAccountPending(accounts: map<AccountId, Account>, a: AccountId, x: Account)
    ensures Sum(PendingNet(accounts[a := x])) == Sum(PendingNet(accounts)) + x.debitsPending - x.creditsPending -
            (if a in accounts then accounts[a].debitsPending - accounts[a].creditsPending else 0)
  {
    SumUpdate(PendingNet(accounts), a, x.debitsPending - x.creditsPending);
    assert PendingNet(accounts[a := x]) == PendingNet(accounts)[a := x.debitsPending - x.creditsPending];
  }

  lemma SetAccountPosted(accounts: map<AccountId, Account>, a: AccountId, x: Account)
    ensures Sum(PostedNet(accounts[a := x])) == Sum(PostedNet(accounts)) + x.debitsPosted - x.creditsPosted -
            (if a in accounts then accounts[a].debitsPosted - accounts[a].creditsPosted else 0)
  {
    SumUpdate(PostedNet(accounts), a, x.debitsPosted - x.creditsPosted);
    assert PostedNet(accounts[a := x]) == PostedNet(accounts)[a := x.debitsPosted - x.creditsPosted];
  }

  /** Two different accounts are rewritten one after the other. */
  lemma SetTwoAccounts(b: Book, b': Book, a: AccountId, c: AccountId)
    requires DoubleEntry(b) && a != c && a in b.accounts && c in b.accounts
    requires a in b'.accounts && c in b'.accounts
    requires b'.accounts == b.accounts[a := b'.accounts[a]][c := b'.accounts[c]]
    requires b'.accounts[a].debitsPending - b.accounts[a].debitsPending
             == b'.accounts[c].creditsPending - b.accounts[c].creditsPending
    requires b'.accounts[a].debitsPosted - b.accounts[a].debitsPosted
             == b'.accounts[c].creditsPosted - b.accounts[c].creditsPosted
    requires b'.accounts[a].creditsPending == b.accounts[a].creditsPending
    requires b'.accounts[a].creditsPosted == b.accounts[a].creditsPosted
    requires b'.accounts[c].debitsPending == b.accounts[c].debitsPending
    requires b'.accounts[c].debitsPosted == b.accounts[c].debitsPosted
    ensures DoubleEntry(b')
  {
    SetAccountPending(b.accounts, a, b'.accounts[a]);
    SetAccountPending(b.accounts[a := b'.accounts[a]], c, b'.accounts[c]);
    SetAccountPosted(b.accounts, a, b'.accounts[a]);
    SetAccountPosted(b.accounts[a := b'.accounts[a]], c, b'.accounts[c]);
  }

  lemma OpeningDoubleEntry()
    ensures DoubleEntry(OPENING)
  {
    SumZero(PendingNet(OPENING.accounts));
    SumZero(PostedNet(OPENING.accounts));
  }

  lemma EnsureUserDoubleEntry(b: Book, u: nat)
    requires DoubleEntry(b)
    ensures DoubleEntry(EnsureUser(b, u))
  {
    SetAccountPending(b.accounts, User(u), EMPTY_ACCOUNT);
    SetAccountPosted(b.accounts, User(u), EMPTY_ACCOUNT);
  }

  lemma ReserveDoubleEntry(b: Book, u: nat, tid: nat, amount: nat)
    requires DoubleEntry(b)
    ensures DoubleEntry(Reserve(b, u, tid, amount).0)
  {
    var (b', ok) := Reserve(b, u, tid, amount);
    if ok { SetTwoAccounts(b, b', User(u), Escrow); }
  }

  lemma SettleDoubleEntry(b: Book, tid: nat, outcome: HoldState)
    requires DoubleEntry(b) && !outcome.Pending?
    ensures DoubleEntry(Settle(b, tid, outcome).0)
  {
    var (b', ok) := Settle(b, tid, outcome);
    if ok { SetTwoAccounts(b, b', User(b.transfers[tid].user), Escrow); }
  }

  lemma DepositDoubleEntry(b: Book, u: nat, tid: nat, amount: nat)
    requires DoubleEntry(b)
    ensures DoubleEntry(Deposit(b, u, tid, amount).0)
  {
    var b' := Deposit(b, u, tid, amount).0;
    if b' != b { SetTwoAccounts(b, b', Revenue, User(u)); }
  }

  // ----- Runs of ledger calls -----

  datatype Call =
    | CallEnsure(user: nat)
    | CallReserve(user: nat, tid: nat, amount: nat)
    | CallCapture(tid: nat)
    | CallRelease(tid: nat)
    | CallTimeOut(tid: nat)
    | CallDeposit(user: nat, tid: nat, amount: nat)

  function Apply(b: Book, c: Call): Book {
    match c
    case CallEnsure(u) => EnsureUser(b, u)
    case CallReserve(u, tid, amount) => Reserve(b, u, tid, amount).0
    case CallCapture(tid) => Capture(b, tid).0
    case CallRelease(tid) => Release(b, tid).0
    case CallTimeOut(tid) => TimeOut(b, tid)
    case CallDeposit(u, tid, amount) => Deposit(b, u, tid, amount).0
  }

  function ApplyAll(b: Book, cs: seq<Call>): Book {
    if cs == [] then b else Apply(ApplyAll(b, cs[..|cs| - 1]), cs[|cs| - 1])
  }

  lemma ApplyKeepsBooks(b: Book, c: Call)
    requires Booked(b) && DoubleEntry(b)
    ensures Booked(Apply(b, c)) && DoubleEntry(Apply(b, c))
  {
    match c
    case CallEnsure(u) => EnsureUserBooked(b, u); EnsureUserDoubleEntry(b, u);
    case CallReserve(u, tid, amount) => ReserveBooked(b, u, tid, amount); ReserveDoubleEntry(b, u, tid, amount);
    case CallCapture(tid) => SettleBooked(b, tid, Posted); SettleDoubleEntry(b, tid, Posted);
    case CallRelease(tid) => SettleBooked(b, tid, Voided); SettleDoubleEntry(b, tid, Voided);
    case CallTimeOut(tid) => SettleBooked(b, tid, Expired); SettleDoubleEntry(b, tid, Expired);
    case CallDeposit(u, tid, amount) => DepositBooked(b, u, tid, amount); DepositDoubleEntry(b, u, tid, amount);
  }

  /**
   * After any sequence of ledger calls: debits equal credits, no user is overdrawn, a user can spend
   * deposits minus charges minus holds, and escrow owns exactly what was charged.
   */
  lemma {:induction false} EveryRunConservesCredits(cs: seq<Call>)
    ensures var b := ApplyAll(OPENING, cs);
            && Booked(b)
            && DoubleEntry(b)
            && (forall u: nat | User(u) in b.accounts ::
                  Available(b, u) == Total(b, DepositedTo(u)) - Total(b, ChargedTo(u)) - Total(b, HeldFrom(u)) >= 0)
            && b.accounts[Escrow].creditsPosted == Total(b, AllCharged)
  {
    if cs == [] {
      OpeningBooked();
      OpeningDoubleEntry();
    } else {
      EveryRunConservesCredits(cs[..|cs| - 1]);
      ApplyKeepsBooks(ApplyAll(OPENING, cs[..|cs| - 1]), cs[|cs| - 1]);
    }
    var b := ApplyAll(OPENING, cs);
    forall u: nat | User(u) in b.accounts
      ensures Available(b, u) == Total(b, DepositedTo(u)) - Total(b, ChargedTo(u)) - Total(b, HeldFrom(u)) >= 0
    {
      assert UserBooked(b, u);
    }
  }

  /** A settled hold is settled for good: no later call captures, releases or expires it again. */
  lemma {:induction false} SettledForGood(b: Book, tid: nat, cs: seq<Call>)
    requires tid in b.transfers && !IsPending(b, tid)
    ensures var b' := ApplyAll(b, cs);
            && tid in b'.transfers && b'.transfers[tid] == b.transfers[tid]
            && !Capture(b', tid).1 && !Release(b', tid).1 && Release(b', tid).0 == b'
  {
    if cs != [] {
      SettledForGood(b, tid, cs[..|cs| - 1]);
    }
  }

  /**
   * A top-up that succeeded is paid once: whatever is called in between, the same transfer again answers true
   * for the same user and amount, false for any other, and moves nothing.
   */
  lemma TopUpPaysOnce(b: Book, u: nat, tid: nat, amount: nat, cs: seq<Call>, u2: nat, amount2: nat)
    requires Deposit(b, u, tid, amount).1
    ensures var b' := ApplyAll(Deposit(b, u, tid, amount).0, cs);
            Deposit(b', u2, tid, amount2) == (b', u2 == u && amount2 == amount)
  {
    SettledForGood(Deposit(b, u, tid, amount).0, tid, cs);
  }

  // ----- When a call succeeds -----

  /** The ledger knows exactly the users that were asked for. */
  lemma {:induction false} UsersAreEnsured(cs: seq<Call>, u: nat)
    ensures User(u) in ApplyAll(OPENING, cs).accounts <==> CallEnsure(u) in cs
    ensures Revenue in ApplyAll(OPENING, cs).accounts && Escrow in ApplyAll(OPENING, cs).accounts
  {
    if cs != [] {
      UsersAreEnsured(cs[..|cs| - 1], u);
      assert cs == cs[..|cs| - 1] + [cs[|cs| - 1]];
    }
  }

  /** What `u` has held, charged and deposited moves by the given amounts; nobody else's credits move. */
  ghost predicate TotalsMove(b: Book, b': Book, u: nat, held: int, charged: int, deposited: int) {
    && Total(b', HeldFrom(u)) == Total(b, HeldFrom(u)) + held
    && Total(b', ChargedTo(u)) == Total(b, ChargedTo(u)) + charged
    && Total(b', DepositedTo(u)) == Total(b, DepositedTo(u)) + deposited
    && (forall v: nat | v != u ::
          && Total(b', HeldFrom(v)) == Total(b, HeldFrom(v)) && Total(b', ChargedTo(v)) == Total(b, ChargedTo(v))
          && Total(b', DepositedTo(v)) == Total(b, DepositedTo(v)))
  }

  lemma TransferMovesTotals(b: Book, b': Book, tid: nat, t: Transfer)
    requires b'.transfers == b.transfers[tid := t] && (tid in b.transfers ==> b.transfers[tid].user == t.user)
    ensures TotalsMove(b, b', t.user, Change(b, tid, t, HeldFrom(t.user)), Change(b, tid, t, ChargedTo(t.user)),
                       Change(b, tid, t, DepositedTo(t.user)))
  {
    forall v: nat {
      UserTotalsShift(b, b', tid, t, v);
    }
  }

  /**
   * After any ledger calls, a reservation succeeds if and only if its id is new, the user is known, and what was
   * deposited and neither charged nor held covers it. It then holds the amount.
   */
  lemma ReserveSucceedsExactlyWhen(cs: seq<Call>, u: nat, tid: nat, amount: nat)
    ensures var b := ApplyAll(OPENING, cs);
            var (b', ok) := Reserve(b, u, tid, amount);
            && (ok <==> && tid !in b.transfers && CallEnsure(u) in cs
                        && Total(b, DepositedTo(u)) - Total(b, ChargedTo(u)) - Total(b, HeldFrom(u)) >= amount)
            && (if ok then TotalsMove(b, b', u, amount, 0, 0) else b' == b)
  {
    var b := ApplyAll(OPENING, cs);
    var (b', ok) := Reserve(b, u, tid, amount);
    UsersAreEnsured(cs, u);
    EveryRunConservesCredits(cs);
    hide Booked;
    hide DoubleEntry;
    hide Total;
    if ok { TransferMovesTotals(b, b', tid, Hold(u, amount, Pending)); }
    hide TotalsMove;
  }

  lemma PendingHoldsCanEnd(cs: seq<Call>, tid: nat)
    requires tid in ApplyAll(OPENING, cs).transfers
    ensures var b := ApplyAll(OPENING, cs); User(b.transfers[tid].user) in b.accounts && Escrow in b.accounts
  {
    EveryRunConservesCredits(cs);
  }

  /**
   * After any ledger calls, a hold can be ended if and only if it is pending. It is then held no longer, and
   * charged to its user if and only if it was posted.
   */
  lemma SettleSucceedsExactlyWhen(cs: seq<Call>, tid: nat, outcome: HoldState)
    requires !outcome.Pending?
    ensures var b := ApplyAll(OPENING, cs);
            var (b', ok) := Settle(b, tid, outcome);
            && (ok <==> IsPending(b, tid))
            && (if ok then
                  var u, amount := b.transfers[tid].user, b.transfers[tid].amount;
                  TotalsMove(b, b', u, 0 - amount, if outcome.Posted? then amount else 0, 0)
                else b' == b)
  {
    var b := ApplyAll(OPENING, cs);
    var (b', ok) := Settle(b, tid, outcome);
    hide ApplyAll;
    hide Total;
    hide TotalsMove;
    if IsPending(b, tid) { PendingHoldsCanEnd(cs, tid); }
    if ok { TransferMovesTotals(b, b', tid, b.transfers[tid].(state := outcome)); }
  }

  /**
   * After any ledger calls, a top-up succeeds if and only if it repeats itself or its id is new and the user is
   * known. The first time, and only then, the user's deposits grow by the amount.
   */
  lemma DepositSucceedsExactlyWhen(cs: seq<Call>, u: nat, tid: nat, amount: nat)
    ensures var b := ApplyAll(OPENING, cs);
            var (b', ok) := Deposit(b, u, tid, amount);
            && (ok <==> if tid in b.transfers then b.transfers[tid] == TopUp(u, amount) else CallEnsure(u) in cs)
            && (if ok && tid !in b.transfers then TotalsMove(b, b', u, 0, 0, amount) else b' == b)
  {
    var b := ApplyAll(OPENING, cs);
    var (b', ok) := Deposit(b, u, tid, amount);
    UsersAreEnsured(cs, u);
    hide Total;
    if ok && tid !in b.transfers { TransferMovesTotals(b, b', tid, TopUp(u, amount)); }
    hide TotalsMove;
  }
}
