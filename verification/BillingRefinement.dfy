/** Seen from the users' money, Solution 4 is a machine that holds once and then charges or refunds once. */
module BillingRefinement {
  import opened Sums
  import opened Ledger
  import opened Protocol
  import opened ProtocolInvariant
  import opened Agreement

  // ----- The simple machine -----

  datatype Phase = Open | ChargedPhase | RefundedPhase

  datatype Purchase = Purchase(user: nat, amount: nat, phase: Phase)

  datatype Shop = Shop(available: map<nat, int>, purchases: map<nat, Purchase>)

  datatype Sale =
    | Idle
    | Join(user: nat)
    | Credit(user: nat, amount: nat)
    | HoldSale(id: nat, user: nat, amount: nat)
    | ChargeSale(id: nat)
    | RefundSale(id: nat)

  /** When a sale step may happen: a hold needs the credits, and each purchase ends exactly once. */
  predicate CanSell(m: Shop, a: Sale) {
    match a
    case Idle => true
    case Join(u) => u !in m.available
    case Credit(u, _) => u in m.available
    case HoldSale(id, u, amount) => id !in m.purchases && u in m.available && m.available[u] >= amount
    case ChargeSale(id) => id in m.purchases && m.purchases[id].phase.Open?
    case RefundSale(id) => id in m.purchases && m.purchases[id].phase.Open? && m.purchases[id].user in m.available
  }

  function Sell(m: Shop, a: Sale): Shop
    requires CanSell(m, a)
  {
    match a
    case Idle => m
    case Join(u) => m.(available := m.available[u := 0])
    case Credit(u, amount) => m.(available := m.available[u := m.available[u] + amount])
    case HoldSale(id, u, amount) =>
      Shop(m.available[u := m.available[u] - amount], m.purchases[id := Purchase(u, amount, Open)])
    case ChargeSale(id) => m.(purchases := m.purchases[id := m.purchases[id].(phase := ChargedPhase)])
    case RefundSale(id) =>
      var q := m.purchases[id];
      Shop(m.available[q.user := m.available[q.user] + q.amount], m.purchases[id := q.(phase := RefundedPhase)])
  }

  ghost predicate SoldTo(m: Shop, sales: seq<Sale>, m': Shop)
    decreases |sales|
  {
    if sales == [] then m == m'
    else CanSell(m, sales[0]) && SoldTo(Sell(m, sales[0]), sales[1..], m')
  }

  // ----- The view -----

  function PhaseOf(h: HoldState): Phase {
    match h
    case Pending => Open
    case Posted => ChargedPhase
    case Voided => RefundedPhase
    case Expired => RefundedPhase
  }

  ghost function View(b: Book): Shop {
    Shop(map u | u in UserIds(b) :: Available(b, u),
         map k | k in b.transfers && b.transfers[k].Hold? ::
           Purchase(b.transfers[k].user, b.transfers[k].amount, PhaseOf(b.transfers[k].state)))
  }

  ghost function UserIds(b: Book): set<nat> {
    set a | a in b.accounts.Keys && a.User? :: a.user
  }

  /** The sale that a ledger call amounts to. */
  function SettleSale(b: Book, tid: nat, sale: Sale): Sale {
    if IsPending(b, tid) then sale else Idle
  }

  function EnsureSale(b: Book, u: nat): Sale {
    if User(u) in b.accounts then Idle else Join(u)
  }

  function DepositSale(b: Book, u: nat, tid: nat, amount: nat): Sale {
    if tid in b.transfers then Idle else Credit(u, amount)
  }

  function OpSale(b: Book, op: Op): Sale {
    match op
    case OpEnsure(u) => EnsureSale(b, u)
    case OpReserve(u, tid, amount) => if Reserve(b, u, tid, amount).1 then HoldSale(tid, u, amount) else Idle
    case OpCapture(tid) => SettleSale(b, tid, ChargeSale(tid))
    case OpRelease(tid) => SettleSale(b, tid, RefundSale(tid))
    case _ => Idle
  }

  /** Two sales for a top-up (a new user joins first), one for every other step. */
  function Sales(s: State, ev: Event): seq<Sale> {
    match ev
    case AdminTopUp(u, tid, amount) => [EnsureSale(s.book, u), DepositSale(EnsureUser(s.book, u), u, tid, amount)]
    case HoldTimeout(tid) => [SettleSale(s.book, tid, RefundSale(tid))]
    case Run(p, c) => if p in s.procs then [OpSale(s.book, OpOf(p, s.procs[p]))] else []
    case _ => []
  }

  lemma EnsureIsASale(b: Book, u: nat)
    requires Booked(b)
    ensures CanSell(View(b), EnsureSale(b, u)) && Sell(View(b), EnsureSale(b, u)) == View(EnsureUser(b, u))
  {
    var b' := EnsureUser(b, u);
    if User(u) !in b.accounts {
      assert UserIds(b') == UserIds(b) + {u};
      assert View(b').available == View(b).available[u := 0];
    }
  }

  lemma OneUserMoves(b: Book, b': Book, u: nat, delta: int)
    requires b'.accounts.Keys == b.accounts.Keys && User(u) in b.accounts
    requires forall v: nat :: Available(b', v) == Available(b, v) + (if v == u then delta else 0)
    ensures u in View(b).available
    ensures View(b').available == View(b).available[u := View(b).available[u] + delta]
  {
    assert u in UserIds(b);
  }

  lemma ReserveMovesCredits(b: Book, u: nat, tid: nat, amount: nat, v: nat)
    requires Reserve(b, u, tid, amount).1
    ensures Available(Reserve(b, u, tid, amount).0, v) == Available(b, v) - (if v == u then amount else 0)
  {}

  lemma ReserveIsASale(b: Book, u: nat, tid: nat, amount: nat)
    requires Booked(b) && Reserve(b, u, tid, amount).1
    ensures CanSell(View(b), HoldSale(tid, u, amount))
    ensures Sell(View(b), HoldSale(tid, u, amount)) == View(Reserve(b, u, tid, amount).0)
  {
    var b' := Reserve(b, u, tid, amount).0;
    forall v: nat { ReserveMovesCredits(b, u, tid, amount, v); }
    var spent: int := amount;
    OneUserMoves(b, b', u, -spent);
    assert View(b').purchases == View(b).purchases[tid := Purchase(u, amount, Open)];
  }

  lemma SettleMovesCredits(b: Book, tid: nat, outcome: HoldState, v: nat)
    requires !outcome.Pending? && Settle(b, tid, outcome).1
    ensures var h := b.transfers[tid];
            Available(Settle(b, tid, outcome).0, v) ==
            Available(b, v) + (if v == h.user && !outcome.Posted? then h.amount else 0)
  {}

  lemma SettleIsASale(b: Book, tid: nat, outcome: HoldState)
    requires Booked(b) && !outcome.Pending?
    ensures var sale := SettleSale(b, tid, if outcome.Posted? then ChargeSale(tid) else RefundSale(tid));
            CanSell(View(b), sale) && Sell(View(b), sale) == View(Settle(b, tid, outcome).0)
  {
    if IsPending(b, tid) {
      var h := b.transfers[tid];
      var b' := Settle(b, tid, outcome).0;
      forall v: nat { SettleMovesCredits(b, tid, outcome, v); }
      OneUserMoves(b, b', h.user, if outcome.Posted? then 0 else h.amount);
      var sale := if outcome.Posted? then ChargeSale(tid) else RefundSale(tid);
      assert Sell(View(b), sale).available == View(b').available;
      assert Sell(View(b), sale).purchases == View(b').purchases;
    }
  }

  lemma DepositIsASale(b: Book, u: nat, tid: nat, amount: nat)
    requires Booked(b) && User(u) in b.accounts
    ensures CanSell(View(b), DepositSale(b, u, tid, amount))
    ensures Sell(View(b), DepositSale(b, u, tid, amount)) == View(Deposit(b, u, tid, amount).0)
  {
    var b' := Deposit(b, u, tid, amount).0;
    if tid !in b.transfers {
      assert u in UserIds(b);
      assert View(b').available == View(b).available[u := View(b).available[u] + amount];
      assert View(b').purchases == View(b).purchases;
    }
  }

  lemma StepRefinesShop(s: State, ev: Event)
    requires Inv(s)
    ensures SoldTo(View(s.book), Sales(s, ev), View(Next(s, ev).book))
  {
    match ev
    case AdminTopUp(u, tid, amount) =>
      EnsureIsASale(s.book, u);
      EnsureUserBooked(s.book, u);
      DepositIsASale(EnsureUser(s.book, u), u, tid, amount);
      var sales := Sales(s, ev);
      assert sales[1..] == [sales[1]] && sales[1..][1..] == [];
    case HoldTimeout(tid) =>
      SettleIsASale(s.book, tid, Expired);
      assert Sales(s, ev)[1..] == [];
    case Run(p, c) =>
      if p in s.procs {
        OpRefinesShop(s.book, s.table, OpOf(p, s.procs[p]), c);
        assert Sales(s, ev)[1..] == [];
      }
    case _ =>
  }

  lemma OpRefinesShop(b: Book, tb: Table, op: Op, c: Choice)
    requires Booked(b)
    ensures CanSell(View(b), OpSale(b, op)) && Sell(View(b), OpSale(b, op)) == View(Perform(b, tb, op, c).0)
  {
    match op
    case OpEnsure(u) => EnsureIsASale(b, u);
    case OpReserve(u, tid, amount) => if Reserve(b, u, tid, amount).1 { ReserveIsASale(b, u, tid, amount); }
    case OpCapture(tid) => SettleIsASale(b, tid, Posted);
    case OpRelease(tid) => SettleIsASale(b, tid, Voided);
    case _ =>
  }

  ghost function AllSales(evs: seq<Event>): seq<Sale> {
    if evs == [] then []
    else AllSales(evs[..|evs| - 1]) + Sales(Reached(evs[..|evs| - 1]), evs[|evs| - 1])
  }

  lemma {:induction false} SoldToConcat(m: Shop, a: seq<Sale>, m1: Shop, b: seq<Sale>, m2: Shop)
    requires SoldTo(m, a, m1) && SoldTo(m1, b, m2)
    ensures SoldTo(m, a + b, m2)
    decreases |a|
  {
    if a == [] {
      assert a + b == b;
    } else {
      SoldToConcat(Sell(m, a[0]), a[1..], m1, b, m2);
      assert (a + b)[1..] == a[1..] + b;
    }
  }

  /** Every interleaved run, seen from the users' money, is a run of the simple machine. */
  lemma {:induction false} EveryRunRefinesShop(evs: seq<Event>)
    ensures SoldTo(Shop(map[], map[]), AllSales(evs), View(Reached(evs).book))
  {
    if evs == [] {
      assert View(OPENING) == Shop(map[], map[]);
    } else {
      var before := evs[..|evs| - 1];
      EveryRunRefinesShop(before);
      ReachedInv(before);
      StepRefinesShop(Reached(before), evs[|evs| - 1]);
      SoldToConcat(Shop(map[], map[]), AllSales(before), View(Reached(before).book),
                   Sales(Reached(before), evs[|evs| - 1]), View(Reached(evs).book));
    }
  }

  ghost function CountEnds(sales: seq<Sale>, id: nat): nat {
    if sales == [] then 0
    else (if sales[0] == ChargeSale(id) || sales[0] == RefundSale(id) then 1 else 0) + CountEnds(sales[1..], id)
  }

  /** In the simple machine a purchase ends at most once, and its phase says whether it did. */
  lemma {:induction false} EndsOnce(m: Shop, sales: seq<Sale>, m': Shop, id: nat)
    requires SoldTo(m, sales, m')
    ensures id in m.purchases ==> id in m'.purchases
    ensures CountEnds(sales, id) ==
            (if id in m'.purchases && !m'.purchases[id].phase.Open? then 1 else 0)
            - (if id in m.purchases && !m.purchases[id].phase.Open? then 1 else 0)
    decreases |sales|
  {
    if sales != [] {
      EndsOnce(Sell(m, sales[0]), sales[1..], m', id);
    }
  }

  /**
   * Per task of a finished system: exactly one charge and no refund when it COMPLETED; when it FAILED or
   * was CANCELLED exactly one refund and no charge.
   */
  lemma TaskIsChargedOrRefundedOnce(evs: seq<Event>, t: nat)
    requires Quiet(Reached(evs)) && t in Reached(evs).table.rows
    ensures var s := Reached(evs); var r := s.table.rows[t]; var m := View(s.book);
            && r.tid in m.purchases && m.purchases[r.tid].user == r.user && m.purchases[r.tid].amount == r.cost
            && (r.status.COMPLETED? <==> m.purchases[r.tid].phase.ChargedPhase?)
            && (r.status.FAILED? || r.status.CANCELLED? ==> m.purchases[r.tid].phase.RefundedPhase?)
            && (r.status.COMPLETED? || r.status.FAILED? || r.status.CANCELLED? ==> CountEnds(AllSales(evs), r.tid) == 1)
  {
    ReachedInv(evs);
    QuietStatesAreSettled(evs);
    assert RowOk(Reached(evs), t);
    EveryRunRefinesShop(evs);
    EndsOnce(Shop(map[], map[]), AllSales(evs), View(Reached(evs).book), Reached(evs).table.rows[t].tid);
  }

  // ----- Escrow -----

  /** What each row has been charged so far. */
  ghost function RowCharges(s: State): map<nat, int> {
    map t | t in s.table.rows :: if Charged(s, s.table.rows[t].tid) then s.table.rows[t].cost else 0
  }

  ghost predicate EscrowMatches(s: State) {
    Sum(RowCharges(s)) == Total(s.book, AllCharged)
  }

  /** Posting the pending hold of row `t` charges that row and no other. */
  lemma PostingChargesRow(s: State, s': State, t: nat, tid: nat)
    requires Inv(s) && t in s.table.rows && s.table.rows[t].tid == tid && IsPending(s.book, tid)
    requires var h := s.book.transfers[tid];
             s'.table == s.table && s'.book.transfers == s.book.transfers[tid := h.(state := Posted)]
    ensures RowCharges(s') == RowCharges(s)[t := s.table.rows[t].cost]
    ensures s.book.transfers[tid].amount == s.table.rows[t].cost
  {
    assert RowOk(s, t);
    forall t2 | t2 in s.table.rows ensures t2 != t ==> s.table.rows[t2].tid != tid { assert RowOk(s, t2); }
  }

  lemma CaptureChargesOneRow(s: State, p: nat, c: Choice)
    requires Inv(s) && EscrowMatches(s) && p in s.procs && OpOf(p, s.procs[p]).OpCapture?
    ensures EscrowMatches(RunProc(s, p, c))
  {
    var s' := RunProc(s, p, c);
    var x := s.procs[p];
    assert ProcOk(s, p) && RowOk(s, x.task);
    if IsPending(s.book, x.tid) {
      var h := s.book.transfers[x.tid];
      PostingChargesRow(s, s', x.task, x.tid);
      SumUpdate(RowCharges(s), x.task, h.amount);
      TotalUpdate(s.book, s'.book.accounts, x.tid, h.(state := Posted), AllCharged);
    } else {
      assert RowCharges(s') == RowCharges(s);
    }
  }

  ghost predicate SameCharges(b: Book, b': Book) {
    && (forall tid :: IsPosted(b', tid) <==> IsPosted(b, tid))
    && Total(b', AllCharged) == Total(b, AllCharged)
  }

  /** Writing a transfer that is no charge over one that was none changes no charge. */
  lemma WriteChargesNothing(b: Book, b': Book, tid: nat, t: Transfer)
    requires b'.transfers == b.transfers || b'.transfers == b.transfers[tid := t]
    requires !IsPosted(b, tid) && !(t.Hold? && t.state.Posted?)
    ensures SameCharges(b, b')
  {
    if b'.transfers == b.transfers {
      assert Shares(b'.transfers, AllCharged) == Shares(b.transfers, AllCharged);
    } else {
      TotalUpdate(b, b'.accounts, tid, t, AllCharged);
    }
  }

  lemma SettleChargesNothing(b: Book, tid: nat, outcome: HoldState)
    requires Booked(b) && !outcome.Pending? && !outcome.Posted?
    ensures SameCharges(b, Settle(b, tid, outcome).0)
  {
    if IsPending(b, tid) {
      WriteChargesNothing(b, Settle(b, tid, outcome).0, tid, b.transfers[tid].(state := outcome));
    }
  }

  lemma PerformChargesNothing(b: Book, tb: Table, op: Op, c: Choice)
    requires Booked(b) && !op.OpCapture?
    ensures SameCharges(b, Perform(b, tb, op, c).0)
  {
    match op
    case OpEnsure(u) =>
    case OpReserve(u, tid, amount) =>
      if tid !in b.transfers {
        WriteChargesNothing(b, Reserve(b, u, tid, amount).0, tid, Hold(u, amount, Pending));
      }
    case OpRelease(tid) => SettleChargesNothing(b, tid, Voided);
    case _ =>
  }

  lemma DepositChargesNothing(b: Book, u: nat, tid: nat, amount: nat)
    ensures SameCharges(b, Deposit(b, u, tid, amount).0)
  {
    if tid !in b.transfers {
      WriteChargesNothing(b, Deposit(b, u, tid, amount).0, tid, TopUp(u, amount));
    }
  }

  /** Without a capture, no transfer starts or stops being a charge. */
  lemma OthersChargeNothing(s: State, ev: Event)
    requires Inv(s)
    requires ev.Run? && ev.p in s.procs ==> !OpOf(ev.p, s.procs[ev.p]).OpCapture?
    ensures SameCharges(s.book, Next(s, ev).book)
  {
    match ev
    case AdminTopUp(u, tid, amount) =>
      DepositChargesNothing(EnsureUser(s.book, u), u, tid, amount);
    case HoldTimeout(tid) => SettleChargesNothing(s.book, tid, Expired);
    case Run(p, c) => if p in s.procs { PerformChargesNothing(s.book, s.table, OpOf(p, s.procs[p]), c); }
    case _ =>
  }

  lemma SameChargesSameRows(s: State, s': State)
    requires EscrowMatches(s) && SameCharges(s.book, s'.book)
    requires forall t | t in s.table.rows ::
               t in s'.table.rows && s'.table.rows[t].tid == s.table.rows[t].tid
                    && s'.table.rows[t].cost == s.table.rows[t].cost
    requires s'.table.rows.Keys == s.table.rows.Keys
    ensures EscrowMatches(s')
  {
    forall t | t in s.table.rows ensures Charged(s', s.table.rows[t].tid) == Charged(s, s.table.rows[t].tid) {
      assert IsPosted(s'.book, s.table.rows[t].tid) == IsPosted(s.book, s.table.rows[t].tid);
    }
    assert RowCharges(s') == RowCharges(s);
  }

  lemma SameChargesNewRow(s: State, s': State, p: nat)
    requires EscrowMatches(s) && SameCharges(s.book, s'.book)
    requires forall t | t in s.table.rows ::
               t in s'.table.rows && s'.table.rows[t].tid == s.table.rows[t].tid
                    && s'.table.rows[t].cost == s.table.rows[t].cost
    requires p !in s.table.rows && s'.table.rows.Keys == s.table.rows.Keys + {p} && !Charged(s', s'.table.rows[p].tid)
    ensures EscrowMatches(s')
  {
    forall t | t in s.table.rows ensures Charged(s', s.table.rows[t].tid) == Charged(s, s.table.rows[t].tid) {
      assert IsPosted(s'.book, s.table.rows[t].tid) == IsPosted(s.book, s.table.rows[t].tid);
    }
    SumUpdate(RowCharges(s), p, 0);
    assert RowCharges(s') == RowCharges(s)[p := 0];
  }

  lemma StepKeepsEscrow(s: State, ev: Event)
    requires Inv(s) && EscrowMatches(s)
    ensures EscrowMatches(Next(s, ev))
  {
    var s' := Next(s, ev);
    if ev.Run? && ev.p in s.procs && OpOf(ev.p, s.procs[ev.p]).OpCapture? {
      CaptureChargesOneRow(s, ev.p, ev.choice);
    } else {
      OthersChargeNothing(s, ev);
      forall t | t in s.table.rows { RowsKeepTheirTerms(s, ev, t); }
      if s'.table.rows.Keys == s.table.rows.Keys {
        SameChargesSameRows(s, s');
      } else {
        NewRowIsUncharged(s, ev);
        SameChargesNewRow(s, s', ev.p);
      }
    }
  }

  lemma OnlyInsertsAddRows(s: State, ev: Event)
    requires Next(s, ev).table.rows.Keys != s.table.rows.Keys
    ensures ev.Run? && ev.p in s.procs && ev.p !in s.table.rows
    ensures s.procs[ev.p].Submit? && s.procs[ev.p].spc.SInsert?
    ensures Next(s, ev).table.rows.Keys == s.table.rows.Keys + {ev.p}
    ensures Next(s, ev).table.rows[ev.p].tid == s.procs[ev.p].tid && Next(s, ev).book == s.book
  {}

  lemma NewRowIsUncharged(s: State, ev: Event)
    requires Inv(s) && Next(s, ev).table.rows.Keys != s.table.rows.Keys
    ensures ev.Run? && ev.p !in s.table.rows
    ensures var s' := Next(s, ev);
            s'.table.rows.Keys == s.table.rows.Keys + {ev.p} && !Charged(s', s'.table.rows[ev.p].tid)
  {
    OnlyInsertsAddRows(s, ev);
    assert ProcOk(s, ev.p);
  }

  lemma {:induction false} EveryRunKeepsEscrow(evs: seq<Event>)
    ensures EscrowMatches(Reached(evs))
  {
    if evs == [] {
      SumZero(RowCharges(INITIAL));
      SumZero(Shares(OPENING.transfers, AllCharged));
    } else {
      EveryRunKeepsEscrow(evs[..|evs| - 1]);
      ReachedInv(evs[..|evs| - 1]);
      StepKeepsEscrow(Reached(evs[..|evs| - 1]), evs[|evs| - 1]);
    }
  }

  ghost function CompletedCosts(s: State): map<nat, int> {
    map t | t in s.table.rows :: if s.table.rows[t].status.COMPLETED? then s.table.rows[t].cost else 0
  }

  lemma CompletedAreCharged(s: State)
    requires forall t | t in s.table.rows :: Charged(s, s.table.rows[t].tid) <==> s.table.rows[t].status.COMPLETED?
    ensures RowCharges(s) == CompletedCosts(s)
  {}

  /** Escrow owns exactly what the rows were charged; in a quiet state, the cost of every COMPLETED task. */
  lemma EscrowOwnsTheCharges(evs: seq<Event>)
    ensures var s := Reached(evs);
            && Escrow in s.book.accounts && s.book.accounts[Escrow].creditsPosted == Sum(RowCharges(s))
            && (Quiet(s) ==> s.book.accounts[Escrow].creditsPosted == Sum(CompletedCosts(s)))
  {
    EveryRunKeepsEscrow(evs);
    ReachedInv(evs);
    if Quiet(Reached(evs)) {
      QuietStatesAreSettled(evs);
      CompletedAreCharged(Reached(evs));
    }
  }
}
