/** Every step of Solution 4 keeps the invariant. */
module ProtocolSteps {
  import opened Ledger
  import opened Options
  import opened Protocol
  import opened ProtocolInvariant

  lemma PerformKeepsBooked(b: Book, tb: Table, op: Op, c: Choice)
    requires Booked(b)
    ensures Booked(Perform(b, tb, op, c).0)
  {
    match op
    case OpEnsure(u) => EnsureUserBooked(b, u);
    case OpReserve(u, tid, amount) => ReserveBooked(b, u, tid, amount);
    case OpCapture(tid) => SettleBooked(b, tid, Posted);
    case OpRelease(tid) => SettleBooked(b, tid, Voided);
    case _ =>
  }

  /** An operation on an existing task moves at most its status and its hold. */
  predicate OpOn(op: Op, t: nat, tid: nat) {
    match op
    case OpCapture(i) => i == tid
    case OpRelease(i) => i == tid
    case OpCas(u, _, _) => u == t
    case OpRead(u) => u == t
    case OpEnsure(_) => false
    case OpReserve(_, _, _) => false
    case OpInsert(_, _) => false
    case _ => true
  }

  lemma StepIsScoped(s: State, p: nat, c: Choice, t: nat)
    requires Inv(s) && p in s.procs && t in s.table.rows && t == TaskOf(p, s.procs[p])
    requires OpOn(OpOf(p, s.procs[p]), t, s.table.rows[t].tid)
    ensures RowLinked(s, t) && Scoped(s, RunProc(s, p, c), p, t)
  {
    var s' := RunProc(s, p, c);
    var r := s.table.rows[t];
    assert RowOk(s, t);
    assert s.table.rows == s.table.rows[t := r.(status := r.status)];
    assert s.book.transfers == s.book.transfers[r.tid := s.book.transfers[r.tid].(state := HoldOf(s, t))];
  }

  /** One operation as its own task sees it: status `st`, hold `h`, and whether the process owns the task. */
  predicate Effect(op: Op, e: Entry, st: Status, h: HoldState, own: bool, st': Status, h': HoldState, own': bool) {
    match op
    case OpCas(_, to, from) =>
      && h' == h
      && e == Flag(st == from)
      && (if st == from then st' == to && own' == (own || from.PENDING?) else st' == st && own' == own)
    case OpCapture(_) => st' == st && own' == own && e == Flag(h.Pending?) && h' == if h.Pending? then Posted else h
    case OpRelease(_) => st' == st && own' == own && e == Flag(h.Pending?) && h' == if h.Pending? then Voided else h
    case OpRead(_) => st' == st && own' == own && h' == h && StatusOf(e) == Some(st)
    case _ => st' == st && own' == own && h' == h && e.Flag?
  }

  function AnswerOf(s: State, p: nat, c: Choice): Entry
    requires p in s.procs
  {
    Perform(s.book, s.table, OpOf(p, s.procs[p]), c).2
  }

  lemma StepHasEffect(s: State, p: nat, c: Choice, t: nat)
    requires Inv(s) && p in s.procs && t in s.table.rows && t == TaskOf(p, s.procs[p])
    requires OpOn(OpOf(p, s.procs[p]), t, s.table.rows[t].tid)
    requires RowLinked(s, t) && RowLinked(RunProc(s, p, c), t)
    ensures var s' := RunProc(s, p, c);
            && Effect(OpOf(p, s.procs[p]), AnswerOf(s, p, c), s.table.rows[t].status, HoldOf(s, t), Owns(s, p, t),
                      s'.table.rows[t].status, HoldOf(s', t), Owns(s', p, t))
            && s'.procs[p] == Advance(p, s.procs[p], AnswerOf(s, p, c))
            && (s'.owner[t] == s.owner[t] || Owns(s', p, t))
  {}

  /** `Allowed`, in local terms. */
  predicate LocallyAllowed(st: Status, h: HoldState, own: bool, st': Status, h': HoldState, own': bool) {
    && NoRevival(st, h, st', h')
    && (|| (own && own')
        || (own' == own && Tolerated(st, h, st', h'))
        || (own' && st.PENDING? && h' == h))
  }

  // ----- Workflow steps -----

  lemma WorkflowKeepsPc(p: nat, x: Proc, e: Entry, st: Status, h: HoldState, own: bool, st': Status, h': HoldState,
                        own': bool)
    requires x.Workflow? && WorkflowOk(x.wpc, own, st, h)
    requires (own ==> OwnerOk(x, st, h)) && (st.PENDING? ==> !h.Posted?)
    requires Effect(OpOf(p, x), e, st, h, own, st', h', own')
    ensures WorkflowOk(Advance(p, x, e).wpc, own', st', h')
  {}

  lemma WorkflowMoves(p: nat, x: Proc, e: Entry, st: Status, h: HoldState, own: bool, st': Status, h': HoldState,
                      own': bool)
    requires x.Workflow? && WorkflowOk(x.wpc, own, st, h)
    requires (own ==> OwnerOk(x, st, h)) && (st.PENDING? ==> !h.Posted?)
    requires Effect(OpOf(p, x), e, st, h, own, st', h', own')
    ensures LocallyAllowed(st, h, own, st', h', own')
    ensures WorkflowOk(Advance(p, x, e).wpc, own', st', h')
    ensures own' ==> OwnerOk(Advance(p, x, e), st', h')
  {
    WorkflowKeepsPc(p, x, e, st, h, own, st', h', own');
  }

  lemma WorkflowStepKeepsInv(s: State, p: nat, c: Choice)
    requires Inv(s) && p in s.procs && s.procs[p].Workflow?
    ensures Inv(RunProc(s, p, c))
  {
    var s' := RunProc(s, p, c);
    var t := s.procs[p].task;
    assert ProcOk(s, p);
    PerformKeepsBooked(s.book, s.table, OpOf(p, s.procs[p]), c);
    StepIsScoped(s, p, c, t);
    ScopedLinks(s, s', p, t);
    assert RowOk(s, t);
    StepHasEffect(s, p, c, t);
    WorkflowMoves(p, s.procs[p], AnswerOf(s, p, c), s.table.rows[t].status, HoldOf(s, t), Owns(s, p, t),
                  s'.table.rows[t].status, HoldOf(s', t), Owns(s', p, t));
    assert RowLinked(s', t);
    ScopedStepKeepsInv(s, s', p, t);
  }

  // ----- Cancel steps -----

  lemma CancelMoves(p: nat, x: Proc, e: Entry, st: Status, h: HoldState, own: bool, st': Status, h': HoldState,
                    own': bool, row: Row)
    requires x.Cancel? && CancelOk(x.cpc, own, st, h, row)
    requires (own ==> OwnerOk(x, st, h)) && (st.PENDING? ==> !h.Posted?)
    requires Effect(OpOf(p, x), e, st, h, own, st', h', own')
    requires (x.cpc.CaGet? || x.cpc.CaGetAgain?) ==> e == Found(Some(row))
    ensures LocallyAllowed(st, h, own, st', h', own')
    ensures CancelOk(Advance(p, x, e).cpc, own', st', h', row.(status := st'))
    ensures own' ==> OwnerOk(Advance(p, x, e), st', h')
  {}

  /** A cancel of an unknown task only answers. */
  lemma CancelOfNothingKeepsInv(s: State, p: nat, c: Choice)
    requires Inv(s) && p in s.procs && s.procs[p].Cancel? && s.procs[p].task !in s.table.rows
    ensures Inv(RunProc(s, p, c))
  {
    var s' := RunProc(s, p, c);
    assert ProcOk(s, p);
    assert s' == s.(procs := s'.procs);
    forall q: nat ensures ProcOk(s', q) {
      assert ProcOk(s, q);
      if q in s.procs { assert RowOk(s, TaskOf(q, s.procs[q])); }
    }
    forall t: nat ensures RowOk(s', t) { assert RowOk(s, t); }
    forall tid: nat ensures HoldLinked(s', tid) { assert HoldLinked(s, tid); }
  }

  lemma CancelStepKeepsInv(s: State, p: nat, c: Choice)
    requires Inv(s) && p in s.procs && s.procs[p].Cancel?
    ensures Inv(RunProc(s, p, c))
  {
    var s' := RunProc(s, p, c);
    var t := s.procs[p].task;
    assert ProcOk(s, p);
    if t !in s.table.rows {
      CancelOfNothingKeepsInv(s, p, c);
    } else {
      assert RowOk(s, t);
      PerformKeepsBooked(s.book, s.table, OpOf(p, s.procs[p]), c);
      StepIsScoped(s, p, c, t);
      ScopedLinks(s, s', p, t);
      StepHasEffect(s, p, c, t);
      CancelMoves(p, s.procs[p], AnswerOf(s, p, c), s.table.rows[t].status, HoldOf(s, t), Owns(s, p, t),
                  s'.table.rows[t].status, HoldOf(s', t), Owns(s', p, t), s.table.rows[t]);
      assert RowLinked(s', t);
      ScopedStepKeepsInv(s, s', p, t);
    }
  }

  // ----- Submit steps -----

  lemma HandOffMoves(p: nat, x: Proc, e: Entry, st: Status, h: HoldState, own: bool, st': Status, h': HoldState,
                     own': bool)
    requires x.Submit? && HandOffOk(x.spc, own, st, h)
    requires (own ==> OwnerOk(x, st, h)) && (st.PENDING? ==> !h.Posted?)
    requires Effect(OpOf(p, x), e, st, h, own, st', h', own')
    ensures LocallyAllowed(st, h, own, st', h', own')
    ensures HandOffOk(Advance(p, x, e).spc, own', st', h')
    ensures own' ==> OwnerOk(Advance(p, x, e), st', h')
  {}

  lemma HandOffStepKeepsInv(s: State, p: nat, c: Choice)
    requires Inv(s) && p in s.procs && s.procs[p].Submit? && p in s.table.rows
    ensures Inv(RunProc(s, p, c))
  {
    var s' := RunProc(s, p, c);
    assert ProcOk(s, p) && RowOk(s, p);
    PerformKeepsBooked(s.book, s.table, OpOf(p, s.procs[p]), c);
    StepIsScoped(s, p, c, p);
    ScopedLinks(s, s', p, p);
    StepHasEffect(s, p, c, p);
    HandOffMoves(p, s.procs[p], AnswerOf(s, p, c), s.table.rows[p].status, HoldOf(s, p), Owns(s, p, p),
                 s'.table.rows[p].status, HoldOf(s', p), Owns(s', p, p));
    assert RowLinked(s', p);
    ScopedStepKeepsInv(s, s', p, p);
  }

  /** Before its row exists, a submit is seen by nobody: only its own hold and program counter move. */
  ghost predicate Private(s: State, s': State, p: nat) {
    && p in s.procs && s.procs[p].Submit? && p !in s.table.rows
    && p in s'.procs && s'.procs[p].Submit? && s'.procs[p] == s.procs[p].(spc := s'.procs[p].spc)
    && s'.procs == s.procs[p := s'.procs[p]]
    && s'.table == s.table && s'.owner == s.owner
    && (Reserved(s.procs[p].spc) ==> Reserved(s'.procs[p].spc))
    && (forall tid | tid in s.book.transfers && (tid in s.reservedBy ==> s.reservedBy[tid] != p) ::
          tid in s'.book.transfers && s'.book.transfers[tid] == s.book.transfers[tid])
    && (forall tid | tid in s'.book.transfers && tid !in s.book.transfers :: tid == s.procs[p].tid)
    && (forall tid | tid in s.reservedBy :: tid in s'.reservedBy && s'.reservedBy[tid] == s.reservedBy[tid])
    && (forall tid | tid in s'.reservedBy && tid !in s.reservedBy :: tid == s.procs[p].tid && s'.reservedBy[tid] == p)
  }

  lemma PrivateStepKeepsInv(s: State, s': State, p: nat)
    requires Inv(s) && Private(s, s', p) && Booked(s'.book)
    requires ProcOk(s', p) && HoldLinked(s', s.procs[p].tid)
    ensures Inv(s')
  {
    forall t: nat ensures RowOk(s', t) { PrivateRowOk(s, s', p, t); }
    forall q: nat ensures ProcOk(s', q) { if q != p { PrivateProcOk(s, s', p, q); } }
    forall tid: nat ensures HoldLinked(s', tid) {
      assert HoldLinked(s, tid) && HoldLinked(s, s.procs[p].tid) && ProcOk(s, p);
    }
  }

  lemma PrivateRowOk(s: State, s': State, p: nat, t: nat)
    requires Inv(s) && Private(s, s', p)
    ensures RowOk(s', t)
  {
    assert RowOk(s, t);
  }

  lemma PrivateProcOk(s: State, s': State, p: nat, q: nat)
    requires Inv(s) && Private(s, s', p) && q != p
    ensures ProcOk(s', q)
  {
    assert ProcOk(s, q);
    if q in s.procs {
      assert RowOk(s, TaskOf(q, s.procs[q]));
      PrivateRowOk(s, s', p, TaskOf(q, s.procs[q]));
    }
  }

  lemma ReserveStepKeepsInv(s: State, p: nat, c: Choice)
    requires Inv(s) && p in s.procs && s.procs[p].Submit? && s.procs[p].spc.SReserve? && p !in s.table.rows
    ensures Inv(RunProc(s, p, c))
  {
    PerformKeepsBooked(s.book, s.table, OpOf(p, s.procs[p]), c);
    ReservedStateOk(s, RunProc(s, p, c), p);
    PrivateStepKeepsInv(s, RunProc(s, p, c), p);
  }

  lemma ReservedStateOk(s: State, s': State, p: nat)
    requires Inv(s) && p in s.procs && s.procs[p].Submit? && s.procs[p].spc.SReserve? && p !in s.table.rows
    requires s'.table == s.table && s'.owner == s.owner
    requires var x := s.procs[p];
             || (&& x.tid !in s.book.transfers
                 && s'.procs == s.procs[p := x.(spc := SInsert)]
                 && s'.book.transfers == s.book.transfers[x.tid := Hold(x.user, x.cost, Pending)]
                 && s'.reservedBy == s.reservedBy[x.tid := p])
             || (&& s'.procs == s.procs[p := x.(spc := SDone(InsufficientCredits))]
                 && s'.book == s.book && s'.reservedBy == s.reservedBy)
    ensures Private(s, s', p) && ProcOk(s', p) && HoldLinked(s', s.procs[p].tid)
  {
    assert ProcOk(s, p) && HoldLinked(s, s.procs[p].tid);
    if s.procs[p].tid in s.reservedBy {
      assert ProcOk(s, s.reservedBy[s.procs[p].tid]);
    }
  }

  lemma RowlessReleaseKeepsInv(s: State, p: nat, c: Choice)
    requires Inv(s) && p in s.procs && s.procs[p].Submit? && p !in s.table.rows
    requires s.procs[p].spc.SReleaseError? || s.procs[p].spc.SReleaseReplay?
    ensures Inv(RunProc(s, p, c))
  {
    var s' := RunProc(s, p, c);
    assert ProcOk(s, p) && HoldLinked(s, s.procs[p].tid);
    PerformKeepsBooked(s.book, s.table, OpOf(p, s.procs[p]), c);
    PrivateStepKeepsInv(s, s', p);
  }

  /** A submit without a row that neither reserves nor releases moves only its program counter. */
  predicate RowlessQuiet(pc: SubmitPc, pc': SubmitPc) {
    || (pc.SEnsure? && pc'.SReserve?)
    || (pc.SInsert? && (pc'.SReleaseError? || pc'.SReleaseReplay?))
    || (pc.SDone? && pc' == pc)
  }

  lemma RowlessQuietShape(s: State, p: nat, c: Choice)
    requires p in s.procs && s.procs[p].Submit? && p !in s.table.rows && RunProc(s, p, c).table == s.table
    requires s.procs[p].spc.SEnsure? || s.procs[p].spc.SInsert? || s.procs[p].spc.SDone?
    ensures var s' := RunProc(s, p, c);
            && s'.book.transfers == s.book.transfers && s'.reservedBy == s.reservedBy && s'.owner == s.owner
            && s'.procs == s.procs[p := s'.procs[p]] && s'.procs[p] == s.procs[p].(spc := s'.procs[p].spc)
            && RowlessQuiet(s.procs[p].spc, s'.procs[p].spc)
  {}

  lemma RowlessQuietStateOk(s: State, s': State, p: nat)
    requires Inv(s) && p in s.procs && s.procs[p].Submit? && p !in s.table.rows && p in s'.procs && s'.procs[p].Submit?
    requires s'.book.transfers == s.book.transfers && s'.reservedBy == s.reservedBy && s'.owner == s.owner
    requires s'.table == s.table && s'.procs == s.procs[p := s.procs[p].(spc := s'.procs[p].spc)]
    requires RowlessQuiet(s.procs[p].spc, s'.procs[p].spc)
    ensures Private(s, s', p) && ProcOk(s', p) && HoldLinked(s', s.procs[p].tid)
  {
    assert ProcOk(s, p) && HoldLinked(s, s.procs[p].tid);
  }

  lemma RowlessQuietStepKeepsInv(s: State, p: nat, c: Choice)
    requires Inv(s) && p in s.procs && s.procs[p].Submit? && p !in s.table.rows && RunProc(s, p, c).table == s.table
    requires s.procs[p].spc.SEnsure? || s.procs[p].spc.SInsert? || s.procs[p].spc.SDone?
    ensures Inv(RunProc(s, p, c))
  {
    PerformKeepsBooked(s.book, s.table, OpOf(p, s.procs[p]), c);
    RowlessQuietShape(s, p, c);
    RowlessQuietStateOk(s, RunProc(s, p, c), p);
    PrivateStepKeepsInv(s, RunProc(s, p, c), p);
  }

  lemma FailedInsertKeepsTable(tb: Table, t: nat, row: Row, fault: Fault)
    requires t !in tb.rows && t !in Insert(tb, t, row, fault).0.rows
    ensures Insert(tb, t, row, fault).0 == tb
  {}

  lemma RowlessStepKeepsInv(s: State, p: nat, c: Choice)
    requires Inv(s) && p in s.procs && s.procs[p].Submit? && p !in s.table.rows
    requires !s.procs[p].spc.SInsert? || p !in RunProc(s, p, c).table.rows
    ensures Inv(RunProc(s, p, c))
  {
    var x := s.procs[p];
    assert ProcLinked(s, p) by { assert ProcOk(s, p); }
    assert !x.spc.SReserve? && !x.spc.SReleaseError? && !x.spc.SReleaseReplay? ==>
        x.spc.SEnsure? || x.spc.SInsert? || x.spc.SDone? by { assert ProcOk(s, p); }
    if x.spc.SInsert? { FailedInsertKeepsTable(s.table, p, Row(x.user, x.cost, x.tid, x.key, PENDING), c.fault); }
    hide Inv;
    if x.spc.SReserve? { ReserveStepKeepsInv(s, p, c); }
    else if x.spc.SReleaseError? || x.spc.SReleaseReplay? { RowlessReleaseKeepsInv(s, p, c); }
    else { RowlessQuietStepKeepsInv(s, p, c); }
  }

  ghost predicate InsertedBy(s: State, s': State, p: nat) {
    && p in s.procs && s.procs[p].Submit? && s.procs[p].spc.SInsert? && p !in s.table.rows
    && s'.book == s.book && s'.reservedBy == s.reservedBy && s'.owner == s.owner[p := p]
    && (var x := s.procs[p];
        s'.table.rows == s.table.rows[p := Row(x.user, x.cost, x.tid, x.key, PENDING)])
    && KeysOk(s'.table)
    && (s'.procs == s.procs[p := s.procs[p].(spc := SHandOff)]
         || s'.procs == s.procs[p := s.procs[p].(spc := SReleaseError)])
  }

  lemma InsertedStateOk(s: State, s': State, p: nat)
    requires Inv(s) && InsertedBy(s, s', p)
    ensures Inv(s')
  {
    assert ProcOk(s, p);
    forall t: nat ensures RowOk(s', t) { InsertedRowOk(s, s', p, t); }
    forall q: nat ensures ProcOk(s', q) { InsertedProcOk(s, s', p, q); }
    forall tid: nat ensures HoldLinked(s', tid) { assert HoldLinked(s, tid); }
  }

  lemma InsertedRowOk(s: State, s': State, p: nat, t: nat)
    requires Inv(s) && InsertedBy(s, s', p)
    ensures RowOk(s', t)
  {
    assert ProcOk(s, p) && RowOk(s, t);
  }

  lemma InsertedProcOk(s: State, s': State, p: nat, q: nat)
    requires Inv(s) && InsertedBy(s, s', p)
    ensures ProcOk(s', q)
  {
    assert ProcOk(s, p) && ProcOk(s, q);
    if q in s.procs {
      assert RowOk(s, TaskOf(q, s.procs[q]));
      InsertedRowOk(s, s', p, TaskOf(q, s.procs[q]));
    }
  }

  lemma InsertStepKeepsInv(s: State, p: nat, c: Choice)
    requires Inv(s) && p in s.procs && s.procs[p].Submit? && s.procs[p].spc.SInsert?
    requires p !in s.table.rows && p in RunProc(s, p, c).table.rows
    ensures Inv(RunProc(s, p, c))
  {
    InsertedStateOk(s, RunProc(s, p, c), p);
  }

  // ----- Steps of no particular handler -----

  lemma StartKeepsInv(s: State, p: nat, x: Proc)
    requires Inv(s) && p !in s.procs
    requires match x
             case Submit(_, _, _, _, pc) => pc.SEnsure?
             case Cancel(_, pc) => pc.CaGet?
             case Workflow(t, tid, pc, _) => pc.WMarkRunning? && t in s.table.rows && tid == s.table.rows[t].tid
    ensures Inv(s.(procs := s.procs[p := x]))
  {
    var s' := s.(procs := s.procs[p := x]);
    assert RowOk(s, p);
    forall t: nat ensures RowOk(s', t) { assert RowOk(s, t); }
    forall q: nat ensures ProcOk(s', q) {
      assert ProcOk(s, q);
      if q in s'.procs { assert RowOk(s', TaskOf(q, s'.procs[q])); }
    }
    forall tid: nat ensures HoldLinked(s', tid) { assert HoldLinked(s, tid); }
  }

  /** The transfers of `b` are still there, and no hold is new. */
  ghost predicate SameHolds(b: Book, b': Book) {
    && (forall i | i in b.transfers :: i in b'.transfers && b'.transfers[i] == b.transfers[i])
    && (forall i | i in b'.transfers && b'.transfers[i].Hold? :: i in b.transfers)
  }

  lemma TopUpKeepsHolds(b: Book, user: nat, tid: nat, amount: nat)
    ensures SameHolds(b, Deposit(EnsureUser(b, user), user, tid, amount).0)
  {}

  lemma SameHoldsKeepProc(s: State, b: Book, q: nat)
    requires Inv(s) && SameHolds(s.book, b)
    ensures ProcOk(s.(book := b), q)
  {
    assert ProcOk(s, q);
    if q in s.procs { assert RowOk(s, TaskOf(q, s.procs[q])); }
  }

  lemma SameHoldsKeepInv(s: State, b: Book)
    requires Inv(s) && SameHolds(s.book, b) && Booked(b)
    ensures Inv(s.(book := b))
  {
    var s' := s.(book := b);
    forall t: nat ensures RowOk(s', t) { assert RowOk(s, t); }
    forall q: nat ensures ProcOk(s', q) { SameHoldsKeepProc(s, b, q); }
    forall i: nat ensures HoldLinked(s', i) { assert HoldLinked(s, i); }
  }

  lemma TopUpKeepsInv(s: State, user: nat, tid: nat, amount: nat)
    requires Inv(s)
    ensures Inv(Next(s, AdminTopUp(user, tid, amount)))
  {
    EnsureUserBooked(s.book, user);
    DepositBooked(EnsureUser(s.book, user), user, tid, amount);
    TopUpKeepsHolds(s.book, user, tid, amount);
    SameHoldsKeepInv(s, Deposit(EnsureUser(s.book, user), user, tid, amount).0);
  }

  lemma TimeoutKeepsProc(s: State, tid: nat, q: nat)
    requires Inv(s) && forall t: nat :: RowOk(Next(s, HoldTimeout(tid)), t)
    ensures ProcOk(Next(s, HoldTimeout(tid)), q)
  {
    var s' := Next(s, HoldTimeout(tid));
    assert ProcOk(s, q);
    if q in s.procs {
      var t := TaskOf(q, s.procs[q]);
      assert RowOk(s, t) && RowOk(s', t);
    }
  }

  lemma TimeoutKeepsInv(s: State, tid: nat)
    requires Inv(s)
    ensures Inv(Next(s, HoldTimeout(tid)))
  {
    var s' := Next(s, HoldTimeout(tid));
    SettleBooked(s.book, tid, Expired);
    forall t: nat ensures RowOk(s', t) {
      assert RowOk(s, t);
    }
    forall q: nat ensures ProcOk(s', q) { TimeoutKeepsProc(s, tid, q); }
    forall i: nat ensures HoldLinked(s', i) { assert HoldLinked(s, i); }
  }

  lemma NextKeepsInv(s: State, ev: Event)
    requires Inv(s)
    ensures Inv(Next(s, ev))
  {
    match ev
    case StartSubmit(p, user, cost, tid, key) =>
      if p !in s.procs { StartKeepsInv(s, p, Submit(user, cost, tid, key, SEnsure)); }
    case StartCancel(p, task) =>
      if p !in s.procs { StartKeepsInv(s, p, Cancel(task, CaGet)); }
    case Invoke(p, task) =>
      if p !in s.procs && task in s.table.rows {
        StartKeepsInv(s, p, Workflow(task, s.table.rows[task].tid, WMarkRunning, []));
      }
    case AdminTopUp(user, tid, amount) => TopUpKeepsInv(s, user, tid, amount);
    case HoldTimeout(tid) => TimeoutKeepsInv(s, tid);
    case Run(p, c) =>
      if p in s.procs {
        match s.procs[p]
        case Workflow(_, _, _, _) => WorkflowStepKeepsInv(s, p, c);
        case Cancel(_, _) => CancelStepKeepsInv(s, p, c);
        case Submit(_, _, _, _, pc) =>
          if p in s.table.rows { HandOffStepKeepsInv(s, p, c); }
          else if pc.SInsert? && p in RunProc(s, p, c).table.rows { InsertStepKeepsInv(s, p, c); }
          else { RowlessStepKeepsInv(s, p, c); }
      }
  }

  /** The invariant holds in every reachable state. */
  lemma {:induction false} EveryRunKeepsInv(s: State, evs: seq<Event>)
    requires Inv(s)
    ensures Inv(Exec(s, evs))
  {
    if evs != [] {
      EveryRunKeepsInv(s, evs[..|evs| - 1]);
      NextKeepsInv(Exec(s, evs[..|evs| - 1]), evs[|evs| - 1]);
    }
  }
}
