/** The three record types of the schema (Transaction, FixedCost,
    RecurringService), their derived line-item amounts, and the declared
    record invariants: the unique order ID, the column defaults, the required
    parent of every line item and the cascade from a Transaction to its
    children.

    Floating-point columns are modelled as `real`, integer columns as `int`;
    a NULL column is `None`. The database is modelled as a value (`Store`)
    holding one map per table, keyed by primary key. */
module Models {
  import opened Opt

  /** A point in time, as the database stores `DateTime` columns. */
  type Timestamp = int

  /** The status every new Transaction starts in. */
  const Pending: string := "PENDING"

  /** The business columns of a Transaction, all nullable. */
  datatype Deal = Deal(
    unidadNegocio: Option<string>,
    clientName: Option<string>,
    companyID: Option<string>,
    salesman: Option<string>,
    tipoCambio: Option<real>,
    mrc: Option<real>,
    nrc: Option<real>,
    van: Option<real>,
    tir: Option<real>,
    payback: Option<int>,
    totalRevenue: Option<real>,
    totalExpense: Option<real>,
    comisiones: Option<real>,
    comisionesRate: Option<real>,
    costoInstalacion: Option<real>,
    costoInstalacionRatio: Option<real>,
    grossMargin: Option<real>,
    grossMarginRatio: Option<real>,
    plazoContrato: Option<int>,
    costoCapitalAnual: Option<real>)

  /** A stored Transaction row. */
  datatype Transaction = Transaction(
    id: nat,
    deal: Deal,
    orderID: Option<string>,
    approvalStatus: string,
    submissionDate: Timestamp,
    approvalDate: Option<Timestamp>)

  /** The values a caller supplies when creating a Transaction; `None` in the
      last three means "not supplied", so that the column default applies. */
  datatype TransactionDraft = TransactionDraft(
    deal: Deal,
    orderID: Option<string>,
    approvalStatus: Option<string>,
    submissionDate: Option<Timestamp>,
    approvalDate: Option<Timestamp>)

  /** The columns of a FixedCost line other than its keys. */
  datatype FixedCostLine = FixedCostLine(
    categoria: Option<string>,
    tipoServicio: Option<string>,
    ticket: Option<string>,
    ubicacion: Option<string>,
    cantidad: Option<real>,
    costoUnitario: Option<real>)

  datatype FixedCost = FixedCost(id: nat, transactionId: nat, line: FixedCostLine)

  /** The columns of a RecurringService line other than its keys. */
  datatype ServiceLine = ServiceLine(
    tipoServicio: Option<string>,
    nota: Option<string>,
    ubicacion: Option<string>,
    q: Option<real>,
    p: Option<real>,
    cu1: Option<real>,
    cu2: Option<real>,
    proveedor: Option<string>)

  datatype RecurringService = RecurringService(id: nat, transactionId: nat, line: ServiceLine)

  // ---------------------------------------------------------------------
  // Derived amounts
  // ---------------------------------------------------------------------

  /** `FixedCost.total`: the line's cost, missing when either operand is. */
  function Total(c: FixedCostLine): (r: Option<real>)
    ensures r.Some? <==> c.cantidad.Some? && c.costoUnitario.Some?
    ensures r.Some? ==> r.value == c.cantidad.value * c.costoUnitario.value
  {
    if c.cantidad.Some? && c.costoUnitario.Some? then
      Some(c.cantidad.value * c.costoUnitario.value)
    else
      None
  }

  /** `RecurringService.ingreso`: the recurring revenue Q × P, missing when
      either operand is. */
  function Ingreso(s: ServiceLine): (r: Option<real>)
    ensures r.Some? <==> s.q.Some? && s.p.Some?
    ensures r.Some? ==> r.value == s.q.value * s.p.value
  {
    if s.q.Some? && s.p.Some? then Some(s.q.value * s.p.value) else None
  }

  /** `RecurringService.egreso`: the recurring expense (CU1 + CU2) × Q. It is
      never missing: each missing operand counts as zero. */
  function Egreso(s: ServiceLine): (r: real)
    ensures s.q.None? ==> r == 0.0
    ensures s.q.Some? && s.cu1.None? && s.cu2.None? ==> r == 0.0
    ensures s.q.Some? && s.cu1.Some? && s.cu2.Some? ==> r == (s.cu1.value + s.cu2.value) * s.q.value
  {
    var cu1 := s.cu1.GetOr(0.0);
    var cu2 := s.cu2.GetOr(0.0);
    var q := s.q.GetOr(0.0);
    (cu1 + cu2) * q
  }

  /** The line with every missing cost operand of `egreso` filled in as zero. */
  function ZeroFilled(s: ServiceLine): ServiceLine {
    s.(q := Some(s.q.GetOr(0.0)), cu1 := Some(s.cu1.GetOr(0.0)), cu2 := Some(s.cu2.GetOr(0.0)))
  }

  /** `egreso` treats a missing operand exactly as an explicit zero, whereas
      `ingreso` does not: a line with no quantity has no revenue at all, but
      the same line with quantity zero has revenue zero. */
  lemma MissingOperandRules(s: ServiceLine)
    ensures Egreso(ZeroFilled(s)) == Egreso(s)
    ensures s.q.None? && s.p.Some? ==> Ingreso(s) == None && Ingreso(ZeroFilled(s)) == Some(0.0)
  {
  }

  /** The expense is the sum of what each unit-cost component contributes on
      its own. */
  lemma EgresoSplitsByComponent(s: ServiceLine)
    ensures Egreso(s) == Egreso(s.(cu2 := None)) + Egreso(s.(cu1 := None))
  {
    var q := s.q.GetOr(0.0);
    assert (s.cu1.GetOr(0.0) + s.cu2.GetOr(0.0)) * q == s.cu1.GetOr(0.0) * q + s.cu2.GetOr(0.0) * q;
  }

  // ---------------------------------------------------------------------
  // Rows and column defaults
  // ---------------------------------------------------------------------

  /** The row the database stores for `d` under primary key `id` at time
      `now`: unsupplied columns take their declared defaults. */
  function NewTransaction(id: nat, d: TransactionDraft, now: Timestamp): (t: Transaction)
    ensures t.id == id && t.deal == d.deal && t.orderID == d.orderID
    ensures d.approvalStatus.None? ==> t.approvalStatus == Pending
    ensures d.approvalStatus.Some? ==> t.approvalStatus == d.approvalStatus.value
    ensures d.submissionDate.None? ==> t.submissionDate == now
    ensures d.submissionDate.Some? ==> t.submissionDate == d.submissionDate.value
    ensures t.approvalDate == d.approvalDate
  {
    Transaction(id, d.deal, d.orderID, d.approvalStatus.GetOr(Pending),
                d.submissionDate.GetOr(now), d.approvalDate)
  }

  // ---------------------------------------------------------------------
  // The tables and their invariants
  // ---------------------------------------------------------------------

  /** The three tables, keyed by primary key, with the next key each
      table's auto-increment will hand out. */
  datatype Store = Store(
    transactions: map<nat, Transaction>,
    fixedCosts: map<nat, FixedCost>,
    recurringServices: map<nat, RecurringService>,
    nextTransactionId: nat,
    nextFixedCostId: nat,
    nextServiceId: nat)

  datatype DbError = UniqueViolation | ForeignKeyViolation

  const EmptyStore: Store := Store(map[], map[], map[], 1, 1, 1)

  /** Every key is below its table's counter and equals the row's own id. */
  ghost predicate KeysConsistent(s: Store) {
    && (forall k :: k in s.transactions ==> s.transactions[k].id == k && k < s.nextTransactionId)
    && (forall k :: k in s.fixedCosts ==> s.fixedCosts[k].id == k && k < s.nextFixedCostId)
    && (forall k :: k in s.recurringServices ==> s.recurringServices[k].id == k && k < s.nextServiceId)
  }

  /** `orderID` is UNIQUE: no two rows share a present order ID (like any SQL
      UNIQUE column it admits several NULLs). */
  ghost predicate UniqueOrderIds(s: Store) {
    forall a, b :: a in s.transactions && b in s.transactions && a != b && s.transactions[a].orderID.Some?
      ==> s.transactions[a].orderID != s.transactions[b].orderID
  }

  /** `transaction_id` is a non-null foreign key: every line item has a
      parent Transaction. */
  ghost predicate NoOrphans(s: Store) {
    && (forall k :: k in s.fixedCosts ==> s.fixedCosts[k].transactionId in s.transactions)
    && (forall k :: k in s.recurringServices ==> s.recurringServices[k].transactionId in s.transactions)
  }

  ghost predicate Valid(s: Store) {
    KeysConsistent(s) && UniqueOrderIds(s) && NoOrphans(s)
  }

  predicate OrderIdTaken(s: Store, o: string) {
    exists k :: k in s.transactions && s.transactions[k].orderID == Some(o)
  }

  lemma EmptyStoreValid()
    ensures Valid(EmptyStore)
  {
  }

  /** Inserting a Transaction: the database refuses a duplicate order ID;
      otherwise the new row gets the next key and the column defaults. */
  function Insert(s: Store, d: TransactionDraft, now: Timestamp): (r: Result<Store, DbError>)
    ensures r.Err? <==> d.orderID.Some? && OrderIdTaken(s, d.orderID.value)
    ensures r.Err? ==> r.error == UniqueViolation
    ensures r.Ok? ==> r.value.transactions == s.transactions[s.nextTransactionId := NewTransaction(s.nextTransactionId, d, now)]
    ensures r.Ok? ==> r.value.fixedCosts == s.fixedCosts && r.value.recurringServices == s.recurringServices
    ensures r.Ok? ==> r.value.nextTransactionId == s.nextTransactionId + 1
    ensures r.Ok? ==> r.value.nextFixedCostId == s.nextFixedCostId && r.value.nextServiceId == s.nextServiceId
    ensures Valid(s) && r.Ok? ==> Valid(r.value)
  {
    if d.orderID.Some? && OrderIdTaken(s, d.orderID.value) then
      Err(UniqueViolation)
    else
      var id := s.nextTransactionId;
      Ok(s.(transactions := s.transactions[id := NewTransaction(id, d, now)], nextTransactionId := id + 1))
  }

  /** Adding a FixedCost line to Transaction `parent`: refused when there is
      no such Transaction. */
  function AddFixedCost(s: Store, parent: nat, line: FixedCostLine): (r: Result<Store, DbError>)
    ensures r.Err? <==> parent !in s.transactions
    ensures r.Err? ==> r.error == ForeignKeyViolation
    ensures r.Ok? ==> r.value.fixedCosts == s.fixedCosts[s.nextFixedCostId := FixedCost(s.nextFixedCostId, parent, line)]
    ensures r.Ok? ==> r.value.transactions == s.transactions && r.value.recurringServices == s.recurringServices
    ensures r.Ok? ==> r.value.nextFixedCostId == s.nextFixedCostId + 1
    ensures r.Ok? ==> r.value.nextTransactionId == s.nextTransactionId && r.value.nextServiceId == s.nextServiceId
    ensures Valid(s) && r.Ok? ==> Valid(r.value)
  {
    if parent !in s.transactions then
      Err(ForeignKeyViolation)
    else
      var id := s.nextFixedCostId;
      Ok(s.(fixedCosts := s.fixedCosts[id := FixedCost(id, parent, line)], nextFixedCostId := id + 1))
  }

  /** Adding a RecurringService line to Transaction `parent`: refused when
      there is no such Transaction. */
  function AddRecurringService(s: Store, parent: nat, line: ServiceLine): (r: Result<Store, DbError>)
    ensures r.Err? <==> parent !in s.transactions
    ensures r.Err? ==> r.error == ForeignKeyViolation
    ensures r.Ok? ==> r.value.recurringServices == s.recurringServices[s.nextServiceId := RecurringService(s.nextServiceId, parent, line)]
    ensures r.Ok? ==> r.value.transactions == s.transactions && r.value.fixedCosts == s.fixedCosts
    ensures r.Ok? ==> r.value.nextServiceId == s.nextServiceId + 1
    ensures r.Ok? ==> r.value.nextTransactionId == s.nextTransactionId && r.value.nextFixedCostId == s.nextFixedCostId
    ensures Valid(s) && r.Ok? ==> Valid(r.value)
  {
    if parent !in s.transactions then
      Err(ForeignKeyViolation)
    else
      var id := s.nextServiceId;
      Ok(s.(recurringServices := s.recurringServices[id := RecurringService(id, parent, line)], nextServiceId := id + 1))
  }

  /** Deleting Transaction `id` cascades to its line items and to nothing
      else. */
  function Delete(s: Store, id: nat): (r: Store)
    ensures r.transactions.Keys == s.transactions.Keys - {id}
    ensures forall k :: k in r.transactions ==> r.transactions[k] == s.transactions[k]
    ensures forall k :: k in r.fixedCosts <==> k in s.fixedCosts && s.fixedCosts[k].transactionId != id
    ensures forall k :: k in r.fixedCosts ==> r.fixedCosts[k] == s.fixedCosts[k]
    ensures forall k :: k in r.recurringServices <==> k in s.recurringServices && s.recurringServices[k].transactionId != id
    ensures forall k :: k in r.recurringServices ==> r.recurringServices[k] == s.recurringServices[k]
    ensures r.nextTransactionId == s.nextTransactionId && r.nextFixedCostId == s.nextFixedCostId
    ensures r.nextServiceId == s.nextServiceId
    ensures Valid(s) ==> Valid(r)
  {
    s.(transactions := s.transactions - {id},
       fixedCosts := map k | k in s.fixedCosts && s.fixedCosts[k].transactionId != id :: s.fixedCosts[k],
       recurringServices := map k | k in s.recurringServices && s.recurringServices[k].transactionId != id :: s.recurringServices[k])
  }

  /** A freshly inserted Transaction with no status, submission date or
      approval date supplied is PENDING, submitted now and not yet
      approved. */
  lemma InsertedTransactionIsPending(s: Store, d: TransactionDraft, now: Timestamp)
    requires d.approvalStatus.None? && d.submissionDate.None? && d.approvalDate.None?
    requires Insert(s, d, now).Ok?
    ensures var t := Insert(s, d, now).value.transactions[s.nextTransactionId];
            t.approvalStatus == Pending && t.submissionDate == now && t.approvalDate.None?
  {
  }

  /** Submitting two Transactions with the same order ID yields a conflict
      the second time, not two rows. */
  lemma DuplicateOrderIdConflicts(s: Store, d1: TransactionDraft, d2: TransactionDraft, now1: Timestamp, now2: Timestamp)
    requires d1.orderID.Some? && d2.orderID == d1.orderID
    requires Insert(s, d1, now1).Ok?
    ensures Insert(Insert(s, d1, now1).value, d2, now2) == Err(UniqueViolation)
  {
    var s1 := Insert(s, d1, now1).value;
    var k := s.nextTransactionId;
    assert s1.transactions[k].orderID == d1.orderID;
    assert OrderIdTaken(s1, d2.orderID.value);
  }

  /** Deleting a Transaction that was just inserted into a valid store gives
      back the store as it was, apart from the spent key. */
  lemma DeleteUndoesInsert(s: Store, d: TransactionDraft, now: Timestamp)
    requires Valid(s)
    requires Insert(s, d, now).Ok?
    ensures Delete(Insert(s, d, now).value, s.nextTransactionId) == s.(nextTransactionId := s.nextTransactionId + 1)
  {
    var id := s.nextTransactionId;
    var s1 := Insert(s, d, now).value;
    var r := Delete(s1, id);
    assert r.transactions == s.transactions;
    assert forall k :: k in s.fixedCosts ==> s.fixedCosts[k].transactionId != id;
    assert r.fixedCosts == s.fixedCosts;
    assert forall k :: k in s.recurringServices ==> s.recurringServices[k].transactionId != id;
    assert r.recurringServices == s.recurringServices;
  }

  /** A line item added under a Transaction goes when that Transaction is
      deleted, and no other line item does. */
  lemma DeleteRemovesAddedLine(s: Store, parent: nat, line: FixedCostLine)
    requires Valid(s)
    requires parent in s.transactions
    ensures var s1 := AddFixedCost(s, parent, line).value;
            && s.nextFixedCostId in s1.fixedCosts
            && s.nextFixedCostId !in Delete(s1, parent).fixedCosts
            && Delete(s1, parent).fixedCosts == Delete(s, parent).fixedCosts
  {
    assert s.nextFixedCostId !in s.fixedCosts;
    DeleteDropsLine(s, s.nextFixedCostId, FixedCost(s.nextFixedCostId, parent, line));
  }

  /** Deleting the parent of a line item stored under a fresh key leaves the
      same fixed costs as deleting it without that line item. */
  lemma DeleteDropsLine(s: Store, k: nat, c: FixedCost)
    requires k !in s.fixedCosts
    ensures Delete(s.(fixedCosts := s.fixedCosts[k := c]), c.transactionId).fixedCosts
            == Delete(s, c.transactionId).fixedCosts
  {
    var a := Delete(s.(fixedCosts := s.fixedCosts[k := c]), c.transactionId).fixedCosts;
    var b := Delete(s, c.transactionId).fixedCosts;
    assert a.Keys == b.Keys;
  }
}
