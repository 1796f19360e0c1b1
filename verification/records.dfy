/**
 * The stored documents the services read: invoices and customers, with the
 * string enumerations they carry. A field a document may lack is an `Option`;
 * a customer id that is missing or empty is the empty string (the services
 * test it with `if customer_id:`). Dates are day ordinals.
 *
 * Each MongoDB `find` of the services is a `Filter` of the in-memory store by
 * one of the selections below.
 */
module Records {
  import opened Wrappers
  import opened Calendar
  import Folds

  datatype InvoiceStatus = Draft | Sent | Paid | Overdue | Cancelled

  datatype PaymentStatus = Pending | Partial | Paid | Failed

  datatype CustomerStatus = Active | Inactive | Potential | Blocked

  datatype CustomerType = Individual | Business | Enterprise

  /** The stored value of `payment_status`, or "unknown" when the field is missing. */
  function PaymentStatusLabel(s: Option<PaymentStatus>): string {
    match s
    case None => "unknown"
    case Some(Pending) => "pending"
    case Some(Partial) => "partial"
    case Some(Paid) => "paid"
    case Some(Failed) => "failed"
  }

  datatype Invoice = Invoice(
    id: string,
    userId: string,
    customerId: string,
    totalAmount: real,
    status: Option<InvoiceStatus>,
    paymentStatus: Option<PaymentStatus>,
    dueDate: Option<Day>,
    createdAt: Day,
    customerName: Option<string>,
    customerEmail: Option<string>,
    customerPhone: Option<string>,
    customerAddress: Option<string>)

  datatype Customer = Customer(
    id: string,
    userId: string,
    name: Option<string>,
    email: Option<string>,
    phone: Option<string>,
    address: Option<string>,
    status: Option<CustomerStatus>,
    createdAt: Day,
    totalInvoices: int,
    totalRevenue: real,
    outstandingAmount: real)

  function Amount(inv: Invoice): real {
    inv.totalAmount
  }

  // ---------------------------------------------------------------------
  // Selections of invoices

  predicate IsPaid(inv: Invoice) {
    inv.paymentStatus == Some(PaymentStatus.Paid)
  }

  predicate NotPaid(inv: Invoice) {
    !IsPaid(inv)
  }

  predicate IsPending(inv: Invoice) {
    inv.paymentStatus == Some(PaymentStatus.Pending)
  }

  /** `status == "overdue"` (the stored status, not a date comparison). */
  predicate HasOverdueStatus(inv: Invoice) {
    inv.status == Some(InvoiceStatus.Overdue)
  }

  predicate HasCustomer(inv: Invoice) {
    inv.customerId != ""
  }

  /** `{"user_id": u}`. */
  function InvoicesOf(u: string): Invoice -> bool {
    (inv: Invoice) => inv.userId == u
  }

  /** `{"user_id": u, "created_at": {"$gte": start 00:00, "$lte": end 23:59:59.999999}}`. */
  function InWindow(u: string, start: Day, end: Day): Invoice -> bool {
    (inv: Invoice) => inv.userId == u && start <= inv.createdAt <= end
  }

  /** `{"user_id": u, "payment_status": "paid"}`. */
  function PaidOf(u: string): Invoice -> bool {
    (inv: Invoice) => inv.userId == u && IsPaid(inv)
  }

  /** The window query with `"payment_status": "paid"` added. */
  function PaidInWindow(u: string, start: Day, end: Day): Invoice -> bool {
    (inv: Invoice) => inv.userId == u && IsPaid(inv) && start <= inv.createdAt <= end
  }

  /** `{"customer_id": c, "user_id": u}`. */
  function InvoicesOfCustomer(c: string, u: string): Invoice -> bool {
    (inv: Invoice) => inv.customerId == c && inv.userId == u
  }

  // ---------------------------------------------------------------------
  // Selections of customers

  function CustomersOf(u: string): Customer -> bool {
    (c: Customer) => c.userId == u
  }

  function CustomersCreatedIn(u: string, start: Day, end: Day): Customer -> bool {
    (c: Customer) => c.userId == u && start <= c.createdAt <= end
  }

  /**
   * `next((c for c in customers if c.get("id") == id), None)`: the first
   * customer with that id.
   */
  function FindCustomer(customers: seq<Customer>, id: string): (r: Option<Customer>)
    ensures r.Some? ==> r.value in customers && r.value.id == id
    ensures r.None? <==> forall i :: 0 <= i < |customers| ==> customers[i].id != id
    ensures forall i :: 0 <= i < |customers| && customers[i].id == id && (forall j :: 0 <= j < i ==> customers[j].id != id) ==>
      r == Some(customers[i])
  {
    if customers == [] then None
    else if customers[0].id == id then Some(customers[0])
    else FindCustomer(customers[1..], id)
  }

  /** The `(customer_id, total_amount)` pairs of the invoices that name a customer, in order. */
  function CustomerAmounts(invoices: seq<Invoice>): (r: seq<(string, real)>)
    ensures |r| <= |invoices|
    ensures forall i :: 0 <= i < |r| ==> r[i].0 != ""
  {
    if invoices == [] then []
    else
      var head := if HasCustomer(invoices[0]) then [(invoices[0].customerId, invoices[0].totalAmount)] else [];
      head + CustomerAmounts(invoices[1..])
  }

  /** An entry of a `top_customers` list: `{"id", "name", "value"}` (or `"revenue"`). */
  datatype TopCustomer = TopCustomer(id: string, name: string, value: real)

  /** `customer.get("name", "Unknown")`. */
  function DisplayName(c: Customer): string {
    c.name.GetOr("Unknown")
  }

  /** The ranking entries whose customer id is found among `customers`. */
  function IsKnown(customers: seq<Customer>): ((string, real)) -> bool {
    (e: (string, real)) => FindCustomer(customers, e.0).Some?
  }

  /**
   * The loop shared by the report, CRM and assistant services: for each
   * `(customer_id, value)` of a ranking, in order, look the customer up and
   * keep the entry only if it exists, named after the customer.
   */
  function JoinTopCustomers(ranking: seq<(string, real)>, customers: seq<Customer>): (r: seq<TopCustomer>)
    ensures var kept := Folds.Filter(ranking, IsKnown(customers));
      |r| == |kept|
      && forall k :: 0 <= k < |r| ==>
        FindCustomer(customers, kept[k].0).Some?
        && r[k] == TopCustomer(kept[k].0, DisplayName(FindCustomer(customers, kept[k].0).value), kept[k].1)
  {
    Folds.FilterMembers(ranking, IsKnown(customers));
    if ranking == [] then []
    else
      var rest := JoinTopCustomers(ranking[1..], customers);
      match FindCustomer(customers, ranking[0].0)
      case None => rest
      case Some(c) => [TopCustomer(ranking[0].0, DisplayName(c), ranking[0].1)] + rest
  }

  /**
   * Joining the top `n` of the per-customer totals of `pairs`: every
   * customer listed carries exactly the total that `pairs` holds for its id.
   */
  lemma JoinedTotals(pairs: seq<(string, real)>, n: nat, customers: seq<Customer>)
    ensures var r := JoinTopCustomers(Folds.TopN(Folds.GroupSum(pairs), n), customers);
      forall i :: 0 <= i < |r| ==> r[i].value == Folds.SumFor(pairs, r[i].id)
  {
    var g := Folds.GroupSum(pairs);
    Folds.GroupSumLaws(pairs);
    Folds.TopNLaws(g, n);
    var top := Folds.TopN(g, n);
    var kept := Folds.Filter(top, IsKnown(customers));
    Folds.FilterMembers(top, IsKnown(customers));
    var r := JoinTopCustomers(top, customers);
    forall i | 0 <= i < |r| ensures r[i].value == Folds.SumFor(pairs, r[i].id) {
      assert kept[i] in top;
      var j :| 0 <= j < |g| && g[j] == kept[i];
    }
  }
}
