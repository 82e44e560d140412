/** The customer list (src/pages/Customers.tsx) with each customer's purchase
    totals, its search box, sorting and edit form, and the customer detail page
    (pages/CustomerDetail.tsx). */
module Customers {
  import opened Collections
  import opened Sorting
  import opened Types
  import opened Text
  import Ledger

  /** A customer with the totals of the sales recorded under its id. */
  datatype ExtendedCustomer = ExtendedCustomer(customer: Customer, totalSpent: int, purchaseCount: int)

  /** `s.customerId === id`: a walk-in sale belongs to nobody. */
  function BoughtBy(id: string): Sale -> bool
  {
    (s: Sale) => s.customerId == Some(id)
  }

  /** One row of `extendedCustomers`. */
  function Extend(ss: seq<Sale>, c: Customer): (e: ExtendedCustomer)
    ensures e.customer == c
    ensures e.totalSpent == Sum(Filter(ss, BoughtBy(c.id)), SaleTotal)
    ensures e.purchaseCount == Count(ss, BoughtBy(c.id))
  {
    var bought := Filter(ss, BoughtBy(c.id));
    ExtendedCustomer(c, Sum(bought, SaleTotal), |bought|)
  }

  /** `extendedCustomers`: every customer, in order, with its totals. */
  function ExtendedCustomers(cs: seq<Customer>, ss: seq<Sale>): (r: seq<ExtendedCustomer>)
    ensures |r| == |cs|
    ensures forall i :: 0 <= i < |cs| ==> r[i] == Extend(ss, cs[i])
  {
    seq(|cs|, i requires 0 <= i < |cs| => Extend(ss, cs[i]))
  }

  /** A customer whose id no sale carries has bought nothing. */
  lemma NoSalesNoTotals(ss: seq<Sale>, c: Customer)
    requires forall i :: 0 <= i < |ss| ==> ss[i].customerId != Some(c.id)
    ensures Extend(ss, c).totalSpent == 0 && Extend(ss, c).purchaseCount == 0
  {
    FilterNone(ss, BoughtBy(c.id));
  }

  /** The search box: the term, lower-cased, occurs in the lower-cased name, email
      or phone. */
  function SearchMatch(term: string): ExtendedCustomer -> bool
  {
    (e: ExtendedCustomer) =>
      MatchesTerm(e.customer.name, term) || MatchesTerm(e.customer.email, term) || MatchesTerm(e.customer.phone, term)
  }

  /** `filteredCustomers`: the customers the term matches, in their order. */
  function FilteredCustomers(es: seq<ExtendedCustomer>, term: string): (r: seq<ExtendedCustomer>)
    ensures |r| <= |es|
    ensures forall i :: 0 <= i < |r| ==> r[i] in es && SearchMatch(term)(r[i])
    ensures forall i :: 0 <= i < |es| && SearchMatch(term)(es[i]) ==> es[i] in r
  {
    Filter(es, SearchMatch(term))
  }

  /** An empty search box keeps every customer, in order. */
  lemma EmptySearchKeepsAll(es: seq<ExtendedCustomer>)
    ensures FilteredCustomers(es, "") == es
  {
    forall i | 0 <= i < |es|
      ensures SearchMatch("")(es[i])
    {
      ContainsEmpty(Lower(es[i].customer.name));
    }
    FilterKeepsAll(es, SearchMatch(""));
  }

  /** Searching for a customer's full name, in any letter case, keeps it. */
  lemma SearchFindsByName(es: seq<ExtendedCustomer>, i: nat)
    requires i < |es|
    ensures es[i] in FilteredCustomers(es, es[i].customer.name)
  {
    ContainsSelf(Lower(es[i].customer.name));
  }

  /** The columns the list can be sorted by (`keyof Customer`). */
  datatype CustomerKey = ById | ByName | ByPhone | ByEmail | ByNotes

  function CustomerColumn(k: CustomerKey, e: ExtendedCustomer): SortKey
  {
    match k
    case ById => Text(e.customer.id)
    case ByName => Text(e.customer.name)
    case ByPhone => Text(e.customer.phone)
    case ByEmail => Text(e.customer.email)
    case ByNotes => Text(e.customer.notes)
  }

  /** The list opens sorted by name, ascending. */
  const InitialSort: SortConfigChoice<CustomerKey> := Configured(SortConfig(ByName, Ascending))

  /** `sortedCustomers`: the filtered customers reordered by the chosen column. */
  function SortedCustomers(es: seq<ExtendedCustomer>, config: SortConfigChoice<CustomerKey>): (r: seq<ExtendedCustomer>)
    ensures multiset(r) == multiset(es)
    ensures config.Configured? ==> Sorted(r, e => CustomerColumn(config.config.key, e), config.config.direction)
  {
    ApplySort(es, CustomerColumn, config)
  }

  /** The edit form's fields, filled from the customer being edited. */
  function FormOf(c: Customer): Ledger.CustomerInput
  {
    Ledger.CustomerInput(c.name, c.phone, c.email, c.notes)
  }

  /** What submitting the form asks of the ledger. */
  datatype CustomerCall = UpdateCall(customer: Customer) | AddCall(input: Ledger.CustomerInput)

  /** `handleSubmit`: editing merges the form into the edited customer, which keeps
      its id; otherwise the form becomes a new customer. */
  function SubmitCustomer(editing: Option<Customer>, form: Ledger.CustomerInput): (call: CustomerCall)
    ensures editing.None? <==> call == AddCall(form)
    ensures editing.Some? ==>
              call.UpdateCall? && call.customer.id == editing.value.id && FormOf(call.customer) == form
  {
    match editing
    case None => AddCall(form)
    case Some(c) => UpdateCall(Customer(c.id, form.name, form.phone, form.email, form.notes))
  }

  /** Saving the edit form unchanged writes back the same customer. */
  lemma UnchangedFormKeepsCustomer(c: Customer)
    ensures SubmitCustomer(Some(c), FormOf(c)) == UpdateCall(c)
  {
  }

  /** One row of a customer's history, with its product name. */
  datatype HistoryRow = HistoryRow(sale: Sale, productName: string)

  function RowTotal(r: HistoryRow): int { r.sale.total }
  function RowDate(r: HistoryRow): SortKey { Num(r.sale.date) }

  /** A sale with the name of its product, or 'Producto Desconocido'. */
  function HistoryRowOf(ps: seq<Product>, s: Sale): HistoryRow
  {
    HistoryRow(s, ProductNameOrIfBlank(ps, s.productId, "Producto Desconocido"))
  }

  /** Each sale in order, with its product name. */
  function HistoryRows(ps: seq<Product>, sales: seq<Sale>): (rows: seq<HistoryRow>)
    ensures |rows| == |sales| && forall i :: 0 <= i < |sales| ==> rows[i] == HistoryRowOf(ps, sales[i])
  {
    seq(|sales|, i requires 0 <= i < |sales| => HistoryRowOf(ps, sales[i]))
  }

  /** `customerSales`: nothing for an unknown customer; otherwise the sales under
      its id, each with its product's name, newest first. */
  function CustomerHistory(cs: seq<Customer>, ss: seq<Sale>, ps: seq<Product>, customerId: string): (rows: seq<HistoryRow>)
    ensures FindCustomer(cs, customerId).None? ==> rows == []
    ensures FindCustomer(cs, customerId).Some? ==>
              multiset(rows) == multiset(HistoryRows(ps, Filter(ss, BoughtBy(customerId)))) &&
              Sorted(rows, RowDate, Descending)
  {
    if FindCustomer(cs, customerId).None? then []
    else SortBy(HistoryRows(ps, Filter(ss, BoughtBy(customerId))), RowDate, Descending)
  }

  datatype HistorySummary = HistorySummary(totalSpent: int, purchaseCount: int)

  /** `summary`: the totals and the number of rows of the history. */
  function Summary(rows: seq<HistoryRow>): HistorySummary
  {
    HistorySummary(Sum(rows, RowTotal), |rows|)
  }

  /** The detail page and the customer list agree on what a customer spent and how
      many purchases it made. */
  lemma DetailAgreesWithList(cs: seq<Customer>, ss: seq<Sale>, ps: seq<Product>, customerId: string)
    requires FindCustomer(cs, customerId).Some?
    ensures var c := FindCustomer(cs, customerId).value;
            var summary := Summary(CustomerHistory(cs, ss, ps, customerId));
            summary.totalSpent == Extend(ss, c).totalSpent && summary.purchaseCount == Extend(ss, c).purchaseCount
  {
    var rows := CustomerHistory(cs, ss, ps, customerId);
    var bought := Filter(ss, BoughtBy(customerId));
    var unsorted := HistoryRows(ps, bought);
    SumPermutation(rows, unsorted, RowTotal);
    SumPointwise(unsorted, bought, RowTotal, SaleTotal);
    assert |multiset(rows)| == |multiset(unsorted)|;
  }
}
