/** The "Sales & Customer Details" page (SalesManagement.jsx): a customer table built from the
    employee list with one total-sales figure for all, the product-sales list, and the month
    filter over the twelve built-in monthly figures. */
module SalesManagement {
  import opened Js
  import opened Remote
  import opened Seqs
  import opened Paging

  const RowsPerPage: nat := 5
  const CustomersFailed := "Failed to fetch customer data."
  const SalesFailed := "Failed to fetch sales data."
  const NotAvailable := "N/A"

  /** One month of the built-in sales chart. */
  datatype MonthSales = MonthSales(month: string, salesAmount: int)

  /** `manualSalesData`. */
  const ManualSalesData: seq<MonthSales> := [
    MonthSales("Jan", 90000), MonthSales("Feb", 70000), MonthSales("Mar", 50000),
    MonthSales("Apr", 55000), MonthSales("May", 57000), MonthSales("Jun", 60000),
    MonthSales("Jul", 59000), MonthSales("Aug", 65000), MonthSales("Sep", 62000),
    MonthSales("Oct", 72000), MonthSales("Nov", 75000), MonthSales("Dec", 89000)]

  /** An entry of `salesData`: a sale record of the API, or a built-in month put there by
      the filter. */
  datatype SalesItem = ApiSale(sale: Sale) | Month(month: MonthSales)

  /** A row of `customerData`. */
  datatype CustomerRow = CustomerRow(name: string, email: string, designation: string, totalSales: int)

  /** The rows of `fetchCustomerData`. `fetchTotalSales` requests `/api/totalSales/` without
      the customer's id, so one and the same answer, `totals`, serves every customer. */
  function BuildCustomers(members: seq<Employee>, totals: Response<SalesTotal>): (rows: seq<CustomerRow>)
    ensures |rows| == |members|
    ensures forall i :: 0 <= i < |members| ==> rows[i] == CustomerRow(
      StringOr(NameOf(members[i]), NotAvailable), StringOr(EmailOf(members[i]), NotAvailable),
      StringOr(members[i].designation, NotAvailable), TotalSalesOf(totals))
  {
    seq(|members|, i requires 0 <= i < |members| =>
      CustomerRow(StringOr(NameOf(members[i]), NotAvailable), StringOr(EmailOf(members[i]), NotAvailable),
                  StringOr(members[i].designation, NotAvailable), TotalSalesOf(totals)))
  }

  /** Every customer, whoever it is, shows the same total: the number the single endpoint
      answered, or 0 when it failed or had none. Its text cells are never empty, and a
      present, non-empty name is shown as it is. */
  lemma CustomerRows(members: seq<Employee>, totals: Response<SalesTotal>, i: nat)
    requires i < |members|
    ensures var rows := BuildCustomers(members, totals);
      && rows[i].totalSales == TotalSalesOf(totals)
      && (totals.Failed? ==> rows[i].totalSales == 0)
      && rows[i].name != "" && rows[i].email != "" && rows[i].designation != ""
      && (NameOf(members[i]).Some? && NameOf(members[i]).value != "" ==> rows[i].name == NameOf(members[i]).value)
  {
    StringOrNeverEmpty(NameOf(members[i]));
    StringOrNeverEmpty(EmailOf(members[i]));
    StringOrNeverEmpty(members[i].designation);
  }

  lemma AllTotalsEqual(members: seq<Employee>, totals: Response<SalesTotal>, i: nat, j: nat)
    requires i < |members| && j < |members|
    ensures BuildCustomers(members, totals)[i].totalSales == BuildCustomers(members, totals)[j].totalSales
  {
  }

  /** `data.month.toLowerCase().includes(selectedMonth.toLowerCase())`. */
  predicate MonthMatches(query: string, m: MonthSales) {
    Includes(Lower(m.month), Lower(query))
  }

  /** `handleFilter`'s new `salesData`: all the months for an empty selection, otherwise the
      months whose name contains the selection, ignoring case. */
  function FilterMonths(query: string): seq<MonthSales> {
    if query == "" then ManualSalesData else Keep(ManualSalesData, m => MonthMatches(query, m))
  }

  /** The empty-selection branch is the filter itself: every month name contains "". */
  lemma EmptySelectionIsFilter()
    ensures Keep(ManualSalesData, m => MonthMatches("", m)) == ManualSalesData
    ensures FilterMonths("") == ManualSalesData
  {
    forall i | 0 <= i < |ManualSalesData|
      ensures MonthMatches("", ManualSalesData[i])
    {
      IncludesEmpty(Lower(ManualSalesData[i].month));
    }
    KeepAll(ManualSalesData, m => MonthMatches("", m));
  }

  /** A month is kept iff the lower-cased selection occurs somewhere in its lower-cased name;
      the kept months stay in calendar order and the filter never adds months. */
  lemma FilterMonthsMembership(query: string, m: MonthSales)
    ensures m in FilterMonths(query) <==>
      m in ManualSalesData && exists i: nat :: OccursAt(Lower(m.month), Lower(query), i)
    ensures |FilterMonths(query)| <= |ManualSalesData|
  {
    EmptySelectionIsFilter();
    KeepMembership(ManualSalesData, m => MonthMatches(query, m), m);
    IncludesIffOccurs(Lower(m.month), Lower(query));
  }

  /** The months as `salesData` entries. */
  function AsItems(months: seq<MonthSales>): (items: seq<SalesItem>)
    ensures |items| == |months|
    ensures forall i :: 0 <= i < |items| ==> items[i] == Month(months[i])
  {
    seq(|months|, i requires 0 <= i < |months| => Month(months[i]))
  }

  /** `setSalesData(response.data)`: the body is stored as it came. */
  function AsSalesData(body: Payload<Sale>): (data: Payload<SalesItem>)
    ensures body.Falsy? <==> data.Falsy?
    ensures body.NonArray? <==> data.NonArray?
    ensures body.Array? ==> |data.items| == |body.items|
    ensures body.Array? ==> forall i :: 0 <= i < |body.items| ==> data.items[i] == ApiSale(body.items[i])
  {
    match body
    case Falsy => Falsy
    case NonArray => NonArray
    case Array(sales) => Array(seq(|sales|, i requires 0 <= i < |sales| => ApiSale(sales[i])))
  }

  /** The error `fetchCustomerData` leaves: none after a load, its failure text otherwise. */
  function CustomersError(response: Response<Payload<Employee>>): (e: string)
    ensures e == "" <==> response.Ok? && response.data.Array?
  {
    if response.Ok? && response.data.Array? then "" else CustomersFailed
  }

  /** The page's state. It renders neither `loading` nor `error`, and it has no pagination
      buttons, so `currentPage` stays 1. */
  class SalesManagementView {
    var customerData: seq<CustomerRow>
    var salesData: Payload<SalesItem>
    var loading: bool
    var error: string
    var selectedMonth: string
    var currentPage: int

    constructor ()
      ensures customerData == [] && salesData == Array([]) && loading && error == ""
      ensures selectedMonth == "" && currentPage == 1
    {
      customerData, salesData, loading, error := [], Array([]), true, "";
      selectedMonth, currentPage := "", 1;
    }

    /** `fetchCustomerData`: `response.data.map` throws unless the body is an array, so only
        an array loads; success clears the error, failure sets it and keeps the rows. */
    method FetchCustomerData(response: Response<Payload<Employee>>, totals: Response<SalesTotal>)
      modifies this`customerData, this`loading, this`error
      ensures !loading
      ensures response.Ok? && response.data.Array? ==>
        customerData == BuildCustomers(response.data.items, totals) && error == ""
      ensures !(response.Ok? && response.data.Array?) ==>
        customerData == old(customerData) && error == CustomersFailed
    {
      loading := true;
      if response.Ok? && response.data.Array? {
        customerData := BuildCustomers(response.data.items, totals);
        error := "";
      } else {
        error := CustomersFailed;
      }
      loading := false;
    }

    /** `fetchSalesData`. */
    method FetchSalesData(response: Response<Payload<Sale>>)
      modifies this`salesData, this`error
      ensures response.Ok? ==> salesData == AsSalesData(response.data) && error == old(error)
      ensures response.Failed? ==> salesData == old(salesData) && error == SalesFailed
    {
      match response {
        case Ok(body) => salesData := AsSalesData(body);
        case Failed(_, _) => error := SalesFailed;
      }
    }

    /** The effect on `user`: without a user nothing is requested; otherwise both fetches are
        issued together, and `salesFirst` says which of the two settles first. */
    method OnUserChange(user: Option<Identity>, customers: Response<Payload<Employee>>,
                        totals: Response<SalesTotal>, sales: Response<Payload<Sale>>, salesFirst: bool)
      returns (requested: bool)
      modifies this`customerData, this`salesData, this`loading, this`error
      ensures requested <==> user.Some?
      ensures user.None? ==> customerData == old(customerData) && salesData == old(salesData)
      ensures user.None? ==> loading == old(loading) && error == old(error)
      ensures user.Some? ==> !loading
      ensures user.Some? && customers.Ok? && customers.data.Array? ==>
        customerData == BuildCustomers(customers.data.items, totals)
      ensures user.Some? && !(customers.Ok? && customers.data.Array?) ==> customerData == old(customerData)
      ensures user.Some? && sales.Ok? ==> salesData == AsSalesData(sales.data)
      ensures user.Some? && sales.Failed? ==> salesData == old(salesData)
      ensures user.Some? && sales.Failed? && !salesFirst ==> error == SalesFailed
      ensures user.Some? && (sales.Ok? || salesFirst) ==> error == CustomersError(customers)
    {
      if user.None? {
        return false;
      }
      if salesFirst {
        FetchSalesData(sales);
        FetchCustomerData(customers, totals);
      } else {
        FetchCustomerData(customers, totals);
        FetchSalesData(sales);
      }
      return true;
    }

    /** `handleFilter`. */
    method HandleFilter()
      modifies this`salesData
      ensures salesData == Array(AsItems(FilterMonths(selectedMonth)))
    {
      if selectedMonth == "" {
        salesData := Array(AsItems(ManualSalesData));
      } else {
        var query := selectedMonth;
        var filtered := Keep(ManualSalesData, m => MonthMatches(query, m));
        salesData := Array(AsItems(filtered));
      }
    }

    /** `displayedCustomers`: at most five rows, the window of the current page; on page 1
        the first five customers. */
    function DisplayedCustomers(): (page: seq<CustomerRow>)
      reads this
      ensures |page| <= RowsPerPage
      ensures currentPage >= 1 ==> forall k :: 0 <= k < |page| ==>
        (currentPage - 1) * RowsPerPage + k < |customerData| &&
        page[k] == customerData[(currentPage - 1) * RowsPerPage + k]
      ensures currentPage == 1 ==> page == customerData[..Min(RowsPerPage, |customerData|)]
    {
      PageAtMostSize(customerData, currentPage, RowsPerPage);
      if currentPage >= 1 then
        PageWindow(customerData, currentPage, RowsPerPage);
        PageOf(customerData, currentPage, RowsPerPage)
      else
        PageOf(customerData, currentPage, RowsPerPage)
    }

    function PageCount(): nat
      reads this
    {
      TotalPages(|customerData|, RowsPerPage)
    }
  }
}
