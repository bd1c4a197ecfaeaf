/** The employee table with incentives (EmployeeModel.jsx): it lists the employees, joins each
    with its incentive slab by a secondary request whose failures become an empty slab, and
    shows the rows five to a page behind a loading-then-error precedence. */
module EmployeeTable {
  import opened Js
  import opened Remote
  import opened Paging

  const RowsPerPage: nat := 5
  const FetchFailed := "Failed to fetch employee data."
  const NoIncentives := "No Incentives"

  /** An employee spread with the `incentiveSlab` it was joined with. */
  datatype EmployeeRow = EmployeeRow(employee: Employee, incentiveSlab: Payload<string>)

  /** The `Promise.all` over the employees: each row is its employee with the slab that
      `fetchIncentives(employee._id)` resolves to, in the employees' order. */
  function JoinIncentives(employees: seq<Employee>, incentives: Option<string> -> Response<Payload<string>>)
    : (rows: seq<EmployeeRow>)
    ensures |rows| == |employees|
    ensures forall i :: 0 <= i < |rows| ==>
      rows[i].employee == employees[i] && rows[i].incentiveSlab == IncentivesOf(incentives(employees[i].id))
  {
    seq(|employees|, i requires 0 <= i < |employees| =>
      EmployeeRow(employees[i], IncentivesOf(incentives(employees[i].id))))
  }

  /** A failed slab lookup, a 404 included, never drops or disturbs a row: that employee
      is still listed, at its place, with an empty slab. */
  lemma FailedLookupKeepsRow(employees: seq<Employee>, incentives: Option<string> -> Response<Payload<string>>, i: nat)
    requires i < |employees| && incentives(employees[i].id).Failed?
    ensures |JoinIncentives(employees, incentives)| == |employees|
    ensures JoinIncentives(employees, incentives)[i] == EmployeeRow(employees[i], Array([]))
  {
  }

  /** What one fetch-and-join yields. */
  datatype Loaded = Rows(rows: seq<EmployeeRow>) | LoadFailed

  /** `fetchEmployees` up to its state updates: `response.data || []` is joined, and a
      rejection or a body whose `map` throws is a failure. */
  function Load(response: Response<Payload<Employee>>, incentives: Option<string> -> Response<Payload<string>>)
    : (l: Loaded)
    ensures response.Failed? || response.data.NonArray? <==> l.LoadFailed?
    ensures response.Ok? && response.data.Falsy? ==> l == Rows([])
    ensures response.Ok? && response.data.Array? ==> l == Rows(JoinIncentives(response.data.items, incentives))
  {
    match response
    case Ok(Falsy) => Rows([])
    case Ok(Array(items)) => Rows(JoinIncentives(items, incentives))
    case _ => LoadFailed
  }

  /** The component's state, as a value. */
  datatype State = State(employees: seq<EmployeeRow>, loading: bool, error: string, currentPage: int)

  /** The state updates of `fetchEmployees`: success replaces the rows and does not touch the
      error; failure sets the error and keeps the rows; loading ends either way. */
  function AfterLoad(s: State, l: Loaded): (t: State)
    ensures !t.loading && t.currentPage == s.currentPage
    ensures l.Rows? ==> t.employees == l.rows && t.error == s.error
    ensures l.LoadFailed? ==> t.employees == s.employees && t.error == FetchFailed
  {
    match l
    case Rows(rows) => s.(employees := rows, loading := false)
    case LoadFailed => s.(error := FetchFailed, loading := false)
  }

  /** `refreshData`: `setLoading(true)`, then the fetch. The error is not reset. */
  function AfterRefresh(s: State, l: Loaded): State {
    AfterLoad(s.(loading := true), l)
  }

  function AfterRefreshes(s: State, ls: seq<Loaded>): State
    decreases |ls|
  {
    if ls == [] then s else AfterRefreshes(AfterRefresh(s, ls[0]), ls[1..])
  }

  /** The cells of one rendered row. */
  datatype Cells = Cells(name: string, email: string, designation: string, incentives: string)

  /** `incentiveSlab.length > 0 ? incentiveSlab.join(", ") : "No Incentives"`; a non-array
      slab has no `length`, and `undefined > 0` is false. */
  function IncentiveText(slab: Payload<string>): (text: string)
    requires slab != Falsy
    ensures slab.Array? && slab.items != [] ==> text == Join(slab.items, ", ")
    ensures slab.NonArray? || slab == Array([]) ==> text == NoIncentives
  {
    if slab.Array? && |slab.items| > 0 then Join(slab.items, ", ") else NoIncentives
  }

  /** A non-empty slab is shown as its labels joined by ", ", headed by the first label. */
  lemma IncentiveTextShowsFirstLabel(slab: Payload<string>)
    requires slab.Array? && slab.items != []
    ensures StartsWith(IncentiveText(slab), slab.items[0])
  {
    JoinStartsWithFirst(slab.items, ", ");
  }

  /** One row of the table: name, e-mail and designation with their "N/A" fallbacks, which
      are never empty, and the incentive cell. */
  function RenderRow(r: EmployeeRow): (cells: Cells)
    requires r.incentiveSlab != Falsy
    ensures cells.name != "" && cells.email != "" && cells.designation != ""
    ensures NameOf(r.employee).Some? && NameOf(r.employee).value != "" ==> cells.name == NameOf(r.employee).value
  {
    StringOrNeverEmpty(NameOf(r.employee));
    StringOrNeverEmpty(EmailOf(r.employee));
    StringOrNeverEmpty(r.employee.designation);
    Cells(StringOr(NameOf(r.employee), "N/A"), StringOr(EmailOf(r.employee), "N/A"),
          StringOr(r.employee.designation, "N/A"), IncentiveText(r.incentiveSlab))
  }

  predicate RowsWellFormed(rows: seq<EmployeeRow>) {
    forall i :: 0 <= i < |rows| ==> rows[i].incentiveSlab != Falsy
  }

  /** The rows on the current page, rendered. */
  function PageCells(s: State): (cells: seq<Cells>)
    requires RowsWellFormed(s.employees)
    ensures |cells| <= RowsPerPage
  {
    var page := PageOf(s.employees, s.currentPage, RowsPerPage);
    PageAtMostSize(s.employees, s.currentPage, RowsPerPage);
    assert forall k :: 0 <= k < |page| ==> page[k] in s.employees;
    seq(|page|, k requires 0 <= k < |page| => RenderRow(page[k]))
  }

  /** What the component renders: the spinner, else the error, else the table. */
  function Display(s: State): Screen<Cells>
    requires RowsWellFormed(s.employees)
  {
    Precedence(s.loading, s.error, PageCells(s))
  }

  lemma {:induction false} LoadKeepsRowsWellFormed(response: Response<Payload<Employee>>, incentives: Option<string> -> Response<Payload<string>>)
    ensures Load(response, incentives).Rows? ==> RowsWellFormed(Load(response, incentives).rows)
  {
  }

  lemma {:induction false} RefreshesKeepRowsWellFormed(s: State, ls: seq<Loaded>)
    requires RowsWellFormed(s.employees)
    requires forall i :: 0 <= i < |ls| ==> ls[i].Rows? ==> RowsWellFormed(ls[i].rows)
    ensures RowsWellFormed(AfterRefreshes(s, ls).employees)
    decreases |ls|
  {
    if ls != [] {
      RefreshesKeepRowsWellFormed(AfterRefresh(s, ls[0]), ls[1..]);
    }
  }

  /** Once the error is set, later successful refreshes never clear it: after any further
      refreshes the component still shows the error instead of the table. */
  lemma {:induction false} ErrorHidesTableForever(s: State, ls: seq<Loaded>)
    requires s.error != "" && ls != []
    requires RowsWellFormed(s.employees)
    requires forall i :: 0 <= i < |ls| ==> ls[i].Rows? ==> RowsWellFormed(ls[i].rows)
    ensures AfterRefreshes(s, ls).error != ""
    ensures RowsWellFormed(AfterRefreshes(s, ls).employees)
    ensures Display(AfterRefreshes(s, ls)).Message?
    decreases |ls|
  {
    RefreshesKeepRowsWellFormed(s, ls);
    var t := AfterRefresh(s, ls[0]);
    if |ls| > 1 {
      ErrorHidesTableForever(t, ls[1..]);
    }
  }

  /** A single failed refresh among any number of them is enough to hide the table for good. */
  lemma {:induction false} OneFailureHidesTable(s: State, ls: seq<Loaded>, i: nat)
    requires i < |ls| && ls[i].LoadFailed?
    ensures AfterRefreshes(s, ls).error == FetchFailed
    decreases |ls|
  {
    if i == 0 {
      if |ls| > 1 {
        ErrorStaysFailed(AfterRefresh(s, ls[0]), ls[1..]);
      }
    } else {
      OneFailureHidesTable(AfterRefresh(s, ls[0]), ls[1..], i - 1);
    }
  }

  lemma {:induction false} ErrorStaysFailed(s: State, ls: seq<Loaded>)
    requires s.error == FetchFailed
    ensures AfterRefreshes(s, ls).error == FetchFailed
    decreases |ls|
  {
    if ls != [] {
      ErrorStaysFailed(AfterRefresh(s, ls[0]), ls[1..]);
    }
  }

  /** The component's state. */
  class EmployeeTableView {
    var employees: seq<EmployeeRow>
    var loading: bool
    var error: string
    var currentPage: int

    ghost function Snapshot(): State
      reads this
    {
      State(employees, loading, error, currentPage)
    }

    ghost predicate Valid()
      reads this
    {
      RowsWellFormed(employees)
    }

    constructor ()
      ensures Valid() && Snapshot() == State([], true, "", 1)
    {
      employees, loading, error, currentPage := [], true, "", 1;
    }

    /** `fetchEmployees`. */
    method FetchEmployees(response: Response<Payload<Employee>>, incentives: Option<string> -> Response<Payload<string>>)
      requires Valid()
      modifies this`employees, this`loading, this`error
      ensures Valid()
      ensures Snapshot() == AfterLoad(old(Snapshot()), Load(response, incentives))
    {
      match response {
        case Ok(Falsy) =>
          employees := [];
          loading := false;
        case Ok(Array(items)) =>
          employees := JoinIncentives(items, incentives);
          loading := false;
        case _ =>
          error := FetchFailed;
          loading := false;
      }
    }

    /** `refreshData`. */
    method RefreshData(response: Response<Payload<Employee>>, incentives: Option<string> -> Response<Payload<string>>)
      requires Valid()
      modifies this`employees, this`loading, this`error
      ensures Valid()
      ensures Snapshot() == AfterRefresh(old(Snapshot()), Load(response, incentives))
    {
      loading := true;
      FetchEmployees(response, incentives);
    }

    function PageCount(): nat
      reads this
    {
      TotalPages(|employees|, RowsPerPage)
    }

    /** What the component renders. */
    function View(): Screen<Cells>
      reads this
      requires RowsWellFormed(employees)
    {
      Display(State(employees, loading, error, currentPage))
    }

    /** A click on a pagination button. */
    method Click(b: Button)
      modifies this`currentPage
      ensures currentPage == ClampedClick(old(currentPage), PageCount(), b)
    {
      currentPage := ClampedClick(currentPage, PageCount(), b);
    }
  }
}
