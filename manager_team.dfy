/** The manager dashboard's team table (ManagerDashPages/TeamManagement.jsx): each employee is
    flattened to display cells with "N/A" fallbacks and its total sales, looked up one request
    per employee; a loaded table clears any earlier error. */
module ManagerTeam {
  import opened Js
  import opened Remote
  import opened Paging

  const ItemsPerPage: nat := 5
  const FetchFailed := "Failed to fetch team data. Please try again later."
  const NotAvailable := "N/A"

  /** A row of `updatedTeam`. */
  datatype TeamRow = TeamRow(id: string, name: string, email: string, designation: string, totalSales: int)

  /** One member flattened, with the answer of `fetchTotalSales(member._id)`. */
  function RowOf(member: Employee, sales: Response<SalesTotal>): TeamRow {
    TeamRow(StringOr(member.id, NotAvailable), StringOr(NameOf(member), NotAvailable),
            StringOr(EmailOf(member), NotAvailable), StringOr(member.designation, NotAvailable),
            TotalSalesOf(sales))
  }

  /** Every text cell of a row is filled: a missing or empty field shows as "N/A", a present
      one as itself; the total is the lookup's number, or 0 when it failed or had none. */
  lemma RowCells(member: Employee, sales: Response<SalesTotal>)
    ensures var row := RowOf(member, sales);
      && row.id != "" && row.name != "" && row.email != "" && row.designation != ""
      && (member.id.Some? && member.id.value != "" ==> row.id == member.id.value)
      && (member.id.None? || member.id == Some("") ==> row.id == NotAvailable)
      && (NameOf(member).Some? && NameOf(member).value != "" ==> row.name == NameOf(member).value)
      && (NameOf(member).None? || NameOf(member) == Some("") ==> row.name == NotAvailable)
      && (EmailOf(member).Some? && EmailOf(member).value != "" ==> row.email == EmailOf(member).value)
      && (EmailOf(member).None? || EmailOf(member) == Some("") ==> row.email == NotAvailable)
      && (member.designation.Some? && member.designation.value != "" ==> row.designation == member.designation.value)
      && (member.designation.None? || member.designation == Some("") ==> row.designation == NotAvailable)
      && (row.totalSales != 0 ==> sales == Ok(Body(Some(row.totalSales))))
      && (sales.Failed? ==> row.totalSales == 0)
  {
    StringOrNeverEmpty(member.id);
    StringOrNeverEmpty(NameOf(member));
    StringOrNeverEmpty(EmailOf(member));
    StringOrNeverEmpty(member.designation);
  }

  /** The `Promise.all` over the members: one row per member, in order, each with the total
      of its own `_id`. */
  function BuildTeam(members: seq<Employee>, salesFor: Option<string> -> Response<SalesTotal>)
    : (rows: seq<TeamRow>)
    ensures |rows| == |members|
    ensures forall i :: 0 <= i < |rows| ==> rows[i] == RowOf(members[i], salesFor(members[i].id))
  {
    seq(|members|, i requires 0 <= i < |members| => RowOf(members[i], salesFor(members[i].id)))
  }

  /** Two members with the same `_id` get the same total. */
  lemma SameIdSameTotal(members: seq<Employee>, salesFor: Option<string> -> Response<SalesTotal>, i: nat, j: nat)
    requires i < |members| && j < |members| && members[i].id == members[j].id
    ensures BuildTeam(members, salesFor)[i].totalSales == BuildTeam(members, salesFor)[j].totalSales
  {
  }

  /** What one `fetchTeamData` yields: a falsy or non-array body is thrown as an error. */
  datatype Loaded = Team(rows: seq<TeamRow>) | LoadFailed

  function Load(response: Response<Payload<Employee>>, salesFor: Option<string> -> Response<SalesTotal>)
    : (l: Loaded)
    ensures l.Team? <==> response.Ok? && response.data.Array?
    ensures l.Team? ==> l.rows == BuildTeam(response.data.items, salesFor)
  {
    if response.Ok? && response.data.Array? then Team(BuildTeam(response.data.items, salesFor)) else LoadFailed
  }

  datatype State = State(team: seq<TeamRow>, loading: bool, error: string, currentPage: int)

  /** The updates of one fetch: success replaces the team and clears the error; failure
      keeps the team and sets the error; `finally` ends loading. */
  function AfterFetch(s: State, l: Loaded): (t: State)
    ensures !t.loading && t.currentPage == s.currentPage
    ensures l.Team? ==> t.team == l.rows && t.error == ""
    ensures l.LoadFailed? ==> t.team == s.team && t.error == FetchFailed
  {
    match l
    case Team(rows) => s.(team := rows, error := "", loading := false)
    case LoadFailed => s.(error := FetchFailed, loading := false)
  }

  function AfterFetches(s: State, ls: seq<Loaded>): State
    decreases |ls|
  {
    if ls == [] then s else AfterFetches(AfterFetch(s, ls[0]), ls[1..])
  }

  function Display(s: State): Screen<TeamRow> {
    Precedence(s.loading, s.error, PageOf(s.team, s.currentPage, ItemsPerPage))
  }

  /** After any non-empty run of fetches (the mount, and `handleRefresh` should anything call it), what is shown is
      decided by the last one alone: its table when it succeeded, whatever failed before,
      and the failure text when it failed. */
  lemma {:induction false} LastFetchDecides(s: State, ls: seq<Loaded>)
    requires ls != []
    ensures ls[|ls| - 1].Team? ==>
      Display(AfterFetches(s, ls)) == Table(PageOf(ls[|ls| - 1].rows, s.currentPage, ItemsPerPage))
    ensures ls[|ls| - 1].LoadFailed? ==> Display(AfterFetches(s, ls)) == Message(FetchFailed)
    decreases |ls|
  {
    if |ls| > 1 {
      LastFetchDecides(AfterFetch(s, ls[0]), ls[1..]);
      assert ls[1..][|ls[1..]| - 1] == ls[|ls| - 1];
    }
  }

  /** The table's state. */
  class TeamView {
    var team: seq<TeamRow>
    var loading: bool
    var error: string
    var currentPage: int

    ghost function Snapshot(): State
      reads this
    {
      State(team, loading, error, currentPage)
    }

    constructor ()
      ensures Snapshot() == State([], true, "", 1)
    {
      team, loading, error, currentPage := [], true, "", 1;
    }

    /** `fetchTeamData`. */
    method FetchTeamData(response: Response<Payload<Employee>>, salesFor: Option<string> -> Response<SalesTotal>)
      modifies this`team, this`loading, this`error
      ensures Snapshot() == AfterFetch(old(Snapshot()), Load(response, salesFor))
    {
      loading := true;
      if response.Ok? && response.data.Array? {
        team := BuildTeam(response.data.items, salesFor);
        error := "";
      } else {
        error := FetchFailed;
      }
      loading := false;
    }

    /** `handleRefresh`: the same fetch again. */
    method HandleRefresh(response: Response<Payload<Employee>>, salesFor: Option<string> -> Response<SalesTotal>)
      modifies this`team, this`loading, this`error
      ensures Snapshot() == AfterFetch(old(Snapshot()), Load(response, salesFor))
    {
      FetchTeamData(response, salesFor);
    }

    function PageCount(): nat
      reads this
    {
      TotalPages(|team|, ItemsPerPage)
    }

    function View(): Screen<TeamRow>
      reads this
    {
      Display(State(team, loading, error, currentPage))
    }

    /** A click on a pagination button. */
    method Click(b: Button)
      modifies this`currentPage
      ensures currentPage == ClampedClick(old(currentPage), PageCount(), b)
    {
      currentPage := ClampedClick(currentPage, PageCount(), b);
    }
  }
}
