/** The contest table of the "Sales Contest" page (SalesContest.jsx): five fixed rows, paged
    five at a time behind a sign-in guard, with Prev/Next handlers that step the page without
    clamping and rely on the buttons' disabled state. */
module SalesContest {
  import opened Js
  import opened Remote
  import opened Paging

  const RowsPerPage: nat := 5
  const SignInRoute := "/signin"

  datatype ContestRow = ContestRow(team: string, contest: string, target: string, update: string)

  /** `contestData`. */
  const ContestData: seq<ContestRow> := [
    ContestRow("Team Sales", "Sales Contest", "15%", "Upcoming"),
    ContestRow("Team Marketing", "Marketing Contest", "20%", "Ongoing"),
    ContestRow("All Employees", "Best Employee Contest", "10%", "Ongoing"),
    ContestRow("Team Management", "Management Contest", "20%", "Ongoing"),
    ContestRow("All Teams", "Team Contest", "30%", "Complete")]

  /** The five rows fit on one page, and that page shows all of them in order. */
  lemma OnePageShowsAll()
    ensures TotalPages(|ContestData|, RowsPerPage) == 1
    ensures PageOf(ContestData, 1, RowsPerPage) == ContestData
  {
  }

  /** On a table of `total >= 1` pages the unclamped handlers behave exactly like the clamped
      ones whenever the page is in range, which is all the disabled buttons let happen. */
  lemma UnclampedAgreesInRange(p: int, total: nat, b: Button)
    requires 1 <= p <= total
    ensures UnclampedClick(p, total, b) == ClampedClick(p, total, b)
  {
  }

  /** With one page, no sequence of clicks ever leaves page 1. */
  lemma ClicksStayOnPageOne(bs: seq<Button>)
    ensures UnclampedClicks(1, TotalPages(|ContestData|, RowsPerPage), bs) == 1
  {
    OnePageShowsAll();
    UnclampedClicksStayInRange(1, 1, bs);
  }

  /** The page's state. */
  class ContestView {
    var page: int

    constructor ()
      ensures page == 1
    {
      page := 1;
    }

    function PageCount(): nat {
      TotalPages(|ContestData|, RowsPerPage)
    }

    /** `displayedRows`: at most five rows, the window of the current page. */
    function DisplayedRows(): (rows: seq<ContestRow>)
      reads this
      ensures |rows| <= RowsPerPage
      ensures page >= 1 ==> forall k :: 0 <= k < |rows| ==>
        (page - 1) * RowsPerPage + k < |ContestData| && rows[k] == ContestData[(page - 1) * RowsPerPage + k]
      ensures page == 1 ==> rows == ContestData
    {
      PageAtMostSize(ContestData, page, RowsPerPage);
      OnePageShowsAll();
      if page >= 1 then
        PageWindow(ContestData, page, RowsPerPage);
        PageOf(ContestData, page, RowsPerPage)
      else
        PageOf(ContestData, page, RowsPerPage)
    }

    /** What the page renders: nothing (`null`) without a user, the table rows otherwise. */
    function Rendered(user: Option<Identity>): (shown: Option<seq<ContestRow>>)
      reads this
      ensures shown.None? <==> user.None?
      ensures shown.Some? ==> shown.value == DisplayedRows()
    {
      if user.None? then None else Some(DisplayedRows())
    }

    /** A click on Prev, Next or a number button: `setPage(page - 1)`, `setPage(page + 1)`,
        `setPage(i + 1)`, with Prev disabled on page 1 and Next on the last page. */
    method Click(b: Button)
      modifies this`page
      ensures page == UnclampedClick(old(page), PageCount(), b)
      ensures 1 <= old(page) <= PageCount() ==> page == ClampedClick(old(page), PageCount(), b)
    {
      if 1 <= page <= PageCount() {
        UnclampedAgreesInRange(page, PageCount(), b);
      }
      page := UnclampedClick(page, PageCount(), b);
    }
  }

  /** The guard effect: without a user it navigates to the sign-in page, with one it does
      nothing. */
  function GuardRedirect(user: Option<Identity>): (navigateTo: Option<string>)
    ensures navigateTo.Some? <==> user.None?
    ensures navigateTo.Some? ==> navigateTo.value == SignInRoute
  {
    if user.None? then Some(SignInRoute) else None
  }
}
