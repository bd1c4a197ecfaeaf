/** The "Team Members" page (Team_management.jsx): it lists the employees, filters them by a
    name search and a department, and shows the result ten to a page. */
module TeamManagementPage {
  import opened Js
  import opened Remote
  import opened Seqs
  import opened Paging

  const EmployeesPerPage: nat := 10
  const LoadFailed := "Failed to load employees."
  const SignInRoute := "/signin"

  /** `emp?.user?.name?.toLowerCase().includes(searchQuery.toLowerCase())
      && (filterDepartment ? emp?.department === filterDepartment : true)`. */
  predicate Matches(e: Employee, query: string, department: string) {
    && NameOf(e).Some?
    && Includes(Lower(NameOf(e).value), Lower(query))
    && (department != "" ==> e.department == Some(department))
  }

  /** `filteredEmployees`. */
  function FilterEmployees(employees: seq<Employee>, query: string, department: string): seq<Employee> {
    Keep(employees, e => Matches(e, query, department))
  }

  /** An employee is shown iff it is listed, has a `user.name`, the lower-cased query occurs
      in the lower-cased name, and, when a department is selected, it is that department. */
  lemma FilterMembership(employees: seq<Employee>, query: string, department: string, e: Employee)
    ensures e in FilterEmployees(employees, query, department) <==>
      && e in employees
      && NameOf(e).Some?
      && (exists i: nat :: OccursAt(Lower(NameOf(e).value), Lower(query), i))
      && (department != "" ==> e.department == Some(department))
  {
    KeepMembership(employees, e => Matches(e, query, department), e);
    if NameOf(e).Some? {
      IncludesIffOccurs(Lower(NameOf(e).value), Lower(query));
    }
  }

  /** The filter keeps the order of the list: filtering two halves and joining them is
      filtering the whole. */
  lemma FilterPreservesOrder(a: seq<Employee>, b: seq<Employee>, query: string, department: string)
    ensures FilterEmployees(a + b, query, department)
         == FilterEmployees(a, query, department) + FilterEmployees(b, query, department)
  {
    KeepAppend(a, b, e => Matches(e, query, department));
  }

  predicate HasName(e: Employee) { NameOf(e).Some? }

  /** With an empty search box and "All Departments", exactly the employees that have a
      name are shown, in their original order. */
  lemma EmptyQueryKeepsNamed(employees: seq<Employee>)
    ensures FilterEmployees(employees, "", "") == Keep(employees, HasName)
  {
    forall i | 0 <= i < |employees|
      ensures Matches(employees[i], "", "") == HasName(employees[i])
    {
      if HasName(employees[i]) {
        IncludesEmpty(Lower(NameOf(employees[i]).value));
      }
    }
    KeepCongruent(employees, e => Matches(e, "", ""), HasName);
  }

  /** The page's state. */
  class TeamManagementView {
    var employees: seq<Employee>
    var loading: bool
    var error: string
    var searchQuery: string
    var filterDepartment: string
    var currentPage: int

    constructor ()
      ensures employees == [] && loading && error == ""
      ensures searchQuery == "" && filterDepartment == "" && currentPage == 1
    {
      employees, loading, error := [], true, "";
      searchQuery, filterDepartment, currentPage := "", "", 1;
    }

    /** `fetchEmployees`: a falsy body counts as `[]`; an array replaces the list with a copy
        of each employee, in order, and leaves the error as it was; a rejection, or a body
        whose `map` throws, sets the error and keeps the list. Loading ends either way. */
    method FetchEmployees(response: Response<Payload<Employee>>)
      modifies this`employees, this`loading, this`error
      ensures !loading
      ensures response.Ok? && response.data.Falsy? ==> employees == [] && error == old(error)
      ensures response.Ok? && response.data.Array? ==> employees == response.data.items && error == old(error)
      ensures response.Failed? || response.data.NonArray? ==> employees == old(employees) && error == LoadFailed
    {
      loading := true;
      match response {
        case Ok(Falsy) =>
          employees := [];
        case Ok(Array(items)) =>
          employees := seq(|items|, i requires 0 <= i < |items| => items[i]);
        case _ =>
          error := LoadFailed;
      }
      loading := false;
    }

    /** The mount effect: without a signed-in user it navigates to the sign-in page and
        issues no request; otherwise it fetches the employees. */
    method OnUserChange(user: Option<Identity>, response: Response<Payload<Employee>>)
      returns (navigateTo: Option<string>, requested: bool)
      modifies this`employees, this`loading, this`error
      ensures user.None? ==> navigateTo == Some(SignInRoute) && !requested
      ensures user.None? ==> employees == old(employees) && loading == old(loading) && error == old(error)
      ensures user.Some? ==> navigateTo == None && requested && !loading
      ensures user.Some? && response.Ok? && response.data.Array? ==>
        employees == response.data.items && error == old(error)
      ensures user.Some? && response.Ok? && response.data.Falsy? ==> employees == [] && error == old(error)
      ensures user.Some? && (response.Failed? || response.data.NonArray?) ==>
        employees == old(employees) && error == LoadFailed
    {
      if user.None? {
        return Some(SignInRoute), false;
      }
      FetchEmployees(response);
      return None, true;
    }

    method SetSearchQuery(query: string)
      modifies this`searchQuery
      ensures searchQuery == query
    {
      searchQuery := query;
    }

    method SetFilterDepartment(department: string)
      modifies this`filterDepartment
      ensures filterDepartment == department
    {
      filterDepartment := department;
    }

    function Filtered(): seq<Employee>
      reads this
    {
      FilterEmployees(employees, searchQuery, filterDepartment)
    }

    function PageCount(): nat
      reads this
    {
      TotalPages(|Filtered()|, EmployeesPerPage)
    }

    /** `paginatedEmployees`: at most ten filtered employees, the window of the current page. */
    function PaginatedEmployees(): (page: seq<Employee>)
      reads this
      ensures |page| <= EmployeesPerPage
      ensures currentPage >= 1 ==> forall k :: 0 <= k < |page| ==>
        (currentPage - 1) * EmployeesPerPage + k < |Filtered()| &&
        page[k] == Filtered()[(currentPage - 1) * EmployeesPerPage + k]
      ensures currentPage >= 1 ==>
        var lo, hi := Min((currentPage - 1) * EmployeesPerPage, |Filtered()|), Min(currentPage * EmployeesPerPage, |Filtered()|);
        lo <= hi && page == Filtered()[lo..hi]
    {
      PageAtMostSize(Filtered(), currentPage, EmployeesPerPage);
      if currentPage >= 1 then
        PageWindow(Filtered(), currentPage, EmployeesPerPage);
        PageOf(Filtered(), currentPage, EmployeesPerPage)
      else
        PageOf(Filtered(), currentPage, EmployeesPerPage)
    }

    /** What the page renders: it tests `loading` only, so the error text is never shown. */
    function View(): (v: Screen<Employee>)
      reads this
      ensures !v.Message?
    {
      if loading then Spinner else Table(PaginatedEmployees())
    }

    /** A click on a pagination button. Changing the search or the department does not
        reset the page, so the page may lie beyond the new `totalPages`. */
    method Click(b: Button)
      modifies this`currentPage
      ensures currentPage == ClampedClick(old(currentPage), PageCount(), b)
    {
      currentPage := ClampedClick(currentPage, PageCount(), b);
    }
  }
}
