/** What the views receive from the REST API, and the two per-item secondary lookups
    whose failures are absorbed into a default value. Each awaited axios call is an
    input of type Response; the network itself is not modelled. */
module Remote {
  import opened Js

  /** `error.response?.data?.message`: `undefined` when there is no response, no body or no
      such field, the body's `null`, or the body's text. */
  datatype ErrorMessage = Absent | Null | Text(text: string)

  /** One awaited request: the resolved body, or a rejection carrying the HTTP status
      (None for a network error) and the `message` field of the error body. */
  datatype Response<T> = Ok(data: T) | Failed(status: Option<int>, message: ErrorMessage)

  /** A response body as the views test it: a falsy value (`null`, `undefined`),
      an array, or some other truthy value that is not an array. */
  datatype Payload<T> = Falsy | Array(items: seq<T>) | NonArray

  /** The signed-in identity the session holds (the `user` object of the auth replies). */
  datatype Identity = Identity(name: string, email: string, role: string)

  /** The `user` sub-record of an employee. */
  datatype UserInfo = UserInfo(name: Option<string>, email: Option<string>)

  /** An employee record of `/api/employee/`; `id` is its `_id`. */
  datatype Employee = Employee(
    id: Option<string>,
    user: Option<UserInfo>,
    designation: Option<string>,
    department: Option<string>)

  /** A sale record of `/api/sales/`. */
  datatype Sale = Sale(productName: Option<string>, amount: Option<int>, dateOfSale: Option<string>)

  /** The body of `/api/totalSales/...`: missing altogether, or an object whose
      `totalSales` field may be absent. */
  datatype SalesTotal = NoBody | Body(totalSales: Option<int>)

  function NameOf(e: Employee): Option<string> {
    if e.user.Some? then e.user.value.name else None
  }

  function EmailOf(e: Employee): Option<string> {
    if e.user.Some? then e.user.value.email else None
  }

  /** `fetchIncentives(id)`: `response.data || []`, and `[]` for every rejection,
      a 404 included. It never rejects and never yields a falsy slab. */
  function IncentivesOf(r: Response<Payload<string>>): (slab: Payload<string>)
    ensures slab != Falsy
    ensures r.Failed? ==> slab == Array([])
    ensures r.Ok? && r.data != Falsy ==> slab == r.data
    ensures r.Ok? && r.data == Falsy ==> slab == Array([])
  {
    match r
    case Failed(_, _) => Array([])
    case Ok(data) => if data == Falsy then Array([]) else data
  }

  /** `fetchTotalSales(id)`: `response.data.totalSales || 0`, and 0 when the request
      rejects or the body is missing (reading a field of `undefined` throws and is caught). */
  function TotalSalesOf(r: Response<SalesTotal>): (total: int)
    ensures total != 0 ==> r == Ok(Body(Some(total)))
    ensures r.Failed? || r == Ok(NoBody) || r == Ok(Body(None)) ==> total == 0
    ensures r.Ok? && r.data.Body? && r.data.totalSales.Some? ==> total == r.data.totalSales.value
  {
    match r
    case Failed(_, _) => 0
    case Ok(NoBody) => 0
    case Ok(Body(t)) => NumberOr(t, 0)
  }
}
