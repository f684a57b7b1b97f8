/**
 * What a screen sees of one remote call. The HTTP request, the JSON parsing
 * and the endpoint addresses are not modelled: a call either throws
 * (network or parse failure) or returns an array of rows, where the empty
 * array also stands for a falsy body or one whose `length` is not positive,
 * since every screen handles those with the same `data && data.length > 0`
 * test. A non-empty string body is not modelled.
 */
module Gateway {
  import opened Wrappers

  datatype Fetch<T> = Thrown | Returned(rows: seq<T>)

  /** A row of the customer-name endpoint. */
  datatype Customer = Customer(customerName: string, mobileNo: string)

  /** `if (data && data.length > 0) keep(data[0])`: the first row, when there is one. */
  function FirstRecord<T>(response: Fetch<T>): (r: Option<T>)
    ensures r.Some? <==> response.Returned? && |response.rows| > 0
    ensures r.Some? ==> r.value == response.rows[0]
  {
    match response
    case Returned(rows) => if |rows| > 0 then Some(rows[0]) else None
    case Thrown => None
  }
}
