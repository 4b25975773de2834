/** Values shared by every request handler: optional request fields and HTTP replies. */
module Base {

  /**
   * A value that may be missing: a request field whose `undefined` and
   * `null` lead to the same outcome (a guard rejects both, or both leave the
   * stored field without a value), or a stored field that may be `null`.
   */
  datatype Option<T> = None | Some(value: T)

  /**
   * A request field whose absence (`undefined`) and JSON `null` the database
   * layer treats differently: a schema default replaces only the former.
   */
  datatype Field<T> = Absent | Null | Given(value: T)

  /** An error reply: the HTTP status code and the `message` of the JSON body. */
  datatype ApiError = ApiError(status: nat, message: string)

  /** A handler's reply: the success payload, or an error reply. */
  datatype Result<T> = Ok(value: T) | Err(error: ApiError)

  /** JavaScript truthiness of an optional string: present and not the empty string. */
  predicate Truthy(s: Option<string>)
  {
    s.Some? && s.value != ""
  }

  /** Multiplying by the same non-negative factor keeps the order (used by pricing and paging). */
  lemma MulMonotone(a: int, b: int, c: int)
    requires a <= b && c >= 0
    ensures a * c <= b * c
  {
  }
}
