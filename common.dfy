/** Value types shared by the stores and components. */
module Common {

  /** A value that may be absent (`null` or `undefined` on the wire). */
  datatype Option<+T> = None | Some(value: T)

  /** How an observable request ends: its `next` callback fires with a value,
      or its `error` callback fires (transport or HTTP failure). */
  datatype Delivery<+T> = Delivered(value: T) | Errored

  /** The `{ isSuccess, result }` envelope the API wraps most replies in. */
  datatype ApiEnvelope<+T> = ApiEnvelope(isSuccess: bool, result: Option<T>)

  /** The signed-in user as `currentUser()` reports it. */
  datatype User = User(id: string)

  /** JavaScript truthiness of an optional string: `null`, `undefined` and `''` are falsy. */
  predicate TruthyText(s: Option<string>)
  {
    s.Some? && s.value != ""
  }

  /** JavaScript truthiness of an optional number: `null`, `undefined` and `0` are falsy. */
  predicate TruthyNumber(x: Option<real>)
  {
    x.Some? && x.value != 0.0
  }

  /** JavaScript truthiness of an optional integer id. */
  predicate TruthyId(x: Option<int>)
  {
    x.Some? && x.value != 0
  }
}
