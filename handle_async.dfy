/**
 * The error-normalising wrapper `handleAsync`: a settled operation becomes an
 * `[err, data]` pair in which exactly one slot is filled. The wrapper never
 * fails as long as `String(v)` of a thrown non-Error value does not itself
 * throw; `stringOf` is a total function, so this model assumes it does not.
 */
module AsyncResults {

  import opened Common

  /** A JavaScript `Error` object, known by its message. */
  datatype Error = Error(message: string)

  /** What a rejected operation threw: an `Error`, or any other value. */
  datatype Rejection<V> = ThrewError(error: Error) | ThrewValue(value: V)

  /** How an awaited operation settled. */
  datatype Outcome<T, V> = Resolved(value: T) | Rejected(reason: Rejection<V>)

  /** `AsyncResult<T>`: the pair `[null, data]` or the pair `[error, null]`. */
  datatype AsyncResult<T> = Fulfilled(data: T) | Failed(error: Error) {

    /** The first slot of the pair: `null` (`None`) or the error. */
    function Err(): Option<Error> {
      if Failed? then Some(error) else None
    }

    /** The second slot of the pair: the data or `null` (`None`). */
    function Data(): Option<T> {
      if Fulfilled? then Some(data) else None
    }
  }

  /**
   * `handleAsync(promise)`, for a promise that settles as `o`. A thrown
   * `Error` is passed on as it is; any other thrown value `v` becomes
   * `new Error(String(v))`, with `stringOf` as `String`.
   */
  function HandleAsync<T, V>(o: Outcome<T, V>, stringOf: V -> string): (r: AsyncResult<T>)
    ensures o.Resolved? ==> r.Err() == None && r.Data() == Some(o.value)
    ensures o.Rejected? && o.reason.ThrewError? ==> r.Err() == Some(o.reason.error) && r.Data() == None
    ensures o.Rejected? && o.reason.ThrewValue? ==>
      r.Err() == Some(Error(stringOf(o.reason.value))) && r.Data() == None
  {
    match o
    case Resolved(v) => Fulfilled(v)
    case Rejected(ThrewError(e)) => Failed(e)
    case Rejected(ThrewValue(v)) => Failed(Error(stringOf(v)))
  }

  /** In every result exactly one slot is `null`, and the error slot is `null` exactly when the operation resolved. */
  lemma ExactlyOneSlot<T, V>(o: Outcome<T, V>, stringOf: V -> string)
    ensures HandleAsync(o, stringOf).Err().None? <==> o.Resolved?
    ensures HandleAsync(o, stringOf).Err().None? <==> HandleAsync(o, stringOf).Data().Some?
  {
  }

  /** A promise (of any data type, here numbers) rejected with the string "String error" yields an `Error` whose message is "String error". */
  lemma StringRejection()
    ensures HandleAsync<int, string>(Rejected(ThrewValue("String error")), (s: string) => s)
            == Failed(Error("String error"))
  {
  }
}
