/** Shared building blocks of the state layer: optional values, the three phases
    an asynchronous operation resolves to, the error body a failed request
    carries, and the "bare array or wrapper object" list payload. */
module Common {

  datatype Option<+T> = None | Some(value: T) {

    /** Returns the value in Some, or the default for None */
    function GetOr(default: T): T {
      match this
      case Some(v) => v
      case None => default
    }
  }

  /** The lifecycle of one dispatched asynchronous operation: it starts
      (`pending`) and resolves either with its success payload (`fulfilled`)
      or with its rejection value (`rejected`). HTTP itself is not modelled. */
  datatype Phase<+P, +E> = Pending | Fulfilled(payload: P) | Rejected(reason: E)

  /** The outcome of one request as the code that issued it sees it. */
  datatype Outcome<+T, +E> = Ok(value: T) | Err(error: E)

  /** The value a failed request is rejected with: the server's response body,
      or the operation's fallback object; either may lack a `message`. */
  datatype ErrorBody = ErrorBody(message: Option<string>)

  /** A list response that is either a bare array or a wrapper object whose
      list field may be absent. */
  datatype ListPayload<+T> = BareArray(items: seq<T>) | Wrapped(field: Option<seq<T>>)

  /** JavaScript truthiness of an optional string: present and non-empty. */
  predicate Truthy(s: Option<string>) {
    s.Some? && s.value != ""
  }

  /** `payload?.message || fallback`: a present, non-empty message wins. */
  function MessageOr(body: ErrorBody, fallback: string): (m: string)
    ensures Truthy(body.message) ==> m == body.message.value
    ensures !Truthy(body.message) ==> m == fallback
  {
    if Truthy(body.message) then body.message.value else fallback
  }

  /** `error.response?.data || { message: fallback }`: the server's body
      when the failed request got a response, the fallback object otherwise. */
  function RejectValue(data: Option<ErrorBody>, fallback: string): (b: ErrorBody)
    ensures data.Some? ==> b == data.value
    ensures data.None? ==> b.message == Some(fallback)
  {
    data.GetOr(ErrorBody(Some(fallback)))
  }

  /** `error.response?.data?.message || fallback`: the rejection value of the
      thunks that reject with a plain string. */
  function RejectMessage(data: Option<ErrorBody>, fallback: string): (m: string)
    ensures data.Some? && Truthy(data.value.message) ==> m == data.value.message.value
    ensures !(data.Some? && Truthy(data.value.message)) ==> m == fallback
  {
    if data.Some? then MessageOr(data.value, fallback) else fallback
  }

  /** The stored error is either the body's own message or the fallback,
      and it is never empty when the fallback is not. */
  lemma MessageOrChoice(body: ErrorBody, fallback: string)
    ensures var m := MessageOr(body, fallback);
            && (m == fallback || Some(m) == body.message)
            && (fallback != "" ==> m != "")
  {
  }

  /** A thunk that rejects with the response body (or the fallback object)
      and a reducer that reads `payload?.message || fallback` with the same
      fallback store exactly the message a thunk that rejects with
      `data?.message || fallback` would: the two error paths agree. */
  lemma ThunkAndReducerAgree(data: Option<ErrorBody>, fallback: string)
    ensures MessageOr(RejectValue(data, fallback), fallback) == RejectMessage(data, fallback)
  {
  }

  /** `Array.isArray(p) ? p : p.<field> || []`. */
  function Normalize<T>(p: ListPayload<T>): (r: seq<T>)
    ensures p.BareArray? ==> r == p.items
    ensures p.Wrapped? && p.field.Some? ==> r == p.field.value
    ensures p.Wrapped? && p.field.None? ==> r == []
  {
    match p
    case BareArray(xs) => xs
    case Wrapped(f) => f.GetOr([])
  }

  /** Both response shapes carry the same list: a list sent bare or inside
      its wrapper normalises to itself, and the result is empty exactly
      when the response holds no items or no list at all. */
  lemma NormalizeShapesAgree<T>(xs: seq<T>, p: ListPayload<T>)
    ensures Normalize(BareArray(xs)) == xs == Normalize(Wrapped(Some(xs)))
    ensures Normalize(p) == [] <==>
              (p.BareArray? && p.items == []) || (p.Wrapped? && (p.field.None? || p.field.value == []))
  {
  }
}
