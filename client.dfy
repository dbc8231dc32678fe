/** What the frontend components see of the backend: the outcome of an
    awaited `fetch` and its decoded body. The network, the browser and the
    user's answers to `window.confirm` are parameters of the handlers. */
module Client {
  import opened Common
  import opened Seqs

  /** An awaited call: it threw (a network error, or a body that `res.json()`
      could not parse) with a message, or a response arrived with its `ok`
      flag, its status code, its raw text and its decoded body. */
  datatype Fetched<T> = Thrown(message: string) | Response(ok: bool, status: int, text: string, body: T)

  /** A reply body as the components test it: `=== true`, a string, an
      object with its `detail` text ("" when absent) and its `success` flag,
      or anything else (`res.json().catch(() => ({}))` yields an object with
      neither). */
  datatype ReplyBody = True | Text(s: string) | Object(detail: string, success: bool) | OtherBody

  /** A list reply: an array, an object carrying `items`, or anything else. */
  datatype ListReply<T> = Array(elements: seq<T>) | WithItems(items: seq<T>) | NoList

  /** `Array.isArray(data) ? data : data.items ?? []`. */
  function ItemsOrEmpty<T>(body: ListReply<T>): (r: seq<T>)
    ensures body.Array? ==> r == body.elements
    ensures body.WithItems? ==> r == body.items
    ensures body.NoList? ==> r == []
  {
    match body
    case Array(xs) => xs
    case WithItems(xs) => xs
    case NoList => []
  }

  /** The call came back with `res.ok`. */
  predicate Succeeded<T>(f: Fetched<T>) {
    f.Response? && f.ok
  }

  /** `Array.isArray(data) ? data : []`, where None is a body that is not an array. */
  function ListOrEmpty<T>(body: Option<seq<T>>): (r: seq<T>)
    ensures body.None? ==> r == []
    ensures body.Some? ==> r == body.value
  {
    match body
    case Some(list) => list
    case None => []
  }

  /** `e?.message || fallback`: an empty message reads as false. */
  function MessageOr(message: string, fallback: string): (r: string)
    ensures message != [] ==> r == message
    ensures message == [] ==> r == fallback
  {
    if message != [] then message else fallback
  }

  /** The message of a call that failed with
      `if (!res.ok) throw new Error(await res.text())`, or threw before. */
  function FailureMessage<T>(f: Fetched<T>, fallback: string): (r: string)
    requires !Succeeded(f)
    ensures f.Thrown? ==> r == MessageOr(f.message, fallback)
    ensures f.Response? ==> r == MessageOr(f.text, fallback)
  {
    match f
    case Thrown(m) => MessageOr(m, fallback)
    case Response(_, _, text, _) => MessageOr(text, fallback)
  }

  /** The message of a call that failed with
      `if (!res.ok) throw new Error(`HTTP ${res.status}`)`, or threw before. */
  function HttpFailure<T>(f: Fetched<T>, fallback: string): (r: string)
    requires !Succeeded(f)
    ensures f.Thrown? ==> r == MessageOr(f.message, fallback)
    ensures f.Response? ==> r == "HTTP " + IntToString(f.status) && r != []
  {
    match f
    case Thrown(m) => MessageOr(m, fallback)
    case Response(_, status, _, _) => "HTTP " + IntToString(status)
  }

  /** The message of a call that failed with
      `throw new Error(result.detail || `HTTP ${res.status}`)` on a decoded
      reply body, or threw before. */
  function DetailFailure(f: Fetched<ReplyBody>, fallback: string): (r: string)
    requires !Succeeded(f)
    ensures f.Thrown? ==> r == MessageOr(f.message, fallback)
    ensures f.Response? && f.body.Object? && f.body.detail != [] ==> r == f.body.detail
    ensures f.Response? && !(f.body.Object? && f.body.detail != []) ==>
              r == "HTTP " + IntToString(f.status)
  {
    match f
    case Thrown(m) => MessageOr(m, fallback)
    case Response(_, status, _, body) =>
      if body.Object? && body.detail != [] then body.detail else "HTTP " + IntToString(status)
  }

  /** The message of a call that failed with
      `throw new Error(await res.text() || `HTTP ${res.status}`)`, or threw before. */
  function TextFailure<T>(f: Fetched<T>, fallback: string): (r: string)
    requires !Succeeded(f)
    ensures f.Thrown? ==> r == MessageOr(f.message, fallback)
    ensures f.Response? ==> r == MessageOr(f.text, "HTTP " + IntToString(f.status))
    ensures f.Response? ==> r != []
  {
    match f
    case Thrown(m) => MessageOr(m, fallback)
    case Response(_, status, text, _) => MessageOr(text, "HTTP " + IntToString(status))
  }

  /** `[...list].sort((a, b) => time(b) - time(a))`: newest first, and a
      permutation of the list; JavaScript's sort is stable, and so is this. */
  function NewestFirst<T>(list: seq<T>, time: T -> int): (r: seq<T>)
    ensures multiset(r) == multiset(list)
    ensures forall i, j | 0 <= i < j < |r| :: time(r[i]) >= time(r[j])
  {
    var r := SortBy(list, x => -time(x));
    assert SortedByKey(r, x => -time(x));
    r
  }

  /** The numeric `created_at`/`completed_at` of a record, where a missing
      value is 0 (`a.created_at ? new Date(a.created_at).getTime() : 0`). */
  function TimeOrZero(t: Option<int>): int {
    t.GetOr(0)
  }
}
