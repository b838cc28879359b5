/** Values shared by every part of the report engine: Python's None, its
    exceptions as an error datatype, and the truthiness rules the source
    relies on (`if x:`, `x or default`, f-string rendering of None). */
module Base {

  datatype Option<+T> = None | Some(value: T)

  /** The exceptions the source raises on malformed data.  Each one aborts the
      record (or the whole call) it occurs in, as the Python exception would. */
  datatype Error =
    | KeyError(key: string)        // `d[key]` on a missing key
    | IndexError(what: string)     // a list index past the end
    | ValueError(what: string)     // unpacking a split with the wrong number of parts
    | TypeError(what: string)      // `in` or an index applied to None or a number
    | AttributeError(what: string) // `.split` called on None or a number
    | UnboundLocal(name: string)   // a local read before any assignment

  datatype Result<+T> = Ok(value: T) | Err(error: Error) {
    predicate IsFailure() { Err? }
    function PropagateFailure<U>(): Result<U>
      requires Err?
    {
      Err(error)
    }
    function Extract(): T
      requires Ok?
    {
      value
    }
  }

  /** A nullable text column (`str | None`). */
  type NStr = Option<string>

  /** Python truthiness of a nullable string: neither None nor empty. */
  predicate Truthy(o: NStr) {
    o.Some? && o.value != ""
  }

  /** Python truthiness of a nullable number: neither None nor zero. */
  predicate NumTruthy(o: Option<real>) {
    o.Some? && o.value != 0.0
  }

  predicate IntTruthy(o: Option<int>) {
    o.Some? && o.value != 0
  }

  /** `f'{o}'`: None renders as the word None. */
  function Show(o: NStr): (r: string)
    ensures o.Some? ==> r == o.value
    ensures o.None? ==> r == "None"
  {
    match o
    case None => "None"
    case Some(s) => s
  }

  /** `o or default` for a nullable string. */
  function OrElse(o: NStr, default: string): (r: string)
    ensures Truthy(o) ==> r == o.value
    ensures !Truthy(o) ==> r == default
  {
    if Truthy(o) then o.value else default
  }

  /** `d.get(k)`. */
  function Get<K, V>(m: map<K, V>, k: K): (r: Option<V>)
    ensures r.Some? <==> k in m
    ensures k in m ==> r.value == m[k]
  {
    if k in m then Some(m[k]) else None
  }

  /** `d.get(k, default)`. */
  function GetOr<K, V>(m: map<K, V>, k: K, default: V): (r: V)
    ensures k in m ==> r == m[k]
    ensures k !in m ==> r == default
  {
    if k in m then m[k] else default
  }
}
