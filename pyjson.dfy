/** The loosely typed values the pipeline passes around: what `response.json()`
    returns and what the Python dictionaries built from it hold, together with
    the Python operations the pipeline applies to them (subscripting, `dict.get`,
    truthiness) and the exceptions those operations raise. */
module PyJson {
  import opened Wrappers

  /** A decoded JSON value. Objects are keyed by strings, as in JSON. */
  datatype Json =
    | JNull
    | JBool(b: bool)
    | JInt(i: int)
    | JStr(s: string)
    | JList(items: seq<Json>)
    | JObj(fields: map<string, Json>)

  /** What a subscript `x[k]` is given: a dictionary key or a list position. */
  datatype Key = Name(name: string) | Index(index: int)

  /** The Python exceptions that can leave the modelled code. */
  datatype Exception =
    | KeyError(key: Key)        // missing dictionary key
    | IndexError                // list or string position out of range
    | TypeError                 // value not subscriptable / not iterable / wrong key type
    | AttributeError            // method call on a value that lacks the method (`.get` on a non-dictionary)
    | ValueError                // `random.sample` asked for a negative or too large sample
    | HttpError(status: int)    // `response.raise_for_status()` on a non-2xx answer
    | RequestError              // any other failure of the request or of decoding its body

  /** Python's truth value of a JSON-decoded value: `None`, `False`, `0`, `""`,
      `[]` and `{}` are falsy, everything else is truthy. */
  predicate Truthy(j: Json)
    ensures !Truthy(j) <==> j in {JNull, JBool(false), JInt(0), JStr(""), JList([]), JObj(map[])}
  {
    match j
    case JNull => false
    case JBool(b) => b
    case JInt(i) => i != 0
    case JStr(s) => s != ""
    case JList(xs) => xs != []
    case JObj(m) => m != map[]
  }

  /** Python's `x[k]` on a JSON-decoded value. Negative list and string
      positions count from the end, as in Python. */
  function Subscript(x: Json, k: Key): Result<Json, Exception> {
    match x
    case JObj(m) =>
      if k.Name? && k.name in m then Ok(m[k.name]) else Err(KeyError(k))
    case JList(xs) =>
      if !k.Index? then Err(TypeError)
      else if -|xs| <= k.index < |xs| then Ok(xs[if k.index < 0 then k.index + |xs| else k.index])
      else Err(IndexError)
    case JStr(s) =>
      if !k.Index? then Err(TypeError)
      else if -|s| <= k.index < |s| then Ok(JStr([s[if k.index < 0 then k.index + |s| else k.index]]))
      else Err(IndexError)
    case _ => Err(TypeError)
  }

  /** Python's `d.get(name, default)` on a dictionary. */
  function Get(d: Json, name: string, default: Json): Json
    requires d.JObj?
  {
    if name in d.fields then d.fields[name] else default
  }

  /** Which values raise which exception: only a dictionary raises `KeyError`,
      and then of the key asked for; only a list or a string raises
      `IndexError`; `None`, booleans and integers always raise `TypeError`. */
  lemma SubscriptErrors(x: Json, k: Key)
    ensures Subscript(x, k).Err? && Subscript(x, k).error.KeyError? ==>
              x.JObj? && Subscript(x, k).error == KeyError(k)
    ensures Subscript(x, k) == Err(IndexError) ==> x.JList? || x.JStr?
    ensures Subscript(x, k).Ok? ==> x.JObj? || x.JList? || x.JStr?
    ensures Subscript(x, k).Err? ==>
              Subscript(x, k).error in {KeyError(k), IndexError, TypeError}
  {
  }

  /** A list position is readable exactly within `-len .. len - 1`, and a
      negative position reads the element that many places from the end. */
  lemma SubscriptListPositions(xs: seq<Json>, i: int)
    ensures Subscript(JList(xs), Index(i)).Ok? <==> -|xs| <= i < |xs|
    ensures !(-|xs| <= i < |xs|) ==> Subscript(JList(xs), Index(i)) == Err(IndexError)
    ensures -|xs| <= i < 0 ==> Subscript(JList(xs), Index(i)) == Subscript(JList(xs), Index(i + |xs|))
    ensures -|xs| <= i < 0 ==> Subscript(JList(xs), Index(i)) == Ok(xs[|xs| + i])
  {
  }

  /** `d.get(k, default)` is `d[k]` when that succeeds, and `default` when
      `d[k]` raises, which it does only with `KeyError(k)`. */
  lemma GetIsSubscriptWithDefault(d: Json, k: string, default: Json)
    requires d.JObj?
    ensures Subscript(d, Name(k)).Ok? ==> Get(d, k, default) == Subscript(d, Name(k)).value
    ensures Subscript(d, Name(k)).Err? ==>
              Subscript(d, Name(k)) == Err(KeyError(Name(k))) && Get(d, k, default) == default
    ensures Subscript(d, Name(k)).Err? <==> k !in d.fields
  {
  }

  /** A truthy `d.get(k)` means the key is present, so `d[k]` succeeds and
      reads the same value. */
  lemma TruthyGetIsPresent(d: Json, k: string)
    requires d.JObj? && Truthy(Get(d, k, JNull))
    ensures Subscript(d, Name(k)) == Ok(Get(d, k, JNull))
  {
  }
}
