/** JSON values as the scripts see them: parsed responses, and the flat dictionaries of strings
    and booleans that are sent as request bodies. Turning such a dictionary into text
    (`json.dumps`) is a supplied function wherever it is needed. */
module Json {
  import opened Basics

  /** A parsed JSON document (`response.json()`); objects are Python dictionaries. */
  datatype Json =
    | JNull
    | JBool(b: bool)
    | JNum(n: real)
    | JStr(s: string)
    | JArr(items: seq<Json>)
    | JObj(members: map<string, Json>)

  /** Python's `float(x)` applied to a parsed JSON value; `None` when it raises.
      Parsing of numeric text is the supplied `parseFloat`. */
  function FloatOf(parseFloat: string -> Option<real>, j: Json): (r: Option<real>)
    ensures j.JNum? ==> r == Some(j.n)
    ensures j.JStr? ==> r == parseFloat(j.s)
    ensures j.JBool? ==> r == Some(if j.b then 1.0 else 0.0)
    ensures (j.JNull? || j.JArr? || j.JObj?) ==> r == None
  {
    match j
    case JNum(n) => Some(n)
    case JStr(s) => parseFloat(s)
    case JBool(b) => Some(if b then 1.0 else 0.0)
    case _ => None
  }

  /** A value of a request body field. */
  datatype Scalar = SStr(str: string) | SBool(flag: bool)

  /** One `"key": value` entry of a request body; a body is a sequence of them in insertion
      order, which is the order `json.dumps` writes them in. */
  datatype Field = Field(key: string, value: Scalar)

  /** The value stored under `key`, as with a dictionary lookup (the first entry wins). */
  function Lookup(fields: seq<Field>, key: string): Option<Scalar> {
    if fields == [] then None
    else if fields[0].key == key then Some(fields[0].value)
    else Lookup(fields[1..], key)
  }

  /** The lookup lands on the first entry carrying the key. */
  lemma {:induction false} LookupFindsFirst(fields: seq<Field>, key: string, i: nat)
    requires i < |fields| && fields[i].key == key
    requires forall j :: 0 <= j < i ==> fields[j].key != key
    ensures Lookup(fields, key) == Some(fields[i].value)
  {
    if i > 0 {
      LookupFindsFirst(fields[1..], key, i - 1);
    }
  }
}

/** HTTP exchanges and the foreign primitives the scripts call. */
module Http {
  import opened Basics
  import opened Json

  type Headers = map<string, string>

  /** What `requests` hands back: the status code, `response.json()` (`None` when the body is not
      JSON, so the call raises) and `response.text`. */
  datatype HttpResponse = HttpResponse(status: int, json: Option<Json>, text: string)

  const KucoinHost := "https://api.kucoin.com"
}
