/** JSON values as the server holds them after `json.loads`, and `json.loads`
    itself as a parameter: the model never parses text on its own. */
module JsonModel {

  /** A JSON value. Objects are Python dicts keyed by strings; numbers are
      kept as reals (the int/float distinction of Python is not modelled). */
  datatype Json =
    | JNull
    | JBool(b: bool)
    | JNum(n: real)
    | JStr(s: string)
    | JArr(items: seq<Json>)
    | JObj(fields: map<string, Json>)

  /** The outcome of `json.loads`: a value, or a raised `json.JSONDecodeError`
      carrying its message. */
  datatype ParseResult = Parsed(value: Json) | DecodeError(msg: string)

  /** `json.loads`, supplied by the caller of every operation that parses. */
  type Parser = string -> ParseResult

  /** A text that opens with `{`. */
  predicate ObjectText(s: string) {
    |s| > 0 && s[0] == '{'
  }

  /** What every conforming JSON parser does and a few lemmas rely on: the
      text `{}` is the empty object, and a text that starts with `{` and
      parses at all parses to an object (RFC 8259, section 4). */
  ghost predicate SaneParser(parse: Parser) {
    && parse("{}") == Parsed(JObj(map[]))
    && forall s: string {:trigger ObjectText(s)} | ObjectText(s) && parse(s).Parsed? :: parse(s).value.JObj?
  }

  /** The keys in the order `dict.keys()` lists them after `d[k] = v`: a new
      key is appended, a known one keeps its place. */
  function InsertionOrder(ks: seq<string>, k: string): (r: seq<string>)
    ensures forall x :: x in r <==> x in ks || x == k
    ensures k in ks ==> r == ks
  {
    if k in ks then ks else ks + [k]
  }

  /** `d.get(k, default)`. */
  function Get(d: map<string, Json>, k: string, default: Json): (r: Json)
    ensures k in d ==> r == d[k]
    ensures k !in d ==> r == default
  {
    if k in d then d[k] else default
  }

  /** Python truthiness of a JSON value (`bool(x)`). */
  predicate Truthy(j: Json) {
    match j
    case JNull => false
    case JBool(b) => b
    case JNum(n) => n != 0.0
    case JStr(s) => |s| > 0
    case JArr(items) => |items| > 0
    case JObj(fields) => |fields| > 0
  }

  /** `d[k] = v` only when `k not in d`: the server's "fill a missing field". */
  function SetDefault(d: map<string, Json>, k: string, v: Json): (r: map<string, Json>)
    ensures k in r && r[k] == (if k in d then d[k] else v)
    ensures r.Keys == d.Keys + {k}
    ensures forall j :: j in r <==> j in d || j == k
    ensures forall j | j in d :: r[j] == d[j]
  {
    if k in d then d else d[k := v]
  }

  /** A list of strings as a JSON array. */
  function StrList(xs: seq<string>): (r: Json)
    ensures r.JArr? && |r.items| == |xs|
    ensures forall i | 0 <= i < |xs| :: r.items[i] == JStr(xs[i])
  {
    if |xs| == 0 then JArr([]) else JArr([JStr(xs[0])] + StrList(xs[1..]).items)
  }
}
