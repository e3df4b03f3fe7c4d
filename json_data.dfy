/**
 * Decoded JSON values as the Python code sees them after `json.loads`, and
 * the few Python operations on such values that the servers and the client
 * perform: truthiness, `dict.get`, the `in` operator and f-string rendering.
 */
module JsonData {
  import Text

  datatype Option<T> = None | Some(value: T)

  /** A decoded JSON value. Numbers are integers; JSON fractions are not modelled. */
  datatype Json =
    | Null
    | Bool(b: bool)
    | Num(n: int)
    | Str(s: string)
    | Arr(items: seq<Json>)
    | Obj(fields: map<string, Json>)

  /** An HTTP request body as the web framework hands it over. */
  datatype Body = Unparsable | Parsed(value: Json)

  /**
   * What a handler function of a server ends with: a JSON-RPC envelope, or a
   * Python exception nobody catches (AttributeError, TypeError, KeyError).
   */
  datatype Outcome = Answer(envelope: Json) | Raised

  /**
   * What goes back over HTTP: a JSON body, a plain-text body, or the web
   * framework's own error page (500 for an uncaught exception, 400 for a body
   * the framework itself refuses).
   */
  datatype HttpReply =
    | JsonReply(status: int, body: Json)
    | TextReply(status: int, text: string)
    | ErrorPage(status: int)

  /** The HTTP reply a handler outcome becomes when it is serialised with status 200. */
  function ReplyOf(out: Outcome): HttpReply
  {
    match out
    case Answer(envelope) => JsonReply(200, envelope)
    case Raised => ErrorPage(500)
  }

  /** Python truthiness of a decoded value. */
  predicate Truthy(j: Json)
  {
    match j
    case Null => false
    case Bool(b) => b
    case Num(n) => n != 0
    case Str(s) => s != ""
    case Arr(items) => items != []
    case Obj(fields) => fields != map[]
  }

  /** `d.get(key, default)` on a dict. */
  function Get(fields: map<string, Json>, key: string, default: Json): Json
  {
    if key in fields then fields[key] else default
  }

  /**
   * Python's `item in container` for a string `item`: key membership for a
   * dict, element membership for a list, substring test for a string, and a
   * TypeError (None) for None, booleans and numbers.
   */
  function PyIn(item: string, container: Json): (r: Option<bool>)
    ensures r.None? <==> !(container.Obj? || container.Arr? || container.Str?)
    ensures container.Obj? ==> r == Some(item in container.fields)
    ensures container.Arr? ==> r == Some(Str(item) in container.items)
  {
    match container
    case Obj(fields) => Some(item in fields)
    case Arr(items) => Some(Str(item) in items)
    case Str(s) => Some(Text.IsSubstring(item, s))
    case _ => None
  }

  /**
   * Python's `key in d` for a dict `d` with string keys: a list or a dict as
   * the key is unhashable and raises TypeError (None); other non-strings are
   * simply absent.
   */
  function KeyIn(key: Json, keys: set<string>): (r: Option<bool>)
    ensures r.None? <==> (key.Arr? || key.Obj?)
    ensures r == Some(true) <==> (key.Str? && key.s in keys)
  {
    match key
    case Str(s) => Some(s in keys)
    case Arr(_) => None
    case Obj(_) => None
    case _ => Some(false)
  }

  /**
   * Python's `next((x for x in xs if matches(x)), None)`: the first element
   * that matches, if any.
   */
  function First<T>(xs: seq<T>, matches: T -> bool): (r: Option<T>)
    ensures r.None? <==> forall i :: 0 <= i < |xs| ==> !matches(xs[i])
    ensures r.Some? ==> exists i :: 0 <= i < |xs| && xs[i] == r.value && matches(xs[i])
                          && forall j :: 0 <= j < i ==> !matches(xs[j])
    decreases |xs|
  {
    if xs == [] then None
    else if matches(xs[0]) then Some(xs[0])
    else
      var r := First(xs[1..], matches);
      if r.Some? then
        ghost var i :| 0 <= i < |xs[1..]| && xs[1..][i] == r.value && matches(xs[1..][i])
                       && forall j :: 0 <= j < i ==> !matches(xs[1..][j]);
        assert xs[i + 1] == r.value && forall j :: 0 <= j < i + 1 ==> !matches(xs[j]);
        r
      else r
  }

  /** The decimal digits of a natural number. */
  function Digits(n: nat): (r: string)
    ensures |r| > 0
    ensures forall i :: 0 <= i < |r| ==> '0' <= r[i] <= '9'
    decreases n
  {
    if n < 10 then [('0' as int + n) as char]
    else Digits(n / 10) + [('0' as int + n % 10) as char]
  }

  /** The value of a string of decimal digits. */
  function DigitsValue(s: string): int
    decreases |s|
  {
    if s == [] then 0 else DigitsValue(s[..|s| - 1]) * 10 + (s[|s| - 1] as int - '0' as int)
  }

  /** Reading the digits of `n` back gives `n`. */
  lemma {:induction false} DigitsRoundTrip(n: nat)
    ensures DigitsValue(Digits(n)) == n
    decreases n
  {
    if n >= 10 {
      var d := Digits(n / 10) + [('0' as int + n % 10) as char];
      assert d[..|d| - 1] == Digits(n / 10);
      DigitsRoundTrip(n / 10);
    }
  }

  /** `str(n)` for a Python int. */
  function IntText(n: int): string
  {
    if n < 0 then "-" + Digits(-n) else Digits(n)
  }

  /**
   * `str(v)` as an f-string renders a decoded value. Strings, None, booleans
   * and integers are rendered as Python does; lists and dicts are rendered by
   * a fixed placeholder (their Python repr is not part of this model).
   */
  function Show(j: Json): string
  {
    match j
    case Null => "None"
    case Bool(b) => if b then "True" else "False"
    case Num(n) => IntText(n)
    case Str(s) => s
    case Arr(_) => "[...]"
    case Obj(_) => "{...}"
  }
}
