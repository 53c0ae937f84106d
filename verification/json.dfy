/** The values `json.loads` produces, seen as Python objects: the operations the decoder and the
    agent apply to them (`in`, `[...]`, iteration, truth value, `str`) with Python's outcomes,
    including the `TypeError`s. Numbers are integers only. */
module Json {
  import opened Wrappers
  import opened PyStr
  import opened Dicts

  datatype Json =
    | JNull
    | JBool(b: bool)
    | JNum(n: int)
    | JStr(s: string)
    | JArr(items: seq<Json>)
    | JObj(fields: Dict<string, Json>)

  /** The encoder and the partial decoder of Python's `json` module, taken as given.
      `loads` returns `None` where Python raises `json.JSONDecodeError`. */
  datatype Codec = Codec(
    loads: string -> Option<Json>,
    dumps: Json -> string,
    dumpsIndented: Json -> string)

  /** The values a Python dict can stand for: no object repeats a key, at any depth. `json.loads`
      builds dicts, so it only ever yields such values. */
  predicate WellKeyed(j: Json) {
    match j
    case JArr(items) => forall i :: 0 <= i < |items| ==> WellKeyed(items[i])
    case JObj(fields) => DistinctKeys(fields) && forall i :: 0 <= i < |fields| ==> WellKeyed(fields[i].1)
    case _ => true
  }

  /** What the model relies on from `json`: decoding the encoding of a value without repeated keys
      gives the value back, and the empty object is encoded as `{}`. */
  ghost predicate Lawful(c: Codec) {
    && (forall j :: WellKeyed(j) ==> c.loads(c.dumps(j)) == Some(j))
    && c.dumps(JObj([])) == "{}"
  }

  /** Python's `bool(x)`. */
  predicate Truthy(j: Json) {
    match j
    case JNull => false
    case JBool(b) => b
    case JNum(n) => n != 0
    case JStr(s) => |s| > 0
    case JArr(items) => |items| > 0
    case JObj(fields) => |fields| > 0
  }

  /** Python's `type(x).__name__`. */
  function TypeName(j: Json): string {
    match j
    case JNull => "NoneType"
    case JBool(_) => "bool"
    case JNum(_) => "int"
    case JStr(_) => "str"
    case JArr(_) => "list"
    case JObj(_) => "dict"
  }

  /** Python's `key in x` for a string `key`: a key test on a dict, a substring test on a str, an
      element test on a list; any other value raises `TypeError`. */
  function In(key: string, j: Json): (r: Result<bool, string>)
    ensures r.Failure? <==> !(j.JObj? || j.JStr? || j.JArr?)
    ensures r.Failure? ==> r.error == "argument of type '" + TypeName(j) + "' is not iterable"
    ensures j.JObj? ==> r == Success(exists i :: 0 <= i < |j.fields| && j.fields[i].0 == key)
    ensures j.JStr? ==> r == Success(exists p :: OccursAt(j.s, key, p))
    ensures j.JArr? ==> r == Success(exists i :: 0 <= i < |j.items| && j.items[i] == JStr(key))
  {
    match j
    case JObj(fields) => Success(HasKey(fields, key))
    case JStr(s) => Success(Contains(s, key))
    case JArr(items) => Success(JStr(key) in items)
    case _ => Failure("argument of type '" + TypeName(j) + "' is not iterable")
  }

  /** What `for x in j` visits: a list's items, a dict's keys, a str's characters; any other value
      raises `TypeError`. */
  function Iterate(j: Json): (r: Result<seq<Json>, string>)
    ensures r.Failure? <==> !(j.JObj? || j.JStr? || j.JArr?)
    ensures r.Failure? ==> r.error == "'" + TypeName(j) + "' object is not iterable"
    ensures j.JArr? ==> r == Success(j.items)
    ensures j.JObj? ==>
      r.Success? && |r.value| == |j.fields| && forall i :: 0 <= i < |j.fields| ==> r.value[i] == JStr(j.fields[i].0)
    ensures j.JStr? ==>
      r.Success? && |r.value| == |j.s| && forall i :: 0 <= i < |j.s| ==> r.value[i] == JStr([j.s[i]])
  {
    match j
    case JArr(items) => Success(items)
    case JObj(fields) => Success(seq(|fields|, i requires 0 <= i < |fields| => JStr(fields[i].0)))
    case JStr(s) => Success(seq(|s|, i requires 0 <= i < |s| => JStr([s[i]])))
    case _ => Failure("'" + TypeName(j) + "' object is not iterable")
  }

  // ---------------------------------------------------------------- `repr` and `str`

  function HexDigit(d: nat): char
    requires d < 16
  {
    if d < 10 then ('0' as int + d) as char else ('a' as int + d - 10) as char
  }

  /** The characters up to U+00FF that `str.isprintable()` rejects: the C0 and C1 controls,
      DEL, the no-break space U+00A0 and the soft hyphen U+00AD. */
  predicate Latin1Unprintable(c: char) {
    c < ' ' || ('\U{7f}' <= c <= '\U{a0}') || c == '\U{ad}'
  }

  /** One character of a string inside Python's `repr`, with `q` the chosen quote. */
  function EscapeChar(c: char, q: char): string {
    if c == '\\' then "\\\\"
    else if c == q then ['\\', q]
    else if c == '\n' then "\\n"
    else if c == '\r' then "\\r"
    else if c == '\t' then "\\t"
    else if Latin1Unprintable(c) then ['\\', 'x', HexDigit(c as int / 16), HexDigit(c as int % 16)]
    else [c]
  }

  function EscapeAll(s: string, q: char): string
    decreases |s|
  {
    if |s| == 0 then "" else EscapeChar(s[0], q) + EscapeAll(s[1..], q)
  }

  /** The escapes `repr` writes leave no unprintable Latin-1 character raw. */
  lemma {:induction false} EscapeAllPrintable(s: string, q: char)
    requires !Latin1Unprintable(q)
    ensures forall i :: 0 <= i < |EscapeAll(s, q)| ==> !Latin1Unprintable(EscapeAll(s, q)[i])
    decreases |s|
  {
    if |s| > 0 {
      EscapeAllPrintable(s[1..], q);
    }
  }

  /** Python's `repr(s)` for a str: single quotes unless the text holds a single quote and no double
      quote. */
  function ReprStr(s: string): string {
    var q := if '\'' in s && '"' !in s then '"' else '\'';
    [q] + EscapeAll(s, q) + [q]
  }

  /** The `repr` of a str is quoted and holds no control character, DEL, no-break space or soft
      hyphen raw: each of those is written as a `\xNN` escape. */
  lemma ReprStrPrintable(s: string)
    ensures |ReprStr(s)| >= 2 && ReprStr(s)[0] in "'\"" && ReprStr(s)[|ReprStr(s)| - 1] == ReprStr(s)[0]
    ensures forall i :: 0 <= i < |ReprStr(s)| ==> !Latin1Unprintable(ReprStr(s)[i])
  {
    var q := if '\'' in s && '"' !in s then '"' else '\'';
    EscapeAllPrintable(s, q);
  }

  /** Python's `repr(x)`. */
  function Repr(j: Json): string
    decreases j, 1
  {
    match j
    case JNull => "None"
    case JBool(b) => if b then "True" else "False"
    case JNum(n) => IntToStr(n)
    case JStr(s) => ReprStr(s)
    case JArr(items) => "[" + Join(", ", ReprItems(j, items)) + "]"
    case JObj(fields) => "{" + Join(", ", ReprFields(j, fields)) + "}"
  }

  function ReprItems(ghost parent: Json, items: seq<Json>): (r: seq<string>)
    requires forall i :: 0 <= i < |items| ==> items[i] < parent
    ensures |r| == |items|
    decreases parent, 0
  {
    seq(|items|, i requires 0 <= i < |items| => Repr(items[i]))
  }

  function ReprFields(ghost parent: Json, fields: Dict<string, Json>): (r: seq<string>)
    requires forall i :: 0 <= i < |fields| ==> fields[i].1 < parent
    ensures |r| == |fields|
    decreases parent, 0
  {
    seq(|fields|, i requires 0 <= i < |fields| => ReprStr(fields[i].0) + ": " + Repr(fields[i].1))
  }

  /** Python's `str(x)`, which is what an f-string inserts: a str as it is, anything else as its
      `repr`. */
  function Str(j: Json): (r: string)
    ensures j.JStr? ==> r == j.s
  {
    match j
    case JStr(s) => s
    case _ => Repr(j)
  }

  /** The dict `{k: v}` with both sides text, as the model builds it before `json.dumps`. */
  function TextObject(d: Dict<string, string>): (j: Json)
    ensures j.JObj? && Keys(j.fields) == Keys(d)
    ensures forall i :: 0 <= i < |d| ==> j.fields[i].1 == JStr(d[i].1)
  {
    JObj(seq(|d|, i requires 0 <= i < |d| => (d[i].0, JStr(d[i].1))))
  }

  /** A text dict without repeated keys gives an object without repeated keys. */
  lemma TextObjectWellKeyed(d: Dict<string, string>)
    requires DistinctKeys(d)
    ensures WellKeyed(TextObject(d))
  {
    var j := TextObject(d);
    assert forall i :: 0 <= i < |d| ==> j.fields[i].0 == Keys(j.fields)[i] == Keys(d)[i] == d[i].0;
  }
}
