/** The reply side of `LLM.ask_tool` (app/llm.py:254-301): locating the JSON in the reply text,
    filling in a missing id or type on each tool call, repairing argument strings that are not
    JSON, and deciding between tool calls and a plain assistant message. */
module Decoding {
  import opened Wrappers
  import opened PyStr
  import opened Dicts
  import opened Json
  import opened Gateway
  import opened Threading

  const Fence: string := "```json"
  const Close: string := "```"

  /** Eight lowercase hexadecimal digits, the form of `uuid.uuid4().hex[:8]`. */
  predicate IsHex8(s: string) {
    |s| == 8 && forall i :: 0 <= i < 8 ==> ('0' <= s[i] <= '9' || 'a' <= s[i] <= 'f')
  }

  type Hex8 = s: string | IsHex8(s) witness "00000000"

  /** The source of fresh ids: the n-th id drawn while decoding one reply. */
  type Ids = nat -> Hex8

  // ---------------------------------------------------------------- the JSON candidate

  /** The text handed to `json.loads`: when the reply holds the fence "```json", the text between its
      first occurrence and the next "```", stripped; otherwise the whole reply, stripped. */
  function Candidate(text: string): string {
    if Contains(text, Fence) then
      var after := Split(text, Fence)[1];
      Strip(Split(after, Close)[0])
    else Strip(text)
  }

  lemma FenceUnbordered()
    ensures Unbordered(Fence)
  {
    forall n | 0 < n < |Fence| ensures Fence[..n] != Fence[|Fence| - n..] {
      assert Fence[..n][n - 1] != Fence[|Fence| - n..][n - 1];
    }
  }

  /** The first piece of `split` is the text before the first separator. */
  lemma SplitFirstPiece(s: string, sep: string)
    requires |sep| > 0
    ensures Find(s, sep).Some? ==> Split(s, sep)[0] == s[..Find(s, sep).value]
    ensures Find(s, sep).None? ==> Split(s, sep)[0] == s
  {
    if Find(s, sep).Some? {
      SplitUnfold(s, sep, Find(s, sep).value);
    }
  }

  lemma FenceAt(x: string, p: int)
    requires OccursAt(x, Fence, p)
    ensures OccursAt(x, Close, p) && x[p + 1] == '`' && x[p + 2] == '`'
  {
    var w := x[p..p + |Fence|];
    assert w == Fence;
    assert x[p..p + 3] == w[..3];
    assert x[p + 1] == w[1] && x[p + 2] == w[2];
  }

  lemma PieceWithClose(body: string, post: string, p: nat)
    requires Guarded(body, Close)
    requires |body| + 3 <= p <= |body + Close + post|
    ensures Split((body + Close + post)[..p], Close)[0] == body
  {
    var mid := post[..p - |body| - 3];
    assert (body + Close + post)[..p] == body + Close + mid;
    SplitAfterGuarded(body, Close, mid);
  }

  /** A "```json" in body + "```" + post can only start at the closing "```" or after it. */
  lemma FencePosition(body: string, post: string)
    requires Guarded(body, Close)
    requires post == [] || post[0] != '`'
    requires Find(body + Close + post, Fence).Some?
    ensures var p := Find(body + Close + post, Fence).value; p == |body| || p >= |body| + 3
  {
    var x := body + Close + post;
    FindAfterGuarded(body, Close, post);
    FenceAt(x, Find(x, Fence).value);
  }

  /** Behind a body with no "```" that does not end in a backtick, followed by "```" and text that
      does not start with a backtick, the two splits of `Candidate` cut out exactly the body. */
  lemma BodyBeforeClose(body: string, post: string)
    requires Guarded(body, Close)
    requires post == [] || post[0] != '`'
    ensures Split(Split(body + Close + post, Fence)[0], Close)[0] == body
  {
    var x := body + Close + post;
    SplitFirstPiece(x, Fence);
    match Find(x, Fence)
    case None =>
      SplitAfterGuarded(body, Close, post);
    case Some(p) =>
      FencePosition(body, post);
      if p == |body| {
        SplitClean(body, Close);
        assert x[..p] == body;
      } else {
        PieceWithClose(body, post, p);
      }
  }

  /** A fenced block round-trips: whatever precedes the first "```json", the candidate is the
      stripped body of the block, provided the body holds no "```", does not end in a backtick, and
      the text after the closing "```" does not start with one. */
  lemma FenceRoundTrip(pre: string, body: string, post: string)
    requires !Contains(pre, Fence)
    requires Guarded(body, Close)
    requires post == [] || post[0] != '`'
    ensures Candidate(pre + Fence + body + Close + post) == Strip(body)
  {
    FenceUnbordered();
    var x := body + Close + post;
    var text := pre + Fence + body + Close + post;
    assert text == pre + Fence + x;
    FindAfterClean(pre, Fence, x);
    SplitAfterClean(pre, Fence, x);
    assert Split(text, Fence)[1] == Split(x, Fence)[0];
    BodyBeforeClose(body, post);
  }

  /** Without the fence the candidate is the stripped reply; the fence test is on the exact,
      case-sensitive text "```json". */
  lemma CandidateWithoutFence(text: string)
    requires !Contains(text, Fence)
    ensures Candidate(text) == Strip(text)
  {
  }

  // ---------------------------------------------------------------- repairing arguments

  /** `line.split(":", 1)` on a line holding a colon, with the key stripped and the value kept as it
      is. */
  function KeyValue(line: string): (string, string)
    requires Contains(line, ":")
  {
    var p := Find(line, ":").value;
    (Strip(line[..p]), line[p + 1..])
  }

  /** The pair is read off the first colon: the line is some colon-free text, a colon, and the value;
      the key is that text stripped. */
  lemma KeyValueSplits(line: string)
    requires Contains(line, ":")
    ensures var v := KeyValue(line).1; var before := line[..|line| - |v| - 1];
      && |v| < |line|
      && line == before + ":" + v
      && !Contains(before, ":")
      && KeyValue(line).0 == Strip(before)
  {
    var p := Find(line, ":").value;
    assert line[p..p + 1] == ":";
    assert line == line[..p] + ":" + line[p + 1..];
    forall q | 0 <= q && q + 1 <= p ensures !OccursAt(line[..p], ":", q) {
      assert line[..p][q..q + 1] == line[q..q + 1];
      assert !OccursAt(line, ":", q);
    }
  }

  /** The lines that hold a colon, in order: the filter `if ":" in line`. A line is kept exactly
      when it is one of the input lines and holds a colon. */
  function ColonLines(lines: seq<string>): (r: seq<string>)
    ensures forall i :: 0 <= i < |r| ==> Contains(r[i], ":")
    ensures forall x :: x in r <==> x in lines && Contains(x, ":")
    ensures |r| <= |lines|
    decreases |lines|
  {
    if |lines| == 0 then []
    else (if Contains(lines[0], ":") then [lines[0]] else []) + ColonLines(lines[1..])
  }

  /** The filter keeps the order of the lines: filtering two runs of lines one after the other
      gives the two filtered runs one after the other, and a single line is kept exactly when it
      holds a colon. */
  lemma {:induction false} ColonLinesAppend(a: seq<string>, b: seq<string>)
    ensures ColonLines(a + b) == ColonLines(a) + ColonLines(b)
    ensures |a| == 1 ==> ColonLines(a) == if Contains(a[0], ":") then a else []
    decreases |a|
  {
    if |a| > 0 {
      assert (a + b)[1..] == a[1..] + b;
      ColonLinesAppend(a[1..], b);
    } else {
      assert a + b == b;
    }
    if |a| == 1 {
      assert a[1..] == [];
    }
  }

  function Pairs(lines: seq<string>): (r: seq<(string, string)>)
    requires forall i :: 0 <= i < |lines| ==> Contains(lines[i], ":")
    ensures |r| == |lines|
  {
    seq(|lines|, i requires 0 <= i < |lines| => KeyValue(lines[i]))
  }

  /** The key-value pairs read from `raw.strip().split("\n")`, one per line holding a colon. */
  function ArgumentPairs(raw: string): seq<(string, string)> {
    Pairs(ColonLines(Split(Strip(raw), "\n")))
  }

  /** The dict comprehension of app/llm.py:283-286. */
  function Recovered(raw: string): Dict<string, string> {
    FromPairs(ArgumentPairs(raw))
  }

  /** The repaired argument text: `json.dumps` of that dict. */
  function RepairArguments(codec: Codec, raw: string): string {
    codec.dumps(TextObject(Recovered(raw)))
  }

  /** The repaired text always parses, back to the recovered dict: the comprehension keeps one
      entry per key, so the dict is one `json` can round-trip. */
  lemma RepairParses(codec: Codec, raw: string)
    requires Lawful(codec)
    ensures codec.loads(RepairArguments(codec, raw)) == Some(TextObject(Recovered(raw)))
  {
    TextObjectWellKeyed(Recovered(raw));
  }

  /** Each key maps to the value of its last line: a later duplicate overwrites the earlier value. */
  lemma RecoveredLookup(raw: string, k: string)
    ensures Get(Recovered(raw), k) == LastValue(ArgumentPairs(raw), k)
  {
    FromPairsGet(ArgumentPairs(raw), k);
  }

  /** A character of a joined text comes from a part or from the separator. */
  lemma {:induction false} JoinChars(sep: string, parts: seq<string>, i: nat, c: char)
    requires i < |parts| && c in parts[i]
    ensures c in Join(sep, parts)
    decreases |parts|
  {
    if i > 0 {
      JoinChars(sep, parts[1..], i - 1, c);
    }
  }

  /** `strip()` only removes characters. */
  lemma StripChars(s: string, c: char)
    requires c in Strip(s)
    ensures c in s
  {
    StripLeftFacts(s);
    StripRightFacts(StripLeft(s));
  }

  lemma OneCharContains(s: string, c: char)
    ensures Contains(s, [c]) ==> c in s
  {
    if Contains(s, [c]) {
      var p := Find(s, [c]).value;
      assert s[p..p + 1][0] == s[p];
    }
  }

  /** Argument text without any colon is repaired to the empty object `{}`. */
  lemma RepairWithoutColons(codec: Codec, raw: string)
    requires Lawful(codec) && ':' !in raw
    ensures RepairArguments(codec, raw) == "{}"
  {
    var lines := Split(Strip(raw), "\n");
    SplitJoin(Strip(raw), "\n");
    forall i | 0 <= i < |lines| ensures !Contains(lines[i], ":") {
      OneCharContains(lines[i], ':');
      if ':' in lines[i] {
        JoinChars("\n", lines, i, ':');
        StripChars(raw, ':');
      }
    }
    NoColonLines(lines);
  }

  lemma {:induction false} NoColonLines(lines: seq<string>)
    requires forall i :: 0 <= i < |lines| ==> !Contains(lines[i], ":")
    ensures ColonLines(lines) == []
    decreases |lines|
  {
    if |lines| > 0 {
      NoColonLines(lines[1..]);
    }
  }

  // ---------------------------------------------------------------- one tool call

  /** The `TypeError` text of `j["key"]` for a value that is not a dict. */
  function SubscriptError(j: Json): string
    requires !j.JObj?
  {
    match j
    case JStr(_) => "string indices must be integers, not 'str'"
    case JArr(_) => "list indices must be integers or slices, not str"
    case _ => "'" + TypeName(j) + "' object is not subscriptable"
  }

  /** The `TypeError` the loop body raises on an entry that is not a dict: the `"id" not in tc` test,
      the item assignment, or the `tc["function"]` lookup fails, whichever comes first. */
  function EntryError(tc: Json): string
    requires !tc.JObj?
  {
    match tc
    case JStr(s) =>
      if Contains(s, "id") && Contains(s, "type") then SubscriptError(tc)
      else "'str' object does not support item assignment"
    case JArr(_) => "list indices must be integers or slices, not str"
    case _ => "argument of type '" + TypeName(tc) + "' is not iterable"
  }

  /** The arguments after the repair step: a string `json.loads` rejects is replaced by its repair;
      anything else is kept. */
  function FixArguments(codec: Codec, args: Json): Json {
    if args.JStr? && codec.loads(args.s).None? then JStr(RepairArguments(codec, args.s)) else args
  }

  /** `if "id" not in tc: tc["id"] = f"call_{...}"`, drawing the n-th fresh id. */
  function WithId(ids: Ids, n: nat, f: Dict<string, Json>): Dict<string, Json> {
    if HasKey(f, "id") then f else Put(f, "id", JStr("call_" + ids(n)))
  }

  /** `if "type" not in tc: tc["type"] = "function"`. */
  function WithType(f: Dict<string, Json>): Dict<string, Json> {
    if HasKey(f, "type") then f else Put(f, "type", JStr("function"))
  }

  /** The argument step: `tc["function"]["arguments"]` must exist; a string `json.loads` rejects is
      replaced in place. */
  function FixFunction(codec: Codec, f: Dict<string, Json>): Result<Dict<string, Json>, Fault> {
    match Get(f, "function")
    case None => Failure(MissingKey("function"))
    case Some(fn) =>
      if !fn.JObj? then Failure(TypeFault(SubscriptError(fn)))
      else match Get(fn.fields, "arguments")
        case None => Failure(MissingKey("arguments"))
        case Some(args) =>
          if args.JStr? && codec.loads(args.s).None? then
            Success(Put(f, "function", JObj(Put(fn.fields, "arguments", FixArguments(codec, args)))))
          else Success(f)
  }

  /** The loop body of app/llm.py:268-289 on one entry `tc`, with `n` ids drawn so far: the filled-in
      entry and the new count, or the error it raises. A `MissingKey` is a `KeyError`, caught by
      the caller; a `TypeFault` is raised. */
  function Normalise(codec: Codec, ids: Ids, n: nat, tc: Json): Result<Json, Fault> {
    if !tc.JObj? then Failure(TypeFault(EntryError(tc)))
    else
      var f := WithType(WithId(ids, n, tc.fields));
      var fixed :- FixFunction(codec, f);
      Success(JObj(fixed))
  }

  /** How many fresh ids normalising `tc` draws: one for an object without "id". */
  function Draw(tc: Json): nat {
    if tc.JObj? && !HasKey(tc.fields, "id") then 1 else 0
  }

  /** The id counter after normalising `tc` with counter `n`. */
  function Next(n: nat, tc: Json): nat {
    n + Draw(tc)
  }

  lemma WithIdFacts(ids: Ids, n: nat, f: Dict<string, Json>, k: string)
    ensures HasKey(f, "id") ==> Get(WithId(ids, n, f), "id") == Get(f, "id")
    ensures !HasKey(f, "id") ==> Get(WithId(ids, n, f), "id") == Some(JStr("call_" + ids(n)))
    ensures k != "id" ==> Get(WithId(ids, n, f), k) == Get(f, k)
    ensures Keys(WithId(ids, n, f)) == Keys(f) + (if HasKey(f, "id") then [] else ["id"])
  {
    if !HasKey(f, "id") {
      PutGet(f, "id", JStr("call_" + ids(n)));
      if k != "id" {
        PutOther(f, "id", JStr("call_" + ids(n)), k);
      }
    }
    PutKeys(f, "id", JStr("call_" + ids(n)));
  }

  lemma WithTypeFacts(f: Dict<string, Json>, k: string)
    ensures HasKey(f, "type") ==> Get(WithType(f), "type") == Get(f, "type")
    ensures !HasKey(f, "type") ==> Get(WithType(f), "type") == Some(JStr("function"))
    ensures k != "type" ==> Get(WithType(f), k) == Get(f, k)
    ensures Keys(WithType(f)) == Keys(f) + (if HasKey(f, "type") then [] else ["type"])
  {
    if !HasKey(f, "type") {
      PutGet(f, "type", JStr("function"));
      if k != "type" {
        PutOther(f, "type", JStr("function"), k);
      }
    }
    PutKeys(f, "type", JStr("function"));
  }

  /** The argument step keeps the keys and every field but "function", and stores the fixed arguments. */
  lemma FixFunctionFacts(codec: Codec, f: Dict<string, Json>, k: string)
    requires FixFunction(codec, f).Success?
    ensures Keys(FixFunction(codec, f).value) == Keys(f)
    ensures k != "function" ==> Get(FixFunction(codec, f).value, k) == Get(f, k)
    ensures Get(f, "function").Some? && Get(f, "function").value.JObj?
    ensures Get(Get(f, "function").value.fields, "arguments").Some?
    ensures var r := FixFunction(codec, f).value;
      && Get(r, "function").Some? && Get(r, "function").value.JObj?
      && Get(Get(r, "function").value.fields, "arguments")
         == Some(FixArguments(codec, Get(Get(f, "function").value.fields, "arguments").value))
  {
    var fn := Get(f, "function").value;
    var args := Get(fn.fields, "arguments").value;
    if args.JStr? && codec.loads(args.s).None? {
      var g := Put(fn.fields, "arguments", FixArguments(codec, args));
      PutGet(fn.fields, "arguments", FixArguments(codec, args));
      PutGet(f, "function", JObj(g));
      PutKeys(f, "function", JObj(g));
      HasKeyIffKey(f, "function");
      if k != "function" {
        PutOther(f, "function", JObj(g), k);
      }
    }
  }

  /** Normalising one entry: the id is kept or becomes `call_` and the n-th fresh id (counting the
      draw), the type is kept or becomes "function", every other field except "function" is kept,
      the arguments are fixed, and the keys keep their order with "id" and "type" appended when
      missing. */
  lemma NormaliseFacts(codec: Codec, ids: Ids, n: nat, tc: Json, k: string)
    requires Normalise(codec, ids, n, tc).Success?
    ensures tc.JObj? && Normalise(codec, ids, n, tc).value.JObj?
    ensures var r := Normalise(codec, ids, n, tc).value;
      && (HasKey(tc.fields, "id") ==> Get(r.fields, "id") == Get(tc.fields, "id") && Draw(tc) == 0)
      && (!HasKey(tc.fields, "id") ==> Get(r.fields, "id") == Some(JStr("call_" + ids(n))) && Draw(tc) == 1)
      && (HasKey(tc.fields, "type") ==> Get(r.fields, "type") == Get(tc.fields, "type"))
      && (!HasKey(tc.fields, "type") ==> Get(r.fields, "type") == Some(JStr("function")))
      && (k != "id" && k != "type" && k != "function" ==> Get(r.fields, k) == Get(tc.fields, k))
      && Keys(r.fields) == Keys(tc.fields) + (if HasKey(tc.fields, "id") then [] else ["id"])
           + (if HasKey(tc.fields, "type") then [] else ["type"])
  {
    var f1 := WithId(ids, n, tc.fields);
    var f2 := WithType(f1);
    WithIdFacts(ids, n, tc.fields, k);
    WithIdFacts(ids, n, tc.fields, "type");
    WithTypeFacts(f1, k);
    WithTypeFacts(f1, "id");
    FixFunctionFacts(codec, f2, k);
    FixFunctionFacts(codec, f2, "id");
    FixFunctionFacts(codec, f2, "type");
    HasKeyIffKey(tc.fields, "type");
    HasKeyIffKey(f1, "type");
  }

  /** The arguments after normalising: a string that `json.loads` accepts is kept byte for byte, one
      it rejects is replaced by its repair, and a non-string is kept. */
  lemma NormaliseArguments(codec: Codec, ids: Ids, n: nat, tc: Json)
    requires Normalise(codec, ids, n, tc).Success?
    ensures tc.JObj? && Normalise(codec, ids, n, tc).value.JObj?
    ensures Get(tc.fields, "function").Some? && Get(tc.fields, "function").value.JObj?
    ensures var fn := Get(tc.fields, "function").value;
      var r := Normalise(codec, ids, n, tc).value;
      && Get(fn.fields, "arguments").Some?
      && Get(r.fields, "function").Some? && Get(r.fields, "function").value.JObj?
      && Get(Get(r.fields, "function").value.fields, "arguments")
         == Some(FixArguments(codec, Get(fn.fields, "arguments").value))
  {
    var f1 := WithId(ids, n, tc.fields);
    WithIdFacts(ids, n, tc.fields, "function");
    WithTypeFacts(f1, "function");
    FixFunctionFacts(codec, WithType(f1), "function");
  }

  // ---------------------------------------------------------------- all tool calls

  /** The loop body as a step of `Thread`. */
  function Step(codec: Codec, ids: Ids): (nat, Json) -> Result<Json, Fault> {
    (m: nat, tc: Json) => Normalise(codec, ids, m, tc)
  }

  /** The loop of app/llm.py:268-289 over all entries, in order, drawing ids from `n` on; the first
      error stops it. */
  function NormaliseAll(codec: Codec, ids: Ids, n: nat, tcs: seq<Json>): (r: Result<seq<Json>, Fault>)
    ensures r.Success? ==> |r.value| == |tcs|
  {
    Thread(Step(codec, ids), Next, n, tcs)
  }

  /** The number of fresh ids the first `i` entries draw. */
  function Drawn(tcs: seq<Json>, i: nat): nat
    requires i <= |tcs|
    decreases i
  {
    if i == 0 then 0 else Drawn(tcs, i - 1) + Draw(tcs[i - 1])
  }

  /** When the loop reaches entry i, the counter has moved past exactly the ids the entries before
      it drew. */
  lemma {:induction false} CounterDrawn(n: nat, tcs: seq<Json>, i: nat)
    requires i <= |tcs|
    ensures Counter(Next, n, tcs, i) == n + Drawn(tcs, i)
    decreases i
  {
    if i > 0 {
      CounterDrawn(n, tcs, i - 1);
    }
  }

  /** Every entry is normalised on its own, in order: entry i draws its id (when it lacks one) at
      the counter the loop has reached there, which `CounterDrawn` places past every id the entries
      before it drew, so no two drawn ids share a counter. */
  lemma NormaliseAllEach(codec: Codec, ids: Ids, n: nat, tcs: seq<Json>, i: nat)
    requires NormaliseAll(codec, ids, n, tcs).Success? && i < |tcs|
    ensures Normalise(codec, ids, Counter(Next, n, tcs, i), tcs[i]).Success?
    ensures NormaliseAll(codec, ids, n, tcs).value[i] == Normalise(codec, ids, Counter(Next, n, tcs, i), tcs[i]).value
  {
    ThreadEach(Step(codec, ids), Next, n, tcs, i);
  }

  // ---------------------------------------------------------------- the reply

  /** What the decoder makes of a reply: plain text, or the normalised tool-call entries. */
  datatype Decoded = PlainText | Calls(calls: seq<Json>)

  /** The try block of app/llm.py:256-298: `JSONDecodeError` and `KeyError` make the reply plain text;
      a `TypeError` is raised. */
  function DecodeReply(codec: Codec, ids: Ids, text: string): Result<Decoded, Fault> {
    match codec.loads(Candidate(text))
    case None => Success(PlainText)
    case Some(j) =>
      match In("tool_calls", j)
      case Failure(t) => Failure(TypeFault(t))
      case Success(present) =>
        if !present then Success(PlainText)
        else if !j.JObj? then Failure(TypeFault(SubscriptError(j)))
        else match Iterate(Get(j.fields, "tool_calls").value)
          case Failure(t) => Failure(TypeFault(t))
          case Success(entries) =>
            match NormaliseAll(codec, ids, 0, entries)
            case Success(calls) => Success(Calls(calls))
            case Failure(f) => if f.MissingKey? then Success(PlainText) else Failure(f)
  }

  /** Normalising one entry raises only a `KeyError` or a `TypeError`. */
  lemma NormaliseFaults(codec: Codec, ids: Ids, n: nat, tc: Json)
    requires Normalise(codec, ids, n, tc).Failure?
    ensures Normalise(codec, ids, n, tc).error.MissingKey? || Normalise(codec, ids, n, tc).error.TypeFault?
  {
  }

  lemma NormaliseAllFaults(codec: Codec, ids: Ids, n: nat, tcs: seq<Json>)
    requires NormaliseAll(codec, ids, n, tcs).Failure?
    ensures NormaliseAll(codec, ids, n, tcs).error.MissingKey? || NormaliseAll(codec, ids, n, tcs).error.TypeFault?
  {
    var k := ThreadFails(Step(codec, ids), Next, n, tcs);
    NormaliseFaults(codec, ids, Counter(Next, n, tcs, k), tcs[k]);
  }

  /** A `KeyError` never escapes the decoder: when it raises, it raises a `TypeError`. */
  lemma DecodeRaisesOnlyTypeErrors(codec: Codec, ids: Ids, text: string)
    ensures DecodeReply(codec, ids, text).Failure? ==> DecodeReply(codec, ids, text).error.TypeFault?
  {
    var j := codec.loads(Candidate(text));
    if j.Some? && In("tool_calls", j.value) == Success(true) && j.value.JObj? {
      var entries := Iterate(Get(j.value.fields, "tool_calls").value);
      if entries.Success? && NormaliseAll(codec, ids, 0, entries.value).Failure? {
        NormaliseAllFaults(codec, ids, 0, entries.value);
      }
    }
  }

  /** A candidate that is not JSON, or a JSON object without "tool_calls", makes the reply plain text. */
  lemma DecodePlain(codec: Codec, ids: Ids, text: string)
    requires codec.loads(Candidate(text)).None?
      || (codec.loads(Candidate(text)).value.JObj?
          && !HasKey(codec.loads(Candidate(text)).value.fields, "tool_calls"))
    ensures DecodeReply(codec, ids, text) == Success(PlainText)
  {
  }

  /** A candidate that parses to a number, a boolean or null makes `"tool_calls" in ...` raise. */
  lemma DecodeScalarRaises(codec: Codec, ids: Ids, text: string)
    requires codec.loads(Candidate(text)).Some?
    requires var j := codec.loads(Candidate(text)).value; j.JNum? || j.JBool? || j.JNull?
    ensures DecodeReply(codec, ids, text)
      == Failure(TypeFault("argument of type '" + TypeName(codec.loads(Candidate(text)).value) + "' is not iterable"))
  {
  }

  /** An object whose "tool_calls" is a list decodes to exactly those entries normalised, unless one
      of them lacks "function" or "arguments", which makes the reply plain text. */
  lemma DecodeCalls(codec: Codec, ids: Ids, text: string)
    requires codec.loads(Candidate(text)).Some? && codec.loads(Candidate(text)).value.JObj?
    requires var f := codec.loads(Candidate(text)).value.fields;
      HasKey(f, "tool_calls") && Get(f, "tool_calls").value.JArr?
    ensures var entries := Get(codec.loads(Candidate(text)).value.fields, "tool_calls").value.items;
      && (NormaliseAll(codec, ids, 0, entries).Success? ==>
            DecodeReply(codec, ids, text) == Success(Calls(NormaliseAll(codec, ids, 0, entries).value)))
      && (NormaliseAll(codec, ids, 0, entries).Failure? && NormaliseAll(codec, ids, 0, entries).error.MissingKey? ==>
            DecodeReply(codec, ids, text) == Success(PlainText))
  {
  }
}
