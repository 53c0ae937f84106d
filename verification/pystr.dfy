/** The Python `str` operations the protocol and the routing rely on: `sep in s`, `s.split(sep)`,
    `sep.join(parts)`, `s.strip()`, `s.lower()`, `s[:n]` and `str(n)` for integers. */
module PyStr {
  import opened Wrappers

  /** The characters for which Python's `str.isspace()` holds: exactly those a bare `strip()` removes. */
  predicate IsSpace(c: char) {
    || c == ' '
    || '\t' <= c <= '\r'
    || '\U{1c}' <= c <= '\U{1f}'
    || c == '\U{85}' || c == '\U{a0}' || c == '\U{1680}'
    || '\U{2000}' <= c <= '\U{200a}'
    || c == '\U{2028}' || c == '\U{2029}' || c == '\U{202f}' || c == '\U{205f}' || c == '\U{3000}'
  }

  /** Every character of `s` is whitespace. */
  predicate AllSpace(s: string)
    decreases |s|
  {
    |s| == 0 || (IsSpace(s[0]) && AllSpace(s[1..]))
  }

  lemma {:induction false} AllSpaceConcat(a: string, b: string)
    ensures AllSpace(a + b) <==> AllSpace(a) && AllSpace(b)
    decreases |a|
  {
    if |a| > 0 {
      assert (a + b)[0] == a[0];
      assert (a + b)[1..] == a[1..] + b;
      AllSpaceConcat(a[1..], b);
    } else {
      assert a + b == b;
    }
  }

  /** Neither end of `s` is whitespace. */
  predicate Trimmed(s: string) {
    s == [] || (!IsSpace(s[0]) && !IsSpace(s[|s| - 1]))
  }

  function StripLeft(s: string): (r: string)
    ensures |r| <= |s|
    decreases |s|
  {
    if |s| > 0 && IsSpace(s[0]) then StripLeft(s[1..]) else s
  }

  function StripRight(s: string): (r: string)
    ensures |r| <= |s|
    decreases |s|
  {
    if |s| > 0 && IsSpace(s[|s| - 1]) then StripRight(s[..|s| - 1]) else s
  }

  /** `StripLeft` keeps a suffix of `s` that is empty or starts with a non-whitespace character. */
  lemma {:induction false} StripLeftFacts(s: string)
    ensures StripLeft(s) == s[|s| - |StripLeft(s)|..]
    ensures StripLeft(s) == [] || !IsSpace(StripLeft(s)[0])
    decreases |s|
  {
    if |s| > 0 && IsSpace(s[0]) {
      StripLeftFacts(s[1..]);
      assert s[1..][|s| - |StripLeft(s)| - 1..] == s[|s| - |StripLeft(s)|..];
    }
  }

  /** `StripRight` keeps a prefix of `s` that is empty or ends with a non-whitespace character. */
  lemma {:induction false} StripRightFacts(s: string)
    ensures StripRight(s) == s[..|StripRight(s)|]
    ensures StripRight(s) == [] || !IsSpace(StripRight(s)[|StripRight(s)| - 1])
    decreases |s|
  {
    if |s| > 0 && IsSpace(s[|s| - 1]) {
      StripRightFacts(s[..|s| - 1]);
      assert s[..|s| - 1][..|StripRight(s)|] == s[..|StripRight(s)|];
    }
  }

  /** Python's `s.strip()`. */
  function Strip(s: string): (r: string)
    ensures Trimmed(r)
  {
    var l := StripLeft(s);
    StripLeftFacts(s);
    StripRightFacts(l);
    var r := StripRight(l);
    assert r != [] ==> r[0] == l[0];
    r
  }

  /** Text with no whitespace at either end is its own `strip()`. */
  lemma StripTrimmed(s: string)
    requires Trimmed(s)
    ensures Strip(s) == s
  {
  }

  lemma {:induction false} StripLeftOfSpaces(w: string, s: string)
    requires AllSpace(w)
    ensures StripLeft(w + s) == StripLeft(s)
    decreases |w|
  {
    if |w| > 0 {
      assert (w + s)[0] == w[0];
      assert (w + s)[1..] == w[1..] + s;
      StripLeftOfSpaces(w[1..], s);
    } else {
      assert w + s == s;
    }
  }

  lemma {:induction false} StripRightOfSpaces(s: string, w: string)
    requires AllSpace(w)
    ensures StripRight(s + w) == StripRight(s)
    decreases |w|
  {
    if |w| > 0 {
      var n := |w| - 1;
      assert w == w[..n] + [w[n]];
      AllSpaceConcat(w[..n], [w[n]]);
      assert (s + w)[|s + w| - 1] == w[n];
      assert (s + w)[..|s + w| - 1] == s + w[..n];
      StripRightOfSpaces(s, w[..n]);
    } else {
      assert s + w == s;
    }
  }

  lemma {:induction false} StripLeftKeepsTail(s: string, w: string)
    requires !AllSpace(s)
    ensures StripLeft(s + w) == StripLeft(s) + w
    decreases |s|
  {
    assert (s + w)[0] == s[0];
    if IsSpace(s[0]) {
      assert (s + w)[1..] == s[1..] + w;
      StripLeftKeepsTail(s[1..], w);
    }
  }

  lemma {:induction false} StripLeftOfAllSpace(s: string)
    requires AllSpace(s)
    ensures StripLeft(s) == []
    decreases |s|
  {
    if |s| > 0 {
      StripLeftOfAllSpace(s[1..]);
    }
  }

  lemma {:induction false} StripRightOfAllSpace(s: string)
    requires AllSpace(s)
    ensures StripRight(s) == []
  {
    StripRightOfSpaces([], s);
    assert [] + s == s;
  }

  /** Whitespace added on either side never survives `strip()`. */
  lemma StripPadding(w1: string, s: string, w2: string)
    requires AllSpace(w1) && AllSpace(w2)
    ensures Strip(w1 + s + w2) == Strip(s)
  {
    StripLeftOfSpaces(w1, s + w2);
    assert w1 + s + w2 == w1 + (s + w2);
    if AllSpace(s) {
      AllSpaceConcat(s, w2);
      StripLeftOfAllSpace(s + w2);
      StripLeftOfAllSpace(s);
    } else {
      StripLeftKeepsTail(s, w2);
      StripRightOfSpaces(StripLeft(s), w2);
    }
  }

  // ---------------------------------------------------------------- `sep in s`

  /** `sep` occurs in `s` starting at index `p`. */
  predicate OccursAt(s: string, sep: string, p: int) {
    0 <= p && p + |sep| <= |s| && s[p..p + |sep|] == sep
  }

  function FindFrom(s: string, sep: string, i: nat): (r: Option<nat>)
    requires i <= |s|
    ensures r.Some? ==> i <= r.value && OccursAt(s, sep, r.value)
    ensures r.Some? ==> forall q :: i <= q < r.value ==> !OccursAt(s, sep, q)
    ensures r.None? ==> forall q :: i <= q ==> !OccursAt(s, sep, q)
    decreases |s| - i
  {
    if i + |sep| > |s| then None
    else if s[i..i + |sep|] == sep then Some(i)
    else FindFrom(s, sep, i + 1)
  }

  /** Python's `s.find(sep)`, with `None` for -1: the first index at which `sep` occurs. */
  function Find(s: string, sep: string): (r: Option<nat>)
    ensures r.Some? ==> OccursAt(s, sep, r.value)
    ensures r.Some? ==> forall q :: 0 <= q < r.value ==> !OccursAt(s, sep, q)
    ensures r.None? ==> forall q :: !OccursAt(s, sep, q)
  {
    FindFrom(s, sep, 0)
  }

  /** Python's `sep in s`. */
  predicate Contains(s: string, sep: string) {
    Find(s, sep).Some?
  }

  // ---------------------------------------------------------------- `split` and `join`

  /** Python's `s.split(sep)` for a non-empty separator: the pieces between the
      non-overlapping occurrences of `sep`, scanned from the left. */
  function Split(s: string, sep: string): (parts: seq<string>)
    requires |sep| > 0
    ensures 1 <= |parts|
    ensures Contains(s, sep) ==> 2 <= |parts|
    ensures !Contains(s, sep) ==> parts == [s]
    decreases |s|
  {
    match Find(s, sep)
    case None => [s]
    case Some(p) => [s[..p]] + Split(s[p + |sep|..], sep)
  }

  /** Python's `sep.join(parts)`. */
  function Join(sep: string, parts: seq<string>): string
  {
    if |parts| == 0 then ""
    else if |parts| == 1 then parts[0]
    else parts[0] + sep + Join(sep, parts[1..])
  }

  /** Cutting a sequence at two points and gluing the pieces back together changes nothing. */
  lemma Cut(s: string, i: nat, j: nat)
    requires i <= j <= |s|
    ensures s[..i] + s[i..j] + s[j..] == s
  {
  }

  lemma JoinStep(s: string, sep: string, p: nat, tail: seq<string>)
    requires p + |sep| <= |s| && s[p..p + |sep|] == sep
    requires |tail| >= 1 && Join(sep, tail) == s[p + |sep|..]
    ensures Join(sep, [s[..p]] + tail) == s
  {
    var parts := [s[..p]] + tail;
    assert parts[1..] == tail;
    assert Join(sep, parts) == s[..p] + sep + s[p + |sep|..];
    Cut(s, p, p + |sep|);
  }

  /** Splitting and re-joining with the same separator gives back the original text. */
  lemma {:induction false} SplitJoin(s: string, sep: string)
    requires |sep| > 0
    ensures Join(sep, Split(s, sep)) == s
    decreases |s|
  {
    var f := Find(s, sep);
    if f.Some? {
      var p := f.value;
      var rest := s[p + |sep|..];
      SplitJoin(rest, sep);
      JoinStep(s, sep, p, Split(rest, sep));
      SplitUnfold(s, sep, p);
    }
  }

  /** One step of `split`: the text before the first separator, then the split of the rest. */
  lemma SplitUnfold(s: string, sep: string, p: nat)
    requires |sep| > 0 && Find(s, sep) == Some(p)
    ensures Split(s, sep) == [s[..p]] + Split(s[p + |sep|..], sep)
  {
  }

  /** The text before the first occurrence of `sep` holds no occurrence of it. */
  lemma BeforeFirstClean(s: string, sep: string, p: nat)
    requires |sep| > 0 && Find(s, sep) == Some(p)
    ensures !Contains(s[..p], sep)
  {
    var head := s[..p];
    forall q | 0 <= q && q + |sep| <= |head| ensures !OccursAt(head, sep, q) {
      assert head[q..q + |sep|] == s[q..q + |sep|];
      assert q < p;
      assert !OccursAt(s, sep, q);
    }
  }

  /** None of `parts` contains `sep`. */
  predicate NoneContain(parts: seq<string>, sep: string) {
    forall i :: 0 <= i < |parts| ==> !Contains(parts[i], sep)
  }

  lemma NoneContainCons(head: string, tail: seq<string>, sep: string)
    requires !Contains(head, sep) && NoneContain(tail, sep)
    ensures NoneContain([head] + tail, sep)
  {
    var parts := [head] + tail;
    forall i | 0 <= i < |parts| ensures !Contains(parts[i], sep) {
      if i > 0 {
        assert parts[i] == tail[i - 1];
      }
    }
  }

  /** No piece produced by `split` contains the separator. */
  lemma {:induction false} SplitPiecesClean(s: string, sep: string)
    requires |sep| > 0
    ensures NoneContain(Split(s, sep), sep)
    decreases |s|
  {
    var f := Find(s, sep);
    if f.Some? {
      var p := f.value;
      var rest := s[p + |sep|..];
      SplitPiecesClean(rest, sep);
      BeforeFirstClean(s, sep, p);
      SplitUnfold(s, sep, p);
      NoneContainCons(s[..p], Split(rest, sep), sep);
    }
  }

  // ---------------------------------------------------------------- locating a separator after a prefix

  /** `a` holds no occurrence of `sep` and cannot start one that runs past its end. */
  predicate Guarded(a: string, sep: string) {
    !Contains(a, sep) && (|a| == 0 || a[|a| - 1] !in sep)
  }

  /** Text lacking the first character of `sep` cannot contain `sep`. */
  lemma NoOccWithoutFirstChar(a: string, sep: string)
    requires |sep| > 0 && sep[0] !in a
    ensures !Contains(a, sep)
  {
    forall q | 0 <= q && q + |sep| <= |a| ensures !OccursAt(a, sep, q) {
      assert a[q..q + |sep|][0] == a[q];
    }
  }

  /** Concatenating two pieces free of `sep` yields text free of `sep`, provided no occurrence can
      straddle the seam. */
  lemma NoOccAppend(a: string, b: string, sep: string)
    requires |sep| > 0 && !Contains(a, sep) && !Contains(b, sep)
    requires || |a| == 0 || |b| == 0
             || a[|a| - 1] !in sep || b[0] !in sep || sep[0] !in a
    ensures !Contains(a + b, sep)
  {
    var s := a + b;
    forall q | 0 <= q && q + |sep| <= |s| ensures !OccursAt(s, sep, q) {
      var w := s[q..q + |sep|];
      if q + |sep| <= |a| {
        assert w == a[q..q + |sep|];
        assert !OccursAt(a, sep, q);
      } else if q >= |a| {
        assert w == b[q - |a|..q - |a| + |sep|];
        assert !OccursAt(b, sep, q - |a|);
      } else {
        assert w[|a| - 1 - q] == a[|a| - 1];
        assert w[|a| - q] == b[0];
        assert w[0] == a[q];
      }
    }
  }

  /** After a guarded prefix, the first occurrence of `sep` is the one placed right after it. */
  lemma FindAfterGuarded(a: string, sep: string, rest: string)
    requires |sep| > 0 && Guarded(a, sep)
    ensures Find(a + sep + rest, sep) == Some(|a|)
  {
    var s := a + sep + rest;
    assert s[|a|..|a| + |sep|] == sep;
    assert OccursAt(s, sep, |a|);
    forall q | 0 <= q < |a| ensures !OccursAt(s, sep, q) {
      if q + |sep| <= |a| {
        assert s[q..q + |sep|] == a[q..q + |sep|];
        assert !OccursAt(a, sep, q);
      } else if q + |sep| <= |s| {
        assert s[q..q + |sep|][|a| - 1 - q] == a[|a| - 1];
      }
    }
  }

  /** No proper prefix of `sep` is also a suffix of it, so two occurrences can never overlap. */
  predicate Unbordered(sep: string) {
    forall n :: 0 < n < |sep| ==> sep[..n] != sep[|sep| - n..]
  }

  /** After a prefix free of an unbordered `sep`, the first occurrence is the one placed right after it. */
  lemma FindAfterClean(a: string, sep: string, rest: string)
    requires |sep| > 0 && !Contains(a, sep) && Unbordered(sep)
    ensures Find(a + sep + rest, sep) == Some(|a|)
  {
    var s := a + sep + rest;
    assert s[|a|..|a| + |sep|] == sep;
    assert OccursAt(s, sep, |a|);
    forall q | 0 <= q < |a| ensures !OccursAt(s, sep, q) {
      if q + |sep| <= |a| {
        assert s[q..q + |sep|] == a[q..q + |sep|];
        assert !OccursAt(a, sep, q);
      } else if q + |sep| <= |s| {
        var n := |sep| - (|a| - q);
        assert s[q..q + |sep|][|a| - q..] == sep[..n];
        assert s[q..q + |sep|][|a| - q..] == s[q..q + |sep|][|sep| - n..];
        assert sep[..n] != sep[|sep| - n..];
      }
    }
  }

  /** `split` peels an unbordered separator's clean prefix off as its first piece. */
  lemma SplitAfterClean(a: string, sep: string, rest: string)
    requires |sep| > 0 && !Contains(a, sep) && Unbordered(sep)
    ensures Split(a + sep + rest, sep) == [a] + Split(rest, sep)
  {
    var s := a + sep + rest;
    FindAfterClean(a, sep, rest);
    SplitUnfold(s, sep, |a|);
    assert s[..|a|] == a;
    assert s[|a| + |sep|..] == rest;
  }

  /** `split` peels a guarded prefix off as its first piece. */
  lemma SplitAfterGuarded(a: string, sep: string, rest: string)
    requires |sep| > 0 && Guarded(a, sep)
    ensures Split(a + sep + rest, sep) == [a] + Split(rest, sep)
  {
    var s := a + sep + rest;
    FindAfterGuarded(a, sep, rest);
    SplitUnfold(s, sep, |a|);
    assert s[..|a|] == a;
    assert s[|a| + |sep|..] == rest;
  }

  /** `split` on text free of the separator yields the text alone. */
  lemma SplitClean(s: string, sep: string)
    requires |sep| > 0 && !Contains(s, sep)
    ensures Split(s, sep) == [s]
  {
  }

  /** Joining pieces that are guarded against the separator and splitting again gives the pieces
      back: `split` is the inverse of `join` on such pieces. */
  lemma {:induction false} JoinSplit(parts: seq<string>, sep: string)
    requires |sep| > 0 && |parts| >= 1
    requires forall i :: 0 <= i < |parts| - 1 ==> Guarded(parts[i], sep)
    requires !Contains(parts[|parts| - 1], sep)
    ensures Split(Join(sep, parts), sep) == parts
    decreases |parts|
  {
    if |parts| == 1 {
      SplitClean(parts[0], sep);
    } else {
      var tail := parts[1..];
      assert forall i :: 0 <= i < |tail| - 1 ==> tail[i] == parts[i + 1];
      JoinSplit(tail, sep);
      SplitAfterGuarded(parts[0], sep, Join(sep, tail));
      assert parts == [parts[0]] + tail;
    }
  }

  /** Text placed between two others occurs in the result. */
  lemma ContainsMiddle(a: string, x: string, b: string)
    ensures Contains(a + x + b, x)
  {
    var s := a + x + b;
    assert s[|a|..|a| + |x|] == x;
    assert OccursAt(s, x, |a|);
  }

  /** Whatever occurs in a middle piece occurs in the whole. */
  lemma ContainsWithin(a: string, x: string, b: string, y: string)
    requires Contains(x, y)
    ensures Contains(a + x + b, y)
  {
    var q := Find(x, y).value;
    var s := a + x + b;
    assert s[|a| + q..|a| + q + |y|] == x[q..q + |y|];
    assert OccursAt(s, y, |a| + q);
  }

  /** Whatever occurs in a text occurs in anything that ends with it. */
  lemma ContainsSuffix(a: string, x: string, y: string)
    requires Contains(x, y)
    ensures Contains(a + x, y)
  {
    ContainsWithin(a, x, [], y);
    assert a + x + [] == a + x;
  }

  // ---------------------------------------------------------------- `lower`, slicing, `str(int)`

  function LowerChar(c: char): char {
    if 'A' <= c <= 'Z' then (c as int + 32) as char else c
  }

  /** Python's `s.lower()` on ASCII letters; every other character is left as it is. */
  function Lower(s: string): (r: string)
    ensures |r| == |s|
  {
    seq(|s|, i requires 0 <= i < |s| => LowerChar(s[i]))
  }

  function Min(a: int, b: int): int {
    if a <= b then a else b
  }

  /** Python's `s[:n]` for any integer `n`; a negative `n` counts from the end. */
  function SlicePrefix(s: string, n: int): (r: string)
    ensures |r| <= |s| && r == s[..|r|]
    ensures 0 <= n ==> |r| == Min(n, |s|)
    ensures n < 0 ==> |r| == (if |s| + n <= 0 then 0 else |s| + n)
  {
    if 0 <= n then (if n >= |s| then s else s[..n])
    else if |s| + n <= 0 then ""
    else s[..|s| + n]
  }

  function DigitChar(d: nat): char
    requires d < 10
  {
    ('0' as int + d) as char
  }

  function NatToStr(n: nat): (r: string)
    ensures |r| >= 1
    decreases n
  {
    if n < 10 then [DigitChar(n)] else NatToStr(n / 10) + [DigitChar(n % 10)]
  }

  /** Python's `str(n)` for an integer. */
  function IntToStr(n: int): string {
    if n < 0 then "-" + NatToStr(-n) else NatToStr(n)
  }
}
