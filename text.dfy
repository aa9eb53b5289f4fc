/** String primitives shared by the Go and Python code being modelled.
    Strings are sequences of Unicode scalar values. Case mapping is the ASCII
    part of the Unicode mapping; whitespace is the exact code-point list each
    runtime uses. */
module Text {

  /** Go's `unicode.IsSpace`, which `strings.TrimSpace` uses. */
  predicate IsGoSpace(c: char) {
    c == '\t' || c == '\n' || c == '\U{000B}' || c == '\U{000C}' || c == '\r' || c == ' '
    || c == '\U{0085}' || c == '\U{00A0}' || c == '\U{1680}'
    || ('\U{2000}' <= c <= '\U{200A}') || c == '\U{2028}' || c == '\U{2029}'
    || c == '\U{202F}' || c == '\U{205F}' || c == '\U{3000}'
  }

  /** Python's `str.isspace`, used by `strip`, `lstrip` and the regex class `\s`:
      Go's list plus the four information separators U+001C..U+001F. */
  predicate IsPySpace(c: char) {
    IsGoSpace(c) || ('\U{001C}' <= c <= '\U{001F}')
  }

  predicate IsAsciiUpper(c: char) { 'A' <= c <= 'Z' }
  predicate IsAsciiLower(c: char) { 'a' <= c <= 'z' }
  predicate IsAsciiDigit(c: char) { '0' <= c <= '9' }
  predicate IsAsciiAlnum(c: char) { IsAsciiUpper(c) || IsAsciiLower(c) || IsAsciiDigit(c) }

  function UpperChar(c: char): (r: char)
    ensures IsAsciiLower(c) ==> IsAsciiUpper(r) && r as int == c as int - 32
    ensures !IsAsciiLower(c) ==> r == c
  {
    if IsAsciiLower(c) then (c as int - 32) as char else c
  }

  function LowerChar(c: char): (r: char)
    ensures IsAsciiUpper(c) ==> IsAsciiLower(r) && r as int == c as int + 32
    ensures !IsAsciiUpper(c) ==> r == c
  {
    if IsAsciiUpper(c) then (c as int + 32) as char else c
  }

  function ToUpper(s: string): (r: string)
    ensures |r| == |s|
    ensures forall i :: 0 <= i < |s| ==> r[i] == UpperChar(s[i])
  {
    seq(|s|, i requires 0 <= i < |s| => UpperChar(s[i]))
  }

  function ToLower(s: string): (r: string)
    ensures |r| == |s|
    ensures forall i :: 0 <= i < |s| ==> r[i] == LowerChar(s[i])
  {
    seq(|s|, i requires 0 <= i < |s| => LowerChar(s[i]))
  }

  /** Case-insensitive equality as `strings.EqualFold` computes it on ASCII. */
  predicate EqualFold(a: string, b: string) {
    ToLower(a) == ToLower(b)
  }

  /** Number of leading characters satisfying `p`. */
  function LeadingCount(s: string, p: char -> bool): (n: nat)
    ensures n <= |s|
    ensures forall i :: 0 <= i < n ==> p(s[i])
    ensures n < |s| ==> !p(s[n])
  {
    if s == [] || !p(s[0]) then 0 else 1 + LeadingCount(s[1..], p)
  }

  /** Counting across a concatenation: the second part counts only when the
      first part satisfies `p` throughout. */
  lemma {:induction false} LeadingCountAppend(a: string, b: string, p: char -> bool)
    ensures LeadingCount(a + b, p) ==
      if LeadingCount(a, p) < |a| then LeadingCount(a, p) else |a| + LeadingCount(b, p)
  {
    if a == [] {
      assert a + b == b;
    } else {
      assert (a + b)[0] == a[0];
      assert (a + b)[1..] == a[1..] + b;
      LeadingCountAppend(a[1..], b, p);
    }
  }

  /** Number of trailing characters satisfying `p`. */
  function TrailingCount(s: string, p: char -> bool): (n: nat)
    ensures n <= |s|
    ensures forall i :: |s| - n <= i < |s| ==> p(s[i])
    ensures n < |s| ==> !p(s[|s| - 1 - n])
  {
    if s == [] || !p(s[|s| - 1]) then 0 else 1 + TrailingCount(s[..|s| - 1], p)
  }

  function TrimLeft(s: string, p: char -> bool): (r: string)
    ensures r == s[LeadingCount(s, p)..]
  {
    s[LeadingCount(s, p)..]
  }

  function TrimRight(s: string, p: char -> bool): (r: string)
    ensures r == s[..|s| - TrailingCount(s, p)]
  {
    s[..|s| - TrailingCount(s, p)]
  }

  /** A string that neither starts nor ends with a character satisfying `p`. */
  predicate Trimmed(s: string, p: char -> bool) {
    s == [] || (!p(s[0]) && !p(s[|s| - 1]))
  }

  function Trim(s: string, p: char -> bool): (r: string)
  {
    TrimRight(TrimLeft(s, p), p)
  }

  /** `strings.TrimSpace`. */
  function TrimSpace(s: string): string {
    Trim(s, IsGoSpace)
  }

  /** Python `str.strip()` with no argument. */
  function PyStrip(s: string): string {
    Trim(s, IsPySpace)
  }

  /** Python `str.lstrip()` with no argument. */
  function PyLStrip(s: string): string {
    TrimLeft(s, IsPySpace)
  }

  /** The trimmed string is a slice of the input that starts and ends with a
      non-space character, and only spaces were removed around it. */
  lemma TrimShape(s: string, p: char -> bool)
    ensures var lo := LeadingCount(s, p);
            var r := Trim(s, p);
            lo + |r| <= |s| && r == s[lo..lo + |r|]
            && Trimmed(r, p)
            && (forall i :: 0 <= i < lo ==> p(s[i]))
            && (forall i :: lo + |r| <= i < |s| ==> p(s[i]))
  {
    var t := TrimLeft(s, p);
    var lo := LeadingCount(s, p);
    var k := TrailingCount(t, p);
    assert t == s[lo..];
    if t != [] {
      assert !p(t[0]);
      assert k < |t|;
    }
  }

  /** A string with no leading and trailing character satisfying `p` is its own trim. */
  lemma TrimOfTrimmed(s: string, p: char -> bool)
    requires Trimmed(s, p)
    ensures Trim(s, p) == s
  {
    assert LeadingCount(s, p) == 0;
    assert TrailingCount(s, p) == 0;
  }

  lemma TrimIdempotent(s: string, p: char -> bool)
    ensures Trim(Trim(s, p), p) == Trim(s, p)
  {
    TrimShape(s, p);
    TrimOfTrimmed(Trim(s, p), p);
  }

  /** The trim is empty exactly when every character satisfies `p`. */
  lemma TrimEmptyIff(s: string, p: char -> bool)
    ensures Trim(s, p) == [] <==> forall i :: 0 <= i < |s| ==> p(s[i])
  {
    TrimShape(s, p);
    var lo := LeadingCount(s, p);
    if Trim(s, p) == [] {
      assert forall i :: 0 <= i < |s| ==> p(s[i]) by {
        forall i | 0 <= i < |s| ensures p(s[i]) {
          if i < lo {} else {}
        }
      }
    } else {
      assert !p(s[lo]);
    }
  }

  /** A case mapping that preserves whether each character is a space
      commutes with trimming. */
  lemma TrimCommutesWithMap(s: string, t: string, p: char -> bool)
    requires |s| == |t|
    requires forall i :: 0 <= i < |s| ==> (p(s[i]) <==> p(t[i]))
    ensures LeadingCount(s, p) == LeadingCount(t, p)
    ensures TrailingCount(s, p) == TrailingCount(t, p)
    ensures |Trim(s, p)| == |Trim(t, p)|
  {
    LeadingSame(s, t, p);
    TrailingSame(s, t, p);
    var lo := LeadingCount(s, p);
    assert TrimLeft(s, p) == s[lo..] && TrimLeft(t, p) == t[lo..];
    TrailingSame(s[lo..], t[lo..], p);
  }

  /** Strings with spaces at the same positions are trimmed at the same positions. */
  lemma TrimSameBounds(s: string, t: string, p: char -> bool)
    requires |s| == |t|
    requires forall i :: 0 <= i < |s| ==> (p(s[i]) <==> p(t[i]))
    ensures var lo := LeadingCount(s, p); var hi := lo + |Trim(s, p)|;
      hi <= |s| && Trim(s, p) == s[lo..hi] && Trim(t, p) == t[lo..hi]
  {
    TrimCommutesWithMap(s, t, p);
    TrimSlice(s, p);
    TrimSlice(t, p);
  }

  lemma LeadingSame(s: string, t: string, p: char -> bool)
    requires |s| == |t|
    requires forall i :: 0 <= i < |s| ==> (p(s[i]) <==> p(t[i]))
    ensures LeadingCount(s, p) == LeadingCount(t, p)
  {
  }

  lemma TrailingSame(s: string, t: string, p: char -> bool)
    requires |s| == |t|
    requires forall i :: 0 <= i < |s| ==> (p(s[i]) <==> p(t[i]))
    ensures TrailingCount(s, p) == TrailingCount(t, p)
  {
  }

  /** Upper-casing and trimming Go whitespace commute. */
  lemma UpperTrimCommute(s: string)
    ensures ToUpper(TrimSpace(s)) == TrimSpace(ToUpper(s))
  {
    var u := ToUpper(s);
    SpacesSurviveUpper(s);
    TrimCommutesWithMap(s, u, IsGoSpace);
    TrimSlice(s, IsGoSpace);
    TrimSlice(u, IsGoSpace);
    var lo := LeadingCount(s, IsGoSpace);
    UpperOfSlice(s, lo, lo + |TrimSpace(s)|);
  }

  lemma SpacesSurviveUpper(s: string)
    ensures forall i :: 0 <= i < |s| ==> (IsGoSpace(s[i]) <==> IsGoSpace(ToUpper(s)[i]))
  {
  }

  /** The trim is the slice between the leading and the trailing run. */
  lemma TrimSlice(s: string, p: char -> bool)
    ensures var lo := LeadingCount(s, p);
      lo + |Trim(s, p)| <= |s| && Trim(s, p) == s[lo..lo + |Trim(s, p)|]
  {
    TrimShape(s, p);
  }

  lemma UpperOfSlice(s: string, lo: nat, hi: nat)
    requires lo <= hi <= |s|
    ensures ToUpper(s[lo..hi]) == ToUpper(s)[lo..hi]
  {
  }

  lemma UpperIdempotent(s: string)
    ensures ToUpper(ToUpper(s)) == ToUpper(s)
  {
  }

  lemma LowerOfUpper(s: string)
    ensures ToLower(ToUpper(s)) == ToLower(s)
  {
  }

  lemma UpperOfLower(s: string)
    ensures ToUpper(ToLower(s)) == ToUpper(s)
  {
  }

  /** Two strings are equal ignoring ASCII case exactly when their upper-case
      forms agree (the lower-case and upper-case comparisons coincide). */
  lemma EqualFoldByUpper(a: string, b: string)
    ensures EqualFold(a, b) <==> ToUpper(a) == ToUpper(b)
  {
    if ToUpper(a) == ToUpper(b) {
      LowerOfUpper(a);
      LowerOfUpper(b);
    }
    if EqualFold(a, b) {
      UpperOfLower(a);
      UpperOfLower(b);
    }
  }

  predicate HasPrefix(s: string, p: string) {
    |p| <= |s| && s[..|p|] == p
  }

  predicate HasSuffix(s: string, p: string) {
    |p| <= |s| && s[|s| - |p|..] == p
  }

  /** `strings.TrimPrefix`: drop one occurrence of `p` at the start. */
  function TrimPrefix(s: string, p: string): (r: string)
    ensures HasPrefix(s, p) ==> s == p + r
    ensures !HasPrefix(s, p) ==> r == s
  {
    if HasPrefix(s, p) then s[|p|..] else s
  }

  /** `strings.TrimSuffix`: drop one occurrence of `p` at the end. */
  function TrimSuffix(s: string, p: string): (r: string)
    ensures HasSuffix(s, p) ==> s == r + p
    ensures !HasSuffix(s, p) ==> r == s
  {
    if HasSuffix(s, p) then s[..|s| - |p|] else s
  }

  /** `strings.Join` / Python's `sep.join`. */
  function Join(parts: seq<string>, sep: string): (r: string)
  {
    if parts == [] then ""
    else if |parts| == 1 then parts[0]
    else parts[0] + sep + Join(parts[1..], sep)
  }

  lemma JoinSnoc(parts: seq<string>, x: string, sep: string)
    requires parts != []
    ensures Join(parts + [x], sep) == Join(parts, sep) + sep + x
  {
    if |parts| == 1 {
      assert parts + [x] == [parts[0], x];
    } else {
      assert (parts + [x])[1..] == parts[1..] + [x];
      JoinSnoc(parts[1..], x, sep);
    }
  }

  lemma JoinThree(a: string, b: string, c: string, sep: string)
    ensures Join([a, b, c], sep) == a + sep + b + sep + c
  {
    assert [a, b, c][1..] == [b, c] && [b, c][1..] == [c];
    assert Join([b, c], sep) == b + sep + c;
  }

  /** Every character of a join comes from a part or from the separator. */
  lemma JoinChars(parts: seq<string>, sep: string, ok: char -> bool)
    requires forall j, i :: 0 <= j < |parts| && 0 <= i < |parts[j]| ==> ok(parts[j][i])
    requires forall i :: 0 <= i < |sep| ==> ok(sep[i])
    ensures forall i :: 0 <= i < |Join(parts, sep)| ==> ok(Join(parts, sep)[i])
  {
    if |parts| > 1 {
      JoinChars(parts[1..], sep, ok);
      var tail := Join(parts[1..], sep);
      assert Join(parts, sep) == parts[0] + sep + tail;
      forall i | 0 <= i < |Join(parts, sep)| ensures ok(Join(parts, sep)[i]) {
        if i < |parts[0]| {
          assert Join(parts, sep)[i] == parts[0][i];
        } else if i < |parts[0]| + |sep| {
          assert Join(parts, sep)[i] == sep[i - |parts[0]|];
        } else {
          assert Join(parts, sep)[i] == tail[i - |parts[0]| - |sep|];
        }
      }
    } else if |parts| == 1 {
      assert Join(parts, sep) == parts[0];
    }
  }

  /** Decimal rendering of a natural number, as `%d` prints it. */
  function NatToString(n: nat): (r: string)
    ensures |r| >= 1
    ensures forall i :: 0 <= i < |r| ==> IsAsciiDigit(r[i])
    decreases n
  {
    var d := ['0' + (n % 10) as char];
    if n < 10 then d else NatToString(n / 10) + d
  }

  /** `%d` of a signed integer: a "-" before the digits of a negative one. */
  function IntToString(n: int): (r: string)
    ensures |r| >= 1
    ensures n >= 0 ==> forall i :: 0 <= i < |r| ==> IsAsciiDigit(r[i])
    ensures n < 0 ==> r[0] == '-' && |r| >= 2 && forall i :: 1 <= i < |r| ==> IsAsciiDigit(r[i])
  {
    if n < 0 then "-" + NatToString(-n) else NatToString(n)
  }

  predicate IsSlash(c: char) { c == '/' }
  predicate NotSlash(c: char) { c != '/' }

  predicate NoSlash(s: string) { forall i :: 0 <= i < |s| ==> s[i] != '/' }

  /** The pieces of `s` between single slashes: Go's `strings.Split(s, "/")`
      and Python's `s.split("/")`. */
  function SplitSlash(s: string): (r: seq<string>)
    ensures |r| >= 1
    ensures forall i :: 0 <= i < |r| ==> NoSlash(r[i])
    decreases |s|
  {
    var n := LeadingCount(s, NotSlash);
    if n == |s| then [s] else [s[..n]] + SplitSlash(s[n + 1..])
  }

  lemma SplitSlashPlain(b: string)
    requires NoSlash(b)
    ensures SplitSlash(b) == [b]
  {
    var n := LeadingCount(b, NotSlash);
    assert forall i :: 0 <= i < |b| ==> NotSlash(b[i]);
  }

  /** Splitting where the first slash is at position `n`. */
  lemma SplitSlashAt(s: string, n: nat)
    requires n < |s| && s[n] == '/' && NoSlash(s[..n])
    ensures SplitSlash(s) == [s[..n]] + SplitSlash(s[n + 1..])
  {
    var m := LeadingCount(s, NotSlash);
    assert forall i :: 0 <= i < n ==> NotSlash(s[i]) by {
      forall i | 0 <= i < n ensures NotSlash(s[i]) { assert s[..n][i] == s[i]; }
    }
    assert m == n;
  }

  lemma {:induction false} SplitSlashSnoc(d: string, b: string)
    requires NoSlash(b)
    ensures SplitSlash(d + "/" + b) == SplitSlash(d) + [b]
    decreases |d|
  {
    var n := LeadingCount(d, NotSlash);
    if n == |d| {
      SplitSlashSnocPlain(d, b);
    } else {
      FirstSlash(d);
      SplitSlashSnoc(d[n + 1..], b);
      SplitSlashSnocStep(d, b, n);
    }
  }

  /** The first slash of a string that has one. */
  lemma FirstSlash(d: string)
    requires LeadingCount(d, NotSlash) < |d|
    ensures var n := LeadingCount(d, NotSlash); d[n] == '/' && NoSlash(d[..n])
  {
  }

  lemma SplitSlashSnocStep(d: string, b: string, n: nat)
    requires n < |d| && d[n] == '/' && NoSlash(d[..n])
    requires SplitSlash(d[n + 1..] + "/" + b) == SplitSlash(d[n + 1..]) + [b]
    ensures SplitSlash(d + "/" + b) == SplitSlash(d) + [b]
  {
    SnocPieces(d, b, n);
    SplitSlashAt(d + "/" + b, n);
    SplitSlashAt(d, n);
    SnocAssoc(d[..n], SplitSlash(d[n + 1..]), b);
  }

  lemma SnocPieces(d: string, b: string, n: nat)
    requires n < |d|
    ensures var s := d + "/" + b;
      s[..n] == d[..n] && s[n] == d[n] && s[n + 1..] == d[n + 1..] + "/" + b
  {
    var s := d + "/" + b;
    assert s[n + 1..] == d[n + 1..] + "/" + b;
  }

  lemma SnocAssoc(x: string, rest: seq<string>, b: string)
    ensures [x] + (rest + [b]) == ([x] + rest) + [b]
  {
  }

  lemma SplitSlashSnocPlain(d: string, b: string)
    requires NoSlash(b) && NoSlash(d)
    ensures SplitSlash(d + "/" + b) == [d, b]
  {
    var s := d + "/" + b;
    var n := |d|;
    assert s[..n] == d && s[n + 1..] == b;
    SplitSlashAt(s, n);
    SplitSlashPlain(b);
    SplitSlashPlain(d);
  }
}
