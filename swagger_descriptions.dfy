/** Filling in missing Swagger descriptions in handler comments
    (scripts/swagger_ensure_descriptions.py): every `// @Summary` comment
    block that has no `// @Description` line gets one, derived from the
    summary, inserted right after the summary line.

    The file is a sequence of lines, as `splitlines` produces it (no line
    break inside a line). Reading the file, writing it back and the
    directory walk of `main` are foreign and not part of this model: the
    method returns the lines it would write. Case mapping is ASCII. */
module SwaggerDescriptions {
  import opened Wrappers
  import opened Text

  // ------------------------------------------------------- line patterns

  /** A regex word character (`\w`), restricted to ASCII letters, digits and
      `_`; Python's `\w` on text also accepts non-ASCII letters and digits. */
  predicate IsWordChar(c: char) { IsAsciiAlnum(c) || c == '_' }

  predicate NoNewline(s: string) { forall i :: 0 <= i < |s| ==> s[i] != '\n' }

  // Groups 1 and 2 of `^(\s*//\s*@Summary\s+)(.+)$`.
  datatype SummaryMatch = SummaryMatch(head: string, summary: string)

  /** Whether `s` starts with "//". */
  predicate StartsWithSlashes(s: string) {
    |s| >= 2 && s[0] == '/' && s[1] == '/'
  }

  /** The number of leading spaces of `s`, as `\s*` and `lstrip` skip them. */
  function SpaceCount(s: string): (n: nat)
    ensures n <= |s|
  {
    if s == [] || !IsPySpace(s[0]) then 0 else 1 + SpaceCount(s[1..])
  }

  /** Position just after the "//" of a line that, after leading spaces,
      starts with "//", and after the spaces that follow it. */
  function AfterSlashes(line: string): (r: Option<nat>)
    ensures r.Some? ==> r.value <= |line|
  {
    var a := SpaceCount(line);
    if !StartsWithSlashes(line[a..]) then None
    else Some(a + 2 + SpaceCount(line[a + 2..]))
  }

  /** Matching `SUMMARY_RE`. The greedy `\s+` gives back its last space
      only when nothing else is left for `.+`. */
  function MatchSummary(line: string): (r: Option<SummaryMatch>)
  {
    match AfterSlashes(line)
    case None => None
    case Some(b) => SummaryAfter(line, b)
  }

  /** The rest of `SUMMARY_RE` from position `b`, just after "//" and
      the spaces that follow it. */
  function SummaryAfter(line: string, b: nat): (r: Option<SummaryMatch>)
    requires b <= |line|
  {
    if !HasPrefix(line[b..], "@Summary") then None
    else
      var c := b + 8;
      var w := SpaceCount(line[c..]);
      var k := if c + w < |line| then w else w - 1;
      if k < 1 || !NoNewline(line[c + k..]) then None
      else Some(SummaryMatch(line[..c + k], line[c + k..]))
  }

  /** A summary line is its head followed by a non-empty summary, and its
      head is the leading spaces, "//" and more. */
  lemma MatchSummaryShape(line: string)
    requires MatchSummary(line).Some?
    ensures var m := MatchSummary(line).value;
      && line == m.head + m.summary && m.summary != ""
      && SpaceCount(line) + 2 <= |m.head| && StartsWithSlashes(line[SpaceCount(line)..])
  {
    var b := AfterSlashes(line).value;
    assert b >= SpaceCount(line) + 2;
    SummaryAfterShape(line, b);
  }

  lemma SummaryAfterShape(line: string, b: nat)
    requires b <= |line| && SummaryAfter(line, b).Some?
    ensures var m := SummaryAfter(line, b).value;
      line == m.head + m.summary && m.summary != "" && b < |m.head|
  {
    var c := b + 8;
    var w := SpaceCount(line[c..]);
    var k := if c + w < |line| then w else w - 1;
    SplitAt(line, c + k);
  }

  lemma SplitAt(s: string, n: nat)
    requires n <= |s|
    ensures s == s[..n] + s[n..]
  {
  }

  // Matching `DESCRIPTION_RE`, `^\s*//\s*@Description\b`.
  predicate IsDescriptionLine(line: string) {
    match AfterSlashes(line)
    case None => false
    case Some(b) =>
      HasPrefix(line[b..], "@Description") && (b + 12 == |line| || !IsWordChar(line[b + 12]))
  }

  /** A line that continues a comment block: `line.lstrip().startswith("//")`. */
  predicate IsCommentLine(line: string) {
    StartsWithSlashes(line[SpaceCount(line)..])
  }

  /** `SpaceCount` counts what `lstrip` removes. */
  lemma {:induction false} SpaceCountIsLStrip(s: string)
    ensures s[SpaceCount(s)..] == PyLStrip(s)
    decreases |s|
  {
    if s != [] && IsPySpace(s[0]) {
      SpaceCountIsLStrip(s[1..]);
      assert s[1..][SpaceCount(s[1..])..] == s[SpaceCount(s)..];
    }
  }

  /** A run of spaces: leading spaces are counted through it. */
  lemma {:induction false} SpaceCountAfterSpaces(sp: string, t: string)
    requires forall i :: 0 <= i < |sp| ==> IsPySpace(sp[i])
    ensures SpaceCount(sp + t) == |sp| + SpaceCount(t)
    decreases |sp|
  {
    if sp == [] {
      assert sp + t == t;
    } else {
      assert (sp + t)[0] == sp[0];
      assert (sp + t)[1..] == sp[1..] + t;
      SpaceCountAfterSpaces(sp[1..], t);
    }
  }

  /** The leading spaces are spaces. */
  lemma {:induction false} SpaceCountSpaces(s: string)
    ensures forall i :: 0 <= i < SpaceCount(s) ==> IsPySpace(s[i])
    decreases |s|
  {
    if s != [] && IsPySpace(s[0]) {
      SpaceCountSpaces(s[1..]);
      assert forall i :: 1 <= i < SpaceCount(s) ==> s[i] == s[1..][i - 1];
    }
  }

  /** `s.split("//")[0]`: the text before the first "//". */
  function BeforeSlashes(s: string): (r: string)
    ensures HasPrefix(s, r)
    decreases |s|
  {
    if |s| < 2 then s
    else if StartsWithSlashes(s) then ""
    else [s[0]] + BeforeSlashes(s[1..])
  }

  /** The text before the first "//" of a string that starts with spaces
      and then "//" is those spaces. */
  lemma {:induction false} BeforeSlashesOfSpaces(s: string, n: nat)
    requires n <= |s| && forall i :: 0 <= i < n ==> IsPySpace(s[i])
    requires StartsWithSlashes(s[n..])
    ensures BeforeSlashes(s) == s[..n]
    decreases n
  {
    if n > 0 {
      assert !StartsWithSlashes(s) by { assert IsPySpace(s[0]); }
      assert s[1..][n - 1..] == s[n..];
      BeforeSlashesOfSpaces(s[1..], n - 1);
      assert s[..n] == [s[0]] + s[1..][..n - 1];
    }
  }

  /** The indentation of a summary line: its leading spaces. */
  lemma SummaryIndent(line: string)
    requires MatchSummary(line).Some?
    ensures var indent := BeforeSlashes(MatchSummary(line).value.head);
      && HasPrefix(line, indent)
      && forall i :: 0 <= i < |indent| ==> IsPySpace(indent[i])
  {
    var head := MatchSummary(line).value.head;
    MatchSummaryShape(line);
    var a := SpaceCount(line);
    SpaceCountSpaces(line);
    assert head == line[..|head|];
    assert head[a..] == line[a..|head|];
    BeforeSlashesOfSpaces(head, a);
  }

  // ------------------------------------------------------- descriptions

  const ListText := "Returns a filtered, paginated list for this endpoint."
  const GetText := "Returns the requested resource if found and accessible."
  const CreateText := "Validates input and creates a new resource."
  const UpdateText := "Validates input and updates the target resource."
  const DeleteText := "Deletes the target resource and returns the operation result."
  const HealthText := "Returns service health and readiness information."
  const GenericText := "Handles this endpoint operation."

  /** `default_description`: the first rule whose prefix the stripped,
      lower-cased summary starts with decides. */
  function DefaultDescription(summary: string): (r: string)
  {
    DescriptionFor(ToLower(PyStrip(summary)))
  }

  /** The rules of `default_description` on the lower-cased summary `low`. */
  function DescriptionFor(low: string): (r: string)
    ensures r in {ListText, GetText, CreateText, UpdateText, DeleteText, HealthText, GenericText}
  {
    if HasPrefix(low, "list ") then ListText
    else if HasPrefix(low, "get ") || HasPrefix(low, "retrieve ") then GetText
    else if HasPrefix(low, "create ") then CreateText
    else if HasPrefix(low, "update ") then UpdateText
    else if HasPrefix(low, "delete ") || HasPrefix(low, "remove ") then DeleteText
    else if HasPrefix(low, "health check") then HealthText
    else GenericText
  }

  /** The description depends on the summary only up to surrounding spaces
      and letter case. */
  lemma DefaultDescriptionCaseInsensitive(a: string, b: string)
    requires EqualFold(PyStrip(a), PyStrip(b))
    ensures DefaultDescription(a) == DefaultDescription(b)
  {
  }

  /** The line inserted after a summary line. */
  function DescriptionLine(m: SummaryMatch): string {
    BeforeSlashes(m.head) + ("// @Description " + DefaultDescription(m.summary))
  }

  /** An inserted line continues the comment block and is itself a
      description line, so a later run finds it. */
  lemma DescriptionLineShape(line: string)
    requires MatchSummary(line).Some?
    ensures IsCommentLine(DescriptionLine(MatchSummary(line).value))
    ensures IsDescriptionLine(DescriptionLine(MatchSummary(line).value))
  {
    var m := MatchSummary(line).value;
    SummaryIndent(line);
    DescriptionLineOf(m);
  }

  lemma DescriptionLineOf(m: SummaryMatch)
    requires forall i :: 0 <= i < |BeforeSlashes(m.head)| ==> IsPySpace(BeforeSlashes(m.head)[i])
    ensures IsCommentLine(DescriptionLine(m)) && IsDescriptionLine(DescriptionLine(m))
  {
    var indent, t := BeforeSlashes(m.head), "// @Description " + DefaultDescription(m.summary);
    TagShape(DefaultDescription(m.summary));
    IndentedTagShape(indent, t);
    assert DescriptionLine(m) == indent + t;
  }

  lemma IndentedTagShape(indent: string, t: string)
    requires forall i :: 0 <= i < |indent| ==> IsPySpace(indent[i])
    requires |t| >= 16 && t[0] == '/' && t[1] == '/' && t[2] == ' ' && t[3] == '@'
    requires t[3..15] == "@Description" && t[15] == ' '
    ensures IsCommentLine(indent + t) && IsDescriptionLine(indent + t)
  {
    var d := indent + t;
    SpaceCountAfterSpaces(indent, t);
    assert SpaceCount(t) == 0;
    var a := |indent|;
    assert d[a..] == t;
    assert SpaceCount(t[2..]) == 1 by {
      assert t[2..][1..] == t[3..];
    }
    assert d[a + 2..] == t[2..];
    var b := a + 3;
    assert AfterSlashes(d) == Some(b);
    assert d[b..][..12] == t[3..15];
    assert d[b + 12] == t[15];
  }

  /** The characters of the fixed part of an inserted line. */
  lemma TagShape(desc: string)
    ensures var t := "// @Description " + desc;
      && |t| >= 16 && t[0] == '/' && t[1] == '/' && t[2] == ' ' && t[3] == '@'
      && t[3..15] == "@Description" && t[15] == ' '
  {
  }

  // ------------------------------------------------------- the pass

  /** The number of leading comment lines of `ls`. */
  function CommentRun(ls: seq<string>): (n: nat)
    ensures n <= |ls|
    ensures forall k :: 0 <= k < n ==> IsCommentLine(ls[k])
    ensures n < |ls| ==> !IsCommentLine(ls[n])
  {
    if ls == [] || !IsCommentLine(ls[0]) then 0 else 1 + CommentRun(ls[1..])
  }

  /** The number of input lines one step of the scan handles: a summary
      line with the comment lines after it, or a single other line. */
  function StepSize(ls: seq<string>): (n: nat)
    requires ls != []
    ensures 1 <= n <= |ls|
  {
    if MatchSummary(ls[0]).Some? then 1 + CommentRun(ls[1..]) else 1
  }

  predicate AnyDescription(block: seq<string>) {
    exists k :: 0 <= k < |block| && IsDescriptionLine(block[k])
  }

  /** Whether the step at `ls[0]` inserts a description: it starts at a
      summary line and its block has no description line. */
  predicate Inserts(ls: seq<string>)
    requires ls != []
  {
    MatchSummary(ls[0]).Some? && !AnyDescription(ls[..StepSize(ls)])
  }

  /** The lines one step writes. */
  function StepOut(ls: seq<string>): seq<string>
    requires ls != []
  {
    if Inserts(ls) then [ls[0], DescriptionLine(MatchSummary(ls[0]).value)] + ls[1..StepSize(ls)]
    else ls[..StepSize(ls)]
  }

  /** Which of the lines one step writes are inserted ones. */
  function StepMarks(ls: seq<string>): seq<bool>
    requires ls != []
  {
    if Inserts(ls) then [false, true] + Falses(StepSize(ls) - 1) else Falses(StepSize(ls))
  }

  /** Reference: the lines `process_file` writes for the lines `ls`. */
  function Pass(ls: seq<string>): seq<string>
    decreases |ls|
  {
    if ls == [] then [] else StepOut(ls) + Pass(ls[StepSize(ls)..])
  }

  /** Reference: the number of lines `process_file` inserts. */
  function Inserted(ls: seq<string>): nat
    decreases |ls|
  {
    if ls == [] then 0 else (if Inserts(ls) then 1 else 0) + Inserted(ls[StepSize(ls)..])
  }

  /** Which output lines are inserted ones, position by position. */
  function InsertedAt(ls: seq<string>): seq<bool>
    decreases |ls|
  {
    if ls == [] then [] else StepMarks(ls) + InsertedAt(ls[StepSize(ls)..])
  }

  function Falses(n: nat): (r: seq<bool>)
    ensures |r| == n && forall k :: 0 <= k < n ==> !r[k]
  {
    seq(n, k => false)
  }

  /** The lines of `out` whose mark is false. */
  function Unmarked(out: seq<string>, marks: seq<bool>): seq<string>
    requires |out| == |marks|
  {
    if out == [] then []
    else (if marks[0] then [] else [out[0]]) + Unmarked(out[1..], marks[1..])
  }

  function CountTrue(marks: seq<bool>): nat {
    if marks == [] then 0 else (if marks[0] then 1 else 0) + CountTrue(marks[1..])
  }

  lemma {:induction false} UnmarkedAppend(a: seq<string>, am: seq<bool>, b: seq<string>, bm: seq<bool>)
    requires |a| == |am| && |b| == |bm|
    ensures Unmarked(a + b, am + bm) == Unmarked(a, am) + Unmarked(b, bm)
    ensures CountTrue(am + bm) == CountTrue(am) + CountTrue(bm)
    decreases |a|
  {
    if a == [] {
      assert a + b == b && am + bm == bm;
    } else {
      assert (a + b)[1..] == a[1..] + b && (am + bm)[1..] == am[1..] + bm;
      UnmarkedAppend(a[1..], am[1..], b, bm);
    }
  }

  lemma {:induction false} UnmarkedNone(a: seq<string>)
    ensures Unmarked(a, Falses(|a|)) == a && CountTrue(Falses(|a|)) == 0
    decreases |a|
  {
    if a != [] {
      assert Falses(|a|)[1..] == Falses(|a| - 1);
      UnmarkedNone(a[1..]);
    }
  }

  /** `line` is the description line `process_file` inserts after `prev`. */
  predicate Describes(prev: string, line: string) {
    MatchSummary(prev).Some? && line == DescriptionLine(MatchSummary(prev).value)
  }

  /** Every marked line of `out` follows a summary line and is that
      summary's description line; the first line is not marked. */
  predicate MarksInserted(out: seq<string>, marks: seq<bool>)
    requires |out| == |marks|
  {
    && (forall k :: 0 <= k < |out| && marks[k] ==> k > 0 && Describes(out[k - 1], out[k]))
    && (marks != [] ==> !marks[0])
  }

  lemma MarksInsertedAppend(a: seq<string>, am: seq<bool>, b: seq<string>, bm: seq<bool>)
    requires |a| == |am| && |b| == |bm|
    requires MarksInserted(a, am) && MarksInserted(b, bm)
    ensures MarksInserted(a + b, am + bm)
  {
    var out, marks := a + b, am + bm;
    forall k | 0 <= k < |out| && marks[k] ensures k > 0 && Describes(out[k - 1], out[k]) {
      if k >= |a| {
        assert marks[k] == bm[k - |a|] && out[k] == b[k - |a|];
        assert out[k - 1] == b[k - |a| - 1];
      }
    }
  }

  /** Within one step the input lines are kept in order and at most one
      line is inserted, right after the summary line. */
  lemma StepKeepsLines(ls: seq<string>)
    requires ls != []
    ensures |StepMarks(ls)| == |StepOut(ls)| == StepSize(ls) + (if Inserts(ls) then 1 else 0)
    ensures Unmarked(StepOut(ls), StepMarks(ls)) == ls[..StepSize(ls)]
    ensures CountTrue(StepMarks(ls)) == if Inserts(ls) then 1 else 0
    ensures StepOut(ls)[0] == ls[0]
    ensures MarksInserted(StepOut(ls), StepMarks(ls))
  {
    var e := StepSize(ls);
    var ins := Inserts(ls);
    var d := if ins then DescriptionLine(MatchSummary(ls[0]).value) else "";
    StepAsBlock(ls, d);
    BlockKeepsLines(ls[0], d, ls[1..e], ins);
    PrefixSplit(ls, e);
    if ins {
      assert Describes(ls[0], d);
    }
  }

  /** A step written as its first line, the inserted line `d` or none, and
      the rest of its block. */
  lemma StepAsBlock(ls: seq<string>, d: string)
    requires ls != []
    requires Inserts(ls) ==> d == DescriptionLine(MatchSummary(ls[0]).value)
    ensures var more := ls[1..StepSize(ls)];
      && StepOut(ls) == (if Inserts(ls) then [ls[0], d] + more else [ls[0]] + more)
      && StepMarks(ls) == (if Inserts(ls) then [false, true] + Falses(|more|) else Falses(1 + |more|))
  {
    PrefixSplit(ls, StepSize(ls));
  }

  lemma PrefixSplit(s: seq<string>, e: nat)
    requires 1 <= e <= |s|
    ensures s[..e] == [s[0]] + s[1..e]
  {
  }

  /** One line `d` inserted, or not, after the first line of a block. */
  lemma BlockKeepsLines(first: string, d: string, more: seq<string>, ins: bool)
    ensures var out := if ins then [first, d] + more else [first] + more;
      var marks := if ins then [false, true] + Falses(|more|) else Falses(1 + |more|);
      && |marks| == |out| == 1 + |more| + (if ins then 1 else 0)
      && Unmarked(out, marks) == [first] + more
      && CountTrue(marks) == (if ins then 1 else 0)
      && out[0] == first && !marks[0]
      && forall k :: 0 <= k < |out| && marks[k] ==> k == 1 && ins && out[k] == d
  {
    if ins {
      UnmarkedNone(more);
      UnmarkedAppend([first, d], [false, true], more, Falses(|more|));
      assert Unmarked([first, d], [false, true]) == [first] by {
        assert [first, d][1..] == [d];
        assert [false, true][1..] == [true];
      }
      assert CountTrue([false, true]) == 1 by {
        assert [false, true][1..] == [true];
      }
    } else {
      UnmarkedNone([first] + more);
    }
  }

  /** Every original line is kept, in order, and each inserted line follows
      a summary line and is that summary's description line; there are as
      many of them as `Inserted` counts. */
  lemma {:induction false} PassKeepsLines(ls: seq<string>)
    ensures |InsertedAt(ls)| == |Pass(ls)| == |ls| + Inserted(ls)
    ensures Unmarked(Pass(ls), InsertedAt(ls)) == ls
    ensures CountTrue(InsertedAt(ls)) == Inserted(ls)
    ensures MarksInserted(Pass(ls), InsertedAt(ls))
    decreases |ls|
  {
    if ls != [] {
      var e := StepSize(ls);
      var rest := ls[e..];
      StepKeepsLines(ls);
      PassKeepsLines(rest);
      UnmarkedAppend(StepOut(ls), StepMarks(ls), Pass(rest), InsertedAt(rest));
      MarksInsertedAppend(StepOut(ls), StepMarks(ls), Pass(rest), InsertedAt(rest));
      assert ls[..e] + rest == ls;
    }
  }

  /** Nothing is inserted exactly when the lines come out as they went in. */
  lemma NothingInsertedUnchanged(ls: seq<string>)
    ensures Inserted(ls) == 0 <==> Pass(ls) == ls
  {
    PassKeepsLines(ls);
    if Inserted(ls) == 0 {
      ZeroMarksUnmarked(Pass(ls), InsertedAt(ls));
    }
  }

  lemma {:induction false} ZeroMarksUnmarked(out: seq<string>, marks: seq<bool>)
    requires |out| == |marks| && CountTrue(marks) == 0
    ensures Unmarked(out, marks) == out
    decreases |out|
  {
    if out != [] {
      ZeroMarksUnmarked(out[1..], marks[1..]);
    }
  }

  /** The lines a step writes for a summary block are the summary line,
      then comment lines only, and include a description line. */
  lemma StepOutShape(ls: seq<string>)
    requires ls != [] && MatchSummary(ls[0]).Some?
    ensures forall k :: 1 <= k < |StepOut(ls)| ==> IsCommentLine(StepOut(ls)[k])
    ensures AnyDescription(StepOut(ls))
  {
    var e := StepSize(ls);
    BlockComments(ls);
    if Inserts(ls) {
      DescriptionLineShape(ls[0]);
      InsertedBlockShape(ls[0], DescriptionLine(MatchSummary(ls[0]).value), ls[1..e]);
    }
  }

  /** After a summary line, the lines of its block are comment lines. */
  lemma BlockComments(ls: seq<string>)
    requires ls != [] && MatchSummary(ls[0]).Some?
    ensures var more := ls[1..StepSize(ls)]; forall k :: 0 <= k < |more| ==> IsCommentLine(more[k])
  {
  }

  /** A block with a description line inserted after its first line. */
  lemma InsertedBlockShape(first: string, d: string, more: seq<string>)
    requires IsCommentLine(d) && IsDescriptionLine(d)
    requires forall k :: 0 <= k < |more| ==> IsCommentLine(more[k])
    ensures var block := [first, d] + more;
      && (forall k :: 1 <= k < |block| ==> IsCommentLine(block[k]))
      && AnyDescription(block)
  {
    var block := [first, d] + more;
    assert block[1] == d;
    assert forall k :: 2 <= k < |block| ==> block[k] == more[k - 2];
  }

  /** The lines a step writes, followed by what came after its block, form
      one step again, which writes them unchanged. */
  lemma StepStable(ls: seq<string>, tail: seq<string>)
    requires ls != []
    requires tail != [] && MatchSummary(ls[0]).Some? ==> StepSize(ls) < |ls| && tail[0] == ls[StepSize(ls)]
    ensures var out := StepOut(ls) + tail;
      StepSize(out) == |StepOut(ls)| && !Inserts(out) && StepOut(out) == StepOut(ls)
  {
    var block := StepOut(ls);
    var out := block + tail;
    assert out[0] == ls[0];
    if MatchSummary(ls[0]).Some? {
      var e := StepSize(ls);
      StepOutShape(ls);
      if tail != [] {
        assert ls[1..][e - 1] == ls[e];
      }
      RunOfBlock(out, |block|);
      assert out[..|block|] == block;
    }
  }

  /** The comment run after the first line of `out` ends at `n` when lines
      1 to `n - 1` are comment lines and line `n`, if any, is not. */
  lemma RunOfBlock(out: seq<string>, n: nat)
    requires 1 <= n <= |out|
    requires forall k :: 1 <= k < n ==> IsCommentLine(out[k])
    requires n < |out| ==> !IsCommentLine(out[n])
    ensures CommentRun(out[1..]) == n - 1
  {

  }

  /** A second run over the output changes nothing. */
  lemma {:induction false} PassIdempotent(ls: seq<string>)
    ensures Pass(Pass(ls)) == Pass(ls)
    decreases |ls|
  {
    if ls != [] {
      var e := StepSize(ls);
      var rest := ls[e..];
      PassIdempotent(rest);
      var tail := Pass(rest);
      if rest != [] {
        PassKeepsLines(rest);
        StepKeepsLines(rest);
        assert tail[0] == rest[0];
      }
      StepStable(ls, tail);
      var out := StepOut(ls) + tail;
      assert out == Pass(ls);
      assert out[|StepOut(ls)|..] == tail;
    }
  }

  /** A second run inserts nothing. */
  lemma SecondRunInsertsNothing(ls: seq<string>)
    ensures Inserted(Pass(ls)) == 0
  {
    PassIdempotent(ls);
    PassKeepsLines(Pass(ls));
  }

  // ------------------------------------------------------- process_file

  /** The block the scan finds at line `i` of the working list is the
      step of the reference at the same line. */
  lemma StepOfBlock(lines: seq<string>, i: nat, blockEnd: nat, cur: seq<string>)
    requires i < blockEnd <= |lines| && lines[i..] == cur
    requires MatchSummary(lines[i]).Some?
    requires forall k :: i + 1 <= k < blockEnd ==> IsCommentLine(lines[k])
    requires blockEnd < |lines| ==> !IsCommentLine(lines[blockEnd])
    ensures StepSize(cur) == blockEnd - i
    ensures lines[i..blockEnd] == cur[..blockEnd - i]
    ensures Inserts(cur) <==> !exists k :: i <= k < blockEnd && IsDescriptionLine(lines[k])
  {
    var e := blockEnd - i;
    forall k | 1 <= k < e ensures IsCommentLine(cur[k]) {
      assert cur[k] == lines[i + k];
    }
    assert e < |cur| ==> cur[e] == lines[blockEnd];
    RunOfBlock(cur, e);
    SliceOfSuffix(lines, i, blockEnd, cur);
    AnyDescriptionOfBlock(lines, i, blockEnd);
  }

  lemma SliceOfSuffix(lines: seq<string>, i: nat, blockEnd: nat, cur: seq<string>)
    requires i <= blockEnd <= |lines| && lines[i..] == cur
    ensures lines[i..blockEnd] == cur[..blockEnd - i]
  {
  }

  /** A block of the working list has a description line exactly when
      one of its lines is one. */
  lemma AnyDescriptionOfBlock(lines: seq<string>, i: nat, blockEnd: nat)
    requires i <= blockEnd <= |lines|
    ensures AnyDescription(lines[i..blockEnd]) <==> exists k :: i <= k < blockEnd && IsDescriptionLine(lines[k])
  {
    var block := lines[i..blockEnd];
    if exists k :: i <= k < blockEnd && IsDescriptionLine(lines[k]) {
      var k :| i <= k < blockEnd && IsDescriptionLine(lines[k]);
      assert IsDescriptionLine(block[k - i]);
    }
    if AnyDescription(block) {
      var k :| 0 <= k < |block| && IsDescriptionLine(block[k]);
      assert block[k] == lines[i + k];
    }
  }

  lemma ConcatAssoc(a: seq<string>, b: seq<string>, c: seq<string>)
    ensures (a + b) + c == a + (b + c)
  {
  }

  /** One step of the reference at line `j` of the input. */
  lemma PassUnfold(input: seq<string>, j: nat)
    requires j < |input|
    ensures var cur := input[j..];
      && j + StepSize(cur) <= |input|
      && Pass(cur) == StepOut(cur) + Pass(input[j + StepSize(cur)..])
      && Inserted(cur) == (if Inserts(cur) then 1 else 0) + Inserted(input[j + StepSize(cur)..])
  {
    assert input[j..][StepSize(input[j..])..] == input[j + StepSize(input[j..])..];
  }

  /** Inserting `d` into the working list at `i + 1` puts `[cur[0], d]`
      and the rest of the block in place of the block. */
  lemma SpliceStep(prev: seq<string>, i: nat, blockEnd: nat, cur: seq<string>, d: string, lines: seq<string>)
    requires i < blockEnd <= |prev| && prev[i..] == cur
    requires lines == prev[..i + 1] + [d] + prev[i + 1..]
    ensures lines[..blockEnd + 1] == prev[..i] + ([cur[0], d] + cur[1..blockEnd - i])
    ensures lines[blockEnd + 1..] == cur[blockEnd - i..]
  {
    assert cur[0] == prev[i];
    assert cur[1..blockEnd - i] == prev[i + 1..blockEnd];
  }

  /** Leaving a block as it is keeps it in place. */
  lemma KeepStep(prev: seq<string>, i: nat, blockEnd: nat, cur: seq<string>)
    requires i < blockEnd <= |prev| && prev[i..] == cur
    ensures prev[..blockEnd] == prev[..i] + cur[..blockEnd - i]
    ensures prev[blockEnd..] == cur[blockEnd - i..]
  {
    assert cur[..blockEnd - i] == prev[i..blockEnd];
  }

  /** The inner scan of `process_file`: the end of the comment block that
      starts after line `i`. */
  method FindBlockEnd(lines: seq<string>, i: nat) returns (blockEnd: nat)
    requires i < |lines|
    ensures i + 1 <= blockEnd <= |lines|
    ensures forall k :: i + 1 <= k < blockEnd ==> IsCommentLine(lines[k])
    ensures blockEnd < |lines| ==> !IsCommentLine(lines[blockEnd])
  {
    blockEnd := i + 1;
    while blockEnd < |lines| && IsCommentLine(lines[blockEnd])
      invariant i + 1 <= blockEnd <= |lines|
      invariant forall k :: i + 1 <= k < blockEnd ==> IsCommentLine(lines[k])
    {
      blockEnd := blockEnd + 1;
    }
  }

  /** `process_file` on the lines of a file: the number of descriptions
      inserted, and the lines written back, only when that number is not
      zero. */
  method ProcessFile(input: seq<string>) returns (changed: nat, written: Option<seq<string>>)
    ensures changed == Inserted(input)
    ensures written == if changed > 0 then Some(Pass(input)) else None
  {
    var lines := input;
    changed := 0;
    var i := 0;
    ghost var j := 0;
    while i < |lines|
      invariant 0 <= i <= |lines| && 0 <= j <= |input|
      invariant lines[i..] == input[j..]
      invariant lines[..i] + Pass(input[j..]) == Pass(input)
      invariant changed + Inserted(input[j..]) == Inserted(input)
      decreases |lines| - i
    {
      ghost var prev, i0 := lines, i;
      var inserted;
      lines, i, inserted := ScanStep(lines, i);
      if inserted {
        changed := changed + 1;
      }
      j := LoopStep(input, j, prev, i0, lines, i);
    }
    assert input[j..] == [];
    assert lines == lines[..i] + Pass(input[j..]);
    written := if changed > 0 then Some(lines) else None;
  }

  /** What one turn of the loop of `process_file` does to its invariant:
      the input position moves past the lines the step handled. */
  lemma LoopStep(input: seq<string>, j: nat, prev: seq<string>, i0: nat, lines: seq<string>, i: nat)
    returns (j': nat)
    requires j < |input| && i0 <= |prev| && prev[i0..] == input[j..]
    requires prev[..i0] + Pass(input[j..]) == Pass(input)
    requires i <= |lines|
    requires lines[..i] == prev[..i0] + StepOut(input[j..])
    requires lines[i..] == input[j..][StepSize(input[j..])..]
    ensures j' == j + StepSize(input[j..]) <= |input|
    ensures lines[i..] == input[j'..]
    ensures lines[..i] + Pass(input[j'..]) == Pass(input)
    ensures Inserted(input[j..]) == (if Inserts(input[j..]) then 1 else 0) + Inserted(input[j'..])
  {
    PassUnfold(input, j);
    j' := j + StepSize(input[j..]);
    ConcatAssoc(prev[..i0], StepOut(input[j..]), Pass(input[j'..]));
  }

  /** One turn of the loop of `process_file` at line `i` of the working
      list: it writes the step's lines in place of the lines the step
      handles and moves past them. */
  method ScanStep(lines: seq<string>, i: nat) returns (lines': seq<string>, i': nat, inserted: bool)
    requires i < |lines|
    ensures var cur := lines[i..];
      && i' <= |lines'|
      && lines'[..i'] == lines[..i] + StepOut(cur)
      && lines'[i'..] == cur[StepSize(cur)..]
      && inserted == Inserts(cur)
  {
    var sm := MatchSummary(lines[i]);
    if sm.None? {
      lines', i', inserted := lines, i + 1, false;
      OtherLineStep(lines, i);
    } else {
      var blockEnd := FindBlockEnd(lines, i);
      var hasDescription := exists k :: i <= k < blockEnd && IsDescriptionLine(lines[k]);
      if !hasDescription {
        lines' := lines[..i + 1] + [DescriptionLine(sm.value)] + lines[i + 1..];
        i' := blockEnd + 1;
      } else {
        lines', i' := lines, blockEnd;
      }
      inserted := !hasDescription;
      BlockStep(lines, i, blockEnd, lines', i', inserted);
    }
  }

  /** The step at a line that is not a summary line copies it. */
  lemma OtherLineStep(lines: seq<string>, i: nat)
    requires i < |lines| && MatchSummary(lines[i]).None?
    ensures var cur := lines[i..];
      && lines[..i + 1] == lines[..i] + StepOut(cur)
      && lines[i + 1..] == cur[StepSize(cur)..]
      && !Inserts(cur)
  {
    var cur := lines[i..];
    assert cur[0] == lines[i];
    assert StepSize(cur) == 1 && StepOut(cur) == [lines[i]];
    assert lines[..i + 1] == lines[..i] + [lines[i]];
  }

  /** The step at a summary line, as the loop carries it out. */
  lemma BlockStep(lines: seq<string>, i: nat, blockEnd: nat, lines': seq<string>, i': nat, inserted: bool)
    requires i < blockEnd <= |lines| && MatchSummary(lines[i]).Some?
    requires forall k :: i + 1 <= k < blockEnd ==> IsCommentLine(lines[k])
    requires blockEnd < |lines| ==> !IsCommentLine(lines[blockEnd])
    requires inserted == !exists k :: i <= k < blockEnd && IsDescriptionLine(lines[k])
    requires lines' == if inserted then lines[..i + 1] + [DescriptionLine(MatchSummary(lines[i]).value)] + lines[i + 1..] else lines
    requires i' == if inserted then blockEnd + 1 else blockEnd
    ensures var cur := lines[i..];
      && i' <= |lines'|
      && lines'[..i'] == lines[..i] + StepOut(cur)
      && lines'[i'..] == cur[StepSize(cur)..]
      && inserted == Inserts(cur)
  {
    var cur := lines[i..];
    var e := blockEnd - i;
    StepOfBlock(lines, i, blockEnd, cur);
    if inserted {
      var desc := DescriptionLine(MatchSummary(lines[i]).value);
      SpliceStep(lines, i, blockEnd, cur, desc, lines');
      assert StepOut(cur) == [cur[0], desc] + cur[1..e];
    } else {
      KeepStep(lines, i, blockEnd, cur);
      assert StepOut(cur) == cur[..e];
    }
  }
}
