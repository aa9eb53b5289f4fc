/** Turning an OpenAPI operation into an MCP tool definition
    (internal/mcp/converter.go).

    `schemaRefToMap` marshals a schema reference to JSON and back; that round
    trip is foreign and enters as the parameter `toMap` (`None` when it
    fails or yields nil). */
module McpConverter {
  import opened Wrappers
  import opened Text
  import opened Json
  import opened McpOpenApi

  /** `ToolDef`. */
  datatype ToolDef = ToolDef(
    name: string,
    description: string,
    inputSchema: map<string, Json>,
    pathTemplate: string,
    httpMethod: string,
    pathParamNames: seq<string>,
    queryParamNames: seq<string>,
    hasBody: bool)

  // ------------------------------------------- `{name}` placeholders in paths

  predicate NotCloseBrace(c: char) { c != '}' }

  /** The name of the placeholder `s` starts with, if any: the regular
      expression `\{([^}]+)\}` matched at position 0, i.e. "{", one or more
      characters other than "}", and "}". */
  function PlaceholderAt(s: string): (r: Option<string>)
    ensures r.Some? ==> 1 <= |r.value| && |r.value| + 2 <= |s|
                        && s == "{" + r.value + "}" + s[|r.value| + 2..]
                        && forall i :: 0 <= i < |r.value| ==> r.value[i] != '}'
    ensures r.None? && s != [] && s[0] == '{' ==>
              forall j :: 2 <= j < |s| && s[j] == '}' ==> exists i :: 1 <= i < j && s[i] == '}'
  {
    if s == [] || s[0] != '{' then None
    else
      var n := LeadingCount(s[1..], NotCloseBrace);
      if 1 <= n && n + 1 < |s| then
        assert s[n + 1] == '}';
        assert s == "{" + s[1..n + 1] + "}" + s[n + 2..];
        Some(s[1..n + 1])
      else
        assert n == 0 && 1 < |s| ==> !NotCloseBrace(s[1..][0]);
        None
  }

  /** `pathParamRe.ReplaceAllStringFunc(s, f)` where `f` maps the matched
      placeholder's name to its replacement: matches are found left to right
      and do not overlap. */
  function ReplacePlaceholders(s: string, repl: string -> string): string
    decreases |s|
  {
    if s == [] then []
    else match PlaceholderAt(s)
      case Some(name) => repl(name) + ReplacePlaceholders(s[|name| + 2..], repl)
      case None => [s[0]] + ReplacePlaceholders(s[1..], repl)
  }

  /** A string without "{" has no placeholder and is returned unchanged. */
  lemma {:induction false} ReplaceWithoutBraces(s: string, repl: string -> string)
    requires forall i :: 0 <= i < |s| ==> s[i] != '{'
    ensures ReplacePlaceholders(s, repl) == s
  {
    if s != [] {
      ReplaceWithoutBraces(s[1..], repl);
      assert [s[0]] + s[1..] == s;
    }
  }

  /** A replacement that writes each placeholder back verbatim changes nothing. */
  lemma {:induction false} ReplaceVerbatim(s: string, repl: string -> string)
    requires forall name :: repl(name) == "{" + name + "}"
    ensures ReplacePlaceholders(s, repl) == s
    decreases |s|
  {
    if s != [] {
      match PlaceholderAt(s)
      case Some(name) =>
        ReplaceVerbatim(s[|name| + 2..], repl);
      case None =>
        ReplaceVerbatim(s[1..], repl);
        assert [s[0]] + s[1..] == s;
    }
  }

  /** The first placeholder of a string is replaced, and the scan resumes
      right after it. */
  lemma {:induction false} ReplaceFirst(a: string, name: string, b: string, repl: string -> string)
    requires forall i :: 0 <= i < |a| ==> a[i] != '{'
    requires |name| >= 1 && forall i :: 0 <= i < |name| ==> name[i] != '}'
    ensures ReplacePlaceholders(a + "{" + name + "}" + b, repl) == a + repl(name) + ReplacePlaceholders(b, repl)
  {
    var s := a + "{" + name + "}" + b;
    var r := repl(name) + ReplacePlaceholders(b, repl);
    if a == [] {
      assert s == "{" + name + "}" + b;
      ReplaceAtStart(name, b, repl);
      assert a + repl(name) + ReplacePlaceholders(b, repl) == r;
    } else {
      var tail := "{" + name + "}" + b;
      ReplaceFirst(a[1..], name, b, repl);
      assert a[1..] + repl(name) + ReplacePlaceholders(b, repl) == a[1..] + r;
      PlaceholderAppendShapes(a, name, b, tail);
      ReplaceOtherChar(s, repl);
      ConsShift(a, r);
      assert a + repl(name) + ReplacePlaceholders(b, repl) == a + r;
    }
  }

  /** A leading placeholder is replaced and the scan resumes after it. */
  lemma ReplaceAtStart(name: string, b: string, repl: string -> string)
    requires |name| >= 1 && forall i :: 0 <= i < |name| ==> name[i] != '}'
    ensures ReplacePlaceholders("{" + name + "}" + b, repl) == repl(name) + ReplacePlaceholders(b, repl)
  {
    var s := "{" + name + "}" + b;
    PlaceholderOfName(name, b);
    assert s[|name| + 2..] == b;
  }

  /** A string opening with "{", a name and "}" starts with that placeholder. */
  lemma PlaceholderOfName(name: string, b: string)
    requires |name| >= 1 && forall i :: 0 <= i < |name| ==> name[i] != '}'
    ensures PlaceholderAt("{" + name + "}" + b) == Some(name)
  {
    var s := "{" + name + "}" + b;
    var t := s[1..];
    assert t == name + ("}" + b);
    LeadingCountOfRun(name, "}" + b, NotCloseBrace);
    assert s[1..|name| + 1] == name;
  }

  lemma PlaceholderAppendShapes(a: string, name: string, b: string, tail: string)
    requires a != [] && tail == "{" + name + "}" + b
    ensures a + "{" + name + "}" + b == a + tail
    ensures (a + tail)[1..] == a[1..] + "{" + name + "}" + b
  {
  }

  lemma ConsShift(a: string, r: string)
    requires a != []
    ensures [a[0]] + (a[1..] + r) == a + r
  {
    assert a == [a[0]] + a[1..];
  }

  /** A character other than "{" is copied and the scan moves on. */
  lemma ReplaceOtherChar(s: string, repl: string -> string)
    requires s != [] && s[0] != '{'
    ensures ReplacePlaceholders(s, repl) == [s[0]] + ReplacePlaceholders(s[1..], repl)
  {
  }

  // ---------------------------------------------------------------- tool name

  predicate NotAlnum(c: char) { !IsAsciiAlnum(c) }

  predicate AllAlnum(s: string) { forall i :: 0 <= i < |s| ==> IsAsciiAlnum(s[i]) }

  /** `slugRe.Split(s, -1)` with `slugRe` = `[^a-zA-Z0-9]+`: the pieces between
      runs of non-alphanumerics, including an empty first or last piece when
      `s` starts or ends with such a run ("" gives [""]). */
  function SlugSplit(s: string): (r: seq<string>)
    ensures |r| >= 1
    ensures forall i :: 0 <= i < |r| ==> AllAlnum(r[i])
    decreases |s|
  {
    var n := LeadingCount(s, IsAsciiAlnum);
    if n == |s| then [s]
    else
      var k := LeadingCount(s[n..], NotAlnum);
      assert k >= 1 by { assert NotAlnum(s[n..][0]); }
      [s[..n]] + SlugSplit(s[n..][k..])
  }

  function Concat(parts: seq<string>): string {
    if parts == [] then "" else parts[0] + Concat(parts[1..])
  }

  /** The letters and digits of `s`, in order. */
  function AlnumOnly(s: string): (r: string)
    ensures AllAlnum(r)
  {
    if s == [] then "" else (if IsAsciiAlnum(s[0]) then [s[0]] else "") + AlnumOnly(s[1..])
  }

  lemma {:induction false} AlnumOnlyAppend(a: string, b: string)
    ensures AlnumOnly(a + b) == AlnumOnly(a) + AlnumOnly(b)
  {
    if a != [] {
      assert (a + b)[1..] == a[1..] + b;
      AlnumOnlyAppend(a[1..], b);
    } else {
      assert a + b == b;
    }
  }

  lemma {:induction false} AlnumOnlyOfAlnum(s: string)
    requires AllAlnum(s)
    ensures AlnumOnly(s) == s
  {
    if s != [] { AlnumOnlyOfAlnum(s[1..]); }
  }

  lemma {:induction false} AlnumOnlyOfSeparators(s: string)
    requires forall i :: 0 <= i < |s| ==> NotAlnum(s[i])
    ensures AlnumOnly(s) == ""
  {
    if s != [] { AlnumOnlyOfSeparators(s[1..]); }
  }

  /** Splitting loses exactly the separators: the pieces put back together
      are the letters and digits of the input. */
  lemma {:induction false} SlugSplitKeepsAlnum(s: string)
    ensures Concat(SlugSplit(s)) == AlnumOnly(s)
    decreases |s|
  {
    var n := LeadingCount(s, IsAsciiAlnum);
    if n == |s| {
      AlnumOnlyOfAlnum(s);
      assert Concat([s]) == s + Concat([]);
    } else {
      var t := s[n..];
      var k := LeadingCount(t, NotAlnum);
      var word, separators, rest := s[..n], t[..k], t[k..];
      SlugSplitUnfold(s);
      SplitThree(s, n, k);
      PrefixHolds(s, n, IsAsciiAlnum);
      PrefixHolds(t, k, NotAlnum);
      SlugSplitKeepsAlnum(rest);
      AlnumOnlyOfRun(word, separators, rest);
      ConcatCons(word, SlugSplit(rest));
    }
  }

  lemma PrefixHolds(s: string, n: nat, p: char -> bool)
    requires n <= |s| && forall i :: 0 <= i < n ==> p(s[i])
    ensures forall i :: 0 <= i < n ==> p(s[..n][i])
  {
  }

  lemma ConcatCons(w: string, parts: seq<string>)
    ensures Concat([w] + parts) == w + Concat(parts)
  {
    assert ([w] + parts)[1..] == parts;
  }

  lemma SlugSplitUnfold(s: string)
    requires LeadingCount(s, IsAsciiAlnum) < |s|
    ensures var n := LeadingCount(s, IsAsciiAlnum);
      SlugSplit(s) == [s[..n]] + SlugSplit(s[n..][LeadingCount(s[n..], NotAlnum)..])
  {
  }

  lemma SplitThree(s: string, n: nat, k: nat)
    requires n <= |s| && k <= |s| - n
    ensures s == s[..n] + s[n..][..k] + s[n..][k..]
  {
    var t := s[n..];
    assert t == t[..k] + t[k..];
    assert s == s[..n] + t;
  }

  lemma AlnumOnlyOfRun(word: string, separators: string, rest: string)
    requires AllAlnum(word)
    requires forall i :: 0 <= i < |separators| ==> NotAlnum(separators[i])
    ensures AlnumOnly(word + separators + rest) == word + AlnumOnly(rest)
  {
    var tail := separators + rest;
    assert word + separators + rest == word + tail;
    AlnumOnlyAppend(word, tail);
    AlnumOnlyOfAlnum(word);
    AlnumOnlyAppend(separators, rest);
    AlnumOnlyOfSeparators(separators);
    assert AlnumOnly(tail) == AlnumOnly(rest);
  }

  /** Reference: the loop's tokens, the trimmed non-empty parts in order. */
  function Tokens(parts: seq<string>): seq<string> {
    if parts == [] then []
    else
      var p := TrimSpace(parts[|parts| - 1]);
      Tokens(parts[..|parts| - 1]) + (if p == "" then [] else [p])
  }

  /** The path `deriveToolName` splits: one leading "/" and then one "v1/"
      removed, and each `{p}` rewritten to `_p`. */
  function RewrittenPath(path: string): string {
    ReplacePlaceholders(TrimPrefix(TrimPrefix(path, "/"), "v1/"), name => "_" + name)
  }

  /** Reference: the name `deriveToolName` derives. */
  function DerivedName(httpMethod: string, path: string): string {
    var m := ToLower(httpMethod);
    var tokens := Tokens(SlugSplit(RewrittenPath(path)));
    if tokens == [] then m else m + "_" + Join(tokens, "_")
  }

  /** `deriveToolName`. */
  method DeriveToolName(httpMethod: string, path: string) returns (name: string)
    ensures name == DerivedName(httpMethod, path)
  {
    var m := ToLower(httpMethod);
    var p := TrimPrefix(path, "/");
    p := TrimPrefix(p, "v1/");
    p := ReplacePlaceholders(p, name => "_" + name);
    var parts := SlugSplit(p);
    var tokens := CollectTokens(parts);
    if |tokens| == 0 {
      return m;
    }
    return m + "_" + Join(tokens, "_");
  }

  /** The loop of `deriveToolName` over the split parts: the trimmed
      non-empty ones, in order. */
  method CollectTokens(parts: seq<string>) returns (tokens: seq<string>)
    ensures tokens == Tokens(parts)
  {
    tokens := [];
    var i := 0;
    while i < |parts|
      invariant 0 <= i <= |parts|
      invariant tokens == Tokens(parts[..i])
    {
      var t := TrimSpace(parts[i]);
      assert parts[..i + 1][..i] == parts[..i];
      if t != "" {
        tokens := tokens + [t];
      }
      i := i + 1;
    }
    assert parts[..|parts|] == parts;
  }

  lemma TrimSpaceOfAlnum(s: string)
    requires AllAlnum(s)
    ensures TrimSpace(s) == s
  {
    if s != [] {
      assert !IsGoSpace(s[0]) && !IsGoSpace(s[|s| - 1]);
    }
    TrimOfTrimmed(s, IsGoSpace);
  }

  /** Tokens of alphanumeric parts are the non-empty parts. */
  lemma {:induction false} TokensOfAlnumParts(parts: seq<string>)
    requires forall i :: 0 <= i < |parts| ==> AllAlnum(parts[i])
    ensures forall i :: 0 <= i < |Tokens(parts)| ==> Tokens(parts)[i] != "" && AllAlnum(Tokens(parts)[i])
    ensures Concat(Tokens(parts)) == Concat(parts)
  {
    if parts != [] {
      var init := parts[..|parts| - 1];
      var last := parts[|parts| - 1];
      assert parts == init + [last];
      TokensOfAlnumParts(init);
      TokensOfAlnumLast(parts);
      ConcatSnoc(init, last);
      TokenSnoc(Tokens(init), last, Concat(init));
    }
  }

  /** The last part of alphanumeric parts is its own token when non-empty. */
  lemma TokensOfAlnumLast(parts: seq<string>)
    requires parts != [] && AllAlnum(parts[|parts| - 1])
    ensures Tokens(parts) == Tokens(parts[..|parts| - 1])
                             + (if parts[|parts| - 1] == "" then [] else [parts[|parts| - 1]])
  {
    TrimSpaceOfAlnum(parts[|parts| - 1]);
  }

  /** Adding an alphanumeric part keeps the tokens non-empty and alphanumeric
      and extends their concatenation by the part. */
  lemma TokenSnoc(tokens: seq<string>, last: string, joined: string)
    requires forall i :: 0 <= i < |tokens| ==> tokens[i] != "" && AllAlnum(tokens[i])
    requires Concat(tokens) == joined && AllAlnum(last)
    ensures var t := tokens + (if last == "" then [] else [last]);
      (forall i :: 0 <= i < |t| ==> t[i] != "" && AllAlnum(t[i])) && Concat(t) == joined + last
  {
    if last == "" {
      assert tokens + [] == tokens;
      assert joined + last == joined;
    } else {
      ConcatSnoc(tokens, last);
    }
  }

  lemma {:induction false} ConcatSnoc(parts: seq<string>, x: string)
    ensures Concat(parts + [x]) == Concat(parts) + x
  {
    if parts != [] {
      assert (parts + [x])[1..] == parts[1..] + [x];
      ConcatSnoc(parts[1..], x);
    }
  }

  /** A derived name is the lower-cased method alone, or followed by "_" and
      "_"-separated tokens; every token is a non-empty run of ASCII letters
      and digits, and together the tokens are exactly the letters and digits
      of the rewritten path, in order. */
  lemma DerivedNameShape(httpMethod: string, path: string)
    ensures var tokens := Tokens(SlugSplit(RewrittenPath(path)));
      && (forall i :: 0 <= i < |tokens| ==> tokens[i] != "" && AllAlnum(tokens[i]))
      && Concat(tokens) == AlnumOnly(RewrittenPath(path))
      && DerivedName(httpMethod, path) ==
           (if tokens == [] then ToLower(httpMethod) else ToLower(httpMethod) + "_" + Join(tokens, "_"))
  {
    TokensOfAlnumParts(SlugSplit(RewrittenPath(path)));
    SlugSplitKeepsAlnum(RewrittenPath(path));
  }

  lemma {:induction false} LeadingCountOfRun(a: string, b: string, p: char -> bool)
    requires forall i :: 0 <= i < |a| ==> p(a[i])
    requires b == [] || !p(b[0])
    ensures LeadingCount(a + b, p) == |a|
  {
    if a != [] {
      assert (a + b)[1..] == a[1..] + b;
      LeadingCountOfRun(a[1..], b, p);
    } else {
      assert a + b == b;
    }
  }

  /** A word followed by separators is split off as one piece. */
  lemma SlugSplitStep(word: string, separators: string, rest: string)
    requires AllAlnum(word)
    requires |separators| >= 1 && forall i :: 0 <= i < |separators| ==> NotAlnum(separators[i])
    requires rest == [] || IsAsciiAlnum(rest[0])
    ensures SlugSplit(word + separators + rest) == [word] + SlugSplit(rest)
  {
    var s := word + separators + rest;
    LeadingCountOfRun(word, separators + rest, IsAsciiAlnum);
    assert s == word + (separators + rest);
    assert s[|word|..] == separators + rest;
    LeadingCountOfRun(separators, rest, NotAlnum);
    assert s[|word|..][|separators|..] == rest;
    assert s[..|word|] == word;
  }

  lemma SlugSplitWord(word: string)
    requires AllAlnum(word)
    ensures SlugSplit(word) == [word]
  {
    LeadingCountOfRun(word, [], IsAsciiAlnum);
    assert word + [] == word;
  }

  lemma NestedTrim(a: string, b: string, c: string)
    ensures TrimPrefix(TrimPrefix("/v1/" + a + "/{" + b + "}/" + c, "/"), "v1/") == (a + "/") + "{" + b + "}" + ("/" + c)
  {
    var p1 := "v1/" + a + "/{" + b + "}/" + c;
    assert "/v1/" + a + "/{" + b + "}/" + c == "/" + p1;
    var p2 := (a + "/") + "{" + b + "}" + ("/" + c);
    assert p1 == "v1/" + p2;
  }

  lemma NestedRewrite(a: string, b: string, c: string)
    requires AllAlnum(a) && AllAlnum(b) && AllAlnum(c) && b != []
    ensures RewrittenPath("/v1/" + a + "/{" + b + "}/" + c) == a + "/_" + (b + "/" + c)
  {
    var repl := (name: string) => "_" + name;
    NestedTrim(a, b, c);
    assert forall i :: 0 <= i < |a + "/"| ==> (a + "/")[i] != '{';
    ReplaceFirst(a + "/", b, "/" + c, repl);
    assert forall i :: 0 <= i < |"/" + c| ==> ("/" + c)[i] != '{';
    ReplaceWithoutBraces("/" + c, repl);
    NestedJoin(a, b, c);
  }

  lemma NestedJoin(a: string, b: string, c: string)
    ensures (a + "/") + ("_" + b) + ("/" + c) == a + "/_" + (b + "/" + c)
  {
  }

  lemma NestedSplit(a: string, b: string, c: string)
    requires AllAlnum(a) && AllAlnum(b) && AllAlnum(c) && b != []
    ensures SlugSplit(a + "/_" + (b + "/" + c)) == [a, b, c]
  {
    SlugSplitWord(c);
    SlugSplitStep(b, "/", c);
    assert IsAsciiAlnum((b + "/" + c)[0]);
    SlugSplitStep(a, "/_", b + "/" + c);
  }

  lemma NestedTokens(a: string, b: string, c: string)
    requires AllAlnum(a) && AllAlnum(b) && AllAlnum(c) && a != [] && b != [] && c != []
    ensures Tokens([a, b, c]) == [a, b, c]
  {
    var none: seq<string> := [];
    TokensAppendWord(none, a);
    assert none + [a] == [a];
    TokensAppendWord([a], b);
    assert [a] + [b] == [a, b];
    TokensAppendWord([a, b], c);
    assert [a, b] + [c] == [a, b, c];
  }

  /** A non-empty alphanumeric part appended to the parts is appended to the tokens. */
  lemma TokensAppendWord(parts: seq<string>, w: string)
    requires AllAlnum(w) && w != ""
    ensures Tokens(parts + [w]) == Tokens(parts) + [w]
  {
    var ps := parts + [w];
    assert ps[..|ps| - 1] == parts;
    TrimSpaceOfAlnum(w);
  }

  lemma NestedPathTokens(a: string, b: string, c: string)
    requires AllAlnum(a) && AllAlnum(b) && AllAlnum(c) && a != [] && b != [] && c != []
    ensures Tokens(SlugSplit(RewrittenPath("/v1/" + a + "/{" + b + "}/" + c))) == [a, b, c]
  {
    NestedRewrite(a, b, c);
    NestedSplit(a, b, c);
    NestedTokens(a, b, c);
    TokensOfEqualPaths(RewrittenPath("/v1/" + a + "/{" + b + "}/" + c), a + "/_" + (b + "/" + c));
  }

  lemma TokensOfEqualPaths(p: string, q: string)
    requires p == q
    ensures Tokens(SlugSplit(p)) == Tokens(SlugSplit(q))
  {
  }

  /** A nested-resource path `/v1/<a>/{<b>}/<c>` with alphanumeric, non-empty
      segments is named `<method>_<a>_<b>_<c>` (for example
      `GET /v1/customers/{id}/wallets` gives `get_customers_id_wallets`). */
  lemma DerivedNameOfNestedResource(httpMethod: string, a: string, b: string, c: string)
    requires AllAlnum(a) && AllAlnum(b) && AllAlnum(c) && a != [] && b != [] && c != []
    ensures DerivedName(httpMethod, "/v1/" + a + "/{" + b + "}/" + c) == ToLower(httpMethod) + "_" + (a + "_" + b + "_" + c)
  {
    NestedPathTokens(a, b, c);
    JoinThree(a, b, c, "_");
  }


  // --------------------------------------------------------------- parameters

  /** Reference: the names of the non-nil parameters located `location`, in order. */
  function NamesIn(params: seq<ParameterRef>, location: string): seq<string> {
    if params == [] then []
    else
      var last := params[|params| - 1];
      NamesIn(params[..|params| - 1], location)
      + (if last.Some? && last.value.Some? && last.value.value.location == location
         then [last.value.value.name] else [])
  }

  /** Every listed name belongs to a non-nil parameter at that location, and
      every such parameter's name is listed. */
  lemma {:induction false} NamesInMembers(params: seq<ParameterRef>, location: string)
    ensures forall n :: n in NamesIn(params, location) <==>
      exists i :: 0 <= i < |params| && params[i].Some? && params[i].value.Some?
        && params[i].value.value.location == location && params[i].value.value.name == n
  {
    if params != [] {
      var init := params[..|params| - 1];
      NamesInMembers(init, location);
      forall n ensures n in NamesIn(params, location) <==>
        exists i :: 0 <= i < |params| && params[i].Some? && params[i].value.Some?
          && params[i].value.value.location == location && params[i].value.value.name == n
      {
        if n in NamesIn(init, location) {
          var i :| 0 <= i < |init| && init[i].Some? && init[i].value.Some?
            && init[i].value.value.location == location && init[i].value.value.name == n;
          assert params[i] == init[i];
        }
        if exists i :: 0 <= i < |params| && params[i].Some? && params[i].value.Some?
            && params[i].value.value.location == location && params[i].value.value.name == n {
          var i :| 0 <= i < |params| && params[i].Some? && params[i].value.Some?
            && params[i].value.value.location == location && params[i].value.value.name == n;
          if i < |init| { assert init[i] == params[i]; }
        }
      }
    }
  }

  /** Appending parameters appends their names: the lists keep source order. */
  lemma {:induction false} NamesInAppend(a: seq<ParameterRef>, b: seq<ParameterRef>, location: string)
    ensures NamesIn(a + b, location) == NamesIn(a, location) + NamesIn(b, location)
    decreases |b|
  {
    if b == [] {
      assert a + b == a;
    } else {
      var b' := b[..|b| - 1];
      assert (a + b)[..|a + b| - 1] == a + b';
      NamesInAppend(a, b', location);
    }
  }

  /** `paramNamesByIn`. */
  method ParamNamesByIn(params: seq<ParameterRef>) returns (pathNames: seq<string>, queryNames: seq<string>)
    ensures pathNames == NamesIn(params, "path")
    ensures queryNames == NamesIn(params, "query")
  {
    pathNames, queryNames := [], [];
    var i := 0;
    while i < |params|
      invariant 0 <= i <= |params|
      invariant pathNames == NamesIn(params[..i], "path")
      invariant queryNames == NamesIn(params[..i], "query")
    {
      assert params[..i + 1][..i] == params[..i];
      var ref := params[i];
      if ref.Some? && ref.value.Some? {
        var p := ref.value.value;
        if p.location == "path" {
          pathNames := pathNames + [p.name];
        } else if p.location == "query" {
          queryNames := queryNames + [p.name];
        }
      }
      i := i + 1;
    }
    assert params[..|params|] == params;
  }

  /** `schemaRefToMap` on an optional reference. */
  function SchemaToMap(ref: Option<SchemaRef>, toMap: SchemaRef -> Option<map<string, Json>>): Option<map<string, Json>> {
    if ref.None? then None else toMap(ref.value)
  }

  /** `paramSchemaToJSONSchema`: the parameter's schema as a map, or
      `{"type": "string"}` when it has none usable; the description, when
      non-empty, is set on top. */
  function ParamSchema(p: Parameter, toMap: SchemaRef -> Option<map<string, Json>>): (r: map<string, Json>)
    ensures SchemaToMap(p.schema, toMap).None? ==>
              "type" in r && r["type"] == JString("string") && r.Keys <= {"type", "description"}
    ensures "description" in r <==>
              p.description != "" || (SchemaToMap(p.schema, toMap).Some? && "description" in SchemaToMap(p.schema, toMap).value)
    ensures p.description != "" ==> r["description"] == JString(p.description)
    ensures p.description != "" ==> forall k :: k in r && k != "description" ==>
              k in SchemaToMap(p.schema, toMap).GetOr(map["type" := JString("string")])
    ensures p.description == "" && SchemaToMap(p.schema, toMap).Some? ==> r == SchemaToMap(p.schema, toMap).value
    ensures SchemaToMap(p.schema, toMap).Some? ==>
              forall k :: k in SchemaToMap(p.schema, toMap).value && k != "description" ==>
                k in r && r[k] == SchemaToMap(p.schema, toMap).value[k]
  {
    var base := match SchemaToMap(p.schema, toMap)
      case Some(m) => m
      case None => map["type" := JString("string")];
    if p.description != "" then base["description" := JString(p.description)] else base
  }

  /** Reference: the `properties` map after the parameter loop; a later
      parameter with the same name overwrites an earlier one. */
  function Properties(params: seq<ParameterRef>, toMap: SchemaRef -> Option<map<string, Json>>): map<string, Json> {
    if params == [] then map[]
    else
      var last := params[|params| - 1];
      var before := Properties(params[..|params| - 1], toMap);
      if last.Some? && last.value.Some?
      then before[last.value.value.name := JObject(ParamSchema(last.value.value, toMap))]
      else before
  }

  /** There is one property per name of a non-nil parameter. */
  lemma {:induction false} PropertiesKeys(params: seq<ParameterRef>, toMap: SchemaRef -> Option<map<string, Json>>)
    ensures forall n :: n in Properties(params, toMap) <==>
      exists i :: 0 <= i < |params| && params[i].Some? && params[i].value.Some? && params[i].value.value.name == n
  {
    if params != [] {
      var init := params[..|params| - 1];
      PropertiesKeys(init, toMap);
      forall n ensures n in Properties(params, toMap) <==>
        exists i :: 0 <= i < |params| && params[i].Some? && params[i].value.Some? && params[i].value.value.name == n
      {
        if n in Properties(init, toMap) {
          var i :| 0 <= i < |init| && init[i].Some? && init[i].value.Some? && init[i].value.value.name == n;
          assert params[i] == init[i];
        }
        if exists i :: 0 <= i < |params| && params[i].Some? && params[i].value.Some? && params[i].value.value.name == n {
          var i :| 0 <= i < |params| && params[i].Some? && params[i].value.Some? && params[i].value.value.name == n;
          if i < |init| { assert init[i] == params[i]; }
        }
      }
    }
  }

  /** Reference: the names of the required non-nil parameters, in order. */
  function RequiredNames(params: seq<ParameterRef>): seq<string> {
    if params == [] then []
    else
      var last := params[|params| - 1];
      RequiredNames(params[..|params| - 1])
      + (if last.Some? && last.value.Some? && last.value.value.required then [last.value.value.name] else [])
  }

  /** The request body's JSON schema as a map, when the operation has a body
      with an "application/json" media type whose schema converts. */
  function BodySchema(op: Op, toMap: SchemaRef -> Option<map<string, Json>>): Option<map<string, Json>> {
    if op.requestBody.Some? && op.requestBody.value.Some?
       && op.requestBody.value.value.content.Some?
       && "application/json" in op.requestBody.value.value.content.value
       && op.requestBody.value.value.content.value["application/json"].Some?
    then SchemaToMap(op.requestBody.value.value.content.value["application/json"].value.schema, toMap)
    else None
  }

  predicate BodyRequired(op: Op) {
    op.requestBody.Some? && op.requestBody.value.Some? && op.requestBody.value.value.required
  }

  /** Reference: the "required" list: required parameter names, then "body"
      for a required body whose schema converts. */
  function RequiredList(op: Op, toMap: SchemaRef -> Option<map<string, Json>>): seq<string> {
    RequiredNames(op.parameters) + (if BodySchema(op, toMap).Some? && BodyRequired(op) then ["body"] else [])
  }

  /** Reference: the input schema `buildInputSchema` returns. */
  function InputSchema(op: Op, toMap: SchemaRef -> Option<map<string, Json>>): map<string, Json> {
    var props := Properties(op.parameters, toMap);
    var props' := if BodySchema(op, toMap).Some? then props["body" := JObject(BodySchema(op, toMap).value)] else props;
    var required := RequiredList(op, toMap);
    var schema := map["type" := JString("object"), "properties" := JObject(props')];
    if |required| > 0 then schema["required" := Strings(required)] else schema
  }

  /** The input schema is an object schema whose properties are the non-nil
      parameters (and "body" for a convertible JSON body), and whose
      "required" key is present exactly when some name is required. */
  lemma InputSchemaShape(op: Op, toMap: SchemaRef -> Option<map<string, Json>>)
    ensures var s := InputSchema(op, toMap);
      && s["type"] == JString("object")
      && s["properties"].JObject?
      && (forall n :: n in s["properties"].fields <==>
            (n == "body" && BodySchema(op, toMap).Some?)
            || exists i :: 0 <= i < |op.parameters| && op.parameters[i].Some? && op.parameters[i].value.Some?
                 && op.parameters[i].value.value.name == n)
      && (BodySchema(op, toMap).Some? ==> s["properties"].fields["body"] == JObject(BodySchema(op, toMap).value))
      && ("required" in s <==> RequiredList(op, toMap) != [])
      && ("required" in s ==> s["required"] == Strings(RequiredList(op, toMap)))
      && s.Keys <= {"type", "properties", "required"}
  {
    PropertiesKeys(op.parameters, toMap);
  }

  /** `buildInputSchema`. */
  method BuildInputSchema(op: Op, toMap: SchemaRef -> Option<map<string, Json>>) returns (schema: map<string, Json>)
    ensures schema == InputSchema(op, toMap)
  {
    var properties, required := CollectParameters(op.parameters, toMap);
    var bodySchema := RequestBodySchema(op, toMap);
    if bodySchema.Some? {
      properties := properties["body" := JObject(bodySchema.value)];
      if op.requestBody.value.value.required {
        required := required + ["body"];
      }
    }
    assert required == RequiredList(op, toMap);
    schema := map["type" := JString("object"), "properties" := JObject(properties)];
    if |required| > 0 {
      schema := schema["required" := Strings(required)];
    }
  }

  /** The loop of `buildInputSchema` over the parameters: one property per
      non-nil parameter, and the names of the required ones in order. */
  method CollectParameters(params: seq<ParameterRef>, toMap: SchemaRef -> Option<map<string, Json>>)
    returns (properties: map<string, Json>, required: seq<string>)
    ensures properties == Properties(params, toMap)
    ensures required == RequiredNames(params)
  {
    properties := map[];
    required := [];
    var i := 0;
    while i < |params|
      invariant 0 <= i <= |params|
      invariant properties == Properties(params[..i], toMap)
      invariant required == RequiredNames(params[..i])
    {
      assert params[..i + 1][..i] == params[..i];
      var ref := params[i];
      if ref.Some? && ref.value.Some? {
        var p := ref.value.value;
        properties := properties[p.name := JObject(ParamSchema(p, toMap))];
        if p.required {
          required := required + [p.name];
        }
      }
      i := i + 1;
    }
    assert params[..|params|] == params;
  }

  /** The request-body part of `buildInputSchema`: the schema of the
      "application/json" media type, converted to a map. */
  method RequestBodySchema(op: Op, toMap: SchemaRef -> Option<map<string, Json>>)
    returns (bodySchema: Option<map<string, Json>>)
    ensures bodySchema == BodySchema(op, toMap)
  {
    bodySchema := None;
    if op.requestBody.Some? && op.requestBody.value.Some? {
      var body := op.requestBody.value.value;
      if body.content.Some? && "application/json" in body.content.value {
        var mt := body.content.value["application/json"];
        if mt.Some? && mt.value.schema.Some? {
          bodySchema := toMap(mt.value.schema.value);
        }
      }
    }
  }

  // ----------------------------------------------------------------- tool def

  /** The tool description: summary and description joined by ". " when both
      are non-empty, otherwise whichever is non-empty. */
  function JoinDescription(summary: string, description: string): (r: string)
    ensures summary != "" && description != "" ==> r == summary + ". " + description
    ensures summary == "" ==> r == description
    ensures description == "" ==> r == summary
  {
    if description != "" then
      if summary != "" then summary + ". " + description else description
    else summary
  }

  /** `ToToolDef`. */
  method ToToolDef(op: Op, toMap: SchemaRef -> Option<map<string, Json>>) returns (def: ToolDef)
    ensures op.operationId != "" ==> def.name == op.operationId
    ensures op.operationId == "" ==> def.name == DerivedName(op.httpMethod, op.path)
    ensures def.description == JoinDescription(op.summary, op.description)
    ensures def.inputSchema == InputSchema(op, toMap)
    ensures def.pathTemplate == op.path
    ensures def.httpMethod == ToUpper(op.httpMethod)
    ensures def.pathParamNames == NamesIn(op.parameters, "path")
    ensures def.queryParamNames == NamesIn(op.parameters, "query")
    ensures def.hasBody <==> op.requestBody.Some? && op.requestBody.value.Some?
  {
    var name := op.operationId;
    if name == "" {
      name := DeriveToolName(op.httpMethod, op.path);
    }
    var desc := op.summary;
    if op.description != "" {
      if desc != "" {
        desc := desc + ". " + op.description;
      } else {
        desc := op.description;
      }
    }
    var schema := BuildInputSchema(op, toMap);
    var pathParams, queryParams := ParamNamesByIn(op.parameters);
    var hasBody := op.requestBody.Some? && op.requestBody.value.Some?;
    def := ToolDef(name, desc, schema, op.path, ToUpper(op.httpMethod), pathParams, queryParams, hasBody);
  }
}
