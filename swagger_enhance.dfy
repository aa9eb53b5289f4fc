/** Post-processing the generated OpenAPI document
    (scripts/swagger_enhance_openapi.py): every operation gets an
    `operationId`, and the top-level tag list names every tag an operation
    uses.

    Reading the command line, checking that the file exists, reading and
    parsing it and writing it back are foreign: the arguments, the existence
    check and the parsed document enter as parameters, and the document to be
    written is part of the result. JSON objects are maps, so their key order
    is not modelled. */
module SwaggerEnhance {
  import opened Wrappers
  import opened Text
  import opened Json

  // ------------------------------------------------------------- path slugs

  predicate IsWordChar(c: char) { IsAsciiAlnum(c) || c == '_' }
  predicate NotWordChar(c: char) { !IsWordChar(c) }

  /** A character a slug may contain: `[a-z0-9_]`. */
  predicate IsSlugChar(c: char) { IsAsciiLower(c) || IsAsciiDigit(c) || c == '_' }

  /** `re.sub(r"[^a-zA-Z0-9_]+", "_", s)`: every maximal run of characters
      other than ASCII letters, digits and "_" becomes one "_". */
  function Sanitize(s: string): (r: string)
    ensures forall i :: 0 <= i < |r| ==> IsWordChar(r[i])
    ensures s != [] ==> r != []
    decreases |s|
  {
    if s == [] then []
    else if IsWordChar(s[0]) then [s[0]] + Sanitize(s[1..])
    else
      var k := LeadingCount(s, NotWordChar);
      "_" + Sanitize(s[k..])
  }

  /** Lower-casing word characters leaves slug characters. Python's
      `str.lower` and the ASCII mapping agree here, as only ASCII remains. */
  lemma LowerOfWordChars(s: string)
    requires forall i :: 0 <= i < |s| ==> IsWordChar(s[i])
    ensures forall i :: 0 <= i < |ToLower(s)| ==> IsSlugChar(ToLower(s)[i])
  {
  }

  /** A path segment written as `{key}`: it starts with "{" and ends with
      "}", which a single character cannot do. */
  predicate IsPlaceholder(part: string) {
    |part| >= 2 && part[0] == '{' && part[|part| - 1] == '}'
  }

  /** The slug of one path segment: "by_" and the sanitised, stripped key for
      a placeholder, the sanitised segment otherwise, lower-cased. */
  function ConvertPart(part: string): string {
    if IsPlaceholder(part) then
      "by_" + ToLower(Sanitize(PyStrip(part[1..|part| - 1])))
    else ToLower(Sanitize(part))
  }

  /** The non-empty strings of `xs`, in order. */
  function NonEmpty(xs: seq<string>): (r: seq<string>)
    ensures forall i :: 0 <= i < |r| ==> r[i] != "" && r[i] in xs
  {
    if xs == [] then []
    else (if xs[0] == "" then [] else [xs[0]]) + NonEmpty(xs[1..])
  }

  function ConvertParts(parts: seq<string>): (r: seq<string>)
    ensures |r| == |parts|
    ensures forall i :: 0 <= i < |parts| ==> r[i] == ConvertPart(parts[i])
  {
    seq(|parts|, i requires 0 <= i < |parts| => ConvertPart(parts[i]))
  }

  /** `slugify_path`. */
  function SlugifyPath(path: string): string {
    var parts := NonEmpty(SplitSlash(Trim(path, IsSlash)));
    var joined := Join(NonEmpty(ConvertParts(parts)), "_");
    if joined == "" then "root" else joined
  }

  /** Every segment slug consists of slug characters. */
  lemma ConvertPartChars(part: string)
    ensures forall i :: 0 <= i < |ConvertPart(part)| ==> IsSlugChar(ConvertPart(part)[i])
  {
    if IsPlaceholder(part) {
      var key := Sanitize(PyStrip(part[1..|part| - 1]));
      LowerOfWordChars(key);
      var r := ConvertPart(part);
      assert r == "by_" + ToLower(key);
      forall i | 0 <= i < |r| ensures IsSlugChar(r[i]) {
        if i >= 3 { assert r[i] == ToLower(key)[i - 3]; }
      }
    } else {
      LowerOfWordChars(Sanitize(part));
    }
  }

  /** A slug is never empty and contains only `[a-z0-9_]`, whatever the path. */
  lemma SlugChars(path: string)
    ensures SlugifyPath(path) != ""
    ensures forall i :: 0 <= i < |SlugifyPath(path)| ==> IsSlugChar(SlugifyPath(path)[i])
  {
    var parts := NonEmpty(SplitSlash(Trim(path, IsSlash)));
    var converted := ConvertParts(parts);
    var kept := NonEmpty(converted);
    forall j, i | 0 <= j < |kept| && 0 <= i < |kept[j]| ensures IsSlugChar(kept[j][i]) {
      var k :| 0 <= k < |converted| && converted[k] == kept[j];
      ConvertPartChars(parts[k]);
    }
    JoinChars(kept, "_", IsSlugChar);
  }

  /** A non-empty run of lower-case ASCII letters and digits. */
  predicate PlainWord(w: string) {
    w != [] && forall i :: 0 <= i < |w| ==> IsAsciiLower(w[i]) || IsAsciiDigit(w[i])
  }

  lemma {:induction false} SanitizeWord(w: string)
    requires forall i :: 0 <= i < |w| ==> IsWordChar(w[i])
    ensures Sanitize(w) == w
  {
    if w != [] {
      SanitizeWord(w[1..]);
      assert [w[0]] + w[1..] == w;
    }
  }

  lemma PlainWordSlug(w: string)
    requires PlainWord(w)
    ensures ConvertPart(w) == w
    ensures ConvertPart("{" + w + "}") == "by_" + w
  {
    PlainWordFixed(w);
    PlainPartSlug(w);
    PlaceholderSlug(w);
  }

  /** A segment that is no placeholder is sanitised and lower-cased. */
  lemma PlainPartSlug(w: string)
    requires PlainWord(w)
    ensures ConvertPart(w) == ToLower(Sanitize(w))
  {
    assert w[0] != '{';
  }

  /** The placeholder `{w}` gives "by_" and its sanitised, stripped key. */
  lemma PlaceholderSlug(w: string)
    requires w != []
    ensures ConvertPart("{" + w + "}") == "by_" + ToLower(Sanitize(PyStrip(w)))
  {
    PlaceholderKey(w);
  }

  /** Sanitising, lower-casing and stripping leave a plain word as it is. */
  lemma PlainWordFixed(w: string)
    requires PlainWord(w)
    ensures Sanitize(w) == w && ToLower(w) == w && PyStrip(w) == w
  {
    assert forall i :: 0 <= i < |w| ==> IsWordChar(w[i]);
    SanitizeWord(w);
    LowerOfPlain(w);
    StripOfPlain(w);
  }

  lemma LowerOfPlain(w: string)
    requires PlainWord(w)
    ensures ToLower(w) == w
  {
    forall i | 0 <= i < |w| ensures ToLower(w)[i] == w[i] {
      assert IsAsciiLower(w[i]) || IsAsciiDigit(w[i]);
    }
  }

  lemma StripOfPlain(w: string)
    requires PlainWord(w)
    ensures PyStrip(w) == w
  {
    assert !IsPySpace(w[0]) && !IsPySpace(w[|w| - 1]);
    TrimOfTrimmed(w, IsPySpace);
  }

  /** The key of the placeholder `{w}` is `w`. */
  lemma PlaceholderKey(w: string)
    requires w != []
    ensures IsPlaceholder("{" + w + "}") && ("{" + w + "}")[1..|w| + 1] == w
  {
  }

  lemma PlainWordSplit(a: string, b: string, c: string)
    requires PlainWord(a) && PlainWord(b) && PlainWord(c)
    ensures SplitSlash(a + "/" + ("{" + b + "}") + "/" + c) == [a, "{" + b + "}", c]
  {
    var pb := "{" + b + "}";
    assert NoSlash(a) && NoSlash(c);
    assert NoSlash(pb);
    SplitSlashPlain(a);
    SplitSlashSnoc(a, pb);
    SplitSlashSnoc(a + "/" + pb, c);
  }

  lemma TrimOuterSlashes(a: string, rest: string)
    requires PlainWord(a) && rest != [] && rest[|rest| - 1] != '/'
    ensures Trim("/" + a + rest, IsSlash) == a + rest
  {
    var t := a + rest;
    assert "/" + a + rest == "/" + t;
    DropOneSlash(t);
    assert t[0] == a[0] && t[|t| - 1] == rest[|rest| - 1];
    assert !IsSlash(t[0]);
    TrimOfTrimmed(t, IsSlash);
  }

  /** One leading "/" before a string that does not start with one. */
  lemma DropOneSlash(t: string)
    requires t != [] && t[0] != '/'
    ensures Trim("/" + t, IsSlash) == Trim(t, IsSlash)
  {
    var s := "/" + t;
    assert s[1..] == t;
    assert LeadingCount(s, IsSlash) == 1 + LeadingCount(t, IsSlash);
    assert LeadingCount(t, IsSlash) == 0;
    assert TrimLeft(s, IsSlash) == t;
    assert TrimLeft(t, IsSlash) == t;
  }

  lemma NestedResourceParts(a: string, b: string, c: string)
    requires PlainWord(a) && PlainWord(b) && PlainWord(c)
    ensures NonEmpty(SplitSlash(Trim("/" + a + "/{" + b + "}/" + c, IsSlash))) == [a, "{" + b + "}", c]
  {
    var pb := "{" + b + "}";
    var inner := a + "/" + pb + "/" + c;
    assert "/" + a + "/{" + b + "}/" + c == "/" + a + ("/" + pb + "/" + c);
    TrimOuterSlashes(a, "/" + pb + "/" + c);
    assert a + ("/" + pb + "/" + c) == inner;
    PlainWordSplit(a, b, c);
    NonEmptyThree(a, pb, c);
  }

  /** `/customers/{id}/wallets` becomes `customers_by_id_wallets`: plain
      segments are kept, a placeholder becomes "by_" and its key, joined
      with "_". */
  lemma SlugOfNestedResource(a: string, b: string, c: string)
    requires PlainWord(a) && PlainWord(b) && PlainWord(c)
    ensures SlugifyPath("/" + a + "/{" + b + "}/" + c) == a + "_" + ("by_" + b) + "_" + c
  {
    var path := "/" + a + "/{" + b + "}/" + c;
    var parts := [a, "{" + b + "}", c];
    var slugs := [a, "by_" + b, c];
    NestedResourceParts(a, b, c);
    SlugifyOfParts(path, parts);
    ConvertThree(a, b, c);
    NonEmptyThree(a, "by_" + b, c);
    JoinThree(a, "by_" + b, c, "_");
  }

  /** `slugify_path` once the path's segments are known. */
  lemma SlugifyOfParts(path: string, parts: seq<string>)
    requires NonEmpty(SplitSlash(Trim(path, IsSlash))) == parts
    ensures var joined := Join(NonEmpty(ConvertParts(parts)), "_");
      SlugifyPath(path) == if joined == "" then "root" else joined
  {
  }

  lemma ConvertThree(a: string, b: string, c: string)
    requires PlainWord(a) && PlainWord(b) && PlainWord(c)
    ensures ConvertParts([a, "{" + b + "}", c]) == [a, "by_" + b, c]
  {
    PlainWordSlug(a);
    PlainWordSlug(b);
    PlainWordSlug(c);
    var parts := [a, "{" + b + "}", c];
    var r := ConvertParts(parts);
    assert r[0] == ConvertPart(parts[0]) == a;
    assert r[1] == ConvertPart(parts[1]) == "by_" + b;
    assert r[2] == ConvertPart(parts[2]) == c;
    SeqOfThree(r, a, "by_" + b, c);
  }

  lemma SeqOfThree<T>(r: seq<T>, x: T, y: T, z: T)
    requires |r| == 3 && r[0] == x && r[1] == y && r[2] == z
    ensures r == [x, y, z]
  {
  }

  lemma NonEmptyThree(x: string, y: string, z: string)
    requires x != "" && y != "" && z != ""
    ensures NonEmpty([x, y, z]) == [x, y, z]
  {
    assert [z][1..] == [];
    assert NonEmpty([z]) == [z];
    assert [y, z][1..] == [z];
    assert NonEmpty([y, z]) == [y, z];
    assert [x, y, z][1..] == [y, z];
  }

  // --------------------------------------------------------- sorting tags

  /** Python's string order: lexicographic by code point. */
  predicate LessEq(a: string, b: string)
    decreases |a|
  {
    a == [] || (b != [] && (a[0] < b[0] || (a[0] == b[0] && LessEq(a[1..], b[1..]))))
  }

  lemma {:induction false} LessEqTotal(a: string, b: string)
    ensures LessEq(a, b) || LessEq(b, a)
    decreases |a|
  {
    if a != [] && b != [] && a[0] == b[0] {
      LessEqTotal(a[1..], b[1..]);
    }
  }

  lemma {:induction false} LessEqRefl(a: string)
    ensures LessEq(a, a)
    decreases |a|
  {
    if a != [] { LessEqRefl(a[1..]); }
  }

  lemma {:induction false} LessEqTrans(a: string, b: string, c: string)
    requires LessEq(a, b) && LessEq(b, c)
    ensures LessEq(a, c)
    decreases |a|
  {
    if a != [] && a[0] == b[0] && b[0] == c[0] {
      LessEqTrans(a[1..], b[1..], c[1..]);
    }
  }

  lemma {:induction false} LessEqAntisym(a: string, b: string)
    requires LessEq(a, b) && LessEq(b, a)
    ensures a == b
    decreases |a|
  {
    if a != [] {
      LessEqAntisym(a[1..], b[1..]);
      assert a == [a[0]] + a[1..] && b == [b[0]] + b[1..];
    }
  }

  predicate IsLeast(m: string, s: set<string>) {
    m in s && forall x :: x in s ==> LessEq(m, x)
  }

  lemma {:induction false} LeastExists(s: set<string>)
    requires s != {}
    ensures exists m :: IsLeast(m, s)
    decreases |s|
  {
    var x :| x in s;
    LessEqRefl(x);
    if s == {x} {
      assert IsLeast(x, s);
    } else {
      LeastExists(s - {x});
      var m :| IsLeast(m, s - {x});
      LessEqTotal(m, x);
      if LessEq(m, x) {
        assert IsLeast(m, s);
      } else {
        forall y | y in s ensures LessEq(x, y) {
          if y != x { LessEqTrans(x, m, y); }
        }
        assert IsLeast(x, s);
      }
    }
  }

  lemma LeastUnique(s: set<string>, m1: string, m2: string)
    requires IsLeast(m1, s) && IsLeast(m2, s)
    ensures m1 == m2
  {
    LessEqAntisym(m1, m2);
  }

  /** Strictly increasing, hence free of duplicates. */
  predicate StrictlySorted(s: seq<string>) {
    forall i, j :: 0 <= i < j < |s| ==> LessEq(s[i], s[j]) && s[i] != s[j]
  }

  /** The least string of a non-empty set. */
  ghost function Least(s: set<string>): (m: string)
    requires s != {}
    ensures IsLeast(m, s)
  {
    LeastExists(s);
    var m :| IsLeast(m, s);
    m
  }

  /** `sorted(s)` for a set of strings: the least element first. */
  ghost function Sorted(s: set<string>): seq<string>
    decreases |s|
  {
    if s == {} then [] else [Least(s)] + Sorted(s - {Least(s)})
  }

  /** The sorted list holds exactly the set's elements, in strictly
      increasing order. */
  lemma {:induction false} SortedSpec(s: set<string>)
    ensures |Sorted(s)| == |s|
    ensures forall x :: x in Sorted(s) <==> x in s
    ensures StrictlySorted(Sorted(s))
    decreases |s|
  {
    if s != {} {
      var m := Least(s);
      SortedSpec(s - {m});
      LeastFirst(s, m, Sorted(s - {m}));
    }
  }

  /** Putting the least element in front of the sorted rest. */
  lemma LeastFirst(s: set<string>, m: string, rest: seq<string>)
    requires IsLeast(m, s)
    requires |rest| == |s - {m}| && (forall x :: x in rest <==> x in s - {m}) && StrictlySorted(rest)
    ensures |[m] + rest| == |s| && (forall x :: x in [m] + rest <==> x in s) && StrictlySorted([m] + rest)
  {
    var r := [m] + rest;
    forall i, j | 0 <= i < j < |r| ensures LessEq(r[i], r[j]) && r[i] != r[j] {
      if i == 0 {
        assert r[j] == rest[j - 1] && rest[j - 1] in rest;
      } else {
        assert r[i] == rest[i - 1] && r[j] == rest[j - 1];
      }
    }
  }

  // ------------------------------------------------------- the document

  const HttpMethods: set<string> := {"get", "post", "put", "patch", "delete", "head", "options", "trace"}

  /** Python truthiness of a JSON value. */
  predicate Truthy(j: Json) {
    match j
    case JNull => false
    case JBool(b) => b
    case JNumber(n) => n != 0.0
    case JString(s) => s != ""
    case JArray(items) => items != []
    case JObject(fields) => fields != map[]
  }

  /** A path-item member that counts as an operation: an HTTP method name in
      any case, mapped to an object. (A key whose Unicode lower case is one of
      these names consists of ASCII letters only, so the ASCII mapping
      decides the same keys.) */
  predicate IsOperation(httpMethod: string, v: Json) {
    ToLower(httpMethod) in HttpMethods && v.JObject?
  }

  /** The id given to an operation without a usable one. */
  function GeneratedId(httpMethod: string, path: string): string {
    ToLower(httpMethod) + "_" + SlugifyPath(path)
  }

  /** A generated id is the lower-cased method, an underscore and a
      non-empty slug of lower-case letters, digits and underscores. */
  lemma GeneratedIdShape(httpMethod: string, path: string)
    ensures var id := GeneratedId(httpMethod, path);
      && |id| > |httpMethod| + 1
      && id[..|httpMethod| + 1] == ToLower(httpMethod) + "_"
      && forall i :: |httpMethod| + 1 <= i < |id| ==> IsSlugChar(id[i])
  {
    SlugChars(path);
    var id := GeneratedId(httpMethod, path);
    assert forall i :: |httpMethod| + 1 <= i < |id| ==> id[i] == SlugifyPath(path)[i - |httpMethod| - 1];
  }

  /** An operation whose `operationId` is missing or falsy. */
  predicate NeedsId(op: map<string, Json>) {
    "operationId" !in op || !Truthy(op["operationId"])
  }

  function WithId(path: string, httpMethod: string, op: map<string, Json>): map<string, Json> {
    if NeedsId(op) then op["operationId" := JString(GeneratedId(httpMethod, path))] else op
  }

  /** A path-item member after processing. */
  function EnhancedMember(path: string, httpMethod: string, v: Json): Json {
    if IsOperation(httpMethod, v) then JObject(WithId(path, httpMethod, v.fields)) else v
  }

  function EnhancedItem(path: string, fields: map<string, Json>): map<string, Json> {
    map m | m in fields :: EnhancedMember(path, m, fields[m])
  }

  /** A `paths` entry after processing; entries that are not objects are kept. */
  function EnhancedPathValue(path: string, v: Json): Json {
    if v.JObject? then JObject(EnhancedItem(path, v.fields)) else v
  }

  function EnhancedPaths(paths: map<string, Json>): map<string, Json> {
    map p | p in paths :: EnhancedPathValue(p, paths[p])
  }

  /** The tag a list entry contributes: a string, stripped, when not blank. */
  function TagOf(entry: Json): (r: Option<string>)
    ensures r.Some? <==> entry.JString? && PyStrip(entry.s) != ""
    ensures r.Some? ==> r.value != "" && PyStrip(r.value) == r.value
  {
    if entry.JString? && PyStrip(entry.s) != "" then
      TrimIdempotent(entry.s, IsPySpace);
      Some(PyStrip(entry.s))
    else None
  }

  /** The stripped, non-blank strings of a tag list. */
  function StrippedTags(items: seq<Json>): set<string> {
    if items == [] then {}
    else
      var tag := TagOf(items[|items| - 1]);
      StrippedTags(items[..|items| - 1]) + (if tag.Some? then {tag.value} else {})
  }

  /** Every collected tag comes from some entry. */
  lemma {:induction false} StrippedTagsFrom(items: seq<Json>, t: string)
    requires t in StrippedTags(items)
    ensures exists i :: 0 <= i < |items| && TagOf(items[i]) == Some(t)
  {
    var init := items[..|items| - 1];
    if t in StrippedTags(init) {
      StrippedTagsFrom(init, t);
      var i :| 0 <= i < |init| && TagOf(init[i]) == Some(t);
      assert items[i] == init[i];
    } else {
      assert TagOf(items[|items| - 1]) == Some(t);
    }
  }

  /** Every entry's tag is collected. */
  lemma {:induction false} StrippedTagsOf(items: seq<Json>, i: nat)
    requires i < |items| && TagOf(items[i]).Some?
    ensures TagOf(items[i]).value in StrippedTags(items)
  {
    var init := items[..|items| - 1];
    if i < |init| {
      StrippedTagsOf(init, i);
      assert items[i] == init[i];
    }
  }

  /** Collected tags are non-blank and already stripped. */
  lemma {:induction false} StrippedTagsStripped(items: seq<Json>)
    ensures forall t :: t in StrippedTags(items) ==> t != "" && PyStrip(t) == t
  {
    if items != [] {
      StrippedTagsStripped(items[..|items| - 1]);
      var e := items[|items| - 1];
      if e.JString? {
        TrimIdempotent(e.s, IsPySpace);
      }
    }
  }

  /** The tags an operation names, when its `tags` is a list. */
  function OpTags(op: map<string, Json>): set<string> {
    if "tags" in op && op["tags"].JArray? then StrippedTags(op["tags"].items) else {}
  }

  /** The (path, method) operations among the members `keys` of a path item. */
  ghost function ItemOperationsIn(path: string, fields: map<string, Json>, keys: set<string>): set<(string, string)> {
    set m | m in keys && m in fields && IsOperation(m, fields[m]) :: (path, m)
  }

  /** The operations among `keys` whose id is generated. */
  ghost function ItemGeneratedIn(path: string, fields: map<string, Json>, keys: set<string>): set<(string, string)> {
    set m | m in keys && m in fields && IsOperation(m, fields[m]) && NeedsId(fields[m].fields) :: (path, m)
  }

  /** The tags named by the operations among `keys`. */
  ghost function ItemTagsIn(fields: map<string, Json>, keys: set<string>): set<string> {
    set m, t | m in keys && m in fields && IsOperation(m, fields[m]) && t in OpTags(fields[m].fields) :: t
  }

  /** One more member processed: its operation, if any, is new. */
  lemma ItemOperationsStep(path: string, fields: map<string, Json>, keys: set<string>, m: string)
    requires m in fields && m !in keys
    ensures |ItemOperationsIn(path, fields, keys + {m})| ==
      |ItemOperationsIn(path, fields, keys)| + (if IsOperation(m, fields[m]) then 1 else 0)
  {
    var before := ItemOperationsIn(path, fields, keys);
    assert (path, m) !in before;
    assert ItemOperationsIn(path, fields, keys + {m}) == before + (if IsOperation(m, fields[m]) then {(path, m)} else {});
  }

  lemma ItemGeneratedStep(path: string, fields: map<string, Json>, keys: set<string>, m: string)
    requires m in fields && m !in keys
    ensures |ItemGeneratedIn(path, fields, keys + {m})| ==
      |ItemGeneratedIn(path, fields, keys)| + (if IsOperation(m, fields[m]) && NeedsId(fields[m].fields) then 1 else 0)
  {
    var before := ItemGeneratedIn(path, fields, keys);
    assert (path, m) !in before;
    assert ItemGeneratedIn(path, fields, keys + {m}) ==
      before + (if IsOperation(m, fields[m]) && NeedsId(fields[m].fields) then {(path, m)} else {});
  }

  lemma ItemTagsStep(fields: map<string, Json>, keys: set<string>, m: string)
    requires m in fields && m !in keys
    ensures ItemTagsIn(fields, keys + {m}) ==
      ItemTagsIn(fields, keys) + (if IsOperation(m, fields[m]) then OpTags(fields[m].fields) else {})
  {
    var after := ItemTagsIn(fields, keys + {m});
    var before := ItemTagsIn(fields, keys);
    var added := if IsOperation(m, fields[m]) then OpTags(fields[m].fields) else {};
    forall t | t in after ensures t in before + added {
      var m' :| m' in keys + {m} && m' in fields && IsOperation(m', fields[m']) && t in OpTags(fields[m'].fields);
      if m' != m {
        assert m' in keys;
      }
    }
    forall t | t in before + added ensures t in after {
      if t !in added {
        var m' :| m' in keys && m' in fields && IsOperation(m', fields[m']) && t in OpTags(fields[m'].fields);
        assert m' in keys + {m};
      }
    }
  }

  /** A path item part-way through: the members in `todo` are still as given. */
  function PartItem(path: string, fields: map<string, Json>, todo: set<string>): map<string, Json> {
    map m | m in fields :: if m in todo then fields[m] else EnhancedMember(path, m, fields[m])
  }

  lemma PartItemEnds(path: string, fields: map<string, Json>)
    ensures PartItem(path, fields, fields.Keys) == fields
    ensures PartItem(path, fields, {}) == EnhancedItem(path, fields)
  {
  }

  lemma PartItemStep(path: string, fields: map<string, Json>, todo: set<string>, m: string)
    requires m in todo && m in fields
    ensures PartItem(path, fields, todo)[m := EnhancedMember(path, m, fields[m])] == PartItem(path, fields, todo - {m})
  {
  }

  /** Processing one member of a path item. */
  method EnhanceMember(path: string, m: string, v: Json)
    returns (member: Json, isOperation: bool, isGenerated: bool, opTags: set<string>)
    ensures member == EnhancedMember(path, m, v)
    ensures isOperation == IsOperation(m, v)
    ensures isGenerated == (IsOperation(m, v) && NeedsId(v.fields))
    ensures opTags == if IsOperation(m, v) then OpTags(v.fields) else {}
  {
    member, isOperation, isGenerated, opTags := v, false, false, {};
    if ToLower(m) in HttpMethods && v.JObject? {
      var op := v.fields;
      isOperation := true;
      if !("operationId" in op && Truthy(op["operationId"])) {
        op := op["operationId" := JString(ToLower(m) + "_" + SlugifyPath(path))];
        isGenerated := true;
      }
      assert ("tags" in op) == ("tags" in v.fields);
      if "tags" in op && op["tags"].JArray? {
        opTags := CollectTags(op["tags"].items, {});
      }
      member := JObject(op);
    }
  }

  /** The state of processing a path item once the members `done` are
      handled and those in `todo` are left. */
  ghost predicate ItemProgress(path: string, fields: map<string, Json>, todo: set<string>, done: set<string>,
                               item: map<string, Json>, operations: nat, generated: nat, tags: set<string>)
  {
    && done + todo == fields.Keys && done !! todo
    && item == PartItem(path, fields, todo)
    && operations == |ItemOperationsIn(path, fields, done)|
    && generated == |ItemGeneratedIn(path, fields, done)|
    && tags == ItemTagsIn(fields, done)
  }

  /** Processing one more member keeps the processing state. */
  method ProcessMember(path: string, fields: map<string, Json>, todo: set<string>, ghost done: set<string>, m: string,
                       item: map<string, Json>, operations: nat, generated: nat, tags: set<string>)
    returns (item': map<string, Json>, operations': nat, generated': nat, tags': set<string>)
    requires ItemProgress(path, fields, todo, done, item, operations, generated, tags) && m in todo
    ensures ItemProgress(path, fields, todo - {m}, done + {m}, item', operations', generated', tags')
  {
    ItemOperationsStep(path, fields, done, m);
    ItemGeneratedStep(path, fields, done, m);
    ItemTagsStep(fields, done, m);
    PartItemStep(path, fields, todo, m);
    var member, isOperation, isGenerated, opTags := EnhanceMember(path, m, fields[m]);
    operations' := if isOperation then operations + 1 else operations;
    generated' := if isGenerated then generated + 1 else generated;
    tags' := tags + opTags;
    item' := item[m := member];
  }

  /** Processing one path item: every operation gets an id, and the
      operations, generated ids and named tags are collected. */
  method EnhancePathItem(path: string, fields: map<string, Json>)
    returns (item: map<string, Json>, operations: nat, generated: nat, tags: set<string>)
    ensures item == EnhancedItem(path, fields)
    ensures operations == |ItemOperationsIn(path, fields, fields.Keys)|
    ensures generated == |ItemGeneratedIn(path, fields, fields.Keys)|
    ensures tags == ItemTagsIn(fields, fields.Keys)
  {
    item, operations, generated, tags := fields, 0, 0, {};
    var todo := fields.Keys;
    ghost var done: set<string> := {};
    PartItemEnds(path, fields);
    while todo != {}
      invariant ItemProgress(path, fields, todo, done, item, operations, generated, tags)
      decreases |todo|
    {
      var m :| m in todo;
      item, operations, generated, tags := ProcessMember(path, fields, todo, done, m, item, operations, generated, tags);
      todo := todo - {m};
      done := done + {m};
    }
  }

  /** Collecting the stripped, non-blank tags of one operation. */
  method CollectTags(items: seq<Json>, tags: set<string>) returns (tags': set<string>)
    ensures tags' == tags + StrippedTags(items)
  {
    tags' := tags;
    var i := 0;
    while i < |items|
      invariant 0 <= i <= |items|
      invariant tags' == tags + StrippedTags(items[..i])
    {
      assert items[..i + 1][..i] == items[..i];
      var tag := items[i];
      if tag.JString? && PyStrip(tag.s) != "" {
        tags' := tags' + {PyStrip(tag.s)};
      }
      assert TagOf(tag) == if tag.JString? && PyStrip(tag.s) != "" then Some(PyStrip(tag.s)) else None;
      i := i + 1;
    }
    assert items[..|items|] == items;
  }

  // ------------------------------------------------------- all paths

  /** The (path, method) operations of the path items under `keys`. */
  ghost function OperationsIn(paths: map<string, Json>, keys: set<string>): set<(string, string)> {
    set p, m | p in keys && p in paths && paths[p].JObject? && m in paths[p].fields
                 && IsOperation(m, paths[p].fields[m]) :: (p, m)
  }

  ghost function GeneratedIn(paths: map<string, Json>, keys: set<string>): set<(string, string)> {
    set p, m | p in keys && p in paths && paths[p].JObject? && m in paths[p].fields
                 && IsOperation(m, paths[p].fields[m]) && NeedsId(paths[p].fields[m].fields) :: (p, m)
  }

  ghost function TagsIn(paths: map<string, Json>, keys: set<string>): set<string> {
    set p, m, t | p in keys && p in paths && paths[p].JObject? && m in paths[p].fields
                    && IsOperation(m, paths[p].fields[m]) && t in OpTags(paths[p].fields[m].fields) :: t
  }

  /** Every operation of the document. */
  ghost function Operations(paths: map<string, Json>): set<(string, string)> {
    OperationsIn(paths, paths.Keys)
  }

  /** The operations whose id is missing or falsy. */
  ghost function GeneratedIds(paths: map<string, Json>): set<(string, string)> {
    GeneratedIn(paths, paths.Keys)
  }

  /** The stripped, non-blank tags the operations name. */
  ghost function DiscoveredTags(paths: map<string, Json>): set<string> {
    TagsIn(paths, paths.Keys)
  }

  /** One more path processed: its operations are new. */
  lemma PathOperationsStep(paths: map<string, Json>, keys: set<string>, p: string)
    requires p in paths && p !in keys
    ensures |OperationsIn(paths, keys + {p})| == |OperationsIn(paths, keys)| +
      (if paths[p].JObject? then |ItemOperationsIn(p, paths[p].fields, paths[p].fields.Keys)| else 0)
  {
    var before := OperationsIn(paths, keys);
    var added := if paths[p].JObject? then ItemOperationsIn(p, paths[p].fields, paths[p].fields.Keys) else {};
    assert OperationsIn(paths, keys + {p}) == before + added;
    assert before !! added;
  }

  lemma PathGeneratedStep(paths: map<string, Json>, keys: set<string>, p: string)
    requires p in paths && p !in keys
    ensures |GeneratedIn(paths, keys + {p})| == |GeneratedIn(paths, keys)| +
      (if paths[p].JObject? then |ItemGeneratedIn(p, paths[p].fields, paths[p].fields.Keys)| else 0)
  {
    var before := GeneratedIn(paths, keys);
    var added := if paths[p].JObject? then ItemGeneratedIn(p, paths[p].fields, paths[p].fields.Keys) else {};
    assert GeneratedIn(paths, keys + {p}) == before + added;
    assert before !! added;
  }

  lemma PathTagsStep(paths: map<string, Json>, keys: set<string>, p: string)
    requires p in paths && p !in keys
    ensures TagsIn(paths, keys + {p}) ==
      TagsIn(paths, keys) + (if paths[p].JObject? then ItemTagsIn(paths[p].fields, paths[p].fields.Keys) else {})
  {
  }

  /** A `paths` object part-way through: the entries in `todo` are still as given. */
  function PartPaths(paths: map<string, Json>, todo: set<string>): map<string, Json> {
    map p | p in paths :: if p in todo then paths[p] else EnhancedPathValue(p, paths[p])
  }

  lemma PartPathsEnds(paths: map<string, Json>)
    ensures PartPaths(paths, paths.Keys) == paths
    ensures PartPaths(paths, {}) == EnhancedPaths(paths)
  {
  }

  lemma PartPathsStep(paths: map<string, Json>, todo: set<string>, p: string)
    requires p in todo && p in paths
    ensures PartPaths(paths, todo)[p := EnhancedPathValue(p, paths[p])] == PartPaths(paths, todo - {p})
  {
  }

  /** The state of processing `paths` once the entries `done` are handled
      and those in `todo` are left. */
  ghost predicate PathsProgress(paths: map<string, Json>, todo: set<string>, done: set<string>,
                                newPaths: map<string, Json>, operations: nat, generated: nat, tags: set<string>)
  {
    && done + todo == paths.Keys && done !! todo
    && newPaths == PartPaths(paths, todo)
    && operations == |OperationsIn(paths, done)|
    && generated == |GeneratedIn(paths, done)|
    && tags == TagsIn(paths, done)
  }

  /** Processing one more path item keeps the processing state. */
  method ProcessPath(paths: map<string, Json>, todo: set<string>, ghost done: set<string>, p: string,
                     newPaths: map<string, Json>, operations: nat, generated: nat, tags: set<string>)
    returns (newPaths': map<string, Json>, operations': nat, generated': nat, tags': set<string>)
    requires PathsProgress(paths, todo, done, newPaths, operations, generated, tags) && p in todo
    ensures PathsProgress(paths, todo - {p}, done + {p}, newPaths', operations', generated', tags')
  {
    PathOperationsStep(paths, done, p);
    PathGeneratedStep(paths, done, p);
    PathTagsStep(paths, done, p);
    PartPathsStep(paths, todo, p);
    newPaths', operations', generated', tags' := newPaths, operations, generated, tags;
    var pathItem := paths[p];
    if pathItem.JObject? {
      var item, n, g, t := EnhancePathItem(p, pathItem.fields);
      operations' := operations + n;
      generated' := generated + g;
      tags' := tags + t;
      newPaths' := newPaths[p := JObject(item)];
    }
  }

  /** Processing every path item. */
  method EnhanceAllPaths(paths: map<string, Json>)
    returns (newPaths: map<string, Json>, operations: nat, generated: nat, tags: set<string>)
    ensures newPaths == EnhancedPaths(paths)
    ensures operations == |Operations(paths)|
    ensures generated == |GeneratedIds(paths)|
    ensures tags == DiscoveredTags(paths)
  {
    newPaths, operations, generated, tags := paths, 0, 0, {};
    var todo := paths.Keys;
    ghost var done: set<string> := {};
    PartPathsEnds(paths);
    while todo != {}
      invariant PathsProgress(paths, todo, done, newPaths, operations, generated, tags)
      decreases |todo|
    {
      var p :| p in todo;
      newPaths, operations, generated, tags := ProcessPath(paths, todo, done, p, newPaths, operations, generated, tags);
      todo := todo - {p};
      done := done + {p};
    }
  }

  // ------------------------------------------------------- top-level tags

  /** A tag entry whose `name` is a string. */
  predicate NamedEntry(e: Json) {
    e.JObject? && "name" in e.fields && e.fields["name"].JString?
  }

  /** The stripped names of the existing tag entries. */
  function ExistingNames(entries: seq<Json>): set<string> {
    if entries == [] then {}
    else
      var e := entries[|entries| - 1];
      ExistingNames(entries[..|entries| - 1]) + (if NamedEntry(e) then {PyStrip(e.fields["name"].s)} else {})
  }

  lemma {:induction false} ExistingNamesAppend(a: seq<Json>, b: seq<Json>)
    ensures ExistingNames(a + b) == ExistingNames(a) + ExistingNames(b)
    decreases |b|
  {
    if b != [] {
      ExistingNamesAppend(a, b[..|b| - 1]);
      assert (a + b)[..|a + b| - 1] == a + b[..|b| - 1];
    } else {
      assert a + b == a;
    }
  }

  /** The existing entries: `tags` when it is a list, otherwise none. */
  function ExistingEntries(data: map<string, Json>): seq<Json> {
    if "tags" in data && data["tags"].JArray? then data["tags"].items else []
  }

  /** Collecting the existing names. */
  method ExistingTagNames(entries: seq<Json>) returns (names: set<string>)
    ensures names == ExistingNames(entries)
  {
    names := {};
    var i := 0;
    while i < |entries|
      invariant 0 <= i <= |entries|
      invariant names == ExistingNames(entries[..i])
    {
      assert entries[..i + 1][..i] == entries[..i];
      var entry := entries[i];
      if entry.JObject? && "name" in entry.fields && entry.fields["name"].JString? {
        names := names + {PyStrip(entry.fields["name"].s)};
      }
      i := i + 1;
    }
    assert entries[..|entries|] == entries;
  }

  /** The tags of `sorted`, in order, that are not among `names`. */
  function Missing(sorted: seq<string>, names: set<string>): (r: seq<string>)
    ensures |r| <= |sorted|
    ensures forall t :: t in r <==> t in sorted && t !in names
  {
    if sorted == [] then []
    else
      var t := sorted[|sorted| - 1];
      Missing(sorted[..|sorted| - 1], names) + (if t in names then [] else [t])
  }

  /** An entry naming one tag. */
  function NameEntry(t: string): Json {
    JObject(map["name" := JString(t)])
  }

  function NameEntries(ts: seq<string>): (r: seq<Json>)
    ensures |r| == |ts|
    ensures forall i :: 0 <= i < |ts| ==> r[i] == NameEntry(ts[i])
  {
    if ts == [] then [] else NameEntries(ts[..|ts| - 1]) + [NameEntry(ts[|ts| - 1])]
  }

  /** The entries appended for the discovered tags. */
  function NewEntries(sorted: seq<string>, names: set<string>): seq<Json> {
    NameEntries(Missing(sorted, names))
  }

  /** Entries made for stripped names carry exactly those names. */
  lemma {:induction false} NameEntriesNames(ts: seq<string>)
    requires forall t :: t in ts ==> PyStrip(t) == t
    ensures ExistingNames(NameEntries(ts)) == set t | t in ts
  {
    if ts != [] {
      var init, last := ts[..|ts| - 1], ts[|ts| - 1];
      var es := NameEntries(ts);
      assert ExistingNames(es) == ExistingNames(NameEntries(init)) + {last} by {
        assert es[..|es| - 1] == NameEntries(init);
        assert es[|es| - 1] == NameEntry(last);
        assert PyStrip(last) == last;
      }
      assert ExistingNames(NameEntries(init)) == set t | t in init by {
        assert forall t :: t in init ==> t in ts;
        NameEntriesNames(init);
      }
      SetOfSnoc(init, last);
      assert ts == init + [last];
    }
  }

  lemma SetOfSnoc(init: seq<string>, last: string)
    ensures (set t | t in init + [last]) == (set t | t in init) + {last}
  {
  }

  lemma NameEntryName(t: string)
    requires PyStrip(t) == t
    ensures ExistingNames([NameEntry(t)]) == {t}
  {
    assert [NameEntry(t)][..0] == [];
  }

  /** Order is kept: a strictly increasing list gives strictly increasing
      missing tags. */
  lemma {:induction false} MissingSorted(sorted: seq<string>, names: set<string>)
    requires StrictlySorted(sorted)
    ensures StrictlySorted(Missing(sorted, names))
  {
    if sorted != [] {
      var init := sorted[..|sorted| - 1];
      var t := sorted[|sorted| - 1];
      MissingSorted(init, names);
      var r0 := Missing(init, names);
      forall i | 0 <= i < |r0| ensures LessEq(r0[i], t) && r0[i] != t {
        assert r0[i] in init;
        var k :| 0 <= k < |init| && init[k] == r0[i];
        assert sorted[k] == init[k];
      }
      var r := Missing(sorted, names);
      assert r == r0 || r == r0 + [t];
      forall i, j | 0 <= i < j < |r| ensures LessEq(r[i], r[j]) && r[i] != r[j] {
        if j == |r0| {
          assert r[i] == r0[i] && r[j] == t;
        } else {
          assert r[i] == r0[i] && r[j] == r0[j];
          assert LessEq(r0[i], r0[j]) && r0[i] != r0[j];
        }
      }
    }
  }

  /** The least tag is listed first. */
  lemma SortedLeast(s: set<string>, m: string)
    requires IsLeast(m, s)
    ensures Sorted(s) == [m] + Sorted(s - {m})
  {
    LeastUnique(s, m, Least(s));
  }

  lemma NewEntriesSnoc(done: seq<string>, t: string, names: set<string>)
    ensures NewEntries(done + [t], names) == NewEntries(done, names) + (if t in names then [] else [NameEntry(t)])
  {
    assert (done + [t])[..|done|] == done;
    var ms := Missing(done + [t], names);
    if t in names {
      assert ms == Missing(done, names) + [];
      assert ms == Missing(done, names);
    } else {
      assert ms == Missing(done, names) + [t];
      assert ms[..|ms| - 1] == Missing(done, names);
    }
  }

  /** The state of appending once the tags `done` are handled, in sorted
      order, and those in `remaining` are left. */
  ghost predicate AppendProgress(entries: seq<Json>, discovered: set<string>, names: set<string>,
                                 remaining: set<string>, done: seq<string>, r: seq<Json>)
  {
    && done + Sorted(remaining) == Sorted(discovered)
    && r == entries + NewEntries(done, names)
  }

  /** Handling the least remaining tag keeps the appending state. */
  lemma AppendStep(entries: seq<Json>, discovered: set<string>, names: set<string>,
                   remaining: set<string>, done: seq<string>, r: seq<Json>, t: string)
    requires AppendProgress(entries, discovered, names, remaining, done, r) && IsLeast(t, remaining)
    ensures AppendProgress(entries, discovered, names, remaining - {t}, done + [t],
                           r + (if t in names then [] else [NameEntry(t)]))
  {
    assert (done + [t]) + Sorted(remaining - {t}) == Sorted(discovered) by {
      SortedDone(discovered, remaining, done, t);
    }
    var added := if t in names then [] else [NameEntry(t)];
    var before := NewEntries(done, names);
    assert NewEntries(done + [t], names) == before + added by {
      NewEntriesSnoc(done, t, names);
    }
    assert r + added == entries + (before + added) by {
      assert r == entries + before;
      JsonConcatAssoc(entries, before, added);
    }
  }

  lemma SortedDone(discovered: set<string>, remaining: set<string>, done: seq<string>, t: string)
    requires done + Sorted(remaining) == Sorted(discovered) && IsLeast(t, remaining)
    ensures (done + [t]) + Sorted(remaining - {t}) == Sorted(discovered)
  {
    SortedLeast(remaining, t);
    ConcatAssoc(done, [t], Sorted(remaining - {t}));
  }

  lemma JsonConcatAssoc(a: seq<Json>, b: seq<Json>, c: seq<Json>)
    ensures (a + b) + c == a + (b + c)
  {
  }

  lemma ConcatAssoc(a: seq<string>, b: seq<string>, c: seq<string>)
    ensures a + (b + c) == (a + b) + c
  {
  }

  /** Appending an entry for each discovered tag without one, in sorted order. */
  method AppendMissing(entries: seq<Json>, discovered: set<string>, names: set<string>) returns (r: seq<Json>)
    ensures r == entries + NewEntries(Sorted(discovered), names)
  {
    r := entries;
    var remaining := discovered;
    ghost var done: seq<string> := [];
    assert [] + Sorted(remaining) == Sorted(discovered);
    while remaining != {}
      invariant AppendProgress(entries, discovered, names, remaining, done, r)
      decreases |remaining|
    {
      LeastExists(remaining);
      var t :| IsLeast(t, remaining);
      AppendStep(entries, discovered, names, remaining, done, r, t);
      if t !in names {
        r := r + [NameEntry(t)];
      } else {
        assert r + [] == r;
      }
      done := done + [t];
      remaining := remaining - {t};
    }
    assert Sorted(remaining) == [];
    assert done + [] == done;
  }

  // ------------------------------------------------------- the script

  /** How a run ends. `Crashed` stands for an uncaught exception: a file
      that cannot be read or is not JSON, a document that is not an object,
      or a failed write. */
  datatype Outcome =
    | UsageError
    | FileNotFound
    | InvalidPaths
    | Crashed
    | Enhanced(document: Json, operations: nat, generatedIds: nat, topLevelTags: nat)

  /** The process exit status. */
  function ExitCode(o: Outcome): (code: int)
    ensures code == 0 <==> o.Enhanced?
    ensures code == 2 <==> (o.UsageError? || o.FileNotFound? || o.InvalidPaths?)
  {
    match o
    case UsageError => 2
    case FileNotFound => 2
    case InvalidPaths => 2
    case Crashed => 1
    case Enhanced(_, _, _, _) => 0
  }

  /** `data.get("paths", {})`. */
  function PathsOf(data: map<string, Json>): Json {
    if "paths" in data then data["paths"] else JObject(map[])
  }

  /** The top-level tag list written back: the existing entries, then one
      entry for each discovered tag, in `sorted` order, that has none. */
  function TagEntries(data: map<string, Json>, sorted: seq<string>): seq<Json> {
    ExistingEntries(data) + NewEntries(sorted, ExistingNames(ExistingEntries(data)))
  }

  /** The document written back. When `paths` is absent nothing is added
      for it. */
  function EnhancedDocument(data: map<string, Json>, sorted: seq<string>): map<string, Json>
    requires PathsOf(data).JObject?
  {
    var withPaths := if "paths" in data then data["paths" := JObject(EnhancedPaths(data["paths"].fields))] else data;
    withPaths["tags" := JArray(TagEntries(data, sorted))]
  }

  /** Reference: the outcome of one run on the program arguments `argv`
      (the script name first), whether the named file exists, its parsed
      content (`None` when it cannot be read or parsed) and whether writing
      it back succeeds. */
  ghost function EnhanceSpec(argv: seq<string>, fileExists: bool, parsed: Option<Json>, written: bool): Outcome {
    if |argv| != 2 then UsageError
    else if !fileExists then FileNotFound
    else if parsed.None? || !parsed.value.JObject? then Crashed
    else
      var data := parsed.value.fields;
      var paths := PathsOf(data);
      if !paths.JObject? then InvalidPaths
      else if !written then Crashed
      else
        var sorted := Sorted(DiscoveredTags(paths.fields));
        Enhanced(JObject(EnhancedDocument(data, sorted)), |Operations(paths.fields)|,
                 |GeneratedIds(paths.fields)|, |TagEntries(data, sorted)|)
  }

  /** `main`. */
  method Enhance(argv: seq<string>, fileExists: bool, parsed: Option<Json>, written: bool) returns (o: Outcome)
    ensures o == EnhanceSpec(argv, fileExists, parsed, written)
  {
    if |argv| != 2 {
      return UsageError;
    }
    if !fileExists {
      return FileNotFound;
    }
    if parsed.None? || !parsed.value.JObject? {
      return Crashed;
    }
    var data := parsed.value.fields;
    var paths := if "paths" in data then data["paths"] else JObject(map[]);
    if !paths.JObject? {
      return InvalidPaths;
    }
    var newPaths, operations, generated, discovered := EnhanceAllPaths(paths.fields);
    var entries: seq<Json> := [];
    if "tags" in data && data["tags"].JArray? {
      entries := data["tags"].items;
    }
    var names := ExistingTagNames(entries);
    entries := AppendMissing(entries, discovered, names);
    var document := data;
    if "paths" in data {
      document := document["paths" := JObject(newPaths)];
    }
    document := document["tags" := JArray(entries)];
    if !written {
      return Crashed;
    }
    return Enhanced(JObject(document), operations, generated, |entries|);
  }

  // ------------------------------------------------------- properties

  /** Every operation comes out with a usable id: the truthy one it had, or
      the generated one; nothing else in it changes, and members that are not
      operations are kept as they are. */
  lemma EnhancedMemberSpec(path: string, m: string, v: Json)
    ensures var r := EnhancedMember(path, m, v);
      && (IsOperation(m, r) <==> IsOperation(m, v))
      && (IsOperation(m, v) ==>
            && !NeedsId(r.fields)
            && r.fields.Keys == v.fields.Keys + {"operationId"}
            && (forall k :: k in v.fields && k != "operationId" ==> r.fields[k] == v.fields[k])
            && r.fields["operationId"] == (if NeedsId(v.fields) then JString(GeneratedId(m, path)) else v.fields["operationId"]))
      && (!IsOperation(m, v) || !NeedsId(v.fields) ==> r == v)
  {
    GeneratedIdShape(m, path);
  }

  /** The tags of an operation do not depend on its id. */
  lemma OpTagsWithId(path: string, m: string, op: map<string, Json>)
    ensures OpTags(WithId(path, m, op)) == OpTags(op)
  {
    var r := WithId(path, m, op);
    assert ("tags" in r) == ("tags" in op);
    assert "tags" in op ==> r["tags"] == op["tags"];
  }

  /** Processing a path item twice is processing it once. */
  lemma EnhancedItemIdempotent(path: string, fields: map<string, Json>)
    ensures EnhancedItem(path, EnhancedItem(path, fields)) == EnhancedItem(path, fields)
  {
    var e := EnhancedItem(path, fields);
    forall m | m in e ensures EnhancedMember(path, m, e[m]) == e[m] {
      EnhancedMemberSpec(path, m, fields[m]);
      EnhancedMemberSpec(path, m, e[m]);
    }
  }

  /** A second pass over `paths` changes nothing. */
  lemma EnhancedPathsIdempotent(paths: map<string, Json>)
    ensures EnhancedPaths(EnhancedPaths(paths)) == EnhancedPaths(paths)
  {
    var e := EnhancedPaths(paths);
    forall p | p in e ensures EnhancedPathValue(p, e[p]) == e[p] {
      if paths[p].JObject? {
        EnhancedItemIdempotent(p, paths[p].fields);
      }
    }
  }

  /** The operations are the same before and after. */
  lemma EnhancedPathsOperations(paths: map<string, Json>)
    ensures Operations(EnhancedPaths(paths)) == Operations(paths)
  {
    var e := EnhancedPaths(paths);
    forall x | x in Operations(e) ensures x in Operations(paths) {
      var (p, m) := x;
      EnhancedMemberSpec(p, m, paths[p].fields[m]);
    }
    forall x | x in Operations(paths) ensures x in Operations(e) {
      var (p, m) := x;
      EnhancedMemberSpec(p, m, paths[p].fields[m]);
    }
  }

  /** After a pass no operation needs an id. */
  lemma EnhancedPathsNeedNoIds(paths: map<string, Json>)
    ensures GeneratedIds(EnhancedPaths(paths)) == {}
  {
    var e := EnhancedPaths(paths);
    forall x | x in GeneratedIds(e) ensures false {
      var (p, m) := x;
      EnhancedMemberSpec(p, m, paths[p].fields[m]);
    }
  }

  /** The discovered tags are the same before and after. */
  lemma EnhancedPathsTags(paths: map<string, Json>)
    ensures DiscoveredTags(EnhancedPaths(paths)) == DiscoveredTags(paths)
  {
    var e := EnhancedPaths(paths);
    forall t | t in DiscoveredTags(e) ensures t in DiscoveredTags(paths) {
      var p, m :| p in e && e[p].JObject? && m in e[p].fields && IsOperation(m, e[p].fields[m])
                  && t in OpTags(e[p].fields[m].fields);
      EnhancedMemberSpec(p, m, paths[p].fields[m]);
      OpTagsWithId(p, m, paths[p].fields[m].fields);
    }
    forall t | t in DiscoveredTags(paths) ensures t in DiscoveredTags(e) {
      var p, m :| p in paths && paths[p].JObject? && m in paths[p].fields && IsOperation(m, paths[p].fields[m])
                  && t in OpTags(paths[p].fields[m].fields);
      EnhancedMemberSpec(p, m, paths[p].fields[m]);
      OpTagsWithId(p, m, paths[p].fields[m].fields);
      assert e[p].fields[m] == EnhancedMember(p, m, paths[p].fields[m]);
    }
  }

  /** Discovered tags are non-blank and already stripped. */
  lemma DiscoveredTagsStripped(paths: map<string, Json>)
    ensures forall t :: t in DiscoveredTags(paths) ==> t != "" && PyStrip(t) == t
  {
    forall t | t in DiscoveredTags(paths) ensures t != "" && PyStrip(t) == t {
      var p, m :| p in paths && paths[p].JObject? && m in paths[p].fields && IsOperation(m, paths[p].fields[m])
                  && t in OpTags(paths[p].fields[m].fields);
      StrippedTagsStripped(paths[p].fields[m].fields["tags"].items);
    }
  }

  /** The tag list written back keeps the existing entries in order and
      then holds one `{"name": t}` entry per missing tag, in order. */
  lemma TagEntriesKeep(data: map<string, Json>, sorted: seq<string>)
    ensures var entries := ExistingEntries(data);
      var all := TagEntries(data, sorted);
      var added := Missing(sorted, ExistingNames(entries));
      && all[..|entries|] == entries
      && |all| == |entries| + |added|
      && forall i :: 0 <= i < |added| ==> all[|entries| + i] == NameEntry(added[i])
  {
    var entries := ExistingEntries(data);
    assert TagEntries(data, sorted)[..|entries|] == entries;
  }

  /** The tags appended are exactly the discovered tags no existing entry
      names, in strictly increasing order. */
  lemma MissingOfSorted(discovered: set<string>, names: set<string>)
    ensures var added := Missing(Sorted(discovered), names);
      && (forall t :: t in added <==> t in discovered && t !in names)
      && StrictlySorted(added)
  {
    SortedSpec(discovered);
    MissingSorted(Sorted(discovered), names);
  }

  /** Afterwards every discovered tag is named at the top level. */
  lemma TagEntriesNames(data: map<string, Json>, discovered: set<string>)
    requires forall t :: t in discovered ==> PyStrip(t) == t
    ensures ExistingNames(TagEntries(data, Sorted(discovered))) == ExistingNames(ExistingEntries(data)) + discovered
  {
    var entries := ExistingEntries(data);
    var names := ExistingNames(entries);
    var added := Missing(Sorted(discovered), names);
    var addedSet := set t | t in added;
    assert addedSet + names == discovered + names by {
      MissingOfSorted(discovered, names);
    }
    assert ExistingNames(NameEntries(added)) == addedSet by {
      MissingOfSorted(discovered, names);
      NameEntriesNames(added);
    }
    assert TagEntries(data, Sorted(discovered)) == entries + NameEntries(added);
    ExistingNamesAppend(entries, NameEntries(added));
  }

  /** Nothing is missing when every tag is already named. */
  lemma {:induction false} MissingNone(sorted: seq<string>, names: set<string>)
    requires forall t :: t in sorted ==> t in names
    ensures Missing(sorted, names) == []
  {
    if sorted != [] {
      var init := sorted[..|sorted| - 1];
      assert forall t :: t in init ==> t in sorted;
      MissingNone(init, names);
      assert sorted[|sorted| - 1] in names;
    }
  }

  /** Running the script on its own output leaves the document as it is,
      counts the same operations and tags, and generates no id. */
  lemma EnhanceIdempotent(argv: seq<string>, fileExists: bool, parsed: Option<Json>, written: bool)
    requires EnhanceSpec(argv, fileExists, parsed, written).Enhanced?
    ensures var o := EnhanceSpec(argv, fileExists, parsed, written);
      EnhanceSpec(argv, true, Some(o.document), true) == Enhanced(o.document, o.operations, 0, o.topLevelTags)
  {
    EnhancedDocumentStable(parsed.value.fields);
  }

  /** The enhanced document discovers the same tags, names them all, keeps
      the operations, needs no generated id and enhances to itself. */
  lemma EnhancedDocumentStable(data: map<string, Json>)
    requires PathsOf(data).JObject?
    ensures var sorted := Sorted(DiscoveredTags(PathsOf(data).fields));
      var doc := EnhancedDocument(data, sorted);
      && PathsOf(doc).JObject?
      && Sorted(DiscoveredTags(PathsOf(doc).fields)) == sorted
      && EnhancedDocument(doc, sorted) == doc
      && |Operations(PathsOf(doc).fields)| == |Operations(PathsOf(data).fields)|
      && |GeneratedIds(PathsOf(doc).fields)| == 0
      && TagEntries(doc, sorted) == TagEntries(data, sorted)
  {
    var paths := PathsOf(data).fields;
    var discovered := DiscoveredTags(paths);
    var sorted := Sorted(discovered);
    var doc := EnhancedDocument(data, sorted);
    var all := TagEntries(data, sorted);
    var e := EnhancedPaths(paths);
    assert PathsOf(doc) == JObject(e);
    assert ExistingEntries(doc) == all;
    assert DiscoveredTags(e) == discovered by {
      EnhancedPathsTags(paths);
    }
    assert ExistingNames(all) == ExistingNames(ExistingEntries(data)) + discovered by {
      DiscoveredTagsStripped(paths);
      TagEntriesNames(data, discovered);
    }
    assert Missing(sorted, ExistingNames(all)) == [] by {
      SortedSpec(discovered);
      MissingNone(sorted, ExistingNames(all));
    }
    assert TagEntries(doc, sorted) == all;
    assert EnhancedDocument(doc, sorted) == doc by {
      EnhancedPathsIdempotent(paths);
    }
    assert Operations(e) == Operations(paths) by {
      EnhancedPathsOperations(paths);
    }
    assert GeneratedIds(e) == {} by {
      EnhancedPathsNeedNoIds(paths);
    }
  }
}
