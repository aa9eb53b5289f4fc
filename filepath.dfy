/** The lexical part of Go's `path/filepath` on Unix, as far as the Typst
    compiler uses it: `Clean`, two-element `Join` and `Base`. */
module GoFilepath {
  import opened Text

  /** The path elements that matter: pieces other than "" and ".". */
  function Elements(pieces: seq<string>): (r: seq<string>)
    ensures forall i :: 0 <= i < |r| ==> r[i] != "" && r[i] != "." && r[i] in pieces
  {
    if pieces == [] then []
    else (if pieces[0] == "" || pieces[0] == "." then [] else [pieces[0]]) + Elements(pieces[1..])
  }

  /** One element applied to the resolved elements so far: ".." removes the
      previous element, is dropped at the root of a rooted path, and is kept
      when nothing precedes it in a relative path. */
  function Step(stack: seq<string>, e: string, rooted: bool): seq<string> {
    if e == ".." then
      if |stack| > 0 && stack[|stack| - 1] != ".." then stack[..|stack| - 1]
      else if rooted then stack
      else stack + [".."]
    else stack + [e]
  }

  /** The elements left after every ".." has been resolved, in order. */
  function Resolve(elems: seq<string>, rooted: bool): (r: seq<string>)
    requires forall i :: 0 <= i < |elems| ==> elems[i] != "" && elems[i] != "." && NoSlash(elems[i])
    ensures forall i :: 0 <= i < |r| ==> r[i] != "" && r[i] != "." && NoSlash(r[i])
    ensures rooted ==> forall i :: 0 <= i < |r| ==> r[i] != ".."
  {
    if elems == [] then [] else Step(Resolve(elems[..|elems| - 1], rooted), elems[|elems| - 1], rooted)
  }

  /** Resolved elements written back as a path. */
  function Render(stack: seq<string>, rooted: bool): string {
    if rooted then "/" + Join(stack, "/")
    else if stack == [] then "."
    else Join(stack, "/")
  }

  predicate Rooted(s: string) { s != [] && s[0] == '/' }

  function Resolved(s: string): seq<string> {
    Resolve(Elements(SplitSlash(s)), Rooted(s))
  }

  /** `filepath.Clean`: the shortest lexically equivalent path, "." for the
      empty path. */
  function Clean(s: string): (r: string)
    ensures r != ""
  {
    if s == "" then "." else Render(Resolved(s), Rooted(s))
  }

  /** `filepath.Join(a, b)`: the non-empty elements joined by "/" and cleaned,
      or "" when both are empty. */
  function Join2(a: string, b: string): string {
    if a != "" then Clean(a + "/" + b)
    else if b != "" then Clean(b)
    else ""
  }

  /** `filepath.Base`: the last element after trailing slashes are removed;
      "." for the empty path and "/" for a path of slashes only. */
  function Base(s: string): (r: string)
    ensures r != ""
    ensures r == "/" || NoSlash(r)
  {
    if s == "" then "."
    else
      var n := TrailingCount(s, IsSlash);
      assert n < |s| ==> !IsSlash(s[..|s| - n][|s| - n - 1]);
      LastElement(s[..|s| - n])
  }

  /** The part of `Base` after trailing slashes are removed: what follows the
      last slash, or "/" when nothing is left. */
  function LastElement(t: string): (r: string)
    requires t == "" || t[|t| - 1] != '/'
    ensures r != ""
    ensures r == "/" || NoSlash(r)
  {
    if t == "" then "/"
    else
      var k := TrailingCount(t, NotSlash);
      assert k >= 1 by { assert NotSlash(t[|t| - 1]); }
      t[|t| - k..]
  }

  /** The base is what follows the last slash. */
  lemma BaseOfPlainTail(dir: string, name: string)
    requires name != "" && NoSlash(name)
    ensures Base(dir + "/" + name) == name
  {
    var s := (dir + "/") + name;
    BaseWithoutTrailingSlash(s);
    TrailingCountOfRun(dir + "/", name, NotSlash);
    SuffixOfAppend(dir + "/", name);
  }

  /** Without a trailing slash, the base is the last run of non-slashes. */
  lemma BaseWithoutTrailingSlash(s: string)
    requires s != "" && !IsSlash(s[|s| - 1])
    ensures Base(s) == s[|s| - TrailingCount(s, NotSlash)..]
  {
    assert TrailingCount(s, IsSlash) == 0;
    assert s[..|s|] == s;
    assert Base(s) == LastElement(s);
  }

  lemma SuffixOfAppend<T>(a: seq<T>, b: seq<T>)
    ensures (a + b)[|a + b| - |b|..] == b
  {
  }

  /** Counting back over a run of `p`-characters that follows a character
      failing `p`. */
  lemma {:induction false} TrailingCountOfRun(a: string, b: string, p: char -> bool)
    requires forall i :: 0 <= i < |b| ==> p(b[i])
    requires a != [] && !p(a[|a| - 1])
    ensures TrailingCount(a + b, p) == |b|
  {
    if b == [] {
      assert a + b == a;
    } else {
      var b' := b[..|b| - 1];
      assert (a + b)[..|a + b| - 1] == a + b';
      TrailingCountOfRun(a, b', p);
    }
  }

  lemma {:induction false} ElementsAppend(a: seq<string>, b: seq<string>)
    ensures Elements(a + b) == Elements(a) + Elements(b)
  {
    if a == [] {
      assert a + b == b;
    } else {
      assert (a + b)[1..] == a[1..] + b;
      ElementsAppend(a[1..], b);
    }
  }

  /** Joining a directory with a relative name resolves the name's elements
      after the directory's. */
  lemma ResolvedOfJoin(d: string, b: string)
    requires d != "" && NoSlash(b)
    ensures Rooted(d + "/" + b) == Rooted(d)
    ensures Resolved(d + "/" + b) ==
      if b == "" || b == "." then Resolved(d) else Step(Resolved(d), b, Rooted(d))
  {
    SplitSlashSnoc(d, b);
    ElementsAppend(SplitSlash(d), [b]);
    var es := Elements(SplitSlash(d));
    if b == "" || b == "." {
      assert Elements([b]) == [];
      assert es + [] == es;
    } else {
      assert Elements([b]) == [b];
      assert (es + [b])[..|es|] == es;
    }
  }

  /** A plain file name joined to a directory lands directly inside the
      cleaned directory. */
  lemma JoinPlainName(d: string, b: string)
    requires b != "" && b != "." && b != ".." && NoSlash(b)
    ensures Join2(d, b) ==
      if Clean(d) == "." then b else if Clean(d) == "/" then "/" + b else Clean(d) + "/" + b
  {
    if d == "" {
      SplitSlashPlain(b);
      assert Elements([b]) == [b];
      assert !Rooted(b);
      assert Resolve([b], false) == Step(Resolve([], false), b, false) by {
        assert [b][..0] == [];
      }
    } else {
      ResolvedOfJoin(d, b);
      RenderSnoc(Resolved(d), b, Rooted(d));
    }
  }

  lemma RenderSnoc(r: seq<string>, b: string, rooted: bool)
    requires b != "" && b != ".."
    requires forall i :: 0 <= i < |r| ==> r[i] != "" && r[i] != "." && NoSlash(r[i])
    ensures var c := Render(r, rooted);
      Render(r + [b], rooted) == if c == "." then b else if c == "/" then "/" + b else c + "/" + b
  {
    if r == [] {
      assert Join(r + [b], "/") == b;
    } else {
      JoinSnoc(r, b, "/");
      JoinHead(r, "/");
      var j := Join(r, "/");
      if rooted {
        assert |"/" + j| >= 2;
        assert ("/" + j)[0] == '/';
        assert "/" + Join(r + [b], "/") == ("/" + j) + "/" + b;
      } else if |r| == 1 {
        assert j == r[0] && r[0][0] != '/';
      } else {
        assert j == r[0] + "/" + Join(r[1..], "/");
        assert |j| >= 2;
      }
    }
  }

  lemma JoinHead(parts: seq<string>, sep: string)
    requires parts != []
    ensures |Join(parts, sep)| >= |parts[0]|
  {
  }

  /** Joining a directory with ".." gives its parent: the last resolved
      element of the directory is dropped. */
  lemma JoinDotDot(d: string)
    requires d != ""
    requires Resolved(d) != [] && Resolved(d)[|Resolved(d)| - 1] != ".."
    ensures Join2(d, "..") == Render(Resolved(d)[..|Resolved(d)| - 1], Rooted(d))
  {
    var s := d + "/" + "..";
    ResolvedOfJoin(d, "..");
    var r := Resolved(d);
    assert Resolved(s) == r[..|r| - 1] by {
      assert Step(r, "..", Rooted(d)) == r[..|r| - 1];
    }
    assert Join2(d, "..") == Render(Resolved(s), Rooted(s));
  }
}
