/**
 * Lexical path handling of Go's `path/filepath` package on a Unix system
 * (separator '/'), as the Linux guest agent uses it: `Clean` and `Join`.
 *
 * `Clean` is stated on path components: the path is cut into its maximal
 * runs of non-separator characters, "." components are dropped, ".." removes
 * the component before it (or is dropped at the root of a rooted path, or is
 * kept at the front of a relative path), and the rest is joined with single
 * separators. This is the same reduction Go's scanning implementation does.
 */
module UnixPath {
  import opened Strings

  /** Length of the leading run of non-separator characters of `p`. */
  function NameLength(p: string): (n: nat)
    ensures n <= |p|
    ensures forall i :: 0 <= i < n ==> p[i] != '/'
    ensures n < |p| ==> p[n] == '/'
  {
    if p == [] || p[0] == '/' then 0 else 1 + NameLength(p[1..])
  }

  /** The components of `p`: its maximal runs of non-separator characters, in order. */
  function Components(p: string): (cs: seq<string>)
    decreases |p|
  {
    if p == [] then []
    else if p[0] == '/' then Components(p[1..])
    else
      var n := NameLength(p);
      [p[..n]] + Components(p[n..])
  }

  /** One step of the reduction: the stack of kept components after reading `c`. */
  function Step(stack: seq<string>, c: string, rooted: bool): seq<string>
  {
    if c == "." then stack
    else if c == ".." then
      if |stack| > 0 && stack[|stack| - 1] != ".." then stack[..|stack| - 1]
      else if rooted then stack
      else stack + [".."]
    else stack + [c]
  }

  /** The reduction of a whole list of components, starting from `stack`. */
  function Resolve(stack: seq<string>, rest: seq<string>, rooted: bool): seq<string>
    decreases |rest|
  {
    if rest == [] then stack else Resolve(Step(stack, rest[0], rooted), rest[1..], rooted)
  }

  /** Components joined by single separators. */
  function JoinSlash(cs: seq<string>): string
  {
    if cs == [] then ""
    else if |cs| == 1 then cs[0]
    else cs[0] + "/" + JoinSlash(cs[1..])
  }

  /** filepath.Clean: the shortest lexically equivalent path; "." for an empty result. */
  function Clean(p: string): (r: string)
    ensures r != ""
    ensures p != "" && p[0] == '/' ==> r[0] == '/'
  {
    if p == "" then "."
    else
      var rooted := p[0] == '/';
      var body := JoinSlash(Resolve([], Components(p), rooted));
      if rooted then "/" + body
      else if body == "" then "."
      else body
  }

  /**
   * filepath.Join of two elements: the non-empty elements from the first
   * non-empty one on, joined with a separator and cleaned; "" when both are empty.
   */
  function Join(dir: string, elem: string): (r: string)
    ensures r == "" <==> dir == "" && elem == ""
    ensures dir != "" && dir[0] == '/' ==> r != "" && r[0] == '/'
  {
    if dir != "" then Clean(dir + "/" + elem)
    else if elem != "" then Clean(elem)
    else ""
  }

  /** `dir` is a rooted path in the form Clean gives it, with no "." or ".." left. */
  predicate IsCleanRooted(dir: string)
  {
    && dir == "/" + JoinSlash(Components(dir))
    && forall k :: 0 <= k < |Components(dir)| ==> Components(dir)[k] != "." && Components(dir)[k] != ".."
  }

  /** No component of `p` steps out of its parent. */
  predicate NoDotDot(p: string)
  {
    forall k :: 0 <= k < |Components(p)| ==> Components(p)[k] != ".."
  }

  /** `cs` with its "." entries removed. */
  function DropDots(cs: seq<string>): (r: seq<string>)
    ensures |r| <= |cs|
  {
    if cs == [] then []
    else if cs[0] == "." then DropDots(cs[1..])
    else [cs[0]] + DropDots(cs[1..])
  }

  // ---------------------------------------------------------------------
  // Lemmas

  lemma {:induction false} NameLengthOfJoin(a: string, b: string)
    ensures NameLength(a + "/" + b) == NameLength(a)
    decreases |a|
  {
    if a != [] && a[0] != '/' {
      assert (a + "/" + b)[1..] == a[1..] + "/" + b;
      NameLengthOfJoin(a[1..], b);
    }
  }

  /** A non-empty name with no separator is a single component. */
  lemma ComponentsOfName(s: string)
    requires s != [] && forall i :: 0 <= i < |s| ==> s[i] != '/'
    ensures Components(s) == [s]
  {
    assert NameLength(s) == |s|;
    assert s[..|s|] == s;
    assert s[|s|..] == [];
  }

  /** Splitting a path joined at a separator gives the components of both halves. */
  lemma {:induction false} ComponentsOfJoin(a: string, b: string)
    ensures Components(a + "/" + b) == Components(a) + Components(b)
    decreases |a|
  {
    var p := a + "/" + b;
    if a == [] {
      assert p == "/" + b;
      assert p[1..] == b;
    } else if a[0] == '/' {
      assert p[1..] == a[1..] + "/" + b;
      ComponentsOfJoin(a[1..], b);
    } else {
      var n := NameLength(a);
      NameLengthOfJoin(a, b);
      assert p[..n] == a[..n];
      assert p[n..] == a[n..] + "/" + b;
      ComponentsOfJoin(a[n..], b);
    }
  }

  /** Reducing a concatenation is reducing the second part from the first part's stack. */
  lemma {:induction false} ResolveAppend(stack: seq<string>, a: seq<string>, b: seq<string>, rooted: bool)
    ensures Resolve(stack, a + b, rooted) == Resolve(Resolve(stack, a, rooted), b, rooted)
    decreases |a|
  {
    if a == [] {
      assert a + b == b;
    } else {
      assert (a + b)[0] == a[0];
      assert (a + b)[1..] == a[1..] + b;
      ResolveAppend(Step(stack, a[0], rooted), a[1..], b, rooted);
    }
  }

  /** Without "..", the reduction only drops "." components. */
  lemma {:induction false} ResolveNames(stack: seq<string>, rest: seq<string>, rooted: bool)
    requires forall k :: 0 <= k < |rest| ==> rest[k] != ".."
    ensures Resolve(stack, rest, rooted) == stack + DropDots(rest)
    decreases |rest|
  {
    if rest != [] {
      ResolveNames(Step(stack, rest[0], rooted), rest[1..], rooted);
      if rest[0] != "." {
        assert stack + [rest[0]] + DropDots(rest[1..]) == stack + ([rest[0]] + DropDots(rest[1..]));
      }
    }
  }

  lemma {:induction false} DropDotsOfNames(cs: seq<string>)
    requires forall k :: 0 <= k < |cs| ==> cs[k] != "."
    ensures DropDots(cs) == cs
    decreases |cs|
  {
    if cs != [] {
      DropDotsOfNames(cs[1..]);
    }
  }

  lemma {:induction false} JoinSlashAppend(a: seq<string>, b: seq<string>)
    requires a != [] && b != []
    ensures JoinSlash(a + b) == JoinSlash(a) + "/" + JoinSlash(b)
    decreases |a|
  {
    if |a| > 1 {
      assert (a + b)[1..] == a[1..] + b;
      JoinSlashAppend(a[1..], b);
    } else {
      assert (a + b)[1..] == b;
    }
  }

  /** The reduction of a clean rooted directory joined with a sub-path that has no "..". */
  lemma ResolveUnderCleanDir(dir: string, sub: string)
    requires IsCleanRooted(dir)
    requires NoDotDot(sub)
    ensures Resolve([], Components(dir + "/" + sub), true) == Components(dir) + DropDots(Components(sub))
  {
    var cd, cs := Components(dir), Components(sub);
    ComponentsOfJoin(dir, sub);
    ResolveAppend([], cd, cs, true);
    ResolveNames([], cd, true);
    DropDotsOfNames(cd);
    assert [] + cd == cd;
    ResolveNames(cd, cs, true);
  }

  /**
   * Joining a clean rooted directory with a sub-path that has no ".."
   * component stays under that directory, as a string prefix.
   */
  lemma JoinWithoutDotDotStaysUnder(dir: string, sub: string)
    requires IsCleanRooted(dir)
    requires NoDotDot(sub)
    ensures HasPrefix(Join(dir, sub), dir)
  {
    var cd, ds := Components(dir), DropDots(Components(sub));
    var p := dir + "/" + sub;
    assert dir != "" && p[0] == '/';
    ResolveUnderCleanDir(dir, sub);
    var r := Join(dir, sub);
    assert r == "/" + JoinSlash(cd + ds);
    if cd == [] {
      assert dir == "/";
    } else if ds == [] {
      assert cd + ds == cd;
      assert r == dir;
    } else {
      JoinSlashAppend(cd, ds);
      assert r == dir + ("/" + JoinSlash(ds));
    }
  }
}
