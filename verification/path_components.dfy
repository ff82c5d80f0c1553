/** Request paths as `/`-separated components, as the composing responder of
    the route-table builder sees them: splitting on `/` drops empty pieces,
    joining puts one `/` between components, and a path is rebuilt as `/`
    followed by the joined components. */
module PathComponents {

  /** A component: non-empty and free of `/`. */
  predicate IsComponent(c: string) {
    c != [] && '/' !in c
  }

  predicate AllComponents(cs: seq<string>) {
    forall i | 0 <= i < |cs| :: IsComponent(cs[i])
  }

  /** The length of the leading stretch of `s` without `/`. */
  function SegmentLength(s: string): (k: nat)
    ensures k <= |s|
  {
    if s == [] || s[0] == '/' then 0 else 1 + SegmentLength(s[1..])
  }

  /** The leading stretch is free of `/` and ends at a `/` or at the end. */
  lemma {:induction false} SegmentLengthIsMaximal(s: string)
    ensures '/' !in s[..SegmentLength(s)]
    ensures SegmentLength(s) < |s| ==> s[SegmentLength(s)] == '/'
  {
    if s != [] && s[0] != '/' {
      SegmentLengthIsMaximal(s[1..]);
      assert s[..SegmentLength(s)] == [s[0]] + s[1..][..SegmentLength(s[1..])];
    }
  }

  /** `path.split(separator: "/")`: the non-empty pieces between slashes, in order. */
  function Split(p: string): (cs: seq<string>)
    ensures AllComponents(cs)
    decreases |p|
  {
    if p == [] then []
    else if p[0] == '/' then Split(p[1..])
    else
      var k := SegmentLength(p);
      SegmentLengthIsMaximal(p);
      [p[..k]] + Split(p[k..])
  }

  /** `components.joined(separator: "/")`. */
  function Join(cs: seq<string>): string {
    if cs == [] then []
    else if |cs| == 1 then cs[0]
    else cs[0] + "/" + Join(cs[1..])
  }

  /** `"/" + components.joined(separator: "/")`. */
  function Rejoin(cs: seq<string>): string {
    "/" + Join(cs)
  }

  /** The composing responder's rewrite: drop the first `n` components (all of
      them when there are fewer, as `dropFirst` does) and rebuild the rest. */
  function Strip(p: string, n: nat): string {
    var cs := Split(p);
    Rejoin(if n <= |cs| then cs[n..] else [])
  }

  // ---------------------------------------------------------------------------
  // Splitting what was joined

  /** A slash in front changes nothing. */
  lemma SplitSlash(s: string)
    ensures Split("/" + s) == Split(s)
  {
    assert ("/" + s)[1..] == s;
  }

  /** A component followed by nothing or by a slash splits off whole. */
  lemma SplitComponent(c: string, rest: string)
    requires IsComponent(c) && (rest != [] ==> rest[0] == '/')
    ensures Split(c + rest) == [c] + Split(rest)
  {
    var p := c + rest;
    SegmentLengthOf(c, rest);
    assert p[..|c|] == c && p[|c|..] == rest;
  }

  /** The leading stretch of a component followed by a slash or nothing is the
      component. */
  lemma {:induction false} SegmentLengthOf(c: string, rest: string)
    requires '/' !in c && (rest != [] ==> rest[0] == '/')
    ensures SegmentLength(c + rest) == |c|
    decreases |c|
  {
    if c == [] {
      assert c + rest == rest;
    } else {
      assert (c + rest)[0] == c[0] && (c + rest)[1..] == c[1..] + rest;
      SegmentLengthOf(c[1..], rest);
    }
  }

  /** Joined components split back into themselves. */
  lemma {:induction false} SplitJoin(cs: seq<string>)
    requires AllComponents(cs)
    ensures Split(Join(cs)) == cs
    decreases |cs|
  {
    if cs == [] {
    } else if |cs| == 1 {
      SplitComponent(cs[0], "");
      assert cs[0] + "" == cs[0];
    } else {
      var tail := Join(cs[1..]);
      assert Join(cs) == cs[0] + ("/" + tail);
      SplitComponent(cs[0], "/" + tail);
      SplitSlash(tail);
      SplitJoin(cs[1..]);
      assert cs == [cs[0]] + cs[1..];
    }
  }

  /** Rebuilt paths split back into their components: the round trip of the
      rewrite. */
  lemma SplitRejoin(cs: seq<string>)
    requires AllComponents(cs)
    ensures Split(Rejoin(cs)) == cs
  {
    SplitSlash(Join(cs));
    SplitJoin(cs);
  }

  /** Rebuilding one more leading component puts it, with its slash, in front. */
  lemma RejoinCons(c: string, cs: seq<string>)
    requires cs != []
    ensures Rejoin([c] + cs) == "/" + c + Rejoin(cs)
  {
    assert ([c] + cs)[1..] == cs;
  }

  /** A slash and a component in front of a path add that component in front. */
  lemma SplitSlashComponent(c: string, rest: string)
    requires IsComponent(c) && (rest != [] ==> rest[0] == '/')
    ensures Split("/" + c + rest) == [c] + Split(rest)
  {
    var t := c + rest;
    SplitComponent(c, rest);
    SplitSlash(t);
    assert "/" + c + rest == "/" + t;
  }

  // ---------------------------------------------------------------------------
  // The rewrite

  /** The rewritten path holds exactly the components after the first `n`. */
  lemma StripComponents(p: string, n: nat)
    ensures Split(Strip(p, n)) == if n <= |Split(p)| then Split(p)[n..] else []
  {
    var cs := Split(p);
    var rest := if n <= |cs| then cs[n..] else [];
    assert AllComponents(rest);
    SplitRejoin(rest);
  }

  /** Rewriting twice drops the components of both: stripping `m` and then `n`
      is stripping `m + n`. */
  lemma StripStrip(p: string, m: nat, n: nat)
    ensures Strip(Strip(p, m), n) == Strip(p, m + n)
  {
    StripComponents(p, m);
    var cs := Split(p);
    if m <= |cs| && n <= |cs| - m {
      assert cs[m..][n..] == cs[m + n..];
    }
  }

  /** Stripping nothing normalises: the result has the same components, and
      normalising again changes nothing. */
  lemma StripZeroNormalises(p: string)
    ensures Split(Strip(p, 0)) == Split(p)
    ensures Strip(Strip(p, 0), 0) == Strip(p, 0)
  {
    StripComponents(p, 0);
    assert Split(p)[0..] == Split(p);
  }

  /** A path that is already `/` followed by components separated by single
      slashes is left as it is by stripping nothing. */
  lemma StripZeroKeepsRejoined(cs: seq<string>)
    requires AllComponents(cs)
    ensures Strip(Rejoin(cs), 0) == Rejoin(cs)
  {
    SplitRejoin(cs);
    assert cs[0..] == cs;
  }

  /** Stripping every component leaves the root path. */
  lemma StripAll(p: string, n: nat)
    requires |Split(p)| <= n
    ensures Strip(p, n) == "/"
  {
    if n == |Split(p)| {
      assert Split(p)[n..] == [];
    }
  }

  // ---------------------------------------------------------------------------
  // Prefixes

  /** `a` and `b` meet at a slash (or one of them is empty), so no component
      straddles the seam. */
  predicate Seam(a: string, b: string) {
    a == [] || b == [] || a[|a| - 1] == '/' || b[0] == '/'
  }

  /** Splitting a concatenation that meets at a slash splits each side. */
  lemma {:induction false} SplitConcat(a: string, b: string)
    requires Seam(a, b)
    ensures Split(a + b) == Split(a) + Split(b)
    decreases |a|
  {
    if a == [] {
      assert a + b == b;
    } else if a[0] == '/' {
      var t := a[1..];
      assert a == "/" + t;
      SplitConcatSlash(t, b);
      SplitConcat(t, b);
    } else {
      var k := SegmentLength(a);
      SegmentLengthIsMaximal(a);
      var c, rest := a[..k], a[k..];
      assert a == c + rest;
      if rest == [] {
        assert a[|a| - 1] in c;
      }
      SplitConcatHead(c, rest, b);
      SplitConcat(rest, b);
    }
  }

  /** A leading slash comes off both `"/" + t` and `"/" + t + b`. */
  lemma SplitConcatSlash(t: string, b: string)
    ensures Split("/" + t) == Split(t)
    ensures Split(("/" + t) + b) == Split(t + b)
    ensures Seam("/" + t, b) ==> Seam(t, b)
  {
    assert ("/" + t) + b == "/" + (t + b);
    SplitSlash(t);
    SplitSlash(t + b);
  }

  /** The first component of `c + rest` comes off both `c + rest` and
      `c + rest + b`. */
  lemma SplitConcatHead(c: string, rest: string, b: string)
    requires IsComponent(c) && (rest != [] ==> rest[0] == '/')
    requires rest == [] ==> b == [] || b[0] == '/'
    ensures Split(c + rest) == [c] + Split(rest)
    ensures Split((c + rest) + b) == [c] + Split(rest + b)
  {
    assert (c + rest) + b == c + (rest + b);
    SplitComponent(c, rest);
    SplitComponent(c, rest + b);
  }

  /** A request for the mount prefix followed by `rest` is rewritten to the
      components of `rest`: stripping as many components as the prefix has
      removes exactly the prefix. */
  lemma StripPrefix(prefix: string, rest: string)
    requires Seam(prefix, rest)
    ensures Strip(prefix + rest, |Split(prefix)|) == Rejoin(Split(rest))
  {
    SplitConcat(prefix, rest);
    var cs := Split(prefix + rest);
    assert cs[|Split(prefix)|..] == Split(rest);
  }
}
