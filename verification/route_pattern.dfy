/** The route-path language of the regex routers.

    A route path such as `/users/:id` is read as a sequence of tokens: each
    `:` followed by a maximal run of alphanumeric characters is a parameter
    named by that run, every other character is a literal. The routers turn
    the path into the extended regular expression obtained by replacing each
    parameter with the capture `([[:alnum:]]+)` and anchoring the result with
    `^` and `$`; the parameter names, in source order, are the route's keys.

    Instead of a general regular-expression engine this module gives the
    language such a pattern denotes (`Instantiate`) and a direct matcher
    (`Match`), and proves that the matcher finds exactly the captures of
    every string in that language. */
module RoutePattern {
  import opened Options

  /** `[[:alnum:]]` in the C locale. */
  predicate IsAlnum(c: char) {
    ('a' <= c <= 'z') || ('A' <= c <= 'Z') || ('0' <= c <= '9')
  }

  /** Every character of `s` is alphanumeric. */
  predicate AllAlnum(s: string) {
    s != [] ==> IsAlnum(s[0]) && AllAlnum(s[1..])
  }

  /** A non-empty alphanumeric string: a parameter name, or a value a capture accepts. */
  predicate IsAlnumString(s: string) {
    s != [] && AllAlnum(s)
  }

  /** The characters that are special in a POSIX extended regular expression. */
  predicate IsRegexMeta(c: char) {
    c in ".[]()*+?{}|^$\\"
  }

  datatype Token = Lit(c: char) | Param(name: string)

  /** Length of the longest alphanumeric prefix of `s` (see AlnumRunIsMaximal). */
  function AlnumRun(s: string): (k: nat)
    ensures k <= |s|
  {
    if s == [] || !IsAlnum(s[0]) then 0 else 1 + AlnumRun(s[1..])
  }

  /** The alphanumeric run is the longest alphanumeric prefix: every character in
      it is alphanumeric, and the character after it, if any, is not. */
  lemma {:induction false} AlnumRunIsMaximal(s: string)
    ensures AllAlnum(s[..AlnumRun(s)])
    ensures AlnumRun(s) < |s| ==> !IsAlnum(s[AlnumRun(s)])
    decreases |s|
  {
    var k := AlnumRun(s);
    if k > 0 {
      AlnumRunIsMaximal(s[1..]);
      assert k < |s| ==> s[k] == s[1..][k - 1];
      assert s[..k][0] == s[0];
      assert s[..k][1..] == s[1..][..k - 1];
    }
  }

  /** The route path a token sequence is written as. */
  function Render(ts: seq<Token>): string {
    if ts == [] then []
    else
      match ts[0]
      case Lit(c) => [c] + Render(ts[1..])
      case Param(name) => [':'] + name + Render(ts[1..])
  }

  /** Whether token `b` may follow token `a` in the reading of a path: neither a
      parameter nor a literal `:` is followed by a literal alphanumeric character
      (which would have been read as part of a name). */
  predicate CanFollow(a: Token, b: Token) {
    (a.Param? || a == Lit(':')) ==> !(b.Lit? && IsAlnum(b.c))
  }

  /** A token sequence is canonical when it is the reading of the path it renders to:
      parameter names are non-empty alphanumeric runs and each token may follow the
      one before it. */
  predicate Canonical(ts: seq<Token>) {
    ts != [] ==>
      && (ts[0].Param? ==> IsAlnumString(ts[0].name))
      && (|ts| > 1 ==> CanFollow(ts[0], ts[1]))
      && Canonical(ts[1..])
  }

  /** Reads a route path: `:` followed by a maximal alphanumeric run is a parameter,
      anything else is a literal character. */
  function Compile(path: string): (ts: seq<Token>)
    ensures |ts| <= |path|
    decreases |path|
  {
    if path == [] then []
    else if path[0] == ':' && 1 < |path| && IsAlnum(path[1]) then
      var k := AlnumRun(path[1..]);
      [Param(path[1..k + 1])] + Compile(path[k + 1..])
    else
      [Lit(path[0])] + Compile(path[1..])
  }

  /** The parameter names of a token sequence, in order. */
  function ParamNames(ts: seq<Token>): (names: seq<string>)
    ensures |names| <= |ts|
  {
    if ts == [] then []
    else
      match ts[0]
      case Lit(_) => ParamNames(ts[1..])
      case Param(name) => [name] + ParamNames(ts[1..])
  }

  /** The parameter keys of a route path: the parameter names of its reading, which
      are exactly what the group search over the path collects. */
  function Keys(path: string): (ks: seq<string>)
    ensures ks == GroupParams(path)
  {
    ParamNames(Compile(path))
  }

  /** No parameter is directly followed by another: two adjacent captures could split
      one alphanumeric run in more than one way. */
  predicate NoAdjacentParams(ts: seq<Token>) {
    ts != [] ==>
      && (|ts| > 1 && ts[0].Param? ==> ts[1].Lit?)
      && NoAdjacentParams(ts[1..])
  }

  /** The largest number of capture groups the matcher reports: nine slots follow
      the whole-match slot. The slot loop as written reads at most eight of them
      and traps on nine (see CaptureSlots); the pattern language itself is
      stated for every route the matcher can report in full. */
  const MaxCaptures: nat := 9

  /** The route paths this model covers: no regex metacharacter among the literal
      characters, no two adjacent parameters, and at most `MaxCaptures` parameters. */
  predicate ValidRoutePath(path: string) {
    var ts := Compile(path);
    && (forall i | 0 <= i < |ts| && ts[i].Lit? :: !IsRegexMeta(ts[i].c))
    && NoAdjacentParams(ts)
    && |ParamNames(ts)| <= MaxCaptures
  }

  // ---------------------------------------------------------------------------
  // The regular expression text

  /** The template every parameter is replaced with. */
  const Capture: string := "([[:alnum:]]+)"

  /** The regular expression written for a token sequence, before anchoring. */
  function RegexBody(ts: seq<Token>): string {
    if ts == [] then []
    else
      match ts[0]
      case Lit(c) => [c] + RegexBody(ts[1..])
      case Param(_) => Capture + RegexBody(ts[1..])
  }

  /** Slicing a suffix again is slicing the original. */
  lemma SliceOfSuffix(s: string, a: nat, b: nat, c: nat)
    requires a <= |s| && b <= c <= |s| - a
    ensures s[a..][b..c] == s[a + b..a + c]
    ensures s[a..][b..] == s[a + b..]
  {
  }

  /** The pieces of `[x] + a + b`. */
  lemma ConsSlices<T>(x: T, a: seq<T>, b: seq<T>)
    ensures ([x] + a + b)[0] == x
    ensures ([x] + a + b)[1..] == a + b
    ensures ([x] + a + b)[1..|a| + 1] == a
    ensures ([x] + a + b)[|a| + 1..] == b
  {
  }

  /** Concatenation is associative (stated once, so that proofs can cite it cheaply). */
  lemma ConcatAssoc<T>(a: seq<T>, b: seq<T>, c: seq<T>)
    ensures a + b + c == a + (b + c)
  {
  }

  /** Whether a match of `:([[:alnum:]]+)` starts at position `j` of `s`. */
  predicate StartsParam(s: string, j: nat) {
    j + 1 < |s| && s[j] == ':' && IsAlnum(s[j + 1])
  }

  /** Position of the leftmost match of `:([[:alnum:]]+)` in `s` at or after `from`,
      as the index of its `:`. */
  function LeftmostParam(s: string, from: nat): (r: Option<nat>)
    requires from <= |s|
    ensures r.Some? ==> from <= r.value && StartsParam(s, r.value)
    ensures r.Some? ==> forall j | from <= j < r.value :: !StartsParam(s, j)
    ensures r.None? ==> forall j | from <= j < |s| :: !StartsParam(s, j)
    decreases |s| - from
  {
    if from == |s| then None
    else if StartsParam(s, from) then Some(from)
    else LeftmostParam(s, from + 1)
  }

  /** `Regex.replace(path, withTemplate: Capture)` with the parameter expression:
      repeatedly find the leftmost match, keep the text before it, emit the template,
      and continue after the match. */
  function ReplaceParams(s: string): (r: string)
    ensures r == RegexBody(Compile(s))
    decreases |s|
  {
    match LeftmostParam(s, 0)
    case None =>
      NoParamReadsAsLiterals(s);
      s
    case Some(start) =>
      var end := start + 1 + AlnumRun(s[start + 1..]);
      var tail := ReplaceParams(s[end..]);
      ReadStep(s, start, end);
      ConcatAssoc(s[..start], Capture, tail);
      s[..start] + Capture + tail
  }

  /** `Regex.groups(path)` with the parameter expression: the first capture of every
      successive leftmost match. */
  function GroupParams(s: string): (names: seq<string>)
    ensures names == ParamNames(Compile(s))
    decreases |s|
  {
    match LeftmostParam(s, 0)
    case None =>
      NoParamReadsAsLiterals(s);
      []
    case Some(start) =>
      var end := start + 1 + AlnumRun(s[start + 1..]);
      ReadStep(s, start, end);
      [s[start + 1..end]] + GroupParams(s[end..])
  }

  /** The anchored expression a route compiles its path to: the regex of the
      path's reading between `^` and `$`. */
  function RouteRegex(path: string): (r: string)
    ensures r == "^" + RegexBody(Compile(path)) + "$"
  {
    "^" + ReplaceParams(path) + "$"
  }

  /** The regex, keys and rendering of a token sequence, one token at a time. */
  lemma TokenCons(t: Token, ts: seq<Token>)
    ensures t.Lit? ==> RegexBody([t] + ts) == [t.c] + RegexBody(ts)
    ensures t.Param? ==> RegexBody([t] + ts) == Capture + RegexBody(ts)
    ensures t.Lit? ==> ParamNames([t] + ts) == ParamNames(ts)
    ensures t.Param? ==> ParamNames([t] + ts) == [t.name] + ParamNames(ts)
    ensures t.Lit? ==> Render([t] + ts) == [t.c] + Render(ts)
    ensures t.Param? ==> Render([t] + ts) == [':'] + t.name + Render(ts)
  {
    assert ([t] + ts)[0] == t && ([t] + ts)[1..] == ts;
  }

  /** One reading step when `s` does not start with a parameter. */
  lemma CompileStepLit(s: string)
    requires s != [] && !(s[0] == ':' && 1 < |s| && IsAlnum(s[1]))
    ensures Compile(s) == [Lit(s[0])] + Compile(s[1..])
  {
  }

  /** One reading step when `s` starts with a parameter whose name is `s[1..k + 1]`. */
  lemma CompileStepParam(s: string, k: nat)
    requires 1 < |s| && s[0] == ':' && IsAlnum(s[1])
    requires k == AlnumRun(s[1..])
    ensures Compile(s) == [Param(s[1..k + 1])] + Compile(s[k + 1..])
  {
  }

  /** The first token of the reading of a non-empty `s` is there, and a literal
      one is the first character of `s`. */
  predicate Leads(ts: seq<Token>, s: string) {
    s != [] ==> ts != [] && (ts[0].Lit? ==> ts[0].c == s[0])
  }

  /** The reading of a path is lossless and canonical: rendering it gives the path back,
      and it is the only canonical reading (see CompileRender for the converse). */
  lemma {:induction false} CompileReadsBack(path: string)
    ensures Render(Compile(path)) == path
    ensures Canonical(Compile(path))
    ensures Leads(Compile(path), path)
    decreases |path|
  {
    if path != [] {
      if StartsParam(path, 0) {
        var k := AlnumRun(path[1..]);
        CompileReadsBack(path[k + 1..]);
        ReadsBackParam(path, k, path[1..k + 1], path[k + 1..]);
      } else {
        CompileReadsBack(path[1..]);
        ReadsBackLit(path);
      }
    }
  }

  /** The step of CompileReadsBack for a path starting with a parameter. */
  lemma ReadsBackParam(path: string, k: nat, name: string, rest: string)
    requires StartsParam(path, 0) && k == AlnumRun(path[1..])
    requires name == path[1..k + 1] && rest == path[k + 1..]
    requires Render(Compile(rest)) == rest && Canonical(Compile(rest)) && Leads(Compile(rest), rest)
    ensures Render(Compile(path)) == path
    ensures Canonical(Compile(path))
    ensures Leads(Compile(path), path)
  {
    CompileStepParam(path, k);
    TokenCons(Param(name), Compile(rest));
    NameAfterColon(path, k, name, rest);
    CanonicalCons(Param(name), Compile(rest));
  }

  /** The step of CompileReadsBack for a path starting with a literal. */
  lemma ReadsBackLit(path: string)
    requires path != [] && !StartsParam(path, 0)
    requires var rest := path[1..];
      Render(Compile(rest)) == rest && Canonical(Compile(rest)) && Leads(Compile(rest), rest)
    ensures Render(Compile(path)) == path
    ensures Canonical(Compile(path))
    ensures Leads(Compile(path), path)
  {
    var rest := path[1..];
    var ts := Compile(rest);
    var t := Lit(path[0]);
    CompileStepLit(path);
    assert Compile(path) == [t] + ts;
    TokenCons(t, ts);
    assert path == [path[0]] + rest;
    assert ts != [] ==> CanFollow(t, ts[0]);
    CanonicalCons(t, ts);
  }

  /** A parameter at the start of `path` splits it into `:`, a name, and a rest that
      does not start with an alphanumeric character. */
  lemma NameAfterColon(path: string, k: nat, name: string, rest: string)
    requires StartsParam(path, 0) && k == AlnumRun(path[1..])
    requires name == path[1..k + 1] && rest == path[k + 1..]
    ensures IsAlnumString(name) && path == [':'] + name + rest
    ensures rest != [] ==> !IsAlnum(rest[0])
  {
    var s := path[1..];
    SliceOfSuffix(path, 1, 0, k);
    SliceOfSuffix(path, 1, k, k);
    AlnumRunIsMaximal(s);
    assert path == [':'] + s;
    assert s == name + rest;
  }

  /** Extending a canonical sequence at the front keeps it canonical. */
  lemma CanonicalCons(t: Token, ts: seq<Token>)
    requires t.Param? ==> IsAlnumString(t.name)
    requires ts != [] ==> CanFollow(t, ts[0])
    requires Canonical(ts)
    ensures Canonical([t] + ts)
  {
    assert ([t] + ts)[1..] == ts;
  }

  /** Reading literals before the first parameter: when no parameter starts before
      `start`, the reading of `s` is those literals followed by the reading of the rest. */
  lemma {:induction false} CompileLiteralPrefix(s: string, start: nat)
    requires start <= |s|
    requires forall j | 0 <= j < start :: !StartsParam(s, j)
    ensures RegexBody(Compile(s)) == s[..start] + RegexBody(Compile(s[start..]))
    ensures ParamNames(Compile(s)) == ParamNames(Compile(s[start..]))
    decreases start
  {
    if start > 0 {
      assert !StartsParam(s, 0);
      CompileStepLit(s);
      TokenCons(Lit(s[0]), Compile(s[1..]));
      NoParamShift(s, start);
      CompileLiteralPrefix(s[1..], start - 1);
      ConsPrefix(s, start, RegexBody(Compile(s[start..])));
    }
  }

  /** Dropping the first character shifts the positions where no parameter starts. */
  lemma NoParamShift(s: string, start: nat)
    requires 0 < start <= |s|
    requires forall j | 0 <= j < start :: !StartsParam(s, j)
    ensures forall j | 0 <= j < start - 1 :: !StartsParam(s[1..], j)
  {
    forall j | 0 <= j < start - 1
      ensures !StartsParam(s[1..], j)
    {
      assert !StartsParam(s, j + 1);
    }
  }

  /** Putting the first character back in front of a prefix of the tail. */
  lemma ConsPrefix(s: string, start: nat, r: string)
    requires 0 < start <= |s|
    ensures [s[0]] + (s[1..][..start - 1] + r) == s[..start] + r
    ensures s[1..][start - 1..] == s[start..]
  {
    assert [s[0]] + s[1..][..start - 1] == s[..start];
  }

  /** Without any parameter, the reading is all literals: its regex is the text
      itself and it has no parameter names. */
  lemma NoParamReadsAsLiterals(s: string)
    requires LeftmostParam(s, 0).None?
    ensures RegexBody(Compile(s)) == s
    ensures ParamNames(Compile(s)) == []
  {
    CompileLiteralPrefix(s, |s|);
    assert s[|s|..] == [] && s[..|s|] == s;
    assert Compile([]) == [];
    assert RegexBody(Compile(s)) == s + RegexBody([]);
  }

  /** The reading of `s` when its leftmost parameter spans `start..end`: the
      literals before it, then the parameter, then the reading of the rest. */
  lemma ReadStep(s: string, start: nat, end: nat)
    requires LeftmostParam(s, 0) == Some(start)
    requires end == start + 1 + AlnumRun(s[start + 1..])
    ensures RegexBody(Compile(s)) == s[..start] + (Capture + RegexBody(Compile(s[end..])))
    ensures ParamNames(Compile(s)) == [s[start + 1..end]] + ParamNames(Compile(s[end..]))
  {
    CompileLiteralPrefix(s, start);
    ParamAt(s, start, end);
  }

  /** The reading of `s[start..]` when a parameter spanning `start..end` starts it. */
  lemma ParamAt(s: string, start: nat, end: nat)
    requires StartsParam(s, start)
    requires end == start + 1 + AlnumRun(s[start + 1..])
    ensures RegexBody(Compile(s[start..])) == Capture + RegexBody(Compile(s[end..]))
    ensures ParamNames(Compile(s[start..])) == [s[start + 1..end]] + ParamNames(Compile(s[end..]))
  {
    var t, name, rest := s[start..], s[start + 1..end], s[end..];
    var k := end - start - 1;
    SliceOfSuffix(s, start, 1, end - start);
    SliceOfSuffix(s, start, end - start, end - start);
    assert t[1..] == s[start + 1..];
    assert t[1..k + 1] == name && t[k + 1..] == rest;
    CompileStepParam(t, k);
    var ts := Compile(rest);
    assert Compile(t) == [Param(name)] + ts;
    TokenCons(Param(name), ts);
  }

  /** Reading back a rendered canonical token sequence gives the same tokens: together
      with `Render(Compile(p)) == p` this makes `Compile` the unique canonical reading. */
  lemma {:induction false} CompileRender(ts: seq<Token>)
    requires Canonical(ts)
    ensures Compile(Render(ts)) == ts
    decreases |ts|
  {
    if ts != [] {
      var rest := ts[1..];
      CompileRender(rest);
      assert ts == [ts[0]] + rest;
      TokenCons(ts[0], rest);
      RenderFirst(rest);
      match ts[0]
      case Param(name) => RenderParamBack(name, rest, Render(rest));
      case Lit(c) => RenderLitBack(c, rest, Render(rest));
    }
  }

  /** The first character a non-empty token sequence renders to. */
  lemma RenderFirst(ts: seq<Token>)
    ensures ts != [] ==> Render(ts) != [] && Render(ts)[0] == (if ts[0].Lit? then ts[0].c else ':')
  {
    if ts != [] {
      TokenCons(ts[0], ts[1..]);
      assert ts == [ts[0]] + ts[1..];
    }
  }

  /** The step of CompileRender for a leading parameter. */
  lemma RenderParamBack(name: string, rest: seq<Token>, tail: string)
    requires IsAlnumString(name) && tail == Render(rest) && Compile(tail) == rest
    requires rest != [] ==> CanFollow(Param(name), rest[0])
    requires rest != [] ==> tail != [] && tail[0] == (if rest[0].Lit? then rest[0].c else ':')
    ensures Compile([':'] + name + tail) == [Param(name)] + rest
  {
    var s := [':'] + name + tail;
    assert rest == [] ==> tail == [];
    AlnumRunOfConcat(name, tail);
    ConsSlices(':', name, tail);
    CompileStepParam(s, |name|);
  }

  /** The step of CompileRender for a leading literal. */
  lemma RenderLitBack(c: char, rest: seq<Token>, tail: string)
    requires tail == Render(rest) && Compile(tail) == rest
    requires rest != [] ==> CanFollow(Lit(c), rest[0])
    requires rest != [] ==> tail != [] && tail[0] == (if rest[0].Lit? then rest[0].c else ':')
    ensures Compile([c] + tail) == [Lit(c)] + rest
  {
    var s := [c] + tail;
    assert rest == [] ==> tail == [];
    assert s[1..] == tail;
    CompileStepLit(s);
  }

  /** The alphanumeric run of an alphanumeric string followed by a non-alphanumeric
      character (or nothing) is exactly that string. */
  lemma {:induction false} AlnumRunOfConcat(a: string, b: string)
    requires AllAlnum(a)
    requires b != [] ==> !IsAlnum(b[0])
    ensures AlnumRun(a + b) == |a|
    decreases |a|
  {
    if a != [] {
      assert (a + b)[0] == a[0] && (a + b)[1..] == a[1..] + b;
      AlnumRunOfConcat(a[1..], b);
    } else {
      assert a + b == b;
    }
  }

  // ---------------------------------------------------------------------------
  // The language of a pattern and its matcher

  /** A value a capture `([[:alnum:]]+)` can take, for each of several captures. */
  predicate AllCaptures(vs: seq<string>) {
    forall i | 0 <= i < |vs| :: IsAlnumString(vs[i])
  }

  /** The string obtained by putting `vs[i]` in place of the i-th parameter: the
      anchored regex of a pattern matches `s` exactly when `s` is such an instance
      for some valid captures, and those are the captures it reports. */
  function Instantiate(ts: seq<Token>, vs: seq<string>): string
    requires |vs| == |ParamNames(ts)|
  {
    if ts == [] then []
    else
      match ts[0]
      case Lit(c) => [c] + Instantiate(ts[1..], vs)
      case Param(_) => vs[0] + Instantiate(ts[1..], vs[1..])
  }

  /** The matcher: walks the pattern and the string together, taking the longest
      alphanumeric run for each parameter; the whole string must be consumed. Every
      answer it gives is a valid instance of the pattern. */
  function Match(ts: seq<Token>, s: string): (r: Option<seq<string>>)
    ensures r.Some? ==> |r.value| == |ParamNames(ts)| && AllCaptures(r.value)
    ensures r.Some? ==> Instantiate(ts, r.value) == s
    decreases |ts|
  {
    if ts == [] then
      if s == [] then Some([]) else None
    else
      match ts[0]
      case Lit(c) =>
        if s != [] && s[0] == c then
          var r := Match(ts[1..], s[1..]);
          assert r.Some? ==> [c] + s[1..] == s;
          r
        else None
      case Param(_) =>
        var k := AlnumRun(s);
        if k == 0 then None
        else
          match Match(ts[1..], s[k..])
          case None => None
          case Some(vs) =>
            AlnumRunIsMaximal(s);
            CaptureCons(s, k, vs);
            Some([s[..k]] + vs)
  }

  /** Putting a capture `s[..k]` in front of valid captures. */
  lemma CaptureCons(s: string, k: nat, vs: seq<string>)
    requires 0 < k <= |s| && AllAlnum(s[..k]) && AllCaptures(vs)
    ensures AllCaptures([s[..k]] + vs)
    ensures ([s[..k]] + vs)[0] == s[..k] && ([s[..k]] + vs)[1..] == vs
    ensures s[..k] + s[k..] == s
  {
    var r := [s[..k]] + vs;
    forall i | 0 <= i < |r|
      ensures IsAlnumString(r[i])
    {
      if i > 0 {
        assert r[i] == vs[i - 1];
      }
    }
  }

  /** Completeness: when no parameter is directly followed by another, every instance
      of a canonical pattern is matched, with exactly the captures that built it. So
      the captures of a match are unique, and `Match` returns them. */
  lemma {:induction false} MatchComplete(ts: seq<Token>, vs: seq<string>)
    requires Canonical(ts) && NoAdjacentParams(ts)
    requires |vs| == |ParamNames(ts)| && AllCaptures(vs)
    ensures Match(ts, Instantiate(ts, vs)) == Some(vs)
    decreases |ts|
  {
    if ts != [] {
      var rest := ts[1..];
      match ts[0]
      case Lit(c) =>
        MatchComplete(rest, vs);
        var s := Instantiate(ts, vs);
        assert s == [c] + Instantiate(rest, vs);
        assert s[1..] == Instantiate(rest, vs);
      case Param(_) =>
        var v := vs[0];
        assert IsAlnumString(v) by { assert vs[0] == v; }
        assert AllCaptures(vs[1..]) by {
          forall i | 0 <= i < |vs[1..]| ensures IsAlnumString(vs[1..][i]) {
            assert vs[1..][i] == vs[i + 1];
          }
        }
        MatchComplete(rest, vs[1..]);
        var tail := Instantiate(rest, vs[1..]);
        var s := Instantiate(ts, vs);
        assert s == v + tail;
        assert tail != [] ==> !IsAlnum(tail[0]) by {
          if tail != [] {
            assert rest != [];
            assert rest[0].Lit? && !IsAlnum(rest[0].c);
            assert tail == [rest[0].c] + Instantiate(rest[1..], vs[1..]);
          }
        }
        AlnumRunOfConcat(v, tail);
        assert s[..|v|] == v && s[|v|..] == tail;
        assert [v] + vs[1..] == vs;
    }
  }

  /** A string matches exactly when it is an instance of the pattern: the two
      directions of the anchored-regex semantics, for a route path this model covers. */
  lemma MatchIff(path: string, s: string, vs: seq<string>)
    requires ValidRoutePath(path)
    ensures var ts := Compile(path);
      && (Match(ts, s).Some? ==>
            AllCaptures(Match(ts, s).value) && Instantiate(ts, Match(ts, s).value) == s)
      && (|vs| == |ParamNames(ts)| && AllCaptures(vs) && Instantiate(ts, vs) == s ==>
            Match(ts, s) == Some(vs))
  {
    var ts := Compile(path);
    if |vs| == |ParamNames(ts)| && AllCaptures(vs) && Instantiate(ts, vs) == s {
      CompileReadsBack(path);
      MatchComplete(ts, vs);
    }
  }

  // ---------------------------------------------------------------------------
  // Patterns built from pieces

  /** The literal tokens of a string. */
  function Lits(lit: string): (ts: seq<Token>)
    ensures |ts| == |lit|
  {
    if lit == [] then [] else [Lit(lit[0])] + Lits(lit[1..])
  }

  /** A stretch without `:` reads as literals, whatever follows it. */
  lemma {:induction false} CompileLiterals(lit: string, s: string)
    requires ':' !in lit
    ensures Compile(lit + s) == Lits(lit) + Compile(s)
    decreases |lit|
  {
    if lit != [] {
      var t := lit + s;
      assert t[0] == lit[0] && t[1..] == lit[1..] + s;
      assert lit[0] != ':';
      CompileStepLit(t);
      CompileLiterals(lit[1..], s);
      assert Lits(lit) == [Lit(lit[0])] + Lits(lit[1..]);
      assert Compile(t) == [Lit(lit[0])] + (Lits(lit[1..]) + Compile(s));
      ConcatAssoc([Lit(lit[0])], Lits(lit[1..]), Compile(s));
    } else {
      assert lit + s == s && Lits(lit) + Compile(s) == Compile(s);
    }
  }

  /** Literal tokens contribute no parameter names. */
  lemma {:induction false} ParamNamesLits(lit: string, ts: seq<Token>)
    ensures ParamNames(Lits(lit) + ts) == ParamNames(ts)
    decreases |lit|
  {
    if lit == [] {
      assert Lits(lit) + ts == ts;
    } else {
      assert Lits(lit) + ts == [Lit(lit[0])] + (Lits(lit[1..]) + ts);
      TokenCons(Lit(lit[0]), Lits(lit[1..]) + ts);
      ParamNamesLits(lit[1..], ts);
    }
  }

  /** `:name` followed by a non-alphanumeric character, or by nothing, reads as the
      parameter `name`. */
  lemma CompileParam(name: string, s: string)
    requires IsAlnumString(name) && (s != [] ==> !IsAlnum(s[0]))
    ensures Compile([':'] + name + s) == [Param(name)] + Compile(s)
  {
    var t := [':'] + name + s;
    AlnumRunOfConcat(name, s);
    ConsSlices(':', name, s);
    CompileStepParam(t, |name|);
  }

  /** Matching literal tokens consumes exactly those characters. */
  lemma {:induction false} MatchLiterals(lit: string, ts: seq<Token>, s: string)
    ensures Match(Lits(lit) + ts, s) == if lit <= s then Match(ts, s[|lit|..]) else None
    decreases |lit|
  {
    if lit != [] {
      var us := Lits(lit) + ts;
      assert us[0] == Lit(lit[0]) && us[1..] == Lits(lit[1..]) + ts;
      if s != [] && s[0] == lit[0] {
        MatchLiterals(lit[1..], ts, s[1..]);
        assert lit <= s <==> lit[1..] <= s[1..];
        if lit <= s {
          assert s[1..][|lit| - 1..] == s[|lit|..];
        }
      }
    } else {
      assert Lits(lit) + ts == ts;
    }
  }

  /** Matching a parameter takes the whole alphanumeric run. */
  lemma MatchParam(name: string, ts: seq<Token>, v: string, s: string)
    requires IsAlnumString(v) && (s != [] ==> !IsAlnum(s[0]))
    ensures Match([Param(name)] + ts, v + s) ==
      match Match(ts, s)
      case None => None
      case Some(vs) => Some([v] + vs)
  {
    var us := [Param(name)] + ts;
    assert us[0] == Param(name) && us[1..] == ts;
    AlnumRunOfConcat(v, s);
    assert (v + s)[..|v|] == v && (v + s)[|v|..] == s;
  }

  /** A path without parameters has no keys and matches exactly itself. */
  lemma LiteralPathMatchesItself(lit: string, s: string)
    requires ':' !in lit
    ensures Compile(lit) == Lits(lit) && Keys(lit) == []
    ensures Match(Compile(lit), s) == if s == lit then Some([]) else None
  {
    CompileLiterals(lit, "");
    assert lit + "" == lit && Lits(lit) + [] == Lits(lit);
    ParamNamesLits(lit, []);
    MatchLiterals(lit, [], s);
    if lit <= s {
      assert s == lit <==> s[|lit|..] == [];
    }
  }

  /** A literal stretch followed by one parameter reads as those literals and that
      parameter, which is the path's only key. */
  lemma LiteralThenParam(lit: string, name: string)
    requires ':' !in lit && IsAlnumString(name)
    ensures Compile(lit + ([':'] + name)) == Lits(lit) + [Param(name)]
    ensures Keys(lit + ([':'] + name)) == [name]
  {
    assert [':'] + name == [':'] + name + "";
    CompileParam(name, "");
    CompileLiterals(lit, [':'] + name);
    assert [Param(name)] + [] == [Param(name)];
    ParamNamesLits(lit, [Param(name)]);
    TokenCons(Param(name), []);
  }
}
