/** The package-specifier check shared by the execution context and both
    command-line front ends: the pattern

      ^[a-zA-Z0-9]([a-zA-Z0-9._-]*[a-zA-Z0-9])?(\[[a-zA-Z0-9,_-]+\])?([@=!<>~]+[a-zA-Z0-9.*+!,\-_.]+)?$

    applied with re.match. The pattern is given declaratively (a name, then
    optional extras, then an optional operator-and-version part, each piece
    described by its own predicate), and a scanner that decides it without
    backtracking is proved to accept exactly the same strings. */
module PackageSpec {

  // ---------------------------------------------------------------------
  // Character classes of the pattern
  // ---------------------------------------------------------------------

  predicate Alnum(ch: char) {
    ('a' <= ch <= 'z') || ('A' <= ch <= 'Z') || ('0' <= ch <= '9')
  }

  /** [a-zA-Z0-9._-], [a-zA-Z0-9,_-], [@=!<>~] and [a-zA-Z0-9.*+!,\-_.]. */
  datatype CharClass = NameChar | ExtraChar | OpChar | VersionChar

  predicate In(c: CharClass, ch: char) {
    match c
    case NameChar => Alnum(ch) || ch == '.' || ch == '_' || ch == '-'
    case ExtraChar => Alnum(ch) || ch == ',' || ch == '_' || ch == '-'
    case OpChar => ch == '@' || ch == '=' || ch == '!' || ch == '<' || ch == '>' || ch == '~'
    case VersionChar => Alnum(ch) || ch == '.' || ch == '*' || ch == '+' || ch == '!' || ch == ',' || ch == '-' || ch == '_'
  }

  predicate AllIn(s: string, c: CharClass) {
    forall i :: 0 <= i < |s| ==> In(c, s[i])
  }

  // ---------------------------------------------------------------------
  // The pattern, piece by piece
  // ---------------------------------------------------------------------

  /** [a-zA-Z0-9]([a-zA-Z0-9._-]*[a-zA-Z0-9])? */
  predicate IsName(n: string) {
    |n| >= 1 && Alnum(n[0]) && (|n| == 1 || (AllIn(n[1..|n| - 1], NameChar) && Alnum(n[|n| - 1])))
  }

  /** \[[a-zA-Z0-9,_-]+\] */
  predicate IsExtras(e: string) {
    |e| >= 3 && e[0] == '[' && e[|e| - 1] == ']' && AllIn(e[1..|e| - 1], ExtraChar)
  }

  /** [@=!<>~]+[a-zA-Z0-9.*+!,\-_.]+ : some split into a non-empty operator
      run and a non-empty version run. */
  ghost predicate IsVersion(v: string) {
    exists k :: 1 <= k < |v| && AllIn(v[..k], OpChar) && AllIn(v[k..], VersionChar)
  }

  /** The anchored pattern without its final `$` subtlety: a name, then
      optional extras, then an optional version part. */
  ghost predicate InPattern(s: string) {
    exists i, j :: SplitAt(s, i, j)
  }

  /** `s` is a name up to `i`, extras (when `i < j`) up to `j`, and a version
      part (when `j < |s|`) after that. */
  ghost predicate SplitAt(s: string, i: int, j: int) {
    0 <= i <= j <= |s| && IsName(s[..i]) && (i == j || IsExtras(s[i..j])) && (j == |s| || IsVersion(s[j..]))
  }

  /** What re.match accepts: `$` without MULTILINE also matches just before
      a final newline. */
  ghost predicate Matches(s: string) {
    InPattern(s) || (|s| > 0 && s[|s| - 1] == '\n' && InPattern(s[..|s| - 1]))
  }

  // ---------------------------------------------------------------------
  // The scanner
  // ---------------------------------------------------------------------

  /** Length of the longest prefix of `s` drawn from class `c`. */
  function Span(s: string, c: CharClass): (k: nat)
    ensures k <= |s| && AllIn(s[..k], c) && (k < |s| ==> !In(c, s[k]))
  {
    if s == [] || !In(c, s[0]) then 0
    else
      var k := 1 + Span(s[1..], c);
      assert s[..k] == [s[0]] + s[1..][..k - 1];
      k
  }

  /** The operator-and-version part, or nothing. The operator run is
      maximal; when it consumes everything, its trailing '!' (the one
      operator that is also a version character) is given back. */
  function VersionOk(v: string): bool {
    var m := Span(v, OpChar);
    v == [] || (m >= 1 && Span(v[m..], VersionChar) == |v| - m && (m < |v| || (m >= 2 && v[m - 1] == '!')))
  }

  /** Optional extras, then the version part. */
  function RestOk(r: string): bool {
    if r != [] && r[0] == '[' then
      var e := Span(r[1..], ExtraChar);
      e >= 1 && 1 + e < |r| && r[1 + e] == ']' && VersionOk(r[2 + e..])
    else VersionOk(r)
  }

  /** The name is the longest run of name characters; it must start and end
      with a letter or digit. */
  function Scan(s: string): bool {
    var n := Span(s, NameChar);
    n >= 1 && Alnum(s[0]) && Alnum(s[n - 1]) && RestOk(s[n..])
  }

  /** pattern.match(spec) is not None. */
  function IsValidSpec(spec: string): (ok: bool)
    ensures ok <==> Matches(spec)
  {
    ScanDecides(spec);
    Scan(spec) || (|spec| > 0 && spec[|spec| - 1] == '\n' && Scan(spec[..|spec| - 1]))
  }

  // ---------------------------------------------------------------------
  // The scanner decides the pattern
  // ---------------------------------------------------------------------

  lemma ScanDecides(spec: string)
    ensures (Scan(spec) || (|spec| > 0 && spec[|spec| - 1] == '\n' && Scan(spec[..|spec| - 1]))) <==> Matches(spec)
  {
    ScanIsPattern(spec);
    if |spec| > 0 {
      ScanIsPattern(spec[..|spec| - 1]);
    }
  }

  // ---------------------------------------------------------------------
  // Span and the pieces
  // ---------------------------------------------------------------------

  /** A prefix of class `c` that is followed by something outside `c` is the span. */
  lemma SpanIs(s: string, c: CharClass, i: nat)
    requires i <= |s| && AllIn(s[..i], c) && (i < |s| ==> !In(c, s[i]))
    ensures Span(s, c) == i
  {
  }

  lemma NameChars(n: string)
    requires IsName(n)
    ensures AllIn(n, NameChar)
  {
    forall t | 0 <= t < |n| ensures In(NameChar, n[t]) {
      if 0 < t < |n| - 1 {
        var mid := n[1..|n| - 1];
        assert mid[t - 1] == n[t];
      }
    }
  }

  /** A name run delimited by a non-name character is the span. */
  lemma NameIsSpan(s: string, i: nat)
    requires i <= |s| && IsName(s[..i]) && (i < |s| ==> !In(NameChar, s[i]))
    ensures Span(s, NameChar) == i && Alnum(s[0]) && Alnum(s[i - 1])
  {
    NameChars(s[..i]);
    SpanIs(s, NameChar, i);
    assert s[..i][0] == s[0] && s[..i][i - 1] == s[i - 1];
  }

  lemma NameFromSpan(s: string)
    requires Span(s, NameChar) >= 1 && Alnum(s[0]) && Alnum(s[Span(s, NameChar) - 1])
    ensures IsName(s[..Span(s, NameChar)])
  {
    var n := Span(s, NameChar);
    var name := s[..n];
    if n > 1 {
      var mid := name[1..n - 1];
      forall t | 0 <= t < |mid| ensures In(NameChar, mid[t]) {
        assert mid[t] == name[t + 1];
      }
    }
  }

  lemma ExtrasFromSpan(r: string)
    requires r != [] && r[0] == '['
    requires Span(r[1..], ExtraChar) >= 1 && 1 + Span(r[1..], ExtraChar) < |r| && r[1 + Span(r[1..], ExtraChar)] == ']'
    ensures IsExtras(r[..2 + Span(r[1..], ExtraChar)])
  {
    var e := Span(r[1..], ExtraChar);
    var x := r[..2 + e];
    assert x[1..|x| - 1] == r[1..][..e];
  }

  lemma ExtrasIsSpan(r: string, j: nat)
    requires 0 < j <= |r| && IsExtras(r[..j])
    ensures r[0] == '[' && j >= 3 && Span(r[1..], ExtraChar) == j - 2 && r[j - 1] == ']'
  {
    var x := r[..j];
    assert x[0] == r[0] && x[j - 1] == r[j - 1];
    var t := r[1..];
    var inner := t[..j - 2];
    assert inner == x[1..j - 1];
    assert t[j - 2] == r[j - 1];
    SpanIs(t, ExtraChar, j - 2);
  }

  lemma VersionStartsWithOp(v: string)
    requires IsVersion(v)
    ensures v != [] && In(OpChar, v[0])
  {
    var k :| 1 <= k < |v| && AllIn(v[..k], OpChar) && AllIn(v[k..], VersionChar);
    assert v[..k][0] == v[0];
  }

  lemma VersionOkIsVersion(v: string)
    ensures VersionOk(v) <==> (v == [] || IsVersion(v))
  {
    if v != [] && VersionOk(v) {
      VersionOkGivesVersion(v);
    }
    if IsVersion(v) {
      VersionGivesVersionOk(v);
    }
  }

  lemma VersionOkGivesVersion(v: string)
    requires v != [] && VersionOk(v)
    ensures IsVersion(v)
  {
    var m := Span(v, OpChar);
    var k := if m < |v| then m else m - 1;
    var ops, vers := v[..k], v[k..];
    assert AllIn(ops, OpChar) by {
      forall i | 0 <= i < k ensures In(OpChar, ops[i]) { assert v[..m][i] == ops[i]; }
    }
    assert v[m..][..|v| - m] == v[m..];
    assert AllIn(vers, VersionChar) by {
      forall i | 0 <= i < |vers| ensures In(VersionChar, vers[i]) {
        if k + i >= m { assert v[m..][k + i - m] == vers[i]; }
      }
    }
  }

  lemma VersionGivesVersionOk(v: string)
    requires IsVersion(v)
    ensures VersionOk(v)
  {
    var m := Span(v, OpChar);
    var k :| 1 <= k < |v| && AllIn(v[..k], OpChar) && AllIn(v[k..], VersionChar);
    var ops, vers := v[..k], v[k..];
    assert m >= k;
    var tail := v[m..];
    assert AllIn(tail, VersionChar) by {
      forall i | 0 <= i < |tail| ensures In(VersionChar, tail[i]) { assert vers[m - k + i] == tail[i]; }
    }
    assert tail[..|v| - m] == tail;
    SpanIs(tail, VersionChar, |v| - m);
    if m == |v| {
      assert vers[m - 1 - k] == v[m - 1];
      assert v[..m][m - 1] == v[m - 1];
    }
  }

  /** Optional extras, then an optional version part. */
  ghost predicate RestPattern(r: string) {
    exists j :: RestSplitAt(r, j)
  }

  ghost predicate RestSplitAt(r: string, j: int) {
    0 <= j <= |r| && (j == 0 || IsExtras(r[..j])) && (j == |r| || IsVersion(r[j..]))
  }

  lemma RestOkIsRest(r: string)
    ensures RestOk(r) <==> RestPattern(r)
  {
    if RestOk(r) {
      if r != [] && r[0] == '[' {
        var j := 2 + Span(r[1..], ExtraChar);
        ExtrasFromSpan(r);
        VersionOkIsVersion(r[j..]);
        assert RestSplitAt(r, j);
      } else {
        VersionOkIsVersion(r);
        assert r[0..] == r;
        assert RestSplitAt(r, 0);
      }
    }
    if j :| RestSplitAt(r, j) {
      if j == 0 {
        assert r[0..] == r;
        if r != [] { VersionStartsWithOp(r); }
        VersionOkIsVersion(r);
      } else {
        ExtrasIsSpan(r, j);
        VersionOkIsVersion(r[j..]);
      }
    }
  }

  lemma ScanIsPattern(s: string)
    ensures Scan(s) <==> InPattern(s)
  {
    if Scan(s) {
      ScanInPattern(s);
    }
    if InPattern(s) {
      var i, j :| SplitAt(s, i, j);
      PatternScans(s, i, j);
    }
  }

  lemma ScanInPattern(s: string)
    requires Scan(s)
    ensures InPattern(s)
  {
    var n := Span(s, NameChar);
    RestOkIsRest(s[n..]);
    NameFromSpan(s);
    var j0 :| RestSplitAt(s[n..], j0);
    SplitFromRest(s, n, j0);
  }

  /** A name up to `n` and a split of the rest give a split of the whole. */
  lemma SplitFromRest(s: string, n: nat, j0: int)
    requires n <= |s| && IsName(s[..n]) && RestSplitAt(s[n..], j0)
    ensures SplitAt(s, n, n + j0)
  {
    var rest := s[n..];
    assert s[n..n + j0] == rest[..j0];
    assert s[n + j0..] == rest[j0..];
  }

  lemma PatternScans(s: string, i: nat, j: nat)
    requires SplitAt(s, i, j)
    ensures Scan(s)
  {
    NameEnds(s, i, j);
    NameIsSpan(s, i);
    RestFromSplit(s, i, j);
    RestOkIsRest(s[i..]);
  }

  /** What follows the name is a bracket or an operator character. */
  lemma NameEnds(s: string, i: nat, j: nat)
    requires SplitAt(s, i, j)
    ensures i < |s| ==> !In(NameChar, s[i])
  {
    if i < |s| {
      if i < j {
        assert s[i..j][0] == s[i];
      } else {
        VersionStartsWithOp(s[j..]);
        assert s[j..][0] == s[i];
      }
    }
  }

  lemma RestFromSplit(s: string, i: nat, j: nat)
    requires SplitAt(s, i, j)
    ensures RestSplitAt(s[i..], j - i)
  {
    var rest := s[i..];
    assert rest[..j - i] == s[i..j];
    assert rest[j - i..] == s[j..];
  }

  // ---------------------------------------------------------------------
  // What the pattern admits and refuses
  // ---------------------------------------------------------------------

  // ---------------------------------------------------------------------
  // The name grammar of PEP 508, section "Names"
  // ---------------------------------------------------------------------

  predicate Punct(ch: char) {
    ch == '-' || ch == '_' || ch == '.'
  }

  /** identifier_end = letterOrDigit | (('-' | '_' | '.')* letterOrDigit) */
  predicate IdentifierEnd(p: string) {
    |p| >= 1 && Alnum(p[|p| - 1]) && forall i :: 0 <= i < |p| - 1 ==> Punct(p[i])
  }

  /** identifier_end* : the text splits into a run of identifier_end pieces. */
  ghost predicate IdentifierEnds(s: string)
    decreases |s|
  {
    s == [] || exists k :: 1 <= k <= |s| && IdentifierEnd(s[..k]) && IdentifierEnds(s[k..])
  }

  /** name = identifier = letterOrDigit identifier_end* (letters in either case). */
  ghost predicate Pep508Name(n: string) {
    |n| >= 1 && Alnum(n[0]) && IdentifierEnds(n[1..])
  }

  /** The first letter or digit of a text that ends in one. */
  function FirstAlnum(s: string): (k: nat)
    requires s != [] && Alnum(s[|s| - 1])
    ensures k < |s| && Alnum(s[k]) && forall i :: 0 <= i < k ==> !Alnum(s[i])
  {
    if Alnum(s[0]) then 0 else 1 + FirstAlnum(s[1..])
  }

  /** A run of identifier_end pieces is a text of name characters that is
      empty or ends in a letter or digit. */
  lemma {:induction false} EndsSound(s: string)
    requires IdentifierEnds(s)
    ensures s == [] || (AllIn(s, NameChar) && Alnum(s[|s| - 1]))
    decreases |s|
  {
    if s != [] {
      var k :| 1 <= k <= |s| && IdentifierEnd(s[..k]) && IdentifierEnds(s[k..]);
      EndsSound(s[k..]);
      forall i | 0 <= i < |s|
        ensures In(NameChar, s[i])
      {
        if i < k {
          assert s[..k][i] == s[i];
        } else {
          assert s[k..][i - k] == s[i];
        }
      }
      if k < |s| {
        assert s[k..][|s| - k - 1] == s[|s| - 1];
      }
    }
  }

  /** Conversely, such a text splits into identifier_end pieces: each piece
      runs up to and including the next letter or digit. */
  lemma {:induction false} EndsComplete(s: string)
    requires s != [] && AllIn(s, NameChar) && Alnum(s[|s| - 1])
    ensures IdentifierEnds(s)
    decreases |s|
  {
    var k := FirstAlnum(s) + 1;
    var piece, rest := s[..k], s[k..];
    forall i | 0 <= i < |piece| - 1
      ensures Punct(piece[i])
    {
      assert In(NameChar, s[i]);
    }
    assert IdentifierEnd(piece);
    if rest != [] {
      assert rest[|rest| - 1] == s[|s| - 1];
      assert AllIn(rest, NameChar) by {
        forall i | 0 <= i < |rest|
          ensures In(NameChar, rest[i])
        {
          assert rest[i] == s[k + i];
        }
      }
      EndsComplete(rest);
    }
    assert IdentifierEnd(s[..k]) && IdentifierEnds(s[k..]);
  }

  /** The name part of the pattern accepts exactly the names of the PEP 508
      grammar. */
  lemma NameIsPep508(n: string)
    ensures IsName(n) <==> Pep508Name(n)
  {
    if |n| >= 1 && Alnum(n[0]) {
      var s := n[1..];
      if IsName(n) && |n| > 1 {
        assert s[..|s| - 1] == n[1..|n| - 1];
        assert AllIn(s, NameChar) by {
          forall i | 0 <= i < |s|
            ensures In(NameChar, s[i])
          {
            if i < |s| - 1 {
              assert s[..|s| - 1][i] == s[i];
            }
          }
        }
        EndsComplete(s);
      }
      if Pep508Name(n) {
        EndsSound(s);
        if s != [] {
          assert s[|s| - 1] == n[|n| - 1];
          var mid := n[1..|n| - 1];
          forall i | 0 <= i < |mid|
            ensures In(NameChar, mid[i])
          {
            assert mid[i] == s[i];
          }
        }
      }
    }
  }

  /** A character some piece of the pattern can hold. */
  predicate PatternChar(ch: char) {
    In(NameChar, ch) || In(ExtraChar, ch) || In(OpChar, ch) || In(VersionChar, ch) || ch == '[' || ch == ']'
  }

  lemma VersionChars(v: string, i: nat)
    requires VersionOk(v) && i < |v|
    ensures PatternChar(v[i])
  {
    var m := Span(v, OpChar);
    if i < m {
      assert v[..m][i] == v[i];
    } else {
      var tail := v[m..];
      assert tail[..|v| - m] == tail;
      assert tail[i - m] == v[i];
    }
  }

  lemma RestChars(r: string, i: nat)
    requires RestOk(r) && i < |r|
    ensures PatternChar(r[i])
  {
    if r[0] == '[' {
      ExtrasChars(r, i);
    } else {
      VersionChars(r, i);
    }
  }

  lemma ExtrasChars(r: string, i: nat)
    requires RestOk(r) && i < |r| && r[0] == '['
    ensures PatternChar(r[i])
  {
    var e := Span(r[1..], ExtraChar);
    var inner := r[1..][..e];
    if 1 <= i <= e {
      assert inner[i - 1] == r[i];
      assert In(ExtraChar, inner[i - 1]);
    } else if i > 1 + e {
      var v := r[2 + e..];
      VersionChars(v, i - 2 - e);
      assert v[i - 2 - e] == r[i];
    }
  }

  lemma ScanChars(s: string, i: nat)
    requires Scan(s) && i < |s|
    ensures PatternChar(s[i])
  {
    var n := Span(s, NameChar);
    if i < n {
      assert s[..n][i] == s[i];
    } else {
      RestChars(s[n..], i - n);
      assert s[n..][i - n] == s[i];
    }
  }

  /** Every character of a valid specifier belongs to one of the pattern's
      classes or is a bracket, except a single final newline. */
  lemma ValidSpecCharacters(s: string, i: nat)
    requires IsValidSpec(s) && i < |s|
    requires !(i == |s| - 1 && s[i] == '\n')
    ensures PatternChar(s[i])
  {
    if Scan(s) {
      ScanChars(s, i);
    } else {
      var t := s[..|s| - 1];
      ScanChars(t, i);
      assert t[i] == s[i];
    }
  }

  /** A specifier holding a shell metacharacter (space, ';', '|', '&', '$')
      is refused, so none can reach a command line. */
  lemma ShellMetacharactersRefused(s: string, i: nat)
    requires i < |s| && s[i] in {' ', ';', '|', '&', '$'}
    ensures !IsValidSpec(s)
  {
    if IsValidSpec(s) {
      ValidSpecCharacters(s, i);
    }
  }

  /** A name followed by a run of operator characters and a run of version
      characters is accepted, whatever the operator run is. */
  lemma NameVersionAccepted(name: string, ops: string, ver: string)
    requires IsName(name) && ops != [] && AllIn(ops, OpChar) && ver != [] && AllIn(ver, VersionChar)
    ensures IsValidSpec(name + ops + ver)
  {
    var s, v := name + ops + ver, ops + ver;
    assert s[..|name|] == name;
    assert s[|name|..] == v;
    assert v[..|ops|] == ops && v[|ops|..] == ver;
    assert IsVersion(v);
    assert SplitAt(s, |name|, |name|);
  }

  lemma Pieces(s: string, i: nat, j: nat)
    requires i <= j <= |s|
    ensures s[..i] + s[i..j] + s[j..] == s
  {
  }

  /** The operator part takes any run of operator characters, so a
      specifier with an operator PEP 440 does not define is accepted. */
  lemma LooseOperatorAccepted()
    ensures IsValidSpec("pkg=<>1")
  {
    var s := "pkg=<>1";
    var name, ops, ver := s[..3], s[3..6], s[6..];
    assert name == "pkg" && ops == "=<>" && ver == "1";
    NameVersionAccepted(name, ops, ver);
    Pieces(s, 3, 6);
  }

  /** A single trailing newline is accepted, since `$` matches before it. */
  lemma TrailingNewlineAccepted()
    ensures IsValidSpec("pandas\n")
  {
    var s := "pandas\n";
    var t := s[..|s| - 1];
    assert t == "pandas";
    assert Span(t, NameChar) == 6 by { SpanIs(t, NameChar, 6); }
    assert Scan(t);
  }

  /** A name followed by bracketed extras is accepted. */
  lemma NameWithExtrasAccepted(name: string, extras: string)
    requires IsName(name) && |extras| >= 1 && AllIn(extras, ExtraChar)
    ensures IsValidSpec(name + "[" + extras + "]")
  {
    var s := name + "[" + extras + "]";
    assert s[..|name|] == name;
    assert s[|name|..|s|] == "[" + extras + "]";
    assert SplitAt(s, |name|, |s|);
  }

  lemma AllInJoined(a: string, b: string)
    requires AllIn(a, ExtraChar) && AllIn(b, ExtraChar)
    ensures AllIn(a + "," + b, ExtraChar)
  {
    var x := a + "," + b;
    forall i | 0 <= i < |x| ensures In(ExtraChar, x[i]) {
      if i < |a| { assert x[i] == a[i]; }
      else if i > |a| { assert x[i] == b[i - |a| - 1]; }
    }
  }

  /** Extras may list several names separated by commas, as in
      "requests[security,socks]". */
  lemma ExtrasWithCommaAccepted(name: string, a: string, b: string)
    requires IsName(name) && AllIn(a, ExtraChar) && AllIn(b, ExtraChar)
    ensures IsValidSpec(name + "[" + a + "," + b + "]")
  {
    var x := a + "," + b;
    AllInJoined(a, b);
    NameWithExtrasAccepted(name, x);
    assert name + "[" + x + "]" == name + "[" + a + "," + b + "]" by {
      assert name + "[" + x == name + "[" + a + "," + b;
    }
  }

  // ---------------------------------------------------------------------
  // Collecting the invalid specifiers
  // ---------------------------------------------------------------------

  /** The specifiers that fail the pattern, in input order. */
  function InvalidSpecs(pkgs: seq<string>): seq<string> {
    if pkgs == [] then []
    else (if IsValidSpec(pkgs[0]) then [] else [pkgs[0]]) + InvalidSpecs(pkgs[1..])
  }

  /** A specifier is reported iff it is given and fails the pattern. */
  lemma {:induction false} InvalidSpecsMembers(pkgs: seq<string>, s: string)
    ensures s in InvalidSpecs(pkgs) <==> s in pkgs && !IsValidSpec(s)
  {
    if pkgs != [] {
      InvalidSpecsMembers(pkgs[1..], s);
      assert pkgs == [pkgs[0]] + pkgs[1..];
    }
  }

  /** Nothing is reported iff every specifier passes. */
  lemma {:induction false} InvalidSpecsEmpty(pkgs: seq<string>)
    ensures InvalidSpecs(pkgs) == [] <==> forall i :: 0 <= i < |pkgs| ==> IsValidSpec(pkgs[i])
  {
    if pkgs != [] {
      InvalidSpecsEmpty(pkgs[1..]);
      assert forall i :: 1 <= i < |pkgs| ==> pkgs[i] == pkgs[1..][i - 1];
    }
  }

  /** The report keeps input order: it is the report of a prefix followed by
      the report of the rest. */
  lemma {:induction false} InvalidSpecsAppend(a: seq<string>, b: seq<string>)
    ensures InvalidSpecs(a + b) == InvalidSpecs(a) + InvalidSpecs(b)
  {
    if a != [] {
      assert (a + b)[1..] == a[1..] + b;
      InvalidSpecsAppend(a[1..], b);
    } else {
      assert a + b == b;
    }
  }

  /** The checking loop: walk the specifiers and collect the failing ones. */
  method CollectInvalid(pkgs: seq<string>) returns (invalid: seq<string>)
    ensures invalid == InvalidSpecs(pkgs)
  {
    invalid := [];
    for i := 0 to |pkgs|
      invariant invalid == InvalidSpecs(pkgs[..i])
    {
      InvalidSpecsAppend(pkgs[..i], [pkgs[i]]);
      assert pkgs[..i + 1] == pkgs[..i] + [pkgs[i]];
      if !IsValidSpec(pkgs[i]) {
        invalid := invalid + [pkgs[i]];
      }
    }
    assert pkgs[..|pkgs|] == pkgs;
  }
}
