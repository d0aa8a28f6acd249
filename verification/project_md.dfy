/** Project files: the leading packages block of a project markdown file and
    the project prompt built from it.

    The block is found with re.match of

      ^```packages\s*\n(.*?)\n```\s*\n

    under DOTALL. The matcher below follows the backtracking order of that
    pattern: the first `\s*` is greedy, so the opening newline is the last
    candidate newline in the whitespace after the marker, then the one
    before, and so on; for each, the lazy group ends at the first closing
    fence; the second `\s*` is greedy, so the match ends after the last
    newline of the whitespace after the fence. */
module ProjectMd {
  import opened Wrappers
  import opened Text

  const Opener := "```packages"
  const Fence := "\n```"

  // ---------------------------------------------------------------------
  // Scanning helpers
  // ---------------------------------------------------------------------

  /** Length of the whitespace run starting at `i`. */
  function SpaceRun(s: string, i: nat): (w: nat)
    requires i <= |s|
    ensures i + w <= |s| && AllSpace(s[i..i + w]) && (i + w < |s| ==> !IsSpace(s[i + w]))
    decreases |s| - i
  {
    if i < |s| && IsSpace(s[i]) then
      var w := SpaceRun(s, i + 1);
      SpaceCons(s, i, w);
      1 + w
    else 0
  }

  /** A whitespace character followed by a whitespace stretch is one. */
  lemma SpaceCons(s: string, i: nat, w: nat)
    requires i + 1 + w <= |s| && IsSpace(s[i]) && AllSpace(s[i + 1..i + 1 + w])
    ensures AllSpace(s[i..i + 1 + w])
  {
    var a, b := s[i..i + 1 + w], s[i + 1..i + 1 + w];
    forall t | 0 <= t < |a| ensures IsSpace(a[t]) {
      if t > 0 {
        assert a[t] == b[t - 1];
      }
    }
  }

  /** No whitespace stretch starting at `i` goes past the run. */
  lemma RunBound(s: string, i: nat, m: nat)
    requires i <= m <= |s| && AllSpace(s[i..m])
    ensures m <= i + SpaceRun(s, i)
  {
  }

  /** A whitespace stretch closed by a newline is all whitespace, newline included. */
  lemma SpaceThenNewline(s: string, i: nat, m: nat)
    requires i < m <= |s| && AllSpace(s[i..m - 1]) && s[m - 1] == '\n'
    ensures AllSpace(s[i..m])
  {
    forall t | 0 <= t < m - i ensures IsSpace(s[i..m][t]) {
      assert s[i..m][t] == s[i + t];
      if i + t < m - 1 {
        assert s[i..m - 1][t] == s[i + t];
      }
    }
  }

  /** A prefix of a whitespace stretch is whitespace. */
  lemma SpacePrefix(s: string, i: nat, w: nat, m: nat)
    requires i <= m <= i + w <= |s| && AllSpace(s[i..i + w])
    ensures AllSpace(s[i..m])
  {
    forall t | 0 <= t < m - i ensures IsSpace(s[i..m][t]) {
      assert s[i..m][t] == s[i..i + w][t];
    }
  }

  /** The last newline in s[lo..hi]. */
  function LastNewline(s: string, lo: nat, hi: nat): (r: Option<nat>)
    requires lo <= hi <= |s|
    ensures r.Some? ==> lo <= r.value < hi && s[r.value] == '\n' && forall q :: r.value < q < hi ==> s[q] != '\n'
    ensures r.None? ==> forall q :: lo <= q < hi ==> s[q] != '\n'
    decreases hi - lo
  {
    if hi == lo then None
    else if s[hi - 1] == '\n' then Some(hi - 1)
    else LastNewline(s, lo, hi - 1)
  }

  // ---------------------------------------------------------------------
  // The pattern, declaratively
  // ---------------------------------------------------------------------

  /** The group may start at `p`: the marker, whitespace, and a newline at p - 1. */
  ghost predicate OpenAt(s: string, p: int) {
    StartsWith(s, Opener) && 12 <= p <= |s| && AllSpace(s[11..p - 1]) && s[p - 1] == '\n'
  }

  /** The group may end at `e` and the match at `end`: the fence, whitespace,
      and a newline at end - 1. */
  ghost predicate CloseAt(s: string, e: int, end: int) {
    0 <= e && e + 5 <= end <= |s| && s[e..e + 4] == Fence && AllSpace(s[e + 4..end - 1]) && s[end - 1] == '\n'
  }

  /** One way for the pattern to match `s`, with group s[p..e] and end `end`. */
  ghost predicate MatchAt(s: string, p: int, e: int, end: int) {
    OpenAt(s, p) && p <= e && CloseAt(s, e, end)
  }

  // ---------------------------------------------------------------------
  // The matcher
  // ---------------------------------------------------------------------

  /** Where a match whose group ends at `e` ends, if the fence is there. */
  function CloseEnd(s: string, e: nat): Option<nat>
    requires e <= |s|
  {
    if e + 4 <= |s| && s[e..e + 4] == Fence then
      var q := LastNewline(s, e + 4, e + 4 + SpaceRun(s, e + 4));
      if q.Some? then Some(q.value + 1) else None
    else None
  }

  /** CloseEnd gives the latest end of a match whose group ends at `e`, and
      nothing when there is none. */
  lemma CloseEndSpec(s: string, e: nat)
    requires e <= |s|
    ensures CloseEnd(s, e).Some? ==> CloseAt(s, e, CloseEnd(s, e).value)
    ensures CloseEnd(s, e).Some? ==> forall end :: CloseAt(s, e, end) ==> end <= CloseEnd(s, e).value
    ensures CloseEnd(s, e).None? ==> forall end :: !CloseAt(s, e, end)
  {
    if e + 4 <= |s| && s[e..e + 4] == Fence {
      var w := SpaceRun(s, e + 4);
      CloseEndFacts(s, e, w, LastNewline(s, e + 4, e + 4 + w));
    }
  }

  lemma CloseEndFacts(s: string, e: nat, w: nat, q: Option<nat>)
    requires e + 4 <= |s| && s[e..e + 4] == Fence && w == SpaceRun(s, e + 4)
    requires q == LastNewline(s, e + 4, e + 4 + w)
    ensures q.Some? ==> CloseAt(s, e, q.value + 1)
    ensures q.Some? ==> forall end :: CloseAt(s, e, end) ==> end <= q.value + 1
    ensures q.None? ==> forall end :: !CloseAt(s, e, end)
  {
    if q.Some? {
      SpacePrefix(s, e + 4, w, q.value);
    }
    forall end | CloseAt(s, e, end)
      ensures q.Some? && end <= q.value + 1
    {
      SpaceThenNewline(s, e + 4, end);
      RunBound(s, e + 4, end);
    }
  }

  /** The first group end from `e0` on that has a closing fence, with the
      end of the match there. */
  function FirstClose(s: string, e0: nat): (r: Option<(nat, nat)>)
    requires e0 <= |s|
    ensures r.Some? ==> e0 <= r.value.0 <= |s|
    decreases |s| - e0
  {
    var c := CloseEnd(s, e0);
    if c.Some? then Some((e0, c.value))
    else if e0 == |s| then None
    else FirstClose(s, e0 + 1)
  }

  /** FirstClose finds the earliest group end with a closing fence. */
  lemma {:induction false} FirstCloseSpec(s: string, e0: nat)
    requires e0 <= |s|
    ensures var r := FirstClose(s, e0);
      r.Some? ==> CloseEnd(s, r.value.0) == Some(r.value.1) && forall e :: e0 <= e < r.value.0 ==> CloseEnd(s, e).None?
    ensures FirstClose(s, e0).None? ==> forall e :: e0 <= e <= |s| ==> CloseEnd(s, e).None?
    decreases |s| - e0
  {
    if CloseEnd(s, e0).None? && e0 < |s| {
      FirstCloseSpec(s, e0 + 1);
      assert FirstClose(s, e0) == FirstClose(s, e0 + 1);
    }
  }

  /** A newline at `q` that can open the block: a fence follows later. */
  predicate Opens(s: string, q: nat)
    requires q < |s|
  {
    s[q] == '\n' && FirstClose(s, q + 1).Some?
  }

  /** Try the opening newlines at k - 1, k - 2, ..., 11, in that order. */
  function TryOpen(s: string, k: nat): Option<(nat, nat, nat)>
    requires 11 <= k <= |s|
    decreases k
  {
    if k == 11 then None
    else if Opens(s, k - 1) then
      var c := FirstClose(s, k).value;
      Some((k, c.0, c.1))
    else TryOpen(s, k - 1)
  }

  /** TryOpen picks the latest opening newline below `k` that a fence
      follows, or reports that there is none. */
  lemma {:induction false} TryOpenSpec(s: string, k: nat)
    requires 11 <= k <= |s|
    ensures var r := TryOpen(s, k);
      r.Some? ==> 12 <= r.value.0 <= k && Opens(s, r.value.0 - 1) &&
                  FirstClose(s, r.value.0) == Some((r.value.1, r.value.2))
    ensures var r := TryOpen(s, k);
      r.Some? ==> forall q :: r.value.0 <= q < k ==> !Opens(s, q)
    ensures TryOpen(s, k).None? ==> forall q :: 11 <= q < k ==> !Opens(s, q)
    decreases k
  {
    if k > 11 && !Opens(s, k - 1) {
      TryOpenSpec(s, k - 1);
    }
  }

  /** re.match of the block pattern: (group start, group end, match end). */
  function FindBlock(s: string): Option<(nat, nat, nat)> {
    if StartsWith(s, Opener) then TryOpen(s, 11 + SpaceRun(s, 11)) else None
  }

  // ---------------------------------------------------------------------
  // The matcher finds exactly the match the pattern's backtracking finds
  // ---------------------------------------------------------------------

  lemma OpenBound(s: string, p: int)
    requires OpenAt(s, p)
    ensures p <= 11 + SpaceRun(s, 11)
  {
    SpaceThenNewline(s, 11, p);
    RunBound(s, 11, p);
  }

  /** An opening newline within the leading whitespace opens the group. */
  lemma OpenFromRun(s: string, p: nat)
    requires StartsWith(s, Opener) && 12 <= p <= 11 + SpaceRun(s, 11) && s[p - 1] == '\n'
    ensures OpenAt(s, p)
  {
    SpacePrefix(s, 11, SpaceRun(s, 11), p - 1);
  }

  /** The fence FirstClose finds closes a match. */
  lemma CloseFromFirst(s: string, p: nat)
    requires p <= |s| && FirstClose(s, p).Some?
    ensures p <= FirstClose(s, p).value.0
    ensures CloseAt(s, FirstClose(s, p).value.0, FirstClose(s, p).value.1)
  {
    FirstCloseSpec(s, p);
    CloseEndSpec(s, FirstClose(s, p).value.0);
  }

  /** What the matcher returns is a match. */
  lemma FindBlockSound(s: string)
    requires FindBlock(s).Some?
    ensures MatchAt(s, FindBlock(s).value.0, FindBlock(s).value.1, FindBlock(s).value.2)
  {
    var k := 11 + SpaceRun(s, 11);
    TryOpenSpec(s, k);
    var r := TryOpen(s, k);
    assert FindBlock(s) == r;
    var p := r.value.0;
    CloseFromFirst(s, p);
    OpenFromRun(s, p);
  }

  /** A closing fence at `e` bounds the end of any match there. */
  lemma CloseCovers(s: string, e: nat, end: int)
    requires CloseAt(s, e, end)
    ensures CloseEnd(s, e).Some? && end <= CloseEnd(s, e).value
  {
    CloseEndSpec(s, e);
  }

  /** A fence at `e` makes FirstClose from `p` find one no later than `e`. */
  lemma FirstCloseBefore(s: string, p: nat, e: nat)
    requires p <= e <= |s| && CloseEnd(s, e).Some?
    ensures FirstClose(s, p).Some? && FirstClose(s, p).value.0 <= e
    ensures FirstClose(s, p).value.0 == e ==> FirstClose(s, p).value.1 == CloseEnd(s, e).value
  {
    FirstCloseSpec(s, p);
  }

  /** An opening newline at `q` makes TryOpen pick one no earlier. */
  lemma TryOpenFinds(s: string, k: nat, q: nat)
    requires 11 <= q < k <= |s| && Opens(s, q)
    ensures TryOpen(s, k).Some? && q < TryOpen(s, k).value.0 <= k
    ensures FirstClose(s, TryOpen(s, k).value.0) == Some((TryOpen(s, k).value.1, TryOpen(s, k).value.2))
  {
    TryOpenSpec(s, k);
  }

  /** If the pattern can match at all, the matcher finds a match, and it is
      the first in backtracking order: the latest opening newline, then the
      earliest fence, then the latest final newline. */
  lemma FindBlockFirst(s: string, p: int, e: int, end: int)
    requires MatchAt(s, p, e, end)
    ensures FindBlock(s).Some?
    ensures var (p0, e0, end0) := FindBlock(s).value;
      p <= p0 && (p == p0 ==> e0 <= e) && (p == p0 && e == e0 ==> end <= end0)
  {
    OpenBound(s, p);
    var k := 11 + SpaceRun(s, 11);
    CloseCovers(s, e, end);
    FirstCloseBefore(s, p, e);
    TryOpenFinds(s, k, p - 1);
    assert FindBlock(s) == TryOpen(s, k);
  }

  /** Without a match there is no block. */
  lemma NoMatchNoBlock(s: string)
    requires forall p, e, end :: !MatchAt(s, p, e, end)
    ensures FindBlock(s).None?
  {
    if FindBlock(s).Some? {
      FindBlockSound(s);
    }
  }

  // ---------------------------------------------------------------------
  // Parsing a project file
  // ---------------------------------------------------------------------

  /** The stripped, non-empty lines, in order. */
  function CleanLines(lines: seq<string>): (r: seq<string>)
    ensures forall i :: 0 <= i < |r| ==> Trimmed(r[i])
    ensures |r| <= |lines|
  {
    if lines == [] then []
    else
      var head := Strip(lines[0]);
      StripProperties(lines[0]);
      (if head != [] then [head] else []) + CleanLines(lines[1..])
  }

  /** The positions from `from` on of the non-empty strings, in increasing
      order. */
  function NonEmptyFrom(xs: seq<string>, from: nat): (idx: seq<nat>)
    requires from <= |xs|
    ensures forall k :: 0 <= k < |idx| ==> from <= idx[k] < |xs|
    decreases |xs| - from
  {
    if from == |xs| then []
    else (if xs[from] != [] then [from] else []) + NonEmptyFrom(xs, from + 1)
  }

  /** The positions increase strictly and are exactly those of the
      non-empty strings. */
  lemma {:induction false} NonEmptyFromExact(xs: seq<string>, from: nat)
    requires from <= |xs|
    ensures forall k, l :: 0 <= k < l < |NonEmptyFrom(xs, from)| ==> NonEmptyFrom(xs, from)[k] < NonEmptyFrom(xs, from)[l]
    ensures forall i :: from <= i < |xs| ==> (i in NonEmptyFrom(xs, from) <==> xs[i] != [])
    decreases |xs| - from
  {
    if from < |xs| {
      NonEmptyFromExact(xs, from + 1);
      var t := NonEmptyFrom(xs, from + 1);
      var h: seq<nat> := if xs[from] != [] then [from] else [];
      assert NonEmptyFrom(xs, from) == h + t;
      forall k, l | 0 <= k < l < |h + t|
        ensures (h + t)[k] < (h + t)[l]
      {
        assert (h + t)[l] == t[l - |h|];
        if k >= |h| {
          assert (h + t)[k] == t[k - |h|];
        }
      }
      forall i | from <= i < |xs|
        ensures i in h + t <==> xs[i] != []
      {
        assert i in h + t <==> i in h || i in t;
      }
    }
  }

  /** The non-empty strings, in order. */
  function Compact(xs: seq<string>): seq<string> {
    if xs == [] then [] else (if xs[0] != [] then [xs[0]] else []) + Compact(xs[1..])
  }

  /** From `from` on, the k-th kept string is the one at the k-th non-empty
      position. */
  lemma {:induction false} CompactAt(xs: seq<string>, from: nat)
    requires from <= |xs|
    ensures |Compact(xs[from..])| == |NonEmptyFrom(xs, from)|
    ensures forall k :: 0 <= k < |NonEmptyFrom(xs, from)| ==> Compact(xs[from..])[k] == xs[NonEmptyFrom(xs, from)[k]]
    decreases |xs| - from
  {
    if from < |xs| {
      CompactAt(xs, from + 1);
      var rest := xs[from..];
      assert rest[0] == xs[from] && rest[1..] == xs[from + 1..];
      var t := NonEmptyFrom(xs, from + 1);
      var c := Compact(xs[from + 1..]);
      if xs[from] != [] {
        var idx := [from] + t;
        assert NonEmptyFrom(xs, from) == idx;
        assert Compact(rest) == [xs[from]] + c;
        forall k | 0 <= k < |idx|
          ensures ([xs[from]] + c)[k] == xs[idx[k]]
        {
          if k > 0 {
            assert idx[k] == t[k - 1];
            assert ([xs[from]] + c)[k] == c[k - 1];
          }
        }
      } else {
        assert NonEmptyFrom(xs, from) == t;
        assert Compact(rest) == c;
      }
    }
  }

  /** `f` applied to every string. */
  function MapStrings(f: string -> string, xs: seq<string>): (r: seq<string>)
    ensures |r| == |xs|
  {
    if xs == [] then [] else [f(xs[0])] + MapStrings(f, xs[1..])
  }

  lemma {:induction false} MapStringsAt(f: string -> string, xs: seq<string>)
    ensures forall i :: 0 <= i < |xs| ==> MapStrings(f, xs)[i] == f(xs[i])
  {
    if xs != [] {
      MapStringsAt(f, xs[1..]);
      var head, tail := f(xs[0]), MapStrings(f, xs[1..]);
      assert MapStrings(f, xs) == [head] + tail;
      forall i | 0 <= i < |xs|
        ensures ([head] + tail)[i] == f(xs[i])
      {
        if i > 0 {
          assert ([head] + tail)[i] == tail[i - 1];
          assert xs[1..][i - 1] == xs[i];
        }
      }
    }
  }

  /** Cleaning is stripping every line, then keeping the non-empty ones. */
  lemma {:induction false} CleanLinesCompact(lines: seq<string>)
    ensures CleanLines(lines) == Compact(MapStrings(Strip, lines))
  {
    if lines != [] {
      CleanLinesCompact(lines[1..]);
      var xs := MapStrings(Strip, lines);
      assert xs[0] == Strip(lines[0]) && xs[1..] == MapStrings(Strip, lines[1..]);
    }
  }

  /** The clean lines are, in order, the stripped forms of exactly the lines
      that are not blank: one entry per such line, at increasing positions. */
  lemma CleanLinesSpec(lines: seq<string>)
    ensures var idx := NonEmptyFrom(MapStrings(Strip, lines), 0);
      |CleanLines(lines)| == |idx| &&
      (forall k :: 0 <= k < |idx| ==> idx[k] < |lines| && CleanLines(lines)[k] == Strip(lines[idx[k]])) &&
      (forall k, l :: 0 <= k < l < |idx| ==> idx[k] < idx[l]) &&
      (forall i :: 0 <= i < |lines| ==> (i in idx <==> Strip(lines[i]) != []))
  {
    var stripped := MapStrings(Strip, lines);
    CleanLinesCompact(lines);
    MapStringsAt(Strip, lines);
    assert stripped[0..] == stripped;
    CompactAt(stripped, 0);
    NonEmptyFromExact(stripped, 0);
  }

  /** parse_project_file, after the file is read: the packages of a leading
      block and the content after it, or no packages and the whole content. */
  function ParseProjectFile(content: string): (r: (seq<string>, string))
    ensures FindBlock(content).None? ==> r == ([], content)
    ensures |r.1| <= |content| && content[|content| - |r.1|..] == r.1
    ensures forall i :: 0 <= i < |r.0| ==> Trimmed(r.0[i])
    ensures FindBlock(content).Some? ==>
      var m := FindBlock(content).value;
      m.0 <= m.1 <= |content| && m.2 <= |content| &&
      r == (CleanLines(Split(content[m.0..m.1], '\n')), content[m.2..])
  {
    match FindBlock(content)
    case None => ([], content)
    case Some((p, e, end)) =>
      FindBlockSound(content);
      (CleanLines(Split(content[p..e], '\n')), content[end..])
  }

  /** The block is recognised only at the very start of the content. */
  lemma BlockOnlyAtStart(content: string)
    requires !StartsWith(content, Opener)
    ensures ParseProjectFile(content) == ([], content)
  {
  }

  /** The content is the matched block followed by the returned remainder. */
  lemma ParseSplitsContent(content: string)
    requires FindBlock(content).Some?
    ensures var end := FindBlock(content).value.2;
      end <= |content| && content == content[..end] + ParseProjectFile(content).1
  {
    FindBlockSound(content);
  }

  // ---------------------------------------------------------------------
  // Writing a block and reading it back
  // ---------------------------------------------------------------------

  /** A project file with the given packages block and body. */
  function Render(packages: seq<string>, body: string): string {
    Opener + "\n" + Join(packages, "\n") + Fence + "\n" + body
  }

  /** A package name that survives the round trip: non-empty, without
      whitespace and without backquotes. */
  predicate PlainName(p: string) {
    p != [] && forall i :: 0 <= i < |p| ==> !IsSpace(p[i]) && p[i] != '`'
  }

  lemma JoinStartsWith(parts: seq<string>, sep: string)
    requires parts != []
    ensures StartsWith(Join(parts, sep), parts[0])
  {
    if |parts| > 1 {
      assert Join(parts, sep) == parts[0] + (sep + Join(parts[1..], sep));
    }
  }

  /** Every character of a join is a separator character or a part's character. */
  lemma {:induction false} JoinChars(parts: seq<string>, sep: string, i: nat)
    requires i < |Join(parts, sep)|
    ensures Join(parts, sep)[i] in sep || exists j, t :: 0 <= j < |parts| && 0 <= t < |parts[j]| && parts[j][t] == Join(parts, sep)[i]
  {
    if |parts| == 1 {
      assert parts[0][i] == Join(parts, sep)[i];
    } else if |parts| > 1 {
      var rest := Join(parts[1..], sep);
      assert Join(parts, sep) == parts[0] + sep + rest;
      if i < |parts[0]| {
        assert parts[0][i] == Join(parts, sep)[i];
      } else if i >= |parts[0]| + |sep| {
        JoinChars(parts[1..], sep, i - |parts[0]| - |sep|);
        assert rest[i - |parts[0]| - |sep|] == Join(parts, sep)[i];
        if !(Join(parts, sep)[i] in sep) {
          var j, t :| 0 <= j < |parts[1..]| && 0 <= t < |parts[1..][j]| && parts[1..][j][t] == rest[i - |parts[0]| - |sep|];
          assert parts[j + 1][t] == Join(parts, sep)[i];
        }
      }
    }
  }

  lemma PlainJoinChars(pkgs: seq<string>, i: nat)
    requires forall j :: 0 <= j < |pkgs| ==> PlainName(pkgs[j])
    requires i < |Join(pkgs, "\n")|
    ensures Join(pkgs, "\n")[i] != '`'
    ensures Join(pkgs, "\n")[i] == '\n' || !IsSpace(Join(pkgs, "\n")[i])
  {
    JoinChars(pkgs, "\n", i);
  }

  lemma CleanPlain(pkgs: seq<string>)
    requires forall j :: 0 <= j < |pkgs| ==> PlainName(pkgs[j])
    ensures CleanLines(pkgs) == pkgs
  {
    if pkgs != [] {
      var p := pkgs[0];
      assert RStrip(p) == p;
      assert LStrip(p) == p;
      CleanPlain(pkgs[1..]);
    }
  }

  /** The layout of a rendered file: the marker and newline, the joined
      names, the fence and newline, then the body. */
  lemma RenderLayout(pkgs: seq<string>, body: string)
    ensures var s, n := Render(pkgs, body), |Join(pkgs, "\n")|;
      |s| == 17 + n + |body| && StartsWith(s, Opener) && s[11] == '\n' &&
      s[12..12 + n] == Join(pkgs, "\n") && s[12 + n..16 + n] == Fence && s[16 + n] == '\n' &&
      s[17 + n..] == body
  {
    var J := Join(pkgs, "\n");
    var a := Opener + "\n";
    var b := Fence + "\n";
    var s := Render(pkgs, body);
    assert s == a + J + b + body;
    assert s[..12] == a;
    assert s[..11] == a[..11];
    assert s[12..12 + |J|] == J;
    assert s[12 + |J|..17 + |J|] == b;
    assert s[12 + |J|..16 + |J|] == b[..4];
  }

  /** On text laid out like a rendered file whose names start with a
      non-space and hold no backquote, the match is the rendered block. */
  lemma FindLaidOut(s: string, J: string, body: string)
    requires |s| == 17 + |J| + |body| && StartsWith(s, Opener) && s[11] == '\n'
    requires s[12..12 + |J|] == J && s[12 + |J|..16 + |J|] == Fence && s[16 + |J|] == '\n'
    requires s[17 + |J|..] == body
    requires J != [] && !IsSpace(J[0]) && forall i :: 0 <= i < |J| ==> J[i] != '`'
    requires body == [] || !IsSpace(body[0])
    ensures FindBlock(s) == Some((12, 12 + |J|, 17 + |J|))
  {
    var n := |J|;
    assert s[11..11] == [] && s[16 + n..16 + n] == [];
    assert CloseAt(s, 12 + n, 17 + n);
    assert MatchAt(s, 12, 12 + n, 17 + n);
    FindBlockFirst(s, 12, 12 + n, 17 + n);
    FindBlockSound(s);
    var (p, e, end) := FindBlock(s).value;
    // the opening newline is the one right after the marker
    assert s[12] == J[0];
    assert SpaceRun(s, 11) == 1;
    OpenBound(s, p);
    // no fence inside the names, and nothing more after the fence's newline
    if e < 12 + n {
      NoFenceInNames(s, J, e);
      assert false;
    }
    if end > 17 + n {
      CloseSpaces(s, e, end, 17 + n);
      assert false;
    }
  }

  /** No fence starts inside names that hold no backquote. */
  lemma NoFenceInNames(s: string, J: string, e: int)
    requires 12 + |J| < |s| && s[12..12 + |J|] == J && s[12 + |J|] == '\n'
    requires forall i :: 0 <= i < |J| ==> J[i] != '`'
    requires 12 <= e < 12 + |J| && e + 4 <= |s|
    ensures s[e..e + 4] != Fence
  {
    if e + 1 < 12 + |J| {
      assert J[e + 1 - 12] == s[e + 1];
    }
    assert s[e..e + 4][1] == s[e + 1];
  }

  /** Between the fence and the final newline there is only whitespace. */
  lemma CloseSpaces(s: string, e: int, end: int, t: int)
    requires CloseAt(s, e, end) && e + 4 <= t < end
    ensures IsSpace(s[t])
  {
    if t < end - 1 {
      assert s[e + 4..end - 1][t - e - 4] == s[t];
    }
  }

  /** The joined names of plain packages start with a non-space and hold no backquote. */
  lemma PlainJoin(pkgs: seq<string>)
    requires pkgs != [] && forall j :: 0 <= j < |pkgs| ==> PlainName(pkgs[j])
    ensures var J := Join(pkgs, "\n"); J != [] && !IsSpace(J[0]) && forall i :: 0 <= i < |J| ==> J[i] != '`'
  {
    var J := Join(pkgs, "\n");
    JoinStartsWith(pkgs, "\n");
    assert J[0] == pkgs[0][0];
    forall i | 0 <= i < |J| ensures J[i] != '`' {
      PlainJoinChars(pkgs, i);
    }
  }

  /** Rendering plain package names and a body that does not start with
      whitespace, then parsing, gives back the names and the body. */
  lemma RenderParse(pkgs: seq<string>, body: string)
    requires pkgs != [] && forall j :: 0 <= j < |pkgs| ==> PlainName(pkgs[j])
    requires body == [] || !IsSpace(body[0])
    ensures ParseProjectFile(Render(pkgs, body)) == (pkgs, body)
  {
    var s := Render(pkgs, body);
    var J := Join(pkgs, "\n");
    RenderLayout(pkgs, body);
    PlainJoin(pkgs);
    FindLaidOut(s, J, body);
    assert ParseProjectFile(s) == (CleanLines(Split(J, '\n')), body);
    assert forall j :: 0 <= j < |pkgs| ==> '\n' !in pkgs[j];
    SplitJoin(pkgs, '\n');
    CleanPlain(pkgs);
  }

  // ---------------------------------------------------------------------
  // The project prompt
  // ---------------------------------------------------------------------

  const Header := "\n## Project Configuration Active\n"
  const PackageStatus := "### Package Status"
  const AvailableTitle := "\n**\U{2705} Available for import:**"
  const UnavailableTitle := "\n**\U{274C} NOT available (will cause ImportError):**"
  const Warning := "\n\U{26A0}\U{FE0F} You must work around these missing packages using only standard library or the available packages listed above."

  /** The list line for one package. */
  function Bullet(pkg: string): string {
    "- `" + pkg + "`"
  }

  /** The list lines for the packages, one per package. */
  function Bullets(pkgs: seq<string>): (r: seq<string>)
    ensures |r| == |pkgs|
  {
    if pkgs == [] then [] else Bullets(pkgs[..|pkgs| - 1]) + [Bullet(pkgs[|pkgs| - 1])]
  }

  /** Line i of the list is the line for package i. */
  lemma {:induction false} BulletsEach(pkgs: seq<string>)
    ensures forall i :: 0 <= i < |pkgs| ==> Bullets(pkgs)[i] == Bullet(pkgs[i])
  {
    if pkgs != [] {
      BulletsEach(pkgs[..|pkgs| - 1]);
    }
  }

  /** The packages not marked unavailable, in order. */
  function Available(packages: seq<string>, unavailable: seq<string>): seq<string> {
    if packages == [] then []
    else
      var last := packages[|packages| - 1];
      Available(packages[..|packages| - 1], unavailable) + (if last !in unavailable then [last] else [])
  }

  /** A package is listed as available iff it is given and not unavailable. */
  lemma {:induction false} AvailableMembers(packages: seq<string>, unavailable: seq<string>, x: string)
    ensures x in Available(packages, unavailable) <==> x in packages && x !in unavailable
  {
    if packages != [] {
      var init := packages[..|packages| - 1];
      AvailableMembers(init, unavailable, x);
      assert packages == init + [packages[|packages| - 1]];
    }
  }

  /** With nothing unavailable, every package is listed, in order. */
  lemma {:induction false} AvailableAll(packages: seq<string>)
    ensures Available(packages, []) == packages
  {
    if packages != [] {
      AvailableAll(packages[..|packages| - 1]);
    }
  }

  /** The list of available packages under its title, when there is one. */
  function AvailableSection(available: seq<string>): seq<string> {
    if available != [] then [AvailableTitle] + Bullets(available) else []
  }

  /** The list of unavailable packages under its title, and the warning. */
  function UnavailableSection(unavailable: seq<string>): seq<string> {
    if unavailable != [] then [UnavailableTitle] + Bullets(unavailable) + [Warning] else []
  }

  /** The package section: present only when packages are configured. */
  function PackageSection(packages: seq<string>, unavailable: seq<string>): seq<string> {
    if packages == [] then [] else StatusSection(Available(packages, unavailable), unavailable)
  }

  /** The package-status title, both lists and the closing empty line. */
  function StatusSection(available: seq<string>, unavailable: seq<string>): seq<string> {
    [PackageStatus] + AvailableSection(available) + UnavailableSection(unavailable) + [""]
  }

  /** The parts of the project prompt, in order. */
  function PromptParts(packages: seq<string>, content: string, unavailable: seq<string>): seq<string> {
    [Header] + PackageSection(packages, unavailable) + [content]
  }

  /** The header comes first and the content last; there is anything in
      between iff packages are configured, and then it opens with the
      package-status title and closes with an empty line. */
  lemma PromptFrame(packages: seq<string>, content: string, unavailable: seq<string>)
    ensures var parts := PromptParts(packages, content, unavailable);
      parts[0] == Header && parts[|parts| - 1] == content && (packages == [] <==> |parts| == 2)
    ensures packages != [] ==>
      var parts := PromptParts(packages, content, unavailable);
      parts[1] == PackageStatus && parts[|parts| - 2] == ""
  {
  }

  /** With packages configured and some available, the parts are the header,
      the package-status title, the available packages under their title,
      one line each in order, then the rest of the section and the content. */
  lemma PromptListsAvailable(packages: seq<string>, content: string, unavailable: seq<string>)
    requires packages != [] && Available(packages, unavailable) != []
    ensures PromptParts(packages, content, unavailable) ==
      [Header, PackageStatus, AvailableTitle] + Bullets(Available(packages, unavailable)) +
      UnavailableSection(unavailable) + ["", content]
  {
    var b, rest := Bullets(Available(packages, unavailable)), UnavailableSection(unavailable);
    assert PromptParts(packages, content, unavailable) == [Header] + ([PackageStatus] + ([AvailableTitle] + b) + rest + [""]) + [content];
    FlattenAvailable(Header, PackageStatus, AvailableTitle, b, rest, content);
  }

  lemma FlattenAvailable(h: string, t: string, title: string, b: seq<string>, rest: seq<string>, c: string)
    ensures [h] + ([t] + ([title] + b) + rest + [""]) + [c] == [h, t, title] + b + rest + ["", c]
  {
  }

  /** With packages configured and some unavailable, the parts are the header,
      the package-status title, the available section, the unavailable
      packages under their title, one line each in order, the warning, an
      empty line and the content. */
  lemma PromptListsUnavailable(packages: seq<string>, content: string, unavailable: seq<string>)
    requires packages != [] && unavailable != []
    ensures PromptParts(packages, content, unavailable) ==
      [Header, PackageStatus] + AvailableSection(Available(packages, unavailable)) +
      [UnavailableTitle] + Bullets(unavailable) + [Warning, "", content]
  {
    var a, b := AvailableSection(Available(packages, unavailable)), Bullets(unavailable);
    assert PromptParts(packages, content, unavailable) ==
      [Header] + ([PackageStatus] + a + ([UnavailableTitle] + b + [Warning]) + [""]) + [content];
    FlattenUnavailable(Header, PackageStatus, a, UnavailableTitle, b, Warning, content);
  }

  lemma FlattenUnavailable(h: string, t: string, a: seq<string>, title: string, b: seq<string>, w: string, c: string)
    ensures [h] + ([t] + a + ([title] + b + [w]) + [""]) + [c] == [h, t] + a + [title] + b + [w, "", c]
  {
  }

  lemma Regroup(h: seq<string>, t: string, a: seq<string>, u: seq<string>)
    ensures h + [t] + a + u + [""] == h + ([t] + a + u + [""])
  {
  }

  /** Without packages the prompt is the header and the content alone. */
  lemma NoPackagesPrompt(content: string, unavailable: seq<string>)
    ensures Join(PromptParts([], content, unavailable), "\n") == Header + "\n" + content
  {
    assert PromptParts([], content, unavailable) == [Header, content];
  }

  /** The prompt text begins with the header and ends with the content. */
  lemma PromptEnds(packages: seq<string>, content: string, unavailable: seq<string>)
    ensures StartsWith(Join(PromptParts(packages, content, unavailable), "\n"), Header)
    ensures EndsWith(Join(PromptParts(packages, content, unavailable), "\n"), content)
  {
    var parts := PromptParts(packages, content, unavailable);
    JoinStartsWith(parts, "\n");
    JoinEndsWith(parts, "\n");
  }

  lemma {:induction false} JoinEndsWith(parts: seq<string>, sep: string)
    requires parts != []
    ensures EndsWith(Join(parts, sep), parts[|parts| - 1])
  {
    if |parts| > 1 {
      JoinEndsWith(parts[1..], sep);
      var rest := Join(parts[1..], sep);
      assert Join(parts, sep) == (parts[0] + sep) + rest;
      assert parts[1..][|parts[1..]| - 1] == parts[|parts| - 1];
    }
  }

  /** create_project_prompt(packages, content, unavailable): append the parts
      one by one, then join them with newlines. A missing `unavailable`
      list is the empty one. */
  method CreateProjectPrompt(packages: seq<string>, content: string, unavailable: seq<string>)
    returns (prompt: string)
    ensures prompt == Join(PromptParts(packages, content, unavailable), "\n")
  {
    var parts := [Header];
    if packages != [] {
      parts := AppendPackageSection(parts, packages, unavailable);
    }
    parts := parts + [content];
    prompt := Join(parts, "\n");
  }

  /** The package-status part of the prompt, appended line by line. */
  method AppendPackageSection(parts: seq<string>, packages: seq<string>, unavailable: seq<string>)
    returns (r: seq<string>)
    requires packages != []
    ensures r == parts + PackageSection(packages, unavailable)
  {
    r := parts + [PackageStatus];
    var available := AvailablePackages(packages, unavailable);
    r := AppendAvailable(r, available);
    r := AppendUnavailable(r, unavailable);
    r := r + [""];
    Regroup(parts, PackageStatus, AvailableSection(available), UnavailableSection(unavailable));
  }

  method AppendAvailable(parts: seq<string>, available: seq<string>) returns (r: seq<string>)
    ensures r == parts + AvailableSection(available)
  {
    r := parts;
    if available != [] {
      r := r + [AvailableTitle];
      r := AppendBullets(r, available);
    }
  }

  method AppendUnavailable(parts: seq<string>, unavailable: seq<string>) returns (r: seq<string>)
    ensures r == parts + UnavailableSection(unavailable)
  {
    r := parts;
    if unavailable != [] {
      r := r + [UnavailableTitle];
      r := AppendBullets(r, unavailable);
      r := r + [Warning];
    }
  }

  /** The comprehension over the packages: keep those not unavailable. */
  method AvailablePackages(packages: seq<string>, unavailable: seq<string>) returns (available: seq<string>)
    ensures available == Available(packages, unavailable)
  {
    available := [];
    for i := 0 to |packages|
      invariant available == Available(packages[..i], unavailable)
    {
      assert packages[..i + 1][..i] == packages[..i];
      if packages[i] !in unavailable {
        available := available + [packages[i]];
      }
    }
    assert packages[..|packages|] == packages;
  }

  /** One list line per package, appended in order. */
  method AppendBullets(parts: seq<string>, pkgs: seq<string>) returns (r: seq<string>)
    ensures r == parts + Bullets(pkgs)
  {
    r := parts;
    for i := 0 to |pkgs|
      invariant r == parts + Bullets(pkgs[..i])
    {
      assert pkgs[..i + 1][..i] == pkgs[..i];
      r := r + [Bullet(pkgs[i])];
    }
    assert pkgs[..|pkgs|] == pkgs;
  }
}
