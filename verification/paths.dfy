/** Lexical paths: the part of pathlib that the working-directory guard
    relies on. An absolute path is the sequence of its segments below the
    root; `Path.resolve` is modelled without symbolic links, so resolving is
    the purely lexical treatment of "." and "..". */
module Paths {
  import opened Wrappers
  import opened Text

  /** An absolute path, as the segments below "/"; the root is []. */
  type Path = seq<string>

  /** A resolved path: no empty, ".", ".." or slashed segment. */
  predicate Resolved(p: Path) {
    forall i :: 0 <= i < |p| ==> p[i] != "" && p[i] != "." && p[i] != ".." && '/' !in p[i]
  }

  /** Whether `s` is absolute, as POSIX pathlib decides it. */
  predicate IsAbsolute(s: string) {
    |s| > 0 && s[0] == '/'
  }

  /** The segments pathlib keeps when it parses `s`: the pieces between
      slashes, without empty ones and without ".". */
  function Segments(s: string): (r: seq<string>)
    ensures forall i :: 0 <= i < |r| ==> r[i] != "" && r[i] != "." && '/' !in r[i]
  {
    Keep(Split(s, '/'))
  }

  function Keep(parts: seq<string>): (r: seq<string>)
    requires forall i :: 0 <= i < |parts| ==> '/' !in parts[i]
    ensures forall i :: 0 <= i < |r| ==> r[i] != "" && r[i] != "." && '/' !in r[i]
  {
    if parts == [] then []
    else if parts[0] == "" || parts[0] == "." then Keep(parts[1..])
    else [parts[0]] + Keep(parts[1..])
  }

  /** One segment applied to a path: ".." goes up (and stays at the root),
      anything else goes down. */
  function Step(cur: Path, seg: string): Path {
    if seg == ".." then (if cur == [] then [] else cur[..|cur| - 1])
    else cur + [seg]
  }

  /** The lexical resolution of `segs` below `cur`. */
  function Walk(cur: Path, segs: seq<string>): Path
    decreases |segs|
  {
    if segs == [] then cur else Walk(Step(cur, segs[0]), segs[1..])
  }

  /** Path(s).resolve() for a string, relative paths taken from `cwd`. */
  function Resolve(cwd: Path, s: string): Path {
    Walk(if IsAbsolute(s) then [] else cwd, Segments(s))
  }

  /** The text of a path, as str() gives it. */
  function Render(p: Path): string {
    "/" + Join(p, "/")
  }

  predicate IsPrefix(a: Path, b: Path) {
    |a| <= |b| && b[..|a|] == a
  }

  /** Why a path was refused. */
  datatype PathError = AbsolutePath | Escapes

  /** resolve_path: refuse an absolute path, then resolve below the working
      directory and refuse a result that is not inside it. */
  function ResolveUnder(wd: Path, filePath: string): (r: Result<Path, PathError>)
    ensures r.Success? ==> IsPrefix(wd, r.value)
    ensures r.Success? <==> !IsAbsolute(filePath) && IsPrefix(wd, Walk(wd, Segments(filePath)))
    ensures r == Failure(AbsolutePath) <==> IsAbsolute(filePath)
  {
    if IsAbsolute(filePath) then Failure(AbsolutePath)
    else
      var full := Walk(wd, Segments(filePath));
      if IsPrefix(wd, full) then Success(full) else Failure(Escapes)
  }

  // ---------------------------------------------------------------------
  // Properties of resolution
  // ---------------------------------------------------------------------

  /** Resolving keeps a path resolved when the segments have no empty or "." entry. */
  lemma {:induction false} WalkResolved(cur: Path, segs: seq<string>)
    requires Resolved(cur)
    requires forall i :: 0 <= i < |segs| ==> segs[i] != "" && segs[i] != "." && '/' !in segs[i]
    ensures Resolved(Walk(cur, segs))
    decreases |segs|
  {
    if segs != [] {
      WalkResolved(Step(cur, segs[0]), segs[1..]);
    }
  }

  /** Every path resolve_path returns is itself resolved. */
  lemma AcceptedIsResolved(wd: Path, filePath: string)
    requires Resolved(wd)
    ensures ResolveUnder(wd, filePath).Success? ==> Resolved(ResolveUnder(wd, filePath).value)
  {
    WalkResolved(wd, Segments(filePath));
  }

  /** The segments never climb more than `depth` levels above their start. */
  predicate StaysBelow(depth: nat, segs: seq<string>)
    decreases |segs|
  {
    segs == [] ||
    (if segs[0] == ".." then depth > 0 && StaysBelow(depth - 1, segs[1..])
     else StaysBelow(depth + 1, segs[1..]))
  }

  /** Resolution that never climbs above `x` does not touch what lies above it. */
  lemma {:induction false} WalkFrame(base: Path, x: Path, segs: seq<string>)
    requires StaysBelow(|x|, segs)
    ensures Walk(base + x, segs) == base + Walk(x, segs)
    decreases |segs|
  {
    if segs != [] {
      if segs[0] == ".." {
        assert Step(base + x, "..") == base + x[..|x| - 1];
      } else {
        assert Step(base + x, segs[0]) == base + (x + [segs[0]]);
      }
      WalkFrame(base, Step(x, segs[0]), segs[1..]);
    }
  }

  /** A relative path that never climbs above its start is accepted, and
      the result is the working directory followed by the path's own
      resolution. */
  lemma ContainedPathAccepted(wd: Path, filePath: string)
    requires !IsAbsolute(filePath)
    requires StaysBelow(0, Segments(filePath))
    ensures ResolveUnder(wd, filePath) == Success(wd + Walk([], Segments(filePath)))
  {
    WalkFrame(wd, [], Segments(filePath));
    assert wd + [] == wd;
  }

  /** With no ".." at all, the result is the working directory followed by
      the path's kept segments. */
  lemma PlainPathAccepted(wd: Path, filePath: string)
    requires !IsAbsolute(filePath)
    requires ".." !in Segments(filePath)
    ensures ResolveUnder(wd, filePath) == Success(wd + Segments(filePath))
  {
    var segs := Segments(filePath);
    NoUpStaysBelow(0, segs);
    ContainedPathAccepted(wd, filePath);
    WalkDown([], segs);
    assert [] + segs == segs;
  }

  lemma {:induction false} NoUpStaysBelow(d: nat, segs: seq<string>)
    requires ".." !in segs
    ensures StaysBelow(d, segs)
    decreases |segs|
  {
    if segs != [] {
      assert segs[0] != "..";
      assert ".." !in segs[1..] by {
        forall i | 0 <= i < |segs[1..]| ensures segs[1..][i] != ".." {
          assert segs[1..][i] == segs[i + 1];
        }
      }
      NoUpStaysBelow(d + 1, segs[1..]);
    }
  }

  lemma {:induction false} WalkDown(cur: Path, segs: seq<string>)
    requires ".." !in segs
    ensures Walk(cur, segs) == cur + segs
    decreases |segs|
  {
    if segs != [] {
      assert ".." !in segs[1..] by {
        forall i | 0 <= i < |segs[1..]| ensures segs[1..][i] != ".." {
          assert segs[1..][i] == segs[i + 1];
        }
      }
      WalkDown(cur + [segs[0]], segs[1..]);
      assert cur + [segs[0]] + segs[1..] == cur + segs;
    }
  }

  /** Parsing the "/"-join of plain segments gives those segments back. */
  lemma SegmentsOfJoin(segs: seq<string>)
    requires segs != []
    requires forall i :: 0 <= i < |segs| ==> segs[i] != "" && segs[i] != "." && '/' !in segs[i]
    ensures Segments(Join(segs, "/")) == segs
  {
    SplitJoin(segs, '/');
    KeepPlain(segs);
  }

  lemma {:induction false} KeepPlain(parts: seq<string>)
    requires forall i :: 0 <= i < |parts| ==> parts[i] != "" && parts[i] != "." && '/' !in parts[i]
    ensures Keep(parts) == parts
  {
    if parts != [] {
      KeepPlain(parts[1..]);
    }
  }

  lemma UpThenDown(wd: Path, name: string)
    requires wd != [] && name != ".."
    ensures Walk(wd, ["..", name]) == wd[..|wd| - 1] + [name]
  {
    var segs := ["..", name];
    var up := wd[..|wd| - 1];
    assert segs[0] == ".." && segs[1..] == [name];
    assert Step(wd, "..") == up;
    assert Walk(wd, segs) == Walk(up, [name]);
    var one := [name];
    assert one[0] == name && one[1..] == [];
    assert Walk(up, one) == Walk(up + [name], []);
  }

  /** Climbing out of the working directory into a sibling is refused. */
  lemma SiblingRefused(wd: Path, name: string)
    requires wd != [] && name != wd[|wd| - 1]
    requires name != "" && name != "." && name != ".." && '/' !in name
    ensures ResolveUnder(wd, ".." + "/" + name) == Failure(Escapes)
  {
    SegmentsOfJoin(["..", name]);
    assert Join(["..", name], "/") == ".." + "/" + name;
    UpThenDown(wd, name);
    var full := Walk(wd, ["..", name]);
    assert full[|wd| - 1] != wd[|wd| - 1];
  }

  /** A path that climbs out and comes straight back in is accepted: only
      the resolved result is compared against the working directory. */
  lemma ReenteringAccepted(wd: Path)
    requires wd != [] && Resolved(wd)
    ensures ResolveUnder(wd, ".." + "/" + wd[|wd| - 1]) == Success(wd)
  {
    var name := wd[|wd| - 1];
    SegmentsOfJoin(["..", name]);
    assert Join(["..", name], "/") == ".." + "/" + name;
    UpThenDown(wd, name);
    assert wd[..|wd| - 1] + [name] == wd;
  }

  /** An absolute path is refused whatever it names. */
  lemma AbsoluteRefused(wd: Path)
    ensures ResolveUnder(wd, "/" + Render(wd)) == Failure(AbsolutePath)
  {
  }
}
