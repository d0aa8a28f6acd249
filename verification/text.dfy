/** String helpers that mirror the Python built-ins the source relies on:
    str.isspace, str.rstrip, str.strip, str.split(sep), sep.join(parts),
    str.endswith and slicing. Strings are sequences of characters. */
module Text {
  import opened Wrappers

  /** Python truthiness of an optional string: present and non-empty. */
  predicate Given(s: Option<string>) {
    s.Some? && s.value != ""
  }

  /** The characters for which Python's str.isspace() holds (the same set the
      regular-expression class \s matches on str patterns). */
  predicate IsSpace(c: char) {
    ('\t' <= c <= '\r') || ('\U{1C}' <= c <= ' ') || c == '\U{85}' || c == '\U{A0}' ||
    c == '\U{1680}' || ('\U{2000}' <= c <= '\U{200A}') || c == '\U{2028}' || c == '\U{2029}' ||
    c == '\U{202F}' || c == '\U{205F}' || c == '\U{3000}'
  }

  predicate AllSpace(s: string) {
    forall i :: 0 <= i < |s| ==> IsSpace(s[i])
  }

  /** str.rstrip(): drop the longest all-whitespace suffix. */
  function RStrip(s: string): (r: string)
    ensures |r| <= |s| && r == s[..|r|]
    ensures r == [] || !IsSpace(r[|r| - 1])
  {
    if s == [] || !IsSpace(s[|s| - 1]) then s
    else RStrip(s[..|s| - 1])
  }

  /** What rstrip drops is whitespace. */
  lemma {:induction false} RStripDropsSpace(s: string)
    ensures AllSpace(s[|RStrip(s)|..])
  {
    if s != [] && IsSpace(s[|s| - 1]) {
      var init := s[..|s| - 1];
      RStripDropsSpace(init);
      var n := |RStrip(s)|;
      var a, b := s[n..], init[n..];
      forall t | 0 <= t < |a| ensures IsSpace(a[t]) {
        if t < |b| { assert a[t] == b[t]; }
      }
    }
  }

  /** str.lstrip(): drop the longest all-whitespace prefix. */
  function LStrip(s: string): (r: string)
    ensures |r| <= |s| && r == s[|s| - |r|..]
    ensures r == [] || !IsSpace(r[0])
  {
    if s == [] || !IsSpace(s[0]) then s
    else LStrip(s[1..])
  }

  /** What lstrip drops is whitespace. */
  lemma {:induction false} LStripDropsSpace(s: string)
    ensures AllSpace(s[..|s| - |LStrip(s)|])
  {
    if s != [] && IsSpace(s[0]) {
      var tail := s[1..];
      LStripDropsSpace(tail);
      var n := |s| - |LStrip(s)|;
      var a, b := s[..n], tail[..n - 1];
      forall t | 0 <= t < |a| ensures IsSpace(a[t]) {
        if t > 0 { assert a[t] == b[t - 1]; }
      }
    }
  }

  /** str.strip(). */
  function Strip(s: string): string {
    LStrip(RStrip(s))
  }

  /** A non-empty string with no whitespace at either end. */
  predicate Trimmed(s: string) {
    s != [] && !IsSpace(s[0]) && !IsSpace(s[|s| - 1])
  }

  /** The stripped string has no whitespace at either end, and it is empty
      exactly when the input is all whitespace. */
  lemma StripProperties(s: string)
    ensures Strip(s) == [] || Trimmed(Strip(s))
    ensures Strip(s) == [] <==> AllSpace(s)
  {
    var r := RStrip(s);
    var t := LStrip(r);
    if t != [] {
      var i := |r| - |t|;
      assert t[|t| - 1] == r[|r| - 1];
      assert t[0] == r[i];
      assert r[i] == s[i];
    } else {
      RStripDropsSpace(s);
      LStripDropsSpace(r);
      var a, b := r[..|r|], s[|r|..];
      forall i | 0 <= i < |s| ensures IsSpace(s[i]) {
        if i < |r| { assert a[i] == s[i]; } else { assert b[i - |r|] == s[i]; }
      }
    }
  }

  predicate StartsWith(s: string, prefix: string) {
    |prefix| <= |s| && s[..|prefix|] == prefix
  }

  predicate EndsWith(s: string, suffix: string) {
    |suffix| <= |s| && s[|s| - |suffix|..] == suffix
  }

  predicate Contains(s: string, c: char) {
    c in s
  }

  /** Python's s[:n] for n >= 0. */
  function Take(s: string, n: nat): (r: string)
    ensures |r| == if |s| < n then |s| else n
    ensures StartsWith(s, r)
  {
    if |s| <= n then s else s[..n]
  }

  /** str.split(sep) for a one-character separator: never empty; the pieces
      contain no separator. */
  function Split(s: string, sep: char): (r: seq<string>)
    ensures |r| >= 1
    ensures forall i :: 0 <= i < |r| ==> sep !in r[i]
    decreases |s|
  {
    if sep !in s then [s]
    else
      var k := IndexOf(s, sep);
      [s[..k]] + Split(s[k + 1..], sep)
  }

  /** The position of the first occurrence of c in s. */
  function IndexOf(s: string, c: char): (k: nat)
    requires c in s
    ensures k < |s| && s[k] == c && c !in s[..k]
  {
    if s[0] == c then 0 else 1 + IndexOf(s[1..], c)
  }

  /** sep.join(parts). */
  function Join(parts: seq<string>, sep: string): string {
    if parts == [] then ""
    else if |parts| == 1 then parts[0]
    else parts[0] + sep + Join(parts[1..], sep)
  }

  /** Joining the pieces of a split gives back the original string. */
  lemma {:induction false} JoinSplit(s: string, sep: char)
    ensures Join(Split(s, sep), [sep]) == s
    decreases |s|
  {
    if sep in s {
      var k := IndexOf(s, sep);
      JoinSplit(s[k + 1..], sep);
      SplitAtFirst(s, sep);
      JoinCons(s[..k], Split(s[k + 1..], sep), [sep]);
    }
  }

  /** The first split piece is everything before the first separator. */
  lemma SplitAtFirst(s: string, sep: char)
    requires sep in s
    ensures var k := IndexOf(s, sep);
      Split(s, sep) == [s[..k]] + Split(s[k + 1..], sep) && s == s[..k] + [sep] + s[k + 1..]
  {
    var k := IndexOf(s, sep);
    assert Split(s, sep) == [s[..k]] + Split(s[k + 1..], sep);
    Around(s, k);
  }

  /** A string is what comes before position k, the character there, and
      what comes after. */
  lemma Around(s: string, k: nat)
    requires k < |s|
    ensures s == s[..k] + [s[k]] + s[k + 1..]
  {
  }

  lemma JoinCons(head: string, tail: seq<string>, sep: string)
    requires tail != []
    ensures Join([head] + tail, sep) == head + sep + Join(tail, sep)
  {
    var parts := [head] + tail;
    assert parts[0] == head && parts[1..] == tail;
  }

  /** Splitting a join gives back the parts, provided no part contains the
      separator. */
  lemma {:induction false} SplitJoin(parts: seq<string>, sep: char)
    requires parts != []
    requires forall i :: 0 <= i < |parts| ==> sep !in parts[i]
    ensures Split(Join(parts, [sep]), sep) == parts
  {
    if |parts| > 1 {
      var tail := Join(parts[1..], [sep]);
      var s := parts[0] + [sep] + tail;
      IndexOfAfterPrefix(parts[0], sep, tail);
      var k := IndexOf(s, sep);
      assert s[..k] == parts[0] && s[k + 1..] == tail;
      assert Split(s, sep) == [parts[0]] + Split(tail, sep);
      SplitJoin(parts[1..], sep);
      assert parts == [parts[0]] + parts[1..];
    } else {
      assert Split(parts[0], sep) == [parts[0]];
    }
  }

  /** The first separator in a + [sep] + b sits right after a when a has none. */
  lemma {:induction false} IndexOfAfterPrefix(a: string, sep: char, b: string)
    requires sep !in a
    ensures sep in a + [sep] + b && IndexOf(a + [sep] + b, sep) == |a|
  {
    var s := a + [sep] + b;
    assert s[|a|] == sep;
    if a != [] {
      assert s[1..] == a[1..] + [sep] + b;
      IndexOfAfterPrefix(a[1..], sep, b);
    }
  }

  /** A separator inside a part always adds at least one piece on the way back. */
  lemma {:induction false} SplitJoinGrows(parts: seq<string>, sep: char, j: nat)
    requires j < |parts| && sep in parts[j]
    ensures |Split(Join(parts, [sep]), sep)| > |parts|
    decreases |parts|
  {
    var s := Join(parts, [sep]);
    SplitCountsSeparators(s, sep);
    JoinCountsSeparators(parts, sep);
    CountPositive(parts[j], sep);
    CountInPart(parts, sep, j);
  }

  /** Number of occurrences of c in s. */
  function Count(s: string, c: char): nat {
    if s == [] then 0 else (if s[0] == c then 1 else 0) + Count(s[1..], c)
  }

  lemma {:induction false} CountAppend(a: string, b: string, c: char)
    ensures Count(a + b, c) == Count(a, c) + Count(b, c)
  {
    if a == [] {
      assert a + b == b;
    } else {
      var ab := a + b;
      assert ab != [] && ab[0] == a[0];
      assert ab[1..] == a[1..] + b;
      CountAppend(a[1..], b, c);
      assert Count(ab, c) == (if a[0] == c then 1 else 0) + Count(a[1..] + b, c);
    }
  }

  lemma {:induction false} CountPositive(s: string, c: char)
    requires c in s
    ensures Count(s, c) > 0
  {
    if s[0] != c { CountPositive(s[1..], c); }
  }

  lemma {:induction false} CountAbsent(s: string, c: char)
    requires c !in s
    ensures Count(s, c) == 0
  {
    if s != [] { CountAbsent(s[1..], c); }
  }

  /** Sum of occurrences of c over all parts. */
  function CountAll(parts: seq<string>, c: char): nat {
    if parts == [] then 0 else Count(parts[0], c) + CountAll(parts[1..], c)
  }

  lemma {:induction false} CountInPart(parts: seq<string>, c: char, j: nat)
    requires j < |parts|
    ensures CountAll(parts, c) >= Count(parts[j], c)
  {
    if j > 0 { CountInPart(parts[1..], c, j - 1); }
  }

  lemma {:induction false} SplitCountsSeparators(s: string, sep: char)
    ensures |Split(s, sep)| == Count(s, sep) + 1
    decreases |s|
  {
    if sep !in s {
      CountAbsent(s, sep);
    } else {
      var k := IndexOf(s, sep);
      SplitCountsSeparators(s[k + 1..], sep);
      assert s == s[..k] + [sep] + s[k + 1..];
      CountAppend(s[..k] + [sep], s[k + 1..], sep);
      CountAppend(s[..k], [sep], sep);
      CountAbsent(s[..k], sep);
      assert Count([sep], sep) == 1 by { assert [sep][1..] == []; }
    }
  }

  lemma {:induction false} JoinCountsSeparators(parts: seq<string>, sep: char)
    requires parts != []
    ensures Count(Join(parts, [sep]), sep) == CountAll(parts, sep) + |parts| - 1
  {
    if |parts| == 1 {
      assert CountAll(parts[1..], sep) == 0;
    } else {
      JoinCountsSeparators(parts[1..], sep);
      var tail := Join(parts[1..], [sep]);
      CountAppend(parts[0] + [sep], tail, sep);
      CountAppend(parts[0], [sep], sep);
      assert Count([sep], sep) == 1 by { assert [sep][1..] == []; }
    }
  }

  /** `t in s` for strings: `t` occurs somewhere in `s`. */
  predicate Occurs(t: string, s: string)
    decreases |s|
  {
    StartsWith(s, t) || (s != [] && Occurs(t, s[1..]))
  }

  /** A string occurs in any string built around it. */
  lemma {:induction false} OccursIn(a: string, t: string, b: string)
    ensures Occurs(t, a + t + b)
    decreases |a|
  {
    if a == [] {
      assert (a + t + b)[..|t|] == t;
    } else {
      OccursIn(a[1..], t, b);
      assert (a + t + b)[1..] == a[1..] + t + b;
    }
  }

  /** A non-empty string occurs only where its first character does. */
  lemma {:induction false} OccursHead(t: string, s: string)
    requires t != [] && Occurs(t, s)
    ensures t[0] in s
    decreases |s|
  {
    if StartsWith(s, t) {
      assert s[..|t|][0] == s[0];
    } else {
      OccursHead(t, s[1..]);
      assert t[0] in s[1..];
    }
  }

  /** str(n) for a natural number: its decimal digits. */
  function NatText(n: nat): (r: string)
    ensures |r| >= 1 && forall i :: 0 <= i < |r| ==> '0' <= r[i] <= '9'
  {
    var d := ['0' + (n % 10) as char];
    if n < 10 then d else NatText(n / 10) + d
  }

  /** Reading the decimal digits back gives the number. */
  function DigitsValue(s: string): int
    requires forall i :: 0 <= i < |s| ==> '0' <= s[i] <= '9'
  {
    if s == [] then 0 else 10 * DigitsValue(s[..|s| - 1]) + (s[|s| - 1] - '0') as int
  }

  lemma {:induction false} NatTextValue(n: nat)
    ensures DigitsValue(NatText(n)) == n
  {
    var r := NatText(n);
    if n >= 10 {
      NatTextValue(n / 10);
      assert r[..|r| - 1] == NatText(n / 10);
    }
  }
}
