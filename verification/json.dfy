/** JSON-like values: the dictionaries the tools return and the log writer
    emits are modelled as maps from keys to these values. */
module Json {
  import opened Text

  datatype Json =
    | JNull
    | JBool(b: bool)
    | JInt(i: int)
    | JStr(s: string)
    | JArr(items: seq<Json>)
    | JObj(fields: map<string, Json>)

  type Object = map<string, Json>

  /** Python truthiness of the corresponding value. */
  predicate Truthy(j: Json) {
    match j
    case JNull => false
    case JBool(b) => b
    case JInt(i) => i != 0
    case JStr(s) => s != ""
    case JArr(items) => items != []
    case JObj(fields) => fields != map[]
  }

  // ---------------------------------------------------------------------
  // Python's str() and repr() of a value
  // ---------------------------------------------------------------------

  /** str() of a value: None, True and False, the decimal digits of an
      integer, a string's own text, and a list as its elements' repr()
      between brackets. A dictionary is not spelled out (see the README). */
  function PyStr(j: Json): string
    decreases j, 0
  {
    match j
    case JNull => "None"
    case JBool(b) => if b then "True" else "False"
    case JInt(i) => if i < 0 then "-" + NatText(-i) else NatText(i)
    case JStr(s) => s
    case JArr(items) => "[" + Join(seq(|items|, k requires 0 <= k < |items| => PyRepr(items[k])), ", ") + "]"
    case JObj(_) => "{...}"
  }

  /** repr() of a value: a string is quoted; everything else reads as its str(). */
  function PyRepr(j: Json): string
    decreases j, 1
  {
    match j
    case JStr(s) => Quote(s)
    case _ => PyStr(j)
  }

  /** The quote repr() puts around a string: double quotes when the text
      holds a single quote and no double quote, else single quotes. */
  function QuoteChar(s: string): (q: char)
    ensures q == '"' <==> '\'' in s && '"' !in s
    ensures q == '"' || q == '\''
  {
    if '\'' in s && '"' !in s then '"' else '\''
  }

  function Quote(s: string): string {
    var q := QuoteChar(s);
    [q] + Escape(s, q) + [q]
  }

  /** The backslash escape of one character inside a literal quoted by `q`:
      the backslash, the quote and the three whitespace controls. */
  function EscapeChar(c: char, q: char): string {
    if c == '\\' then "\\\\"
    else if c == q then ['\\', q]
    else if c == '\n' then "\\n"
    else if c == '\r' then "\\r"
    else if c == '\t' then "\\t"
    else [c]
  }

  function Escape(s: string, q: char): string {
    if s == [] then [] else EscapeChar(s[0], q) + Escape(s[1..], q)
  }

  /** Reading a quoted literal's body back: a backslash takes the next
      character as an escape. */
  function Unescape(t: string): string {
    if t == [] then []
    else if t[0] == '\\' && |t| >= 2 then [Unescaped(t[1])] + Unescape(t[2..])
    else [t[0]] + Unescape(t[1..])
  }

  function Unescaped(c: char): char {
    if c == 'n' then '\n' else if c == 'r' then '\r' else if c == 't' then '\t' else c
  }

  /** The escaped body reads back as the original text. */
  lemma {:induction false} UnescapeEscaped(s: string, q: char)
    requires q == '"' || q == '\''
    ensures Unescape(Escape(s, q)) == s
  {
    if s != [] {
      UnescapeEscaped(s[1..], q);
      UnescapeOne(s[0], q, Escape(s[1..], q));
    }
  }

  /** One escaped character reads back as itself, whatever follows it. */
  lemma UnescapeOne(c: char, q: char, t: string)
    requires q == '"' || q == '\''
    ensures Unescape(EscapeChar(c, q) + t) == [c] + Unescape(t)
  {
    var e := EscapeChar(c, q);
    if |e| == 2 {
      assert e[0] == '\\' && Unescaped(e[1]) == c;
      assert (e + t)[2..] == t;
    } else {
      assert e == [c] && c != '\\';
      assert (e + t)[1..] == t;
    }
  }

  /** Inside the escaped body every quote character is escaped, so the
      literal ends at its closing quote. */
  lemma {:induction false} EscapedQuotes(s: string, q: char)
    requires q == '"' || q == '\''
    ensures forall i :: 0 <= i < |Escape(s, q)| && Escape(s, q)[i] == q ==> i > 0 && Escape(s, q)[i - 1] == '\\'
  {
    if s != [] {
      EscapedQuotes(s[1..], q);
      var e, t := EscapeChar(s[0], q), Escape(s[1..], q);
      assert Escape(s, q) == e + t;
      forall i | 0 <= i < |e + t| && (e + t)[i] == q
        ensures i > 0 && (e + t)[i - 1] == '\\'
      {
        if i >= |e| {
          assert (e + t)[i] == t[i - |e|];
        }
      }
    }
  }

  /** A text without backslashes, quotes or whitespace controls is its own
      escaped body. */
  lemma {:induction false} EscapePlain(s: string, q: char)
    requires forall i :: 0 <= i < |s| ==> Plain(s[i])
    requires q == '"' || q == '\''
    ensures Escape(s, q) == s
  {
    if s != [] {
      EscapePlain(s[1..], q);
      assert s == [s[0]] + s[1..];
    }
  }

  predicate Plain(c: char) {
    c != '\\' && c != '\'' && c != '"' && c != '\n' && c != '\r' && c != '\t'
  }

  /** A plain text's repr() is the text in single quotes. */
  lemma QuotePlain(s: string)
    requires forall i :: 0 <= i < |s| ==> Plain(s[i])
    ensures PyRepr(JStr(s)) == "'" + s + "'"
  {
    EscapePlain(s, '\'');
    assert QuoteChar(s) == '\'';
  }

  /** A two-element list prints as both reprs, separated by ", ", in brackets. */
  lemma StrOfPair(a: Json, b: Json)
    ensures PyStr(JArr([a, b])) == "[" + PyRepr(a) + ", " + PyRepr(b) + "]"
  {
    var items := [a, b];
    assert seq(|items|, k requires 0 <= k < |items| => PyRepr(items[k])) == [PyRepr(a), PyRepr(b)];
    JoinCons(PyRepr(a), [PyRepr(b)], ", ");
  }

  /** A list of plain strings prints as each string in single quotes,
      separated by ", ", between brackets. */
  lemma StrOfPlainStrings(ss: seq<string>)
    requires forall i, k :: 0 <= i < |ss| && 0 <= k < |ss[i]| ==> Plain(ss[i][k])
    ensures PyStr(JArr(seq(|ss|, i requires 0 <= i < |ss| => JStr(ss[i])))) ==
      "[" + Join(seq(|ss|, i requires 0 <= i < |ss| => "'" + ss[i] + "'"), ", ") + "]"
  {
    var items := seq(|ss|, i requires 0 <= i < |ss| => JStr(ss[i]));
    var reprs := seq(|items|, k requires 0 <= k < |items| => PyRepr(items[k]));
    var quoted := seq(|ss|, i requires 0 <= i < |ss| => "'" + ss[i] + "'");
    forall k | 0 <= k < |ss|
      ensures reprs[k] == quoted[k]
    {
      EscapePlain(ss[k], '\'');
      assert QuoteChar(ss[k]) == '\'';
    }
    assert reprs == quoted;
  }
}
