/**
 * The string helpers of Go's standard library that the package relies
 * on: `strings.Fields`, `strings.ToLower`, `strings.ToUpper`,
 * `strings.HasPrefix`, `strings.TrimRight` with a one-character cutset and
 * `bytes.SplitN(s, sep, 2)` with a one-byte separator.
 */
module Text {
  import opened Wrappers

  /** `unicode.IsSpace`. */
  predicate IsSpace(c: char) {
    c == ' ' || c == '\t' || c == '\n' || c == '\U{B}' || c == '\U{C}' || c == '\r'
    || c == '\U{85}' || c == '\U{A0}' || c == '\U{1680}'
    || ('\U{2000}' <= c <= '\U{200A}')
    || c == '\U{2028}' || c == '\U{2029}' || c == '\U{202F}' || c == '\U{205F}' || c == '\U{3000}'
  }

  /** A field in the sense of `strings.Fields`: non-empty, without white space. */
  predicate IsField(w: string) {
    w != [] && forall i | 0 <= i < |w| :: !IsSpace(w[i])
  }

  /** The maximal run of non-space characters that starts `s`. */
  function FirstWord(s: string): (w: string)
    requires s != [] && !IsSpace(s[0])
    ensures IsField(w) && |w| <= |s| && s[..|w|] == w
    ensures |w| == |s| || IsSpace(s[|w|])
    decreases |s|
  {
    if |s| == 1 || IsSpace(s[1]) then [s[0]] else [s[0]] + FirstWord(s[1..])
  }

  /** `strings.Fields`: the maximal runs of non-space characters, in order. */
  function Fields(s: string): (r: seq<string>)
    ensures forall i | 0 <= i < |r| :: IsField(r[i])
    decreases |s|
  {
    if s == [] then []
    else if IsSpace(s[0]) then Fields(s[1..])
    else
      var w := FirstWord(s);
      [w] + Fields(s[|w|..])
  }

  /**
   * `unicode.ToLower` restricted to what decides a comparison with an
   * ASCII word: ASCII capitals, and the two other code points whose lower
   * case is ASCII (U+0130 becomes 'i', the Kelvin sign U+212A becomes 'k').
   */
  function LowerChar(c: char): char {
    if 'A' <= c <= 'Z' then ((c as int) + 32) as char
    else if c == '\U{130}' then 'i'
    else if c == '\U{212A}' then 'k'
    else c
  }

  /** `unicode.ToUpper`, likewise: ASCII, plus U+0131 to 'I' and U+017F to 'S'. */
  function UpperChar(c: char): char {
    if 'a' <= c <= 'z' then ((c as int) - 32) as char
    else if c == '\U{131}' then 'I'
    else if c == '\U{17F}' then 'S'
    else c
  }

  function ToLower(s: string): (r: string)
    ensures |r| == |s|
    ensures forall i | 0 <= i < |s| :: r[i] == LowerChar(s[i])
  {
    seq(|s|, i requires 0 <= i < |s| => LowerChar(s[i]))
  }

  function ToUpper(s: string): (r: string)
    ensures |r| == |s|
    ensures forall i | 0 <= i < |s| :: r[i] == UpperChar(s[i])
  {
    seq(|s|, i requires 0 <= i < |s| => UpperChar(s[i]))
  }

  /** `strings.HasPrefix`. */
  predicate HasPrefix(s: string, prefix: string) {
    |prefix| <= |s| && s[..|prefix|] == prefix
  }

  /** The first position of `c` in `s` (Go's `IndexByte`, with None for -1). */
  function IndexOf(s: string, c: char): (r: Option<nat>)
    ensures r.Some? ==> r.value < |s| && s[r.value] == c && c !in s[..r.value]
    ensures r.None? <==> c !in s
    decreases |s|
  {
    if s == [] then None
    else if s[0] == c then Some(0)
    else match IndexOf(s[1..], c)
      case None => None
      case Some(i) => assert s[..i + 1] == [s[0]] + s[1..][..i]; Some(i + 1)
  }

  /**
   * `bytes.SplitN(s, []byte{sep}, 2)`: the whole of `s` when `sep` does not
   * occur, otherwise what precedes its first occurrence and everything
   * after it (later separators included).
   */
  function SplitFirst(s: string, sep: char): (r: seq<string>)
    ensures |r| == 1 || |r| == 2
    ensures |r| == 1 <==> sep !in s
    ensures |r| == 1 ==> r[0] == s
    ensures |r| == 2 ==> r[0] + [sep] + r[1] == s && sep !in r[0]
  {
    match IndexOf(s, sep)
    case None => [s]
    case Some(i) =>
      assert s[..i] + [sep] + s[i + 1..] == s;
      [s[..i], s[i + 1..]]
  }

  /** `strings.TrimRight(s, string(c))`: drop every trailing `c`. */
  function TrimRight(s: string, c: char): (r: string)
    ensures |r| <= |s| && r == s[..|r|]
    ensures r == [] || r[|r| - 1] != c
    ensures forall i | |r| <= i < |s| :: s[i] == c
    decreases |s|
  {
    if s != [] && s[|s| - 1] == c then TrimRight(s[..|s| - 1], c) else s
  }

  // ---------------------------------------------------------------------
  // Properties

  lemma {:induction false} FirstWordOf(w: string, rest: string)
    requires IsField(w) && (rest == [] || IsSpace(rest[0]))
    ensures FirstWord(w + rest) == w
    decreases |w|
  {
    if |w| > 1 {
      assert (w + rest)[1..] == w[1..] + rest;
      FirstWordOf(w[1..], rest);
    }
  }

  lemma {:induction false} FieldsOfField(w: string)
    requires IsField(w)
    ensures Fields(w) == [w]
  {
    FirstWordOf(w, []);
    assert w + [] == w;
    assert w[|w|..] == [];
  }

  /** A run that ends at white space or at the end is the first word of anything it starts. */
  lemma {:induction false} FirstWordOfPrefix(a: string, t: string)
    requires a != [] && !IsSpace(a[0]) && (t == [] || IsSpace(t[0]))
    ensures FirstWord(a + t) == FirstWord(a)
  {
    var w := FirstWord(a);
    var rest := a[|w|..];
    assert a == w + rest;
    assert a + t == w + (rest + t);
    FirstWordOf(w, rest + t);
  }

  /**
   * White space separates fields: splitting at a blank splits the fields.
   * With `Fields([]) == []` and `FieldsOfField`, this determines `Fields`
   * on every string: the maximal non-space runs, in order.
   */
  lemma {:induction false} FieldsSplitAtSpace(a: string, c: char, b: string)
    requires IsSpace(c)
    ensures Fields(a + [c] + b) == Fields(a) + Fields(b)
    decreases |a|
  {
    if a == [] {
      assert (a + [c] + b)[1..] == b;
    } else if IsSpace(a[0]) {
      FieldsSplitAtSpace(a[1..], c, b);
      FieldsSplitAfterSpace(a, c, b);
    } else {
      var w := FirstWord(a);
      FieldsSplitAtSpace(a[|w|..], c, b);
      FieldsSplitAfterWord(a, c, b);
    }
  }

  /** The step of `FieldsSplitAtSpace` past a leading blank of `a`. */
  lemma FieldsSplitAfterSpace(a: string, c: char, b: string)
    requires a != [] && IsSpace(a[0])
    requires Fields(a[1..] + [c] + b) == Fields(a[1..]) + Fields(b)
    ensures Fields(a + [c] + b) == Fields(a) + Fields(b)
  {
    assert (a + [c] + b)[1..] == a[1..] + [c] + b;
  }

  /** The step of `FieldsSplitAtSpace` past the first word of `a`. */
  lemma FieldsSplitAfterWord(a: string, c: char, b: string)
    requires IsSpace(c) && a != [] && !IsSpace(a[0])
    requires Fields(a[|FirstWord(a)|..] + [c] + b) == Fields(a[|FirstWord(a)|..]) + Fields(b)
    ensures Fields(a + [c] + b) == Fields(a) + Fields(b)
  {
    var w := FieldsWordThenSpace(a, c, b);
  }

  /** The first word of `a` is also the first word of `a`, a blank and `b`. */
  lemma FieldsWordThenSpace(a: string, c: char, b: string) returns (w: string)
    requires IsSpace(c) && a != [] && !IsSpace(a[0])
    ensures w == FirstWord(a) && |w| <= |a|
    ensures Fields(a) == [w] + Fields(a[|w|..])
    ensures Fields(a + [c] + b) == [w] + Fields(a[|w|..] + [c] + b)
  {
    w := FirstWord(a);
    var s := a + [c] + b;
    FirstWordOfPrefix(a, [c] + b);
    assert s == a + ([c] + b);
    assert s[|w|..] == a[|w|..] + [c] + b;
  }

  /**
   * A scheme and a credential separated by one blank split into exactly
   * those two fields.
   */
  lemma FieldsOfPair(a: string, b: string)
    requires IsField(a) && IsField(b)
    ensures Fields(a + " " + b) == [a, b]
  {
    var s := a + " " + b;
    FirstWordOf(a, " " + b);
    assert s == a + (" " + b);
    assert s[|a|..] == " " + b;
    assert (" " + b)[1..] == b;
    FieldsOfField(b);
  }

  /**
   * Splitting at the first separator undoes joining with one: the part
   * before it has none, everything after it (separators included) is kept.
   */
  lemma SplitFirstJoin(a: string, sep: char, b: string)
    requires sep !in a
    ensures SplitFirst(a + [sep] + b, sep) == [a, b]
  {
    var s := a + [sep] + b;
    assert s[|a|] == sep;
    var r := SplitFirst(s, sep);
    assert |r| == 2;
    assert |r[0]| == |a|;
    assert r[0] == s[..|a|] == a;
    assert r[1] == s[|a| + 1..] == b;
  }

  /** Lower-casing a string yields `t` exactly when it does so character by character. */
  lemma LowerEquals(s: string, t: string)
    ensures ToLower(s) == t <==> |s| == |t| && forall i | 0 <= i < |s| :: LowerChar(s[i]) == t[i]
  {
    if |s| == |t| && forall i | 0 <= i < |s| :: LowerChar(s[i]) == t[i] {
      assert ToLower(s) == t;
    }
  }

  /**
   * The spellings that select Basic authentication: every mix of cases of
   * "basic", and U+0130 in place of the 'i'.
   */
  lemma LowerIsBasic(s: string)
    ensures ToLower(s) == "basic" <==>
      |s| == 5 && s[0] in "bB" && s[1] in "aA" && s[2] in "sS" && s[3] in "iI\U{130}" && s[4] in "cC"
  {
    LowerEquals(s, "basic");
  }

  /** The spellings that select Bearer authentication: every mix of cases of "bearer". */
  lemma LowerIsBearer(s: string)
    ensures ToLower(s) == "bearer" <==>
      |s| == 6 && s[0] in "bB" && s[1] in "eE" && s[2] in "aA" && s[3] in "rR" && s[4] in "eE" && s[5] in "rR"
  {
    LowerEquals(s, "bearer");
  }
}
