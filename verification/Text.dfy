/** Splitting and trimming of ASCII text, as the handlers use it. */
module Text {
  import opened Common

  /** ASCII white space: tab to carriage return, the four separators, and blank. */
  predicate IsSpace(c: char) {
    '\t' <= c <= '\r' || '\U{1C}' <= c <= '\U{1F}' || c == ' '
  }

  function StripLeft(s: string): string {
    if s != [] && IsSpace(s[0]) then StripLeft(s[1..]) else s
  }

  function StripRight(s: string): string {
    if s != [] && IsSpace(s[|s| - 1]) then StripRight(s[..|s| - 1]) else s
  }

  function Strip(s: string): string {
    StripRight(StripLeft(s))
  }

  predicate Stripped(s: string) {
    s == [] || (!IsSpace(s[0]) && !IsSpace(s[|s| - 1]))
  }

  lemma {:induction false} StripLeftSpec(s: string)
    ensures var r := StripLeft(s);
            && |r| <= |s| && r == s[|s| - |r|..]
            && (r != [] ==> !IsSpace(r[0]))
            && forall c :: !IsSpace(c) ==> (c in r <==> c in s)
  {
    if s != [] && IsSpace(s[0]) {
      StripLeftSpec(s[1..]);
      assert s == [s[0]] + s[1..];
    }
  }

  lemma {:induction false} StripRightSpec(s: string)
    ensures var r := StripRight(s);
            && |r| <= |s| && r == s[..|r|]
            && (r != [] ==> !IsSpace(r[|r| - 1]))
            && forall c :: !IsSpace(c) ==> (c in r <==> c in s)
  {
    if s != [] && IsSpace(s[|s| - 1]) {
      StripRightSpec(s[..|s| - 1]);
      assert s == s[..|s| - 1] + [s[|s| - 1]];
    }
  }

  /** Stripping yields a stripped part of the text that keeps every other character. */
  lemma StripSpec(s: string)
    ensures Stripped(Strip(s)) && |Strip(s)| <= |s|
    ensures forall c :: !IsSpace(c) ==> (c in Strip(s) <==> c in s)
    ensures forall c :: c in Strip(s) ==> c in s
  {
    StripLeftSpec(s);
    StripRightSpec(StripLeft(s));
  }

  /** White space, character by character. */
  lemma SpacesAre(c: char)
    ensures IsSpace(c) <==>
      c in {'\t', '\n', '\U{0B}', '\U{0C}', '\r', '\U{1C}', '\U{1D}', '\U{1E}', '\U{1F}', ' '}
  {
    assert IsSpace(c) ==> 9 <= c as int <= 13 || 28 <= c as int <= 32;
  }

  lemma {:induction false} LeftAreBlanks(s: string)
    ensures |StripLeft(s)| <= |s| && StripLeft(s) == s[|s| - |StripLeft(s)|..]
    ensures forall k :: 0 <= k < |s| - |StripLeft(s)| ==> IsSpace(s[k])
  {
    StripLeftSpec(s);
    if s != [] && IsSpace(s[0]) {
      LeftAreBlanks(s[1..]);
      assert forall k :: 1 <= k < |s| ==> s[k] == s[1..][k - 1];
    }
  }

  lemma {:induction false} RightAreBlanks(s: string)
    ensures |StripRight(s)| <= |s| && StripRight(s) == s[..|StripRight(s)|]
    ensures forall k :: |StripRight(s)| <= k < |s| ==> IsSpace(s[k])
  {
    StripRightSpec(s);
    if s != [] && IsSpace(s[|s| - 1]) {
      RightAreBlanks(s[..|s| - 1]);
    }
  }

  /** Stripping takes white space off both ends and nothing else. */
  lemma StripTakesBlanks(s: string)
    ensures exists i, j ::
      0 <= i <= j <= |s| && Strip(s) == s[i..j] && forall k :: 0 <= k < i || j <= k < |s| ==> IsSpace(s[k])
  {
    LeftAreBlanks(s);
    var t := StripLeft(s);
    RightAreBlanks(t);
    var i, j := |s| - |t|, |s| - |t| + |Strip(s)|;
    assert Strip(s) == s[i..j];
    forall k | 0 <= k < i || j <= k < |s| ensures IsSpace(s[k]) {
      if k >= j { assert s[k] == t[k - i]; }
    }
  }

  /** Stripped text is left alone, and a leading blank makes no difference. */
  lemma StripFixed(s: string)
    ensures Stripped(s) ==> Strip(s) == s
    ensures Strip([' '] + s) == Strip(s)
  {
    assert ([' '] + s)[1..] == s;
  }

  // ---------------------------------------------------------------- splitting

  function Split(s: string, sep: char): (parts: seq<string>)
    ensures |parts| >= 1
  {
    if s == [] then [[]]
    else
      var rest := Split(s[1..], sep);
      if s[0] == sep then [[]] + rest else [[s[0]] + rest[0]] + rest[1..]
  }

  /** No piece holds the separator. */
  lemma {:induction false} SplitPieces(s: string, sep: char)
    ensures forall p :: p in Split(s, sep) ==> sep !in p
    ensures sep !in s ==> Split(s, sep) == [s]
  {
    if s != [] {
      SplitPieces(s[1..], sep);
      assert s == [s[0]] + s[1..];
      var rest := Split(s[1..], sep);
      assert rest[0] in rest;
    }
  }

  /** Splitting a joined text splits its two sides. */
  lemma {:induction false} SplitJoin(a: string, b: string, sep: char)
    ensures Split(a + [sep] + b, sep) == Split(a, sep) + Split(b, sep)
  {
    var all := a + [sep] + b;
    if a == [] {
      assert all[1..] == b;
    } else {
      assert all[1..] == a[1..] + [sep] + b;
      SplitJoin(a[1..], b, sep);
    }
  }

  /** Position of the first occurrence, or the length. */
  function Find(s: string, c: char): (k: nat)
    ensures k <= |s| && c !in s[..k]
    ensures k < |s| ==> s[k] == c
    ensures k == |s| <==> c !in s
  {
    if s == [] then 0
    else if s[0] == c then 0
    else
      var k := Find(s[1..], c);
      assert s[..k + 1] == [s[0]] + s[1..][..k];
      k + 1
  }

  /** The first occurrence in `name + [c] + value` is right after a name without `c`. */
  lemma {:induction false} FindAfter(name: string, c: char, value: string)
    requires c !in name
    ensures Find(name + [c] + value, c) == |name|
  {
    if name != [] {
      assert (name + [c] + value)[1..] == name[1..] + [c] + value;
      FindAfter(name[1..], c, value);
    }
  }

  // ---------------------------------------------------------------- case

  function LowerChar(c: char): char {
    if 'A' <= c <= 'Z' then (c as int + 32) as char else c
  }

  function Lower(s: string): (r: string)
    ensures |r| == |s| && forall i :: 0 <= i < |s| ==> r[i] == LowerChar(s[i])
  {
    if s == [] then [] else [LowerChar(s[0])] + Lower(s[1..])
  }

  /** Lowering turns the letters A to Z into a to z and leaves every other character. */
  lemma LettersAreLowered(c: char)
    ensures 'A' <= c <= 'Z' ==> 'a' <= LowerChar(c) <= 'z' && LowerChar(c) as int - 'a' as int == c as int - 'A' as int
    ensures !('A' <= c <= 'Z') ==> LowerChar(c) == c
  {
  }

  /** Lowering and stripping commute. */
  lemma LowerOfStrip(s: string)
    ensures Lower(Strip(s)) == Strip(Lower(s))
  {
    LowerOfStripLeft(s);
    LowerOfStripRight(StripLeft(s));
  }

  lemma {:induction false} LowerOfStripLeft(s: string)
    ensures Lower(StripLeft(s)) == StripLeft(Lower(s))
  {
    if s != [] && IsSpace(s[0]) {
      assert Lower(s)[1..] == Lower(s[1..]);
      LowerOfStripLeft(s[1..]);
    }
  }

  lemma {:induction false} LowerOfStripRight(s: string)
    ensures Lower(StripRight(s)) == StripRight(Lower(s))
  {
    if s != [] && IsSpace(s[|s| - 1]) {
      assert Lower(s)[..|s| - 1] == Lower(s[..|s| - 1]);
      LowerOfStripRight(s[..|s| - 1]);
    }
  }

  /** Lowering is idempotent and keeps stripped text stripped. */
  lemma LowerSpec(s: string)
    ensures Lower(Lower(s)) == Lower(s)
    ensures Stripped(s) ==> Stripped(Lower(s))
  {
  }

  // ---------------------------------------------------------------- trimmed and cut

  /** Trim, cut to `most` characters, and trim again what the cut may have left. */
  function Clip(s: string, most: nat): string {
    var t := Strip(s);
    if |t| > most then Strip(t[..most]) else t
  }

  predicate Clipped(s: string, most: nat) {
    Stripped(s) && |s| <= most
  }

  /** Clipping gives clipped text, and leaves such text alone. */
  lemma ClipSpec(s: string, most: nat)
    ensures Clipped(Clip(s, most), most)
    ensures Clipped(s, most) ==> Clip(s, most) == s
  {
    StripSpec(s);
    StripFixed(s);
    if |Strip(s)| > most { StripSpec(Strip(s)[..most]); }
  }

  // ---------------------------------------------------------------- order

  /** Comparison of text by the first differing character. */
  predicate TextLeq(a: string, b: string)
    decreases |a|
  {
    a == [] || (b != [] && (a[0] < b[0] || (a[0] == b[0] && TextLeq(a[1..], b[1..]))))
  }

  lemma {:induction false} TextLeqReflexive(a: string)
    ensures TextLeq(a, a)
  {
    if a != [] { TextLeqReflexive(a[1..]); }
  }

  lemma {:induction false} TextTotal(a: string, b: string)
    ensures TextLeq(a, b) || TextLeq(b, a)
    ensures TextLeq(a, b) && TextLeq(b, a) ==> a == b
    decreases |a|
  {
    if a != [] && b != [] && a[0] == b[0] {
      TextTotal(a[1..], b[1..]);
      assert a == [a[0]] + a[1..] && b == [b[0]] + b[1..];
    }
  }

  lemma {:induction false} TextTransitive(a: string, b: string, c: string)
    requires TextLeq(a, b) && TextLeq(b, c)
    ensures TextLeq(a, c)
    decreases |a|
  {
    if a != [] && b != [] && c != [] && a[0] == b[0] == c[0] { TextTransitive(a[1..], b[1..], c[1..]); }
  }

  // ---------------------------------------------------------------- characters replaced

  function Hyphens(s: string): (r: string)
    ensures |r| == |s| && forall i :: 0 <= i < |s| ==> r[i] == if s[i] == '-' then '_' else s[i]
  {
    if s == [] then [] else [if s[0] == '-' then '_' else s[0]] + Hyphens(s[1..])
  }

  function UpperChar(c: char): char {
    if 'a' <= c <= 'z' then (c as int - 32) as char else c
  }

  function Upper(s: string): (r: string)
    ensures |r| == |s| && forall i :: 0 <= i < |s| ==> r[i] == UpperChar(s[i])
  {
    if s == [] then [] else [UpperChar(s[0])] + Upper(s[1..])
  }
}
