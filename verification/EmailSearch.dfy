/** The search box of a filter: one term, or a list of exact email addresses, one a line. */
module EmailSearch {
  import opened Common
  import opened Text

  const MAX_TERM := 320
  const MAX_EMAILS := 1000

  /** The ASCII characters that end a line. A carriage return with its line feed counts as two here,
      which only adds an empty line. */
  predicate IsBreak(c: char) {
    '\n' <= c <= '\r' || '\U{1C}' <= c <= '\U{1E}'
  }

  predicate OneLine(s: string) {
    forall i :: 0 <= i < |s| ==> !IsBreak(s[i])
  }

  function Lines(s: string): (r: seq<string>)
    ensures |r| >= 1
  {
    if s == [] then [[]]
    else
      var rest := Lines(s[1..]);
      if IsBreak(s[0]) then [[]] + rest else [[s[0]] + rest[0]] + rest[1..]
  }

  predicate Blank(s: string) {
    Strip(s) == ""
  }

  /** The lines that hold something. */
  function Filled(lines: seq<string>): seq<string> {
    if lines == [] then [] else (if Blank(lines[0]) then [] else [lines[0]]) + Filled(lines[1..])
  }

  /** Trimmed, in lower case, each once, in order. */
  function Emails(lines: seq<string>, found: seq<string>): seq<string>
    decreases |lines|
  {
    if lines == [] then found
    else
      var e := Lower(Strip(lines[0]));
      Emails(lines[1..], if e == "" || e in found then found else found + [e])
  }

  function Joined(es: seq<string>): string {
    if es == [] then "" else if |es| == 1 then es[0] else es[0] + ['\n'] + Joined(es[1..])
  }

  /** One address is written twice, so that it still reads as a list. */
  function Printed(es: seq<string>): string {
    if |es| == 1 then es[0] + ['\n'] + es[0] else Joined(es)
  }

  function FirstOf(es: seq<string>): seq<string> {
    if |es| > MAX_EMAILS then es[..MAX_EMAILS] else es
  }

  function SearchText(raw: string): string {
    var lines := Filled(Lines(raw));
    if |lines| > 1 then Printed(FirstOf(Emails(lines, []))) else Clip(raw, MAX_TERM)
  }

  // ---------------------------------------------------------------- normal search texts

  predicate Address(e: string) {
    e != "" && Stripped(e) && Lower(e) == e && OneLine(e)
  }

  ghost predicate AddressList(es: seq<string>) {
    (forall e :: e in es ==> Address(e)) && forall i, j :: 0 <= i < j < |es| ==> es[i] != es[j]
  }

  ghost predicate NormalSearch(s: string) {
    || (Clipped(s, MAX_TERM) && OneLine(s))
    || (exists es :: 1 <= |es| <= MAX_EMAILS && AddressList(es) && s == Printed(es))
  }

  // ---------------------------------------------------------------- lines

  lemma BreakIsSpace(c: char)
    ensures IsBreak(c) ==> IsSpace(c)
  {
  }

  lemma {:induction false} LinesOfJoin(a: string, c: char, b: string)
    requires IsBreak(c)
    ensures Lines(a + [c] + b) == Lines(a) + Lines(b)
  {
    var all := a + [c] + b;
    if a == [] {
      assert all[1..] == b;
    } else {
      assert all[1..] == a[1..] + [c] + b;
      LinesOfJoin(a[1..], c, b);
    }
  }

  lemma {:induction false} LinesOfOne(s: string)
    requires OneLine(s)
    ensures Lines(s) == [s]
  {
    if s != [] {
      LinesOfOne(s[1..]);
      assert [s[0]] + s[1..] == s;
    }
  }

  lemma {:induction false} EveryLineIsOne(s: string)
    ensures forall l :: l in Lines(s) ==> OneLine(l)
  {
    if s != [] {
      EveryLineIsOne(s[1..]);
      var rest := Lines(s[1..]);
      assert rest[0] in rest;
    }
  }

  lemma {:induction false} FilledOfJoin(a: seq<string>, b: seq<string>)
    ensures Filled(a + b) == Filled(a) + Filled(b)
  {
    if a == [] {
      assert a + b == b;
    } else {
      assert (a + b)[1..] == a[1..] + b;
      FilledOfJoin(a[1..], b);
    }
  }

  lemma NonBlank(s: string, c: char)
    requires c in s && !IsSpace(c)
    ensures !Blank(s)
  {
    StripSpec(s);
  }

  /** A text that is not blank has a line that is not. */
  lemma {:induction false} SomethingFilled(s: string, i: nat)
    requires i < |s| && !IsSpace(s[i])
    ensures |Filled(Lines(s))| >= 1
    decreases |s|
  {
    var rest := Lines(s[1..]);
    BreakIsSpace(s[0]);
    if IsBreak(s[0]) {
      SomethingFilled(s[1..], i - 1);
      assert Lines(s)[1..] == rest;
    } else if i == 0 {
      NonBlank([s[0]] + rest[0], s[0]);
    } else {
      SomethingFilled(s[1..], i - 1);
      assert rest == [rest[0]] + rest[1..];
      assert Lines(s)[1..] == rest[1..];
      LongerStillFilled(s[0], rest[0]);
    }
  }

  lemma LongerStillFilled(c: char, l: string)
    ensures !Blank(l) ==> !Blank([c] + l)
  {
    StripSpec(l);
    if !Blank(l) {
      var x := Strip(l)[0];
      assert x in l && !IsSpace(x);
      NonBlank([c] + l, x);
    }
  }

  /** Where a stripped text lies in the original. */
  lemma StripIsPart(s: string) returns (i: nat, j: nat)
    ensures i <= j <= |s| && Strip(s) == s[i..j]
  {
    StripLeftSpec(s);
    var l := StripLeft(s);
    StripRightSpec(l);
    i := |s| - |l|;
    j := i + |StripRight(l)|;
    assert l[..|StripRight(l)|] == s[i..j];
  }

  /** Text on both sides of a break makes two filled lines. */
  lemma BreakBetween(s: string, i: nat, m: nat, j: nat)
    requires i < m < j < |s| && !IsSpace(s[i]) && IsBreak(s[m]) && !IsSpace(s[j])
    ensures |Filled(Lines(s))| >= 2
  {
    var a, b := s[..m], s[m + 1..];
    assert s == a + [s[m]] + b;
    assert a[i] == s[i] && b[j - m - 1] == s[j];
    LinesOfJoin(a, s[m], b);
    FilledOfJoin(Lines(a), Lines(b));
    SomethingFilled(a, i);
    SomethingFilled(b, j - m - 1);
  }

  ghost predicate BrokenInside(s: string) {
    exists i, m, j :: 0 <= i < m < j < |s| && !IsSpace(s[i]) && IsBreak(s[m]) && !IsSpace(s[j])
  }

  lemma BrokenIsTwo(s: string)
    ensures BrokenInside(s) ==> |Filled(Lines(s))| >= 2
  {
    if BrokenInside(s) {
      var i, m, j :| 0 <= i < m < j < |s| && !IsSpace(s[i]) && IsBreak(s[m]) && !IsSpace(s[j]);
      BreakBetween(s, i, m, j);
    }
  }

  lemma UnbrokenIsOne(s: string)
    requires !BrokenInside(s)
    ensures OneLine(Strip(s))
  {
    var i, j := StripIsPart(s);
    StripSpec(s);
    var t := s[i..j];
    forall k | 0 <= k < |t| ensures !IsBreak(t[k]) {
      BreakIsSpace(t[k]);
      assert s[i] == t[0] && s[j - 1] == t[|t| - 1] && s[i + k] == t[k];
    }
  }

  /** With at most one filled line, the trimmed text has no line break inside. */
  lemma OneFilledLine(s: string)
    requires |Filled(Lines(s))| <= 1
    ensures OneLine(Strip(s))
  {
    BrokenIsTwo(s);
    UnbrokenIsOne(s);
  }

  // ---------------------------------------------------------------- addresses

  lemma LowerKeepsLines(s: string)
    requires OneLine(s)
    ensures OneLine(Lower(s))
  {
  }

  lemma StripKeepsLines(s: string)
    requires OneLine(s)
    ensures OneLine(Strip(s))
  {
    var i, j := StripIsPart(s);
  }

  lemma {:induction false} EmailsAreAddresses(lines: seq<string>, found: seq<string>)
    requires (forall l :: l in lines ==> OneLine(l)) && AddressList(found)
    ensures AddressList(Emails(lines, found)) && |Emails(lines, found)| >= |found|
    decreases |lines|
  {
    if lines != [] {
      var l := lines[0];
      assert l in lines;
      StripSpec(l);
      LowerSpec(Strip(l));
      StripKeepsLines(l);
      LowerKeepsLines(Strip(l));
      var e := Lower(Strip(l));
      EmailsAreAddresses(lines[1..], if e == "" || e in found then found else found + [e]);
    }
  }

  lemma {:induction false} FilledSpec(lines: seq<string>)
    ensures forall l :: l in Filled(lines) ==> l in lines && !Blank(l)
  {
    if lines != [] { FilledSpec(lines[1..]); }
  }

  lemma {:induction false} AddressesRead(es: seq<string>, found: seq<string>)
    requires AddressList(found + es)
    ensures Emails(es, found) == found + es && Filled(es) == es
    decreases |es|
  {
    if es != [] {
      var all := found + es;
      assert all[|found|] == es[0] && es[0] in all;
      assert forall i :: 0 <= i < |found| ==> all[i] == found[i];
      StripFixed(es[0]);
      assert found + [es[0]] + es[1..] == all;
      AddressesRead(es[1..], found + [es[0]]);
      assert [es[0]] + es[1..] == es;
    } else {
      assert found + es == found;
    }
  }

  lemma {:induction false} JoinedLines(es: seq<string>)
    requires es != [] && forall e :: e in es ==> OneLine(e)
    ensures Lines(Joined(es)) == es
  {
    if |es| == 1 {
      LinesOfOne(es[0]);
    } else {
      JoinedLines(es[1..]);
      LinesOfOne(es[0]);
      LinesOfJoin(es[0], '\n', Joined(es[1..]));
      assert [es[0]] + es[1..] == es;
    }
  }

  // ---------------------------------------------------------------- the two directions

  lemma PrefixIsList(es: seq<string>, n: nat)
    requires AddressList(es) && n <= |es|
    ensures AddressList(es[..n])
  {
  }

  /** Whatever was typed or stored, the result is normal: a trimmed single line, or a list of distinct
      lower-case addresses within the limit. */
  lemma SearchIsNormal(raw: string)
    ensures NormalSearch(SearchText(raw))
  {
    var lines := Filled(Lines(raw));
    EveryLineIsOne(raw);
    FilledSpec(Lines(raw));
    if |lines| > 1 {
      EmailsAreAddresses(lines, []);
      FirstAddress(lines);
      var es := Emails(lines, []);
      PrefixIsList(es, |FirstOf(es)|);
      assert FirstOf(es) == es[..|FirstOf(es)|];
    } else {
      OneFilledLine(raw);
      ClipKeepsLine(raw);
    }
  }

  lemma {:induction false} EmailsGrow(lines: seq<string>, found: seq<string>)
    ensures |Emails(lines, found)| >= |found|
    decreases |lines|
  {
    if lines != [] {
      var e := Lower(Strip(lines[0]));
      EmailsGrow(lines[1..], if e == "" || e in found then found else found + [e]);
    }
  }

  lemma FirstEmail(lines: seq<string>)
    requires lines != [] && Lower(Strip(lines[0])) != ""
    ensures Emails(lines, []) == Emails(lines[1..], [Lower(Strip(lines[0]))])
  {
    var none: seq<string> := [];
    var e := Lower(Strip(lines[0]));
    assert none + [e] == [e] && e !in none;
  }

  lemma FirstAddress(lines: seq<string>)
    requires lines != [] && !Blank(lines[0])
    ensures |Emails(lines, [])| >= 1
  {
    var e := Lower(Strip(lines[0]));
    assert |e| == |Strip(lines[0])| && e != "";
    FirstEmail(lines);
    EmailsGrow(lines[1..], [e]);
  }

  lemma ClipKeepsLine(raw: string)
    requires OneLine(Strip(raw))
    ensures Clipped(Clip(raw, MAX_TERM), MAX_TERM) && OneLine(Clip(raw, MAX_TERM))
  {
    ClipSpec(raw, MAX_TERM);
    var t := Strip(raw);
    if |t| > MAX_TERM { StripKeepsLines(t[..MAX_TERM]); }
  }

  lemma SingleFixed(e: string)
    requires Address(e)
    ensures Filled(Lines(e + ['\n'] + e)) == [e, e] && Emails([e, e], []) == [e]
  {
    LinesOfOne(e);
    LinesOfJoin(e, '\n', e);
    StripFixed(e);
    assert Filled([e]) == [e];
    FilledOfJoin([e], [e]);
    assert [e] + [e] == [e, e] && [e, e][1..] == [e];
    FirstEmail([e, e]);
    assert [e][1..] == [];
    assert Emails([e], [e]) == Emails([], [e]);
  }

  lemma ListFixed(es: seq<string>)
    requires 1 <= |es| <= MAX_EMAILS && AddressList(es)
    ensures SearchText(Printed(es)) == Printed(es)
  {
    if |es| == 1 {
      assert es == [es[0]] && es[0] in es;
      SingleFixed(es[0]);
    } else {
      assert [] + es == es;
      AddressesRead(es, []);
      JoinedLines(es);
    }
  }

  /** A normal search text is read back as it is. */
  lemma SearchIsFixed(s: string)
    requires NormalSearch(s)
    ensures SearchText(s) == s
  {
    if Clipped(s, MAX_TERM) && OneLine(s) {
      LinesOfOne(s);
      ClipSpec(s, MAX_TERM);
    } else {
      var es :| 1 <= |es| <= MAX_EMAILS && AddressList(es) && s == Printed(es);
      ListFixed(es);
    }
  }
}
