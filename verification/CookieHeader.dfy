/** Printing a cookie list as a header and parsing a header back (cookie-string, section 4.2.1 of
    RFC 6265). */
module CookieHeader {
  import opened Common
  import opened Text

  datatype Cookie = Cookie(name: string, value: string)

  // ---------------------------------------------------------------- printing

  function Names(cookies: seq<Cookie>): set<string> {
    set i | 0 <= i < |cookies| :: cookies[i].name
  }

  /** The cookies a header carries: trimmed, non-empty names, first occurrence only. */
  function Kept(cookies: seq<Cookie>): seq<Cookie> {
    if cookies == [] then []
    else
      var before := Kept(cookies[..|cookies| - 1]);
      var name := Strip(cookies[|cookies| - 1].name);
      if name == [] || name in Names(before) then before
      else before + [Cookie(name, cookies[|cookies| - 1].value)]
  }

  function Print(kept: seq<Cookie>): string {
    if kept == [] then []
    else
      var last := kept[|kept| - 1];
      var part := last.name + "=" + last.value;
      if |kept| == 1 then part else Print(kept[..|kept| - 1]) + "; " + part
  }

  function ToHeader(cookies: seq<Cookie>): string {
    Print(Kept(cookies))
  }

  // ---------------------------------------------------------------- parsing

  function ParsePart(part: string): Option<Cookie> {
    var k := Find(part, '=');
    if k == |part| then None
    else
      var name := Strip(part[..k]);
      if name == [] then None else Some(Cookie(name, Strip(part[k + 1..])))
  }

  function ParseParts(parts: seq<string>): seq<Cookie> {
    if parts == [] then []
    else
      ParseParts(parts[..|parts| - 1])
      + (var c := ParsePart(parts[|parts| - 1]); if c.Some? then [c.value] else [])
  }

  function FromHeader(header: string): seq<Cookie> {
    ParseParts(Split(header, ';'))
  }

  // ---------------------------------------------------------------- round trip

  function Trimmed(cookies: seq<Cookie>): seq<Cookie> {
    seq(|cookies|, i requires 0 <= i < |cookies| => Cookie(cookies[i].name, Strip(cookies[i].value)))
  }

  predicate Clean(c: Cookie) {
    '=' !in c.name && ';' !in c.name && ';' !in c.value
  }

  predicate AllClean(cookies: seq<Cookie>) {
    forall i :: 0 <= i < |cookies| ==> Clean(cookies[i])
  }

  ghost predicate KeptNames(cookies: seq<Cookie>) {
    forall i :: 0 <= i < |cookies| ==> cookies[i].name != [] && Stripped(cookies[i].name)
  }

  lemma {:induction false} KeptNamesSpec(cookies: seq<Cookie>)
    ensures KeptNames(Kept(cookies))
    ensures forall i, j :: 0 <= i < j < |Kept(cookies)| ==> Kept(cookies)[i].name != Kept(cookies)[j].name
  {
    if cookies != [] {
      KeptNamesSpec(cookies[..|cookies| - 1]);
      StripSpec(cookies[|cookies| - 1].name);
    }
  }

  /** Cookie `i` is the first of its trimmed name. */
  ghost predicate First(cookies: seq<Cookie>, i: nat)
    requires i < |cookies|
  {
    forall j :: 0 <= j < i ==> Strip(cookies[j].name) != Strip(cookies[i].name)
  }

  lemma NamesPrefix(a: seq<Cookie>, b: seq<Cookie>)
    requires a <= b
    ensures Names(a) <= Names(b)
  {
    forall name | name in Names(a) ensures name in Names(b) {
      var k :| 0 <= k < |a| && a[k].name == name;
      assert b[k] == a[k];
    }
  }

  /** Every non-empty trimmed name is kept. */
  lemma {:induction false} KeptComplete(cookies: seq<Cookie>)
    ensures forall i :: 0 <= i < |cookies| && Strip(cookies[i].name) != [] ==> Strip(cookies[i].name) in Names(Kept(cookies))
  {
    if cookies != [] {
      var front := cookies[..|cookies| - 1];
      var last := cookies[|cookies| - 1];
      KeptComplete(front);
      NamesPrefix(Kept(front), Kept(cookies));
      assert forall i :: 0 <= i < |front| ==> cookies[i] == front[i];
      if Strip(last.name) != [] && Strip(last.name) !in Names(Kept(front)) {
        NamesSnoc(Kept(front), Cookie(Strip(last.name), last.value));
      }
    }
  }

  /** Every kept cookie is the first of its name, with that occurrence's value. */
  lemma {:induction false} KeptFirst(cookies: seq<Cookie>, k: nat)
    requires k < |Kept(cookies)|
    ensures exists i :: 0 <= i < |cookies| && First(cookies, i)
                        && Kept(cookies)[k] == Cookie(Strip(cookies[i].name), cookies[i].value)
  {
    var front := cookies[..|cookies| - 1];
    assert forall i :: 0 <= i < |front| ==> cookies[i] == front[i];
    if k < |Kept(front)| {
      KeptFirst(front, k);
      var i :| 0 <= i < |front| && First(front, i)
               && Kept(front)[k] == Cookie(Strip(front[i].name), front[i].value);
      assert First(cookies, i);
    } else {
      KeptComplete(front);
      assert First(cookies, |front|);
    }
  }

  /** A name kept at the end of the list is that of the last cookie, which is the first to have it. */
  lemma KeptLast(cookies: seq<Cookie>)
    requires cookies != [] && |Kept(cookies)| > |Kept(cookies[..|cookies| - 1])|
    ensures var front, last := cookies[..|cookies| - 1], |cookies| - 1;
      && Kept(cookies) == Kept(front) + [Cookie(Strip(cookies[last].name), cookies[last].value)]
      && First(cookies, last)
  {
    var front, last := cookies[..|cookies| - 1], |cookies| - 1;
    KeptComplete(front);
    forall j | 0 <= j < last ensures Strip(cookies[j].name) != Strip(cookies[last].name) {
      assert cookies[j] == front[j];
    }
  }

  /** The kept names at `a` and `b` come first at `i` and `j`, in this order. */
  ghost predicate InOrderAt(cookies: seq<Cookie>, a: nat, b: nat, i: nat, j: nat)
    requires a < |Kept(cookies)| && b < |Kept(cookies)|
  {
    && i < j < |cookies| && First(cookies, i) && First(cookies, j)
    && Strip(cookies[i].name) == Kept(cookies)[a].name && Strip(cookies[j].name) == Kept(cookies)[b].name
  }

  lemma FirstStays(cookies: seq<Cookie>, i: nat)
    requires cookies != [] && i < |cookies| - 1 && First(cookies[..|cookies| - 1], i)
    ensures First(cookies, i)
  {
    assert forall j :: 0 <= j <= i ==> cookies[j] == cookies[..|cookies| - 1][j];
  }

  /** Kept cookies come in the order in which their names came first. */
  lemma {:induction false} KeptInOrder(cookies: seq<Cookie>, a: nat, b: nat)
    requires a < b < |Kept(cookies)|
    ensures exists i, j :: InOrderAt(cookies, a, b, i, j)
  {
    var front, last := cookies[..|cookies| - 1], |cookies| - 1;
    assert Kept(front) <= Kept(cookies);
    if b < |Kept(front)| {
      KeptInOrder(front, a, b);
      var i, j :| InOrderAt(front, a, b, i, j);
      FirstStays(cookies, i);
      FirstStays(cookies, j);
      assert InOrderAt(cookies, a, b, i, j);
    } else {
      KeptLast(cookies);
      KeptFirst(front, a);
      var i :| 0 <= i < |front| && First(front, i) && Kept(front)[a] == Cookie(Strip(front[i].name), front[i].value);
      FirstStays(cookies, i);
      assert InOrderAt(cookies, a, b, i, last);
    }
  }

  /** What the parser returns is always clean. */
  lemma {:induction false} ParsedIsClean(parts: seq<string>)
    requires forall p :: p in parts ==> ';' !in p
    ensures AllClean(ParseParts(parts))
  {
    if parts != [] {
      var part := parts[|parts| - 1];
      ParsedIsClean(parts[..|parts| - 1]);
      var k := Find(part, '=');
      assert part in parts;
      if k < |part| {
        StripSpec(part[..k]);
        StripSpec(part[k + 1..]);
      }
    }
  }

  lemma ParseLead(lead: string, value: string)
    requires '=' !in lead
    ensures ParsePart(lead + ['='] + value)
            == if Strip(lead) == [] then None else Some(Cookie(Strip(lead), Strip(value)))
  {
    var part := lead + ['='] + value;
    FindAfter(lead, '=', value);
    assert part[..|lead|] == lead && part[|lead| + 1..] == value;
  }

  lemma ParsePartsSnoc(parts: seq<string>, part: string)
    ensures ParseParts(parts + [part])
            == ParseParts(parts) + (if ParsePart(part).Some? then [ParsePart(part).value] else [])
  {
    assert (parts + [part])[..|parts|] == parts;
  }

  lemma TrimmedSnoc(front: seq<Cookie>, last: Cookie)
    ensures Trimmed(front + [last]) == Trimmed(front) + [Cookie(last.name, Strip(last.value))]
  {
  }

  /** The part a cookie prints as, with or without a leading blank, parses back to it. */
  lemma PartParses(c: Cookie, lead: string)
    requires c.name != [] && Stripped(c.name) && Clean(c)
    requires lead == c.name || lead == [' '] + c.name
    ensures Split(lead + ['='] + c.value, ';') == [lead + ['='] + c.value]
    ensures ParsePart(lead + ['='] + c.value) == Some(Cookie(c.name, Strip(c.value)))
  {
    SplitPieces(lead + ['='] + c.value, ';');
    StripFixed(c.name);
    ParseLead(lead, c.value);
  }

  lemma PrintSnoc(front: seq<Cookie>, last: Cookie)
    requires front != []
    ensures Print(front + [last]) == Print(front) + [';'] + ([' '] + last.name + ['='] + last.value)
  {
    assert (front + [last])[..|front|] == front;
    Regroup(Print(front), last.name, last.value);
  }

  lemma Regroup(p: string, name: string, value: string)
    ensures p + "; " + (name + "=" + value) == p + [';'] + ([' '] + name + ['='] + value)
  {
    var part := name + "=" + value;
    assert [' '] + name + ['='] + value == [' '] + part;
    assert "; " == [';'] + [' '];
  }

  lemma {:induction false} PrintParses(kept: seq<Cookie>)
    requires KeptNames(kept) && AllClean(kept)
    ensures FromHeader(Print(kept)) == Trimmed(kept)
  {
    if kept != [] {
      var front := kept[..|kept| - 1];
      var last := kept[|kept| - 1];
      assert kept == front + [last];
      TrimmedSnoc(front, last);
      if front == [] {
        PartParses(last, last.name);
        ParsePartsSnoc([], last.name + ['='] + last.value);
        assert Print(kept) == last.name + ['='] + last.value;
      } else {
        var part := [' '] + last.name + ['='] + last.value;
        PrintParses(front);
        PrintSnoc(front, last);
        SplitJoin(Print(front), part, ';');
        PartParses(last, [' '] + last.name);
        ParsePartsSnoc(Split(Print(front), ';'), part);
      }
    }
  }

  /** Parsing a printed header gives back the first occurrence of every cookie with its value
      trimmed exactly when no kept name holds `=` or `;` and no kept value holds `;`. */
  lemma RoundTripIff(cookies: seq<Cookie>)
    ensures FromHeader(ToHeader(cookies)) == Trimmed(Kept(cookies)) <==> AllClean(Kept(cookies))
  {
    var kept := Kept(cookies);
    KeptNamesSpec(cookies);
    if AllClean(kept) {
      PrintParses(kept);
    } else if FromHeader(ToHeader(cookies)) == Trimmed(kept) {
      SplitPieces(ToHeader(cookies), ';');
      ParsedIsClean(Split(ToHeader(cookies), ';'));
      forall i | 0 <= i < |kept| ensures Clean(kept[i]) {
        StripSpec(kept[i].value);
        assert Clean(Trimmed(kept)[i]);
      }
    }
  }

  // ---------------------------------------------------------------- the two routines

  method CookiesToHeader(cookies: seq<Cookie>) returns (header: string)
    ensures header == ToHeader(cookies)
  {
    var kept: seq<Cookie> := [];
    var seen: set<string> := {};
    header := "";
    var i := 0;
    while i < |cookies|
      invariant 0 <= i <= |cookies|
      invariant kept == Kept(cookies[..i]) && seen == Names(kept)
      invariant header == Print(kept)
    {
      assert cookies[..i + 1][..i] == cookies[..i];
      var name := Strip(cookies[i].name);
      if name != [] && name !in seen {
        var next := kept + [Cookie(name, cookies[i].value)];
        assert next[..|kept|] == kept;
        NamesSnoc(kept, next[|kept|]);
        header := if kept == [] then name + "=" + cookies[i].value else header + "; " + (name + "=" + cookies[i].value);
        kept := next;
        seen := seen + {name};
      }
      i := i + 1;
    }
    assert cookies[..i] == cookies;
  }

  lemma NamesSnoc(cookies: seq<Cookie>, c: Cookie)
    ensures Names(cookies + [c]) == Names(cookies) + {c.name}
  {
    var all := cookies + [c];
    forall name | name in Names(cookies) ensures name in Names(all) {
      var k :| 0 <= k < |cookies| && cookies[k].name == name;
      assert all[k] == cookies[k];
    }
    assert all[|cookies|] == c;
  }

  method HeaderToCookies(header: string) returns (cookies: seq<Cookie>)
    ensures cookies == FromHeader(header)
  {
    var parts := Split(header, ';');
    cookies := [];
    var i := 0;
    while i < |parts|
      invariant 0 <= i <= |parts|
      invariant cookies == ParseParts(parts[..i])
    {
      assert parts[..i + 1][..i] == parts[..i];
      var k := Find(parts[i], '=');
      if k < |parts[i]| {
        var name := Strip(parts[i][..k]);
        if name != [] {
          cookies := cookies + [Cookie(name, Strip(parts[i][k + 1..]))];
        }
      }
      i := i + 1;
    }
    assert parts[..i] == parts;
  }
}
