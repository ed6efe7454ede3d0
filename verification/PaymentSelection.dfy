/** The choice of countries and payment methods in a filter. Reading it is not idempotent: a method
    name is trimmed of underscores before it is cut, so a cut may leave an underscore that the next
    reading takes away. */
module PaymentSelection {
  import opened Common
  import opened FilterValues
  import opened Text

  const MAX_METHOD := 80

  // ---------------------------------------------------------------- one method name

  predicate SlugChar(c: char) {
    'a' <= c <= 'z' || '0' <= c <= '9' || c == '_'
  }

  predicate OddChar(c: char) {
    !SlugChar(c)
  }

  /** Every run of bad characters becomes one underscore. */
  function Squeeze(s: string, bad: char -> bool, inRun: bool): string {
    if s == [] then []
    else if !bad(s[0]) then [s[0]] + Squeeze(s[1..], bad, false)
    else if inRun then Squeeze(s[1..], bad, true)
    else ['_'] + Squeeze(s[1..], bad, true)
  }

  function DropLeft(s: string): string {
    if s != [] && s[0] == '_' then DropLeft(s[1..]) else s
  }

  function DropRight(s: string): string {
    if s != [] && s[|s| - 1] == '_' then DropRight(s[..|s| - 1]) else s
  }

  function TrimUnderscores(s: string): string {
    DropRight(DropLeft(s))
  }

  /** The name before it is cut: lower case, other characters as underscores, none at the ends. */
  function Slug(text: string): string {
    TrimUnderscores(Squeeze(Squeeze(Hyphens(Lower(Strip(text))), IsSpace, false), OddChar, false))
  }

  function MethodType(text: string): string {
    if |Slug(text)| > MAX_METHOD then Slug(text)[..MAX_METHOD] else Slug(text)
  }

  predicate AllSlug(s: string) {
    forall i :: 0 <= i < |s| ==> SlugChar(s[i])
  }

  /** A method name as one reading leaves it. */
  predicate MethodName(m: string) {
    m != "" && |m| <= MAX_METHOD && AllSlug(m) && m[0] != '_'
  }

  /** And one that the next reading leaves alone. */
  predicate Settled(m: string) {
    m != "" ==> m[|m| - 1] != '_'
  }

  /** The cut falls right behind an underscore. */
  predicate CutAtUnderscore(text: string) {
    |Slug(text)| > MAX_METHOD && Slug(text)[MAX_METHOD - 1] == '_'
  }

  lemma {:induction false} SqueezeClean(s: string, bad: char -> bool, inRun: bool)
    requires forall i :: 0 <= i < |s| ==> !bad(s[i])
    ensures Squeeze(s, bad, inRun) == s
  {
    if s != [] {
      SqueezeClean(s[1..], bad, false);
      assert [s[0]] + s[1..] == s;
    }
  }

  lemma {:induction false} SqueezeOddIsSlug(s: string, inRun: bool)
    ensures AllSlug(Squeeze(s, OddChar, inRun))
  {
    if s != [] {
      SqueezeOddIsSlug(s[1..], true);
      SqueezeOddIsSlug(s[1..], false);
    }
  }

  lemma {:induction false} DropLeftSpec(s: string)
    ensures var r := DropLeft(s); |r| <= |s| && r == s[|s| - |r|..] && (r != [] ==> r[0] != '_')
    ensures s != [] && s[0] != '_' ==> DropLeft(s) == s
  {
    if s != [] && s[0] == '_' { DropLeftSpec(s[1..]); }
  }

  lemma {:induction false} DropRightSpec(s: string)
    ensures var r := DropRight(s); |r| <= |s| && r == s[..|r|] && Settled(r)
    ensures s != [] && s[0] != '_' ==> DropRight(s) != []
    ensures Settled(s) ==> DropRight(s) == s
  {
    if s != [] && s[|s| - 1] == '_' { DropRightSpec(s[..|s| - 1]); }
  }

  /** The slug has no underscore at either end. */
  lemma SlugSpec(text: string)
    ensures AllSlug(Slug(text)) && Settled(Slug(text)) && (Slug(text) != "" ==> Slug(text)[0] != '_')
  {
    var raw := Squeeze(Squeeze(Hyphens(Lower(Strip(text))), IsSpace, false), OddChar, false);
    SqueezeOddIsSlug(Squeeze(Hyphens(Lower(Strip(text))), IsSpace, false), false);
    DropLeftSpec(raw);
    DropRightSpec(DropLeft(raw));
  }

  /** One reading gives a method name, settled unless the cut falls behind an underscore. */
  lemma MethodTypeSpec(text: string)
    ensures MethodType(text) != "" ==> MethodName(MethodType(text))
    ensures Settled(MethodType(text)) <==> !CutAtUnderscore(text)
  {
    SlugSpec(text);
  }

  lemma SlugCharPlain(c: char)
    requires SlugChar(c)
    ensures LowerChar(c) == c && c != '-' && !IsSpace(c) && !OddChar(c)
  {
  }

  /** Nothing before the trimming changes text of slug characters. */
  lemma SlugOfSlug(m: string)
    requires AllSlug(m)
    ensures Slug(m) == TrimUnderscores(m)
  {
    forall i | 0 <= i < |m| ensures LowerChar(m[i]) == m[i] && m[i] != '-' && !IsSpace(m[i]) && !OddChar(m[i]) {
      SlugCharPlain(m[i]);
    }
    StripFixed(m);
    assert Lower(m) == m && Hyphens(m) == m;
    SqueezeClean(m, IsSpace, false);
    SqueezeClean(m, OddChar, false);
  }

  /** What the next reading makes of a name: the underscores the cut left are gone. */
  lemma MethodAgain(m: string)
    requires MethodName(m)
    ensures MethodType(m) == DropRight(m) && MethodName(DropRight(m)) && Settled(DropRight(m))
    ensures DropRight(m) == m <==> Settled(m)
  {
    SlugOfSlug(m);
    DropLeftSpec(m);
    DropRightSpec(m);
  }

  /** Reading a name twice gives it again exactly when its cut does not fall behind an underscore;
      reading it a third time never changes it. */
  lemma MethodTypeTwice(text: string)
    ensures MethodType(MethodType(text)) == MethodType(text) <==> !CutAtUnderscore(text)
    ensures MethodType(MethodType(MethodType(text))) == MethodType(MethodType(text))
  {
    var m := MethodType(text);
    MethodTypeSpec(text);
    if m == "" {
      SlugOfSlug("");
    } else {
      MethodAgain(m);
      MethodAgain(DropRight(m));
    }
  }

  // ---------------------------------------------------------------- what a stored selection says

  /** A country with its method names, in order and each once. */
  datatype Choice = Choice(country: string, methods: seq<string>)

  /** A stored item: what it says of the country, and its methods one by one. */
  datatype Entry = Entry(country: Json, methods: seq<Json>)

  function MethodText(env: Env, v: Json): string {
    match v
    case Object(f) => Str(env, Or(Or(Get(f, Id), Get(f, Type)), Get(f, Value)))
    case _ => Str(env, v)
  }

  predicate IsCountry(c: string) {
    |c| == 2 && 'A' <= c[0] <= 'Z' && 'A' <= c[1] <= 'Z'
  }

  /** The country code, or nothing. */
  function CountryOf(env: Env, v: Json): string {
    var c := Upper(Strip(Str(env, v)));
    if IsCountry(c) then c else ""
  }

  function MethodList(v: Json): seq<Json> {
    match v
    case Text(s) => Texts(Split(s, ','))
    case List(items) => items
    case _ => if Truthy(v) then [v] else []
  }

  function StoredMethods(f: Fields): Json {
    var raw := if Get(f, Methods) != Null then Get(f, Methods) else Get(f, MethodTypes);
    if raw == Null && Get(f, Method) != Null then List([Get(f, Method)]) else raw
  }

  function EntryOf(v: Json): Option<Entry> {
    match v
    case Object(f) => Some(Entry(Or(Or(Get(f, Country), Get(f, CountryCode)), Get(f, Value)), MethodList(StoredMethods(f))))
    case List(items) => if items == [] then None else Some(Entry(items[0], items[1..]))
    case _ => None
  }

  /** Text is read as a stored value first; an object holds the items or is the only one. */
  function ItemsOf(env: Env, v: Json): seq<Json> {
    var w := match v
      case Text(s) => (if Strip(s) == "" then Null else match env.parse(Strip(s)) case Some(x) => x case None => Null)
      case _ => v;
    match w
    case Object(f) => ListOf(Or(Or(Get(f, PaymentSelectionOld), Get(f, Selection)), List([w])))
    case _ => ListOf(w)
  }

  // ---------------------------------------------------------------- collecting

  function Insert(ms: seq<string>, m: string): seq<string> {
    if ms == [] then [m]
    else if m == ms[0] then ms
    else if TextLeq(m, ms[0]) then [m] + ms
    else [ms[0]] + Insert(ms[1..], m)
  }

  function InsertAll(ms: seq<string>, names: seq<string>): seq<string>
    decreases |names|
  {
    if names == [] then ms
    else InsertAll(if names[0] == "" then ms else Insert(ms, names[0]), names[1..])
  }

  function NamesOf(env: Env, methods: seq<Json>): (r: seq<string>)
    ensures |r| == |methods| && forall i :: 0 <= i < |r| ==> r[i] == MethodType(MethodText(env, methods[i]))
  {
    if methods == [] then [] else [MethodType(MethodText(env, methods[0]))] + NamesOf(env, methods[1..])
  }

  /** Position of a country, or the length. */
  function PositionOf(found: seq<Choice>, country: string): (k: nat)
    ensures k <= |found| && (k < |found| ==> found[k].country == country)
    ensures forall i :: 0 <= i < k ==> found[i].country != country
  {
    if found == [] || found[0].country == country then 0 else PositionOf(found[1..], country) + 1
  }

  function Merge(found: seq<Choice>, country: string, names: seq<string>): seq<Choice> {
    if country == "" then found
    else
      var k := PositionOf(found, country);
      if k < |found| then found[k := Choice(country, InsertAll(found[k].methods, names))]
      else found + [Choice(country, InsertAll([], names))]
  }

  /** What one stored item adds to the selection. */
  type Taker = (seq<Choice>, Json) -> seq<Choice>

  function Taken(env: Env, found: seq<Choice>, v: Json): seq<Choice> {
    match EntryOf(v)
    case None => found
    case Some(e) => Merge(found, CountryOf(env, e.country), NamesOf(env, e.methods))
  }

  function TakerOf(env: Env): Taker {
    (found, v) => Taken(env, found, v)
  }

  function Gather(take: Taker, items: seq<Json>, found: seq<Choice>): seq<Choice>
    decreases |items|
  {
    if items == [] then found else Gather(take, items[1..], take(found, items[0]))
  }

  /** One reading of a stored selection. */
  function ReadSelection(env: Env, v: Json): seq<Choice> {
    Gather(TakerOf(env), ItemsOf(env, v), [])
  }

  // ---------------------------------------------------------------- normal selections

  ghost predicate Ascending(ms: seq<string>) {
    forall i, j :: 0 <= i < j < |ms| ==> TextLeq(ms[i], ms[j]) && ms[i] != ms[j]
  }

  ghost predicate NormalMethods(ms: seq<string>) {
    Ascending(ms) && forall m :: m in ms ==> MethodName(m)
  }

  ghost predicate NormalSelection(sel: seq<Choice>) {
    && (forall i :: 0 <= i < |sel| ==> IsCountry(sel[i].country) && NormalMethods(sel[i].methods))
    && (forall i, j :: 0 <= i < j < |sel| ==> sel[i].country != sel[j].country)
  }

  predicate SettledMethods(ms: seq<string>) {
    forall m :: m in ms ==> Settled(m)
  }

  predicate SettledSelection(sel: seq<Choice>) {
    forall i :: 0 <= i < |sel| ==> SettledMethods(sel[i].methods)
  }

  lemma {:induction false} InsertSpec(ms: seq<string>, m: string)
    requires Ascending(ms)
    ensures Ascending(Insert(ms, m)) && forall x :: x in Insert(ms, m) <==> x in ms || x == m
  {
    if ms != [] && m != ms[0] {
      TextTotal(m, ms[0]);
      if TextLeq(m, ms[0]) {
        forall j | 0 <= j < |ms| ensures TextLeq(m, ms[j]) && m != ms[j] {
          if j > 0 {
            TextTransitive(m, ms[0], ms[j]);
            TextTotal(ms[0], ms[j]);
          }
        }
      } else {
        var rest := Insert(ms[1..], m);
        InsertSpec(ms[1..], m);
        assert TextLeq(ms[0], m) && ms[0] != m;
        forall x | x in rest ensures TextLeq(ms[0], x) && ms[0] != x {
          if x != m {
            var j :| 0 <= j < |ms[1..]| && ms[1..][j] == x;
            assert ms[j + 1] == x;
          }
        }
      }
    }
  }

  lemma {:induction false} InsertAllSpec(ms: seq<string>, names: seq<string>)
    requires Ascending(ms)
    ensures Ascending(InsertAll(ms, names))
    ensures forall x :: x in InsertAll(ms, names) <==> x in ms || (x in names && x != "")
    decreases |names|
  {
    if names != [] {
      InsertSpec(ms, names[0]);
      InsertAllSpec(if names[0] == "" then ms else Insert(ms, names[0]), names[1..]);
      assert forall x :: x in names <==> x == names[0] || x in names[1..];
    }
  }

  lemma {:induction false} InsertLast(ms: seq<string>, m: string)
    requires Ascending(ms + [m])
    ensures Insert(ms, m) == ms + [m]
  {
    if ms != [] {
      var all := ms + [m];
      assert all[|ms|] == m && all[0] == ms[0];
      TextTotal(m, ms[0]);
      assert all[1..] == ms[1..] + [m];
      InsertLast(ms[1..], m);
    }
  }

  /** Inserting names that ascend already lists them. */
  lemma {:induction false} InsertAscending(ms: seq<string>, names: seq<string>)
    requires Ascending(ms + names) && forall m :: m in names ==> m != ""
    ensures InsertAll(ms, names) == ms + names
    decreases |names|
  {
    if names == [] {
      assert ms + names == ms;
    } else {
      assert [names[0]] + names[1..] == names && names[0] in names;
      assert ms + [names[0]] + names[1..] == ms + ([names[0]] + names[1..]);
      assert (ms + names)[..|ms| + 1] == ms + [names[0]];
      assert forall i :: 0 <= i < |ms| + 1 ==> (ms + [names[0]])[i] == (ms + names)[i];
      assert forall m :: m in names[1..] ==> m in names;
      InsertLast(ms, names[0]);
      InsertAscending(ms + [names[0]], names[1..]);
    }
  }

  lemma {:induction false} NamesAreNormal(env: Env, methods: seq<Json>)
    ensures forall m :: m in NamesOf(env, methods) && m != "" ==> MethodName(m)
  {
    forall i | 0 <= i < |methods| && NamesOf(env, methods)[i] != "" ensures MethodName(NamesOf(env, methods)[i]) {
      MethodTypeSpec(MethodText(env, methods[i]));
    }
  }

  lemma CountryIsValid(env: Env, v: Json)
    ensures CountryOf(env, v) != "" ==> IsCountry(CountryOf(env, v))
  {
  }

  lemma MergeNormal(found: seq<Choice>, country: string, names: seq<string>)
    requires NormalSelection(found) && (country != "" ==> IsCountry(country))
    requires forall m :: m in names && m != "" ==> MethodName(m)
    ensures NormalSelection(Merge(found, country, names))
  {
    if country != "" {
      var k := PositionOf(found, country);
      InsertAllSpec(if k < |found| then found[k].methods else [], names);
    }
  }

  lemma TakenNormal(env: Env, found: seq<Choice>, v: Json)
    requires NormalSelection(found)
    ensures NormalSelection(Taken(env, found, v))
  {
    match EntryOf(v)
    case None =>
    case Some(e) =>
      NamesAreNormal(env, e.methods);
      CountryIsValid(env, e.country);
      MergeNormal(found, CountryOf(env, e.country), NamesOf(env, e.methods));
  }

  lemma {:induction false} GatherNormal(env: Env, items: seq<Json>, found: seq<Choice>)
    requires NormalSelection(found)
    ensures NormalSelection(Gather(TakerOf(env), items, found))
    decreases |items|
  {
    if items != [] {
      TakenNormal(env, found, items[0]);
      GatherNormal(env, items[1..], Taken(env, found, items[0]));
    }
  }

  /** One reading gives distinct valid countries, each with distinct method names in order. */
  lemma SelectionIsNormal(env: Env, v: Json)
    ensures NormalSelection(ReadSelection(env, v))
  {
    GatherNormal(env, ItemsOf(env, v), []);
  }

  // ---------------------------------------------------------------- which methods a selection holds

  ghost predicate Holds(sel: seq<Choice>, m: string) {
    exists i :: 0 <= i < |sel| && m in sel[i].methods
  }

  /** The name is what some of the texts is read as. */
  ghost predicate Named(texts: seq<string>, m: string) {
    exists t :: t in texts && MethodType(t) == m
  }

  function MethodTexts(env: Env, methods: seq<Json>): (r: seq<string>)
    ensures |r| == |methods| && forall i :: 0 <= i < |r| ==> r[i] == MethodText(env, methods[i])
  {
    if methods == [] then [] else [MethodText(env, methods[0])] + MethodTexts(env, methods[1..])
  }

  /** The method texts of one item, if its country is valid. */
  function TextsOf(env: Env, v: Json): seq<string> {
    match EntryOf(v)
    case None => []
    case Some(e) => if CountryOf(env, e.country) == "" then [] else MethodTexts(env, e.methods)
  }

  function TextsIn(env: Env, items: seq<Json>): seq<string> {
    if items == [] then [] else TextsOf(env, items[0]) + TextsIn(env, items[1..])
  }

  lemma NamedSplits(a: seq<string>, b: seq<string>, m: string)
    ensures Named(a + b, m) <==> Named(a, m) || Named(b, m)
  {
    if Named(a, m) {
      var t :| t in a && MethodType(t) == m;
      assert t in a + b;
    }
    if Named(b, m) {
      var t :| t in b && MethodType(t) == m;
      assert t in a + b;
    }
  }

  lemma OneNamed(t: string, m: string)
    ensures Named([t], m) <==> MethodType(t) == m
  {
    assert t in [t];
  }

  lemma {:induction false} NamesAreNamed(env: Env, methods: seq<Json>, m: string)
    ensures m in NamesOf(env, methods) <==> Named(MethodTexts(env, methods), m)
  {
    if methods != [] {
      var t, rest := MethodText(env, methods[0]), MethodTexts(env, methods[1..]);
      NamesAreNamed(env, methods[1..], m);
      NamedSplits([t], rest, m);
      OneNamed(t, m);
      assert MethodTexts(env, methods) == [t] + rest;
      assert NamesOf(env, methods) == [MethodType(t)] + NamesOf(env, methods[1..]);
    }
  }

  lemma MergeHolds(found: seq<Choice>, country: string, names: seq<string>, m: string)
    requires NormalSelection(found)
    ensures Holds(Merge(found, country, names), m) <==> Holds(found, m) || (country != "" && m in names && m != "")
  {
    if country != "" {
      var k := PositionOf(found, country);
      var now := Merge(found, country, names);
      InsertAllSpec(if k < |found| then found[k].methods else [], names);
      assert forall i :: 0 <= i < |found| && i != k ==> now[i] == found[i];
      if k < |found| {
        assert m in now[k].methods <==> m in found[k].methods || (m in names && m != "");
      } else {
        assert m in now[|found|].methods <==> m in names && m != "";
      }
    }
  }

  lemma TakenHolds(env: Env, found: seq<Choice>, v: Json, m: string)
    requires NormalSelection(found)
    ensures Holds(Taken(env, found, v), m) <==> Holds(found, m) || (m != "" && Named(TextsOf(env, v), m))
  {
    match EntryOf(v)
    case None =>
    case Some(e) =>
      MergeHolds(found, CountryOf(env, e.country), NamesOf(env, e.methods), m);
      NamesAreNamed(env, e.methods, m);
  }

  /** The methods collected are what the texts that count are read as, and nothing else. */
  lemma {:induction false} GatherHolds(env: Env, items: seq<Json>, found: seq<Choice>, m: string)
    requires NormalSelection(found)
    ensures Holds(Gather(TakerOf(env), items, found), m) <==> Holds(found, m) || (m != "" && Named(TextsIn(env, items), m))
    decreases |items|
  {
    if items != [] {
      NamedSplits(TextsOf(env, items[0]), TextsIn(env, items[1..]), m);
      TakenNormal(env, found, items[0]);
      TakenHolds(env, found, items[0], m);
      GatherHolds(env, items[1..], Taken(env, found, items[0]), m);
    }
  }

  /** No method text that counts has its cut behind an underscore. */
  ghost predicate CutsClean(env: Env, v: Json) {
    forall t :: t in TextsIn(env, ItemsOf(env, v)) ==> !CutAtUnderscore(t)
  }

  /** What is read is settled exactly when no cut falls behind an underscore. */
  lemma SettledIff(env: Env, v: Json)
    ensures SettledSelection(ReadSelection(env, v)) <==> CutsClean(env, v)
  {
    var items, sel := ItemsOf(env, v), ReadSelection(env, v);
    SelectionIsNormal(env, v);
    if CutsClean(env, v) {
      forall i, m | 0 <= i < |sel| && m in sel[i].methods ensures Settled(m) {
        assert Holds(sel, m);
        GatherHolds(env, items, [], m);
        var t :| t in TextsIn(env, items) && MethodType(t) == m;
        MethodTypeSpec(t);
      }
    } else {
      var t :| t in TextsIn(env, items) && CutAtUnderscore(t);
      var m := MethodType(t);
      MethodTypeSpec(t);
      assert Named(TextsIn(env, items), m);
      GatherHolds(env, items, [], m);
      assert Holds(sel, m) && !Settled(m);
    }
  }

  // ---------------------------------------------------------------- writing and reading again

  function EncodeChoice(c: Choice): Json {
    Object(map[Country := Text(c.country), Methods := List(Texts(c.methods))])
  }

  function Each<T>(f: Choice -> T, sel: seq<Choice>): (r: seq<T>)
    ensures |r| == |sel| && forall i :: 0 <= i < |r| ==> r[i] == f(sel[i])
  {
    if sel == [] then [] else [f(sel[0])] + Each(f, sel[1..])
  }

  function EncodeSelection(sel: seq<Choice>): Json {
    List(Each(EncodeChoice, sel))
  }

  function Trimmed(ms: seq<string>): (r: seq<string>)
    ensures |r| == |ms| && forall i :: 0 <= i < |r| ==> r[i] == DropRight(ms[i])
  {
    if ms == [] then [] else [DropRight(ms[0])] + Trimmed(ms[1..])
  }

  function AgainChoice(c: Choice): Choice {
    Choice(c.country, InsertAll([], Trimmed(c.methods)))
  }

  /** A selection after one more reading: the underscores that cuts had left are gone, and names that
      have become equal are one. */
  function Again(sel: seq<Choice>): seq<Choice> {
    Each(AgainChoice, sel)
  }

  lemma EncodedEntry(env: Env, c: Choice)
    requires IsCountry(c.country)
    ensures EntryOf(EncodeChoice(c)) == Some(Entry(Text(c.country), Texts(c.methods)))
    ensures CountryOf(env, Text(c.country)) == c.country
  {
    StripFixed(c.country);
    assert Upper(c.country) == c.country;
  }

  lemma NamesReadBack(env: Env, ms: seq<string>)
    requires forall m :: m in ms ==> MethodName(m)
    ensures NamesOf(env, Texts(ms)) == Trimmed(ms)
  {
    forall i | 0 <= i < |ms| ensures NamesOf(env, Texts(ms))[i] == Trimmed(ms)[i] {
      MethodAgain(ms[i]);
    }
  }

  lemma MergeNew(found: seq<Choice>, country: string, names: seq<string>)
    requires country != "" && forall i :: 0 <= i < |found| ==> found[i].country != country
    ensures Merge(found, country, names) == found + [Choice(country, InsertAll([], names))]
  {
  }

  /** A written choice of a new country is taken as `again` has it. */
  ghost predicate TakesWritten(take: Taker, write: Choice -> Json, again: Choice -> Choice, sel: seq<Choice>) {
    forall found: seq<Choice>, c: Choice :: c in sel && NewCountry(found, c) ==> take(found, write(c)) == found + [again(c)]
  }

  predicate NewCountry(found: seq<Choice>, c: Choice) {
    forall i :: 0 <= i < |found| ==> found[i].country != c.country
  }

  lemma WrittenTaken(env: Env, found: seq<Choice>, c: Choice)
    requires IsCountry(c.country) && forall m :: m in c.methods ==> MethodName(m)
    requires NewCountry(found, c)
    ensures Taken(env, found, EncodeChoice(c)) == found + [AgainChoice(c)]
  {
    EncodedEntry(env, c);
    NamesReadBack(env, c.methods);
    MergeNew(found, c.country, Trimmed(c.methods));
  }

  lemma TakesRest(take: Taker, write: Choice -> Json, again: Choice -> Choice, sel: seq<Choice>)
    requires TakesWritten(take, write, again, sel) && sel != []
    ensures TakesWritten(take, write, again, sel[1..])
  {
    assert forall c :: c in sel[1..] ==> c in sel;
  }

  lemma StillNew(found: seq<Choice>, sel: seq<Choice>, c: Choice)
    requires sel != [] && c.country == sel[0].country
    requires forall i, j :: 0 <= i < j < |sel| ==> sel[i].country != sel[j].country
    requires forall i :: 0 <= i < |sel| ==> NewCountry(found, sel[i])
    ensures forall i :: 0 <= i < |sel[1..]| ==> NewCountry(found + [c], sel[1..][i])
  {
    forall i | 0 <= i < |sel[1..]| ensures NewCountry(found + [c], sel[1..][i]) {
      assert sel[1..][i] == sel[i + 1];
      assert NewCountry(found, sel[i + 1]);
    }
  }

  lemma EachFirst<T>(f: Choice -> T, sel: seq<Choice>)
    requires sel != []
    ensures Each(f, sel) == [f(sel[0])] + Each(f, sel[1..])
  {
  }

  lemma GatherFirst(take: Taker, item: Json, rest: seq<Json>, found: seq<Choice>)
    ensures Gather(take, [item] + rest, found) == Gather(take, rest, take(found, item))
  {
    assert ([item] + rest)[1..] == rest;
  }

  lemma AppendFirst<T>(a: seq<T>, x: T, b: seq<T>)
    ensures a + [x] + b == a + ([x] + b)
  {
  }

  lemma {:induction false} GatherReadsBack(take: Taker, write: Choice -> Json, again: Choice -> Choice,
                                           sel: seq<Choice>, found: seq<Choice>)
    requires TakesWritten(take, write, again, sel) && forall c: Choice :: again(c).country == c.country
    requires forall i, j :: 0 <= i < j < |sel| ==> sel[i].country != sel[j].country
    requires forall i :: 0 <= i < |sel| ==> NewCountry(found, sel[i])
    ensures Gather(take, Each(write, sel), found) == found + Each(again, sel)
    decreases |sel|
  {
    if sel == [] {
      assert found + Each(again, sel) == found;
    } else {
      var c, rest := sel[0], sel[1..];
      assert c in sel && take(found, write(c)) == found + [again(c)];
      TakesRest(take, write, again, sel);
      StillNew(found, sel, again(c));
      GatherReadsBack(take, write, again, rest, found + [again(c)]);
      EachFirst(write, sel);
      EachFirst(again, sel);
      GatherFirst(take, write(c), Each(write, rest), found);
      AppendFirst(found, again(c), Each(again, rest));
    }
  }

  /** Reading a written selection gives the selection after one more reading, in every environment. */
  lemma SelectionReadsBack(env: Env, sel: seq<Choice>)
    requires NormalSelection(sel)
    ensures ReadSelection(env, EncodeSelection(sel)) == Again(sel)
  {
    forall found: seq<Choice>, c: Choice | c in sel && NewCountry(found, c)
      ensures Taken(env, found, EncodeChoice(c)) == found + [AgainChoice(c)]
    {
      WrittenTaken(env, found, c);
    }
    GatherReadsBack(TakerOf(env), EncodeChoice, AgainChoice, sel, []);
    assert [] + Again(sel) == Again(sel);
  }

  lemma TrimmedMethods(ms: seq<string>)
    requires NormalMethods(ms)
    ensures NormalMethods(InsertAll([], Trimmed(ms))) && SettledMethods(InsertAll([], Trimmed(ms)))
    ensures SettledMethods(ms) ==> InsertAll([], Trimmed(ms)) == ms
  {
    InsertAllSpec([], Trimmed(ms));
    forall m | m in Trimmed(ms) ensures MethodName(m) && Settled(m) {
      var i :| 0 <= i < |ms| && DropRight(ms[i]) == m;
      MethodAgain(ms[i]);
    }
    if SettledMethods(ms) {
      forall i | 0 <= i < |ms| ensures Trimmed(ms)[i] == ms[i] {
        MethodAgain(ms[i]);
      }
      assert Trimmed(ms) == ms && [] + ms == ms;
      InsertAscending([], ms);
    }
  }

  /** After one more reading a selection is settled; it is unchanged exactly when it was settled before. */
  lemma AgainSpec(sel: seq<Choice>)
    requires NormalSelection(sel)
    ensures NormalSelection(Again(sel)) && SettledSelection(Again(sel))
    ensures Again(sel) == sel <==> SettledSelection(sel)
  {
    forall i | 0 <= i < |sel|
      ensures NormalMethods(Again(sel)[i].methods) && SettledMethods(Again(sel)[i].methods)
      ensures SettledMethods(sel[i].methods) ==> Again(sel)[i] == sel[i]
    {
      TrimmedMethods(sel[i].methods);
    }
  }

  /** Reading is idempotent on a stored value exactly when no method text that counts has its cut behind
      an underscore; a third reading never changes what the second gave. */
  lemma ReadTwiceIff(env: Env, v: Json)
    ensures var once := ReadSelection(env, v);
            var twice := ReadSelection(env, EncodeSelection(once));
            && (twice == once <==> CutsClean(env, v))
            && ReadSelection(env, EncodeSelection(twice)) == twice
  {
    var once := ReadSelection(env, v);
    SelectionIsNormal(env, v);
    SelectionReadsBack(env, once);
    AgainSpec(once);
    SelectionReadsBack(env, Again(once));
    AgainSpec(Again(once));
    SettledIff(env, v);
  }

  // ---------------------------------------------------------------- a selection that is not read back

  function Repeat(c: char, n: nat): (s: string)
    ensures |s| == n && forall i :: 0 <= i < n ==> s[i] == c
  {
    if n == 0 then [] else [c] + Repeat(c, n - 1)
  }

  /** Seventy-nine letters, an underscore and one more letter. */
  function LongMethod(): string {
    Repeat('a', MAX_METHOD - 1) + ['_', 'b']
  }

  function OneMethod(country: string, text: string): Json {
    List([EncodeChoice(Choice(country, [text]))])
  }

  lemma OneMethodText(env: Env, country: string, text: string)
    requires IsCountry(country)
    ensures TextsIn(env, ItemsOf(env, OneMethod(country, text))) == [text]
  {
    var c := Choice(country, [text]);
    EncodedEntry(env, c);
    var items := [EncodeChoice(c)];
    assert items[1..] == [];
    assert MethodTexts(env, Texts([text])) == [text];
  }

  lemma LongMethodCut()
    ensures CutAtUnderscore(LongMethod())
  {
    var m := LongMethod();
    assert |m| == 81 && m[79] == '_' && AllSlug(m) && m[0] == 'a' && m[80] == 'b';
    SlugOfSlug(m);
    DropLeftSpec(m);
    DropRightSpec(m);
  }

  /** The first reading of a selection with this method is not what the second gives. */
  lemma LongMethodNotReadBack(env: Env, country: string)
    requires IsCountry(country)
    ensures var once := ReadSelection(env, OneMethod(country, LongMethod())); ReadSelection(env, EncodeSelection(once)) != once
  {
    LongMethodCut();
    OneMethodText(env, country, LongMethod());
    assert LongMethod() in [LongMethod()];
    ReadTwiceIff(env, OneMethod(country, LongMethod()));
  }

  // ---------------------------------------------------------------- the loops

  /** Collect the named methods of one item into a list without repetition. */
  method CollectMethods(env: Env, found: seq<string>, methods: seq<Json>) returns (ms: seq<string>)
    ensures ms == InsertAll(found, NamesOf(env, methods))
  {
    ms := found;
    var i := 0;
    while i < |methods|
      invariant 0 <= i <= |methods|
      invariant InsertAll(ms, NamesOf(env, methods[i..])) == InsertAll(found, NamesOf(env, methods))
    {
      assert methods[i..][0] == methods[i] && methods[i..][1..] == methods[i + 1..];
      var m := MethodType(MethodText(env, methods[i]));
      assert NamesOf(env, methods[i..])[1..] == NamesOf(env, methods[i + 1..]);
      if m != "" {
        ms := Insert(ms, m);
      }
      i := i + 1;
    }
  }

  /** Read a stored selection item by item. */
  method NormalizeSelection(env: Env, v: Json) returns (found: seq<Choice>)
    ensures found == ReadSelection(env, v)
  {
    var items := ItemsOf(env, v);
    found := [];
    var i := 0;
    while i < |items|
      invariant 0 <= i <= |items|
      invariant Gather(TakerOf(env), items[i..], found) == ReadSelection(env, v)
    {
      assert items[i..][0] == items[i] && items[i..][1..] == items[i + 1..];
      var entry := EntryOf(items[i]);
      if entry.Some? {
        var country := CountryOf(env, entry.value.country);
        if country != "" {
          var k := PositionOf(found, country);
          if k < |found| {
            var ms := CollectMethods(env, found[k].methods, entry.value.methods);
            found := found[k := Choice(country, ms)];
          } else {
            var ms := CollectMethods(env, [], entry.value.methods);
            found := found + [Choice(country, ms)];
          }
        }
      }
      i := i + 1;
    }
  }
}
