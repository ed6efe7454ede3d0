/** Filter settings of a preset: reading whatever was stored or sent into one normal form. */
module FilterValues {
  import opened Common
  import opened Text

  // ---------------------------------------------------------------- what is read

  datatype Column =
    | ManuallyUsed | AuthType | PhoneBindingState | PaymentLinkPlatform | PaymentLinkGenerated | SubscriptionType
    | AccountValidity | CodexState | Sub2apiState | OaipayState | ZeroAmountEligibilityState | GcashPaymentMethodState
    | IdeaSubmitState | SubmitState | HasSubmitted

  /** The names under which presets and their filters store values. */
  datatype Field =
    | Id | Name | Description | Mode | Filters | AccountIds | AccountRefs | Pinned | CreatedAt | UpdatedAt
    | Search | Email | StatusList | FilterStatus | ColumnFilters | OfColumn(column: Column) | PaymentMethodSelection
    | SortOrder | SubscriptionExpirySortOrder | Sort | Order | RegistrationSortOrder | CreatedAtSortOrder | CreatedAtOrder
    | PageSize | PageSizeOld
    | PaymentSelectionOld | Selection | Country | CountryCode | Value | Methods | MethodTypes | Method | Type
    | OtherField(name: string)

  /** A stored value. */
  datatype Json =
    | Null | Flag(on: bool) | Number(n: int) | Fraction(printed: string, zero: bool) | Text(s: string)
    | List(items: seq<Json>) | Object(fields: map<Field, Json>)

  type Fields = map<Field, Json>

  /** Environment: how other values print, how text and other values read as integers, how text reads
      as a stored value, and the alias tables. */
  datatype Env = Env(print_: Json -> string, toInt: Json -> int, parse: string -> Option<Json>, words: Words)

  /** The alias tables: upload and submit states, the words for yes and no, and those for a fixed preset. */
  datatype Words = Words(
    submit: map<string, string>, upload: map<string, string>, yes: set<string>, no: set<string>, fixed: set<string>)

  predicate Truthy(v: Json) {
    match v
    case Null => false
    case Flag(on) => on
    case Number(n) => n != 0
    case Fraction(_, zero) => !zero
    case Text(s) => s != ""
    case List(items) => items != []
    case Object(fields) => fields != map[]
  }

  function Or(a: Json, b: Json): Json {
    if Truthy(a) then a else b
  }

  function Get(fields: Fields, k: Field): Json {
    if k in fields then fields[k] else Null
  }

  function FieldsOf(v: Json): Fields {
    match v
    case Object(fields) => fields
    case _ => map[]
  }

  function ListOf(v: Json): seq<Json> {
    match v
    case List(items) => items
    case _ => []
  }

  /** The text of a value; an empty value has none. */
  function Str(env: Env, v: Json): string {
    if !Truthy(v) then "" else match v case Text(s) => s case _ => env.print_(v)
  }

  function Trim(env: Env, v: Json, most: nat): string {
    Clip(Str(env, v), most)
  }

  function SafeInt(env: Env, v: Json): int {
    if !Truthy(v) then 0
    else match v
      case Number(n) => n
      case Flag(_) => 1
      case _ => env.toInt(v)
  }

  function Texts(words: seq<string>): (r: seq<Json>)
    ensures |r| == |words| && forall i :: 0 <= i < |r| ==> r[i] == Text(words[i])
  {
    if words == [] then [] else [Text(words[0])] + Texts(words[1..])
  }

  lemma TrimText(env: Env, s: string, most: nat)
    ensures Trim(env, Text(s), most) == Clip(s, most)
    ensures Clipped(s, most) ==> Trim(env, Text(s), most) == s
  {
    ClipSpec(s, most);
  }

  // ---------------------------------------------------------------- value lists

  const MAX_VALUES := 32
  const MAX_WORD := 80

  /** A list is taken as it is, nothing as no values, and anything else as text with commas. */
  function RawItems(env: Env, v: Json): seq<Json> {
    match v
    case Null => []
    case List(items) => items
    case _ => Texts(Split(Str(env, v), ','))
  }

  /** The first occurrences of the trimmed, non-empty items, up to the limit. */
  function Collect(env: Env, items: seq<Json>, found: seq<string>): seq<string>
    decreases |items|
  {
    if items == [] || |found| >= MAX_VALUES then found
    else
      var t := Trim(env, items[0], MAX_WORD);
      Collect(env, items[1..], if t == "" || t in found then found else found + [t])
  }

  function ValueList(env: Env, v: Json): seq<string> {
    Collect(env, RawItems(env, v), [])
  }

  ghost predicate Unrepeated<T(!new)>(s: seq<T>) {
    forall i, j :: 0 <= i < j < |s| ==> s[i] != s[j]
  }

  /** A value: not empty, trimmed, not too long. */
  predicate Word(x: string) {
    x != "" && Clipped(x, MAX_WORD)
  }

  ghost predicate NormalValues(vs: seq<string>) {
    |vs| <= MAX_VALUES && Unrepeated(vs) && forall x :: x in vs ==> Word(x)
  }

  lemma {:induction false} CollectNormal(env: Env, items: seq<Json>, found: seq<string>)
    requires NormalValues(found)
    ensures NormalValues(Collect(env, items, found))
    decreases |items|
  {
    if items != [] && |found| < MAX_VALUES {
      var t := Trim(env, items[0], MAX_WORD);
      ClipSpec(Str(env, items[0]), MAX_WORD);
      CollectNormal(env, items[1..], if t == "" || t in found then found else found + [t]);
    }
  }

  /** The next value of an unrepeated list is new. */
  lemma NextIsNew(found: seq<string>, vs: seq<string>)
    requires NormalValues(found + vs) && vs != []
    ensures vs[0] !in found && Word(vs[0]) && |found| < MAX_VALUES
    ensures found + [vs[0]] + vs[1..] == found + vs
  {
    var all := found + vs;
    assert all[|found|] == vs[0];
    assert forall i :: 0 <= i < |found| ==> all[i] == found[i];
    assert [vs[0]] + vs[1..] == vs;
    assert found + [vs[0]] + vs[1..] == found + ([vs[0]] + vs[1..]);
  }

  lemma {:induction false} CollectFixed(env: Env, vs: seq<string>, found: seq<string>)
    requires NormalValues(found + vs)
    ensures Collect(env, Texts(vs), found) == found + vs
    decreases |vs|
  {
    if vs != [] {
      NextIsNew(found, vs);
      TrimText(env, vs[0], MAX_WORD);
      assert Texts(vs)[1..] == Texts(vs[1..]);
      CollectFixed(env, vs[1..], found + [vs[0]]);
    } else {
      assert found + vs == found;
    }
  }

  /** A value list is always normal, and reading a normal list gives it back. */
  lemma ValueListSpec(env: Env, v: Json, vs: seq<string>)
    ensures NormalValues(ValueList(env, v))
    ensures NormalValues(vs) ==> ValueList(env, List(Texts(vs))) == vs
  {
    CollectNormal(env, RawItems(env, v), []);
    assert [] + vs == vs;
    if NormalValues(vs) { CollectFixed(env, vs, []); }
  }

  // ---------------------------------------------------------------- columns with aliases

  datatype Kind = Plain | Submit | Upload | YesNo

  function KindOf(c: Column): Kind {
    match c
    case IdeaSubmitState | SubmitState => Submit
    case Sub2apiState | OaipayState => Upload
    case PaymentLinkGenerated => YesNo
    case _ => Plain
  }

  /** The value a word stands for in a column, or nothing if it is not one. */
  function Alias(w: Words, kind: Kind, x: string): Option<string> {
    var l := Lower(x);
    match kind
    case Plain => Some(x)
    case Submit => Some(if l in w.submit then w.submit[l] else x)
    case Upload => Some(if l in w.upload then w.upload[l] else l)
    case YesNo => if l in w.yes then Some("true") else if l in w.no then Some("false") else None
  }

  ghost predicate SubmitWords(w: Words) {
    forall k :: k in w.submit ==> Word(w.submit[k]) && Lower(w.submit[k]) == w.submit[k] && w.submit[k] !in w.submit
  }

  ghost predicate UploadWords(w: Words) {
    forall k :: k in w.upload ==>
      Word(w.upload[k]) && Lower(w.upload[k]) == w.upload[k]
      && w.upload[k] in w.upload && w.upload[w.upload[k]] == w.upload[k]
  }

  ghost predicate YesNoWords(w: Words) {
    && (forall t :: t == "true" ==> Word(t) && Lower(t) == t && t in w.yes)
    && (forall t :: t == "false" ==> Word(t) && Lower(t) == t && t in w.no && t !in w.yes)
  }

  /** Canonical values stand for themselves and are words. */
  ghost predicate WordsSteady(w: Words) {
    SubmitWords(w) && UploadWords(w) && YesNoWords(w)
  }

  function Rewrite(w: Words, kind: Kind, vs: seq<string>, found: seq<string>): seq<string>
    decreases |vs|
  {
    if vs == [] then found
    else match Alias(w, kind, vs[0])
      case None => Rewrite(w, kind, vs[1..], found)
      case Some(y) => Rewrite(w, kind, vs[1..], if y == "" || y in found then found else found + [y])
  }

  /** Both of two opposite values and nothing else: no restriction at all. */
  predicate Everything(vs: seq<string>, a: string, b: string) {
    a in vs && b in vs && forall x :: x in vs ==> x == a || x == b
  }

  predicate NoRestriction(kind: Kind, vs: seq<string>) {
    match kind
    case Upload => Everything(vs, "uploaded", "not_uploaded")
    case YesNo => Everything(vs, "true", "false")
    case _ => false
  }

  function ColumnValues(env: Env, kind: Kind, v: Json): seq<string> {
    var once := ValueList(env, v);
    if kind == Plain then once
    else
      var r := Rewrite(env.words, kind, ValueList(env, List(Texts(once))), []);
      if NoRestriction(kind, r) then [] else r
  }

  ghost predicate NormalColumn(w: Words, kind: Kind, vs: seq<string>) {
    NormalValues(vs) && (forall x :: x in vs ==> Alias(w, kind, x) == Some(x)) && !NoRestriction(kind, vs)
  }

  lemma AliasSteady(w: Words, kind: Kind, x: string)
    requires WordsSteady(w) && Word(x) && Alias(w, kind, x).Some?
    ensures var y := Alias(w, kind, x).value; Word(y) && Alias(w, kind, y) == Some(y)
  {
    LowerSpec(x);
  }

  lemma {:induction false} RewriteNormal(w: Words, kind: Kind, vs: seq<string>, found: seq<string>)
    requires WordsSteady(w) && (forall x :: x in vs ==> Word(x)) && |found| + |vs| <= MAX_VALUES
    requires NormalValues(found) && forall x :: x in found ==> Alias(w, kind, x) == Some(x)
    ensures var r := Rewrite(w, kind, vs, found); NormalValues(r) && forall x :: x in r ==> Alias(w, kind, x) == Some(x)
    decreases |vs|
  {
    if vs != [] {
      assert vs[0] in vs;
      match Alias(w, kind, vs[0])
      case None => RewriteNormal(w, kind, vs[1..], found);
      case Some(y) =>
        AliasSteady(w, kind, vs[0]);
        RewriteNormal(w, kind, vs[1..], if y == "" || y in found then found else found + [y]);
    }
  }

  lemma {:induction false} RewriteFixed(w: Words, kind: Kind, vs: seq<string>, found: seq<string>)
    requires NormalValues(found + vs) && forall x :: x in vs ==> Alias(w, kind, x) == Some(x)
    ensures Rewrite(w, kind, vs, found) == found + vs
    decreases |vs|
  {
    if vs != [] {
      NextIsNew(found, vs);
      assert vs[0] in vs;
      RewriteFixed(w, kind, vs[1..], found + [vs[0]]);
    } else {
      assert found + vs == found;
    }
  }

  lemma DroppedNormal(w: Words, kind: Kind, r: seq<string>)
    requires NormalValues(r) && forall x :: x in r ==> Alias(w, kind, x) == Some(x)
    ensures NormalColumn(w, kind, if NoRestriction(kind, r) then [] else r)
  {
    var none: seq<string> := [];
    assert !NoRestriction(kind, none);
    if NoRestriction(kind, r) {
      assert NormalColumn(w, kind, none);
    } else {
      assert NormalColumn(w, kind, r);
    }
  }

  lemma OnceIsEnough(env: Env, v: Json)
    ensures ValueList(env, List(Texts(ValueList(env, v)))) == ValueList(env, v) && NormalValues(ValueList(env, v))
  {
    ValueListSpec(env, v, ValueList(env, v));
  }

  lemma ColumnNormal(env: Env, kind: Kind, v: Json)
    requires WordsSteady(env.words)
    ensures NormalColumn(env.words, kind, ColumnValues(env, kind, v))
  {
    OnceIsEnough(env, v);
    var once := ValueList(env, v);
    if kind == Plain {
      DroppedNormal(env.words, kind, once);
    } else {
      RewriteNormal(env.words, kind, once, []);
      DroppedNormal(env.words, kind, Rewrite(env.words, kind, once, []));
    }
  }

  lemma ColumnFixed(env: Env, kind: Kind, vs: seq<string>)
    requires NormalColumn(env.words, kind, vs)
    ensures ColumnValues(env, kind, List(Texts(vs))) == vs
  {
    ValueListSpec(env, Null, vs);
    assert [] + vs == vs;
    if kind != Plain { RewriteFixed(env.words, kind, vs, []); }
  }
}
