/** What is read of stored values that are not in normal form: which items of a list count, what older
    names and shapes mean, and what a change to a built-in preset takes from the preset it changes. */
module PresetReading {
  import opened Common
  import opened EmailSearch
  import opened FilterSettings
  import opened FilterValues
  import opened PaymentSelection
  import opened PresetAccounts
  import opened PresetNormalizer
  import opened PresetState
  import opened Text

  // ---------------------------------------------------------------- lists, item by item

  lemma {:induction false} CollectNext(env: Env, items: seq<Json>, v: Json, found: seq<string>)
    ensures var r, t := Collect(env, items, found), Trim(env, v, MAX_WORD);
            Collect(env, items + [v], found) == if |r| >= 32 || t == "" || t in r then r else r + [t]
    decreases |items|
  {
    if items == [] {
      assert items + [v] == [v] && [v][1..] == [];
    } else if |found| < MAX_VALUES {
      assert (items + [v])[1..] == items[1..] + [v];
      var t := Trim(env, items[0], MAX_WORD);
      CollectNext(env, items[1..], v, if t == "" || t in found then found else found + [t]);
    }
  }

  /** A value list grows item by item: an item adds its trimmed text unless that is empty, already there,
      or the list holds 32 values. */
  lemma ValueListNext(env: Env, items: seq<Json>, v: Json)
    ensures ValueList(env, List([])) == []
    ensures var r, t := ValueList(env, List(items)), Clip(Str(env, v), 80);
            ValueList(env, List(items + [v])) == if |r| >= 32 || t == "" || t in r then r else r + [t]
  {
    CollectNext(env, items, v, []);
  }

  /** Text is read as the list of its parts between commas, and no value as the empty list. */
  lemma ValueListOfText(env: Env, s: string)
    ensures ValueList(env, Null) == []
    ensures ValueList(env, Text(s)) == ValueList(env, List(Texts(Split(s, ','))))
  {
  }

  lemma {:induction false} CollectIdsNext(env: Env, items: seq<Json>, v: Json, found: seq<int>)
    ensures var r := CollectIds(env, items, found);
            CollectIds(env, items + [v], found)
            == if |r| >= 5000 || v.Flag? || SafeInt(env, v) <= 0 || SafeInt(env, v) in r then r else r + [SafeInt(env, v)]
    decreases |items|
  {
    if items == [] {
      assert items + [v] == [v] && [v][1..] == [];
    } else if |found| < MAX_IDS {
      assert (items + [v])[1..] == items[1..] + [v];
      var n := if items[0].Flag? then 0 else SafeInt(env, items[0]);
      CollectIdsNext(env, items[1..], v, if n <= 0 || n in found then found else found + [n]);
    }
  }

  /** Account ids likewise: an item adds its number if that is positive, new and within 5000; a switch never counts. */
  lemma AccountIdsNext(env: Env, items: seq<Json>, v: Json)
    ensures AccountIdsOf(env, List([])) == [] == AccountIdsOf(env, Null)
    ensures var r := AccountIdsOf(env, List(items));
            AccountIdsOf(env, List(items + [v]))
            == if |r| >= 5000 || v.Flag? || SafeInt(env, v) <= 0 || SafeInt(env, v) in r then r else r + [SafeInt(env, v)]
  {
    CollectIdsNext(env, items, v, []);
  }

  /** The reference an account gets is the first usable one stored for it: with a positive id among the
      listed ones, an address in lower case and a time. */
  lemma {:induction false} RefsNext(env: Env, items: seq<Json>, v: Json, ids: set<int>, found: map<int, Ref>)
    ensures var r := RefsById(env, items, ids, found);
            var f := FieldsOf(v);
            var id, email, createdAt := SafeInt(env, Get(f, Id)), Lower(Clip(Str(env, Get(f, Email)), 320)), Clip(Str(env, Get(f, CreatedAt)), 80);
            RefsById(env, items + [v], ids, found)
            == if !v.Object? || id <= 0 || id !in ids || id in r || email == "" || createdAt == "" then r
               else r[id := Ref(id, email, createdAt)]
    decreases |items|
  {
    if items == [] {
      assert items + [v] == [v] && [v][1..] == [];
    } else {
      assert (items + [v])[1..] == items[1..] + [v];
      var r := RefOf(env, items[0]);
      RefsNext(env, items[1..], v, ids,
               if r.None? || r.value.id !in ids || r.value.id in found then found else found[r.value.id := r.value]);
    }
  }

  // ---------------------------------------------------------------- columns with aliases

  lemma {:induction false} RewriteHolds(w: Words, kind: Kind, vs: seq<string>, found: seq<string>, y: string)
    ensures y in Rewrite(w, kind, vs, found)
            <==> y in found || (y != "" && exists i :: 0 <= i < |vs| && Alias(w, kind, vs[i]) == Some(y))
    decreases |vs|
  {
    if vs != [] {
      var next := match Alias(w, kind, vs[0])
                  case None => found
                  case Some(x) => if x == "" || x in found then found else found + [x];
      RewriteHolds(w, kind, vs[1..], next, y);
      assert forall i :: 1 <= i < |vs| ==> vs[i] == vs[1..][i - 1];
      if i :| 0 <= i < |vs| && Alias(w, kind, vs[i]) == Some(y) {
        assert i > 0 ==> vs[1..][i - 1] == vs[i];
      }
    }
  }

  /** What a word says in a column: upload states by their table in lower case, submit states by theirs, yes
      and no by theirs, and any other column's word says itself. */
  function Meaning(w: Words, c: Column, x: string): Option<string> {
    match c
    case Sub2apiState | OaipayState => Some(if Lower(x) in w.upload then w.upload[Lower(x)] else Lower(x))
    case IdeaSubmitState | SubmitState => Some(if Lower(x) in w.submit then w.submit[Lower(x)] else x)
    case PaymentLinkGenerated =>
      if Lower(x) in w.yes then Some("true") else if Lower(x) in w.no then Some("false") else None
    case _ => Some(x)
  }

  /** The pair that together restricts nothing. */
  function Opposites(c: Column): Option<(string, string)> {
    match c
    case Sub2apiState | OaipayState => Some(("uploaded", "not_uploaded"))
    case PaymentLinkGenerated => Some(("true", "false"))
    case _ => None
  }

  /** The listed words say it. */
  ghost predicate Said(w: Words, c: Column, words: seq<string>, y: string) {
    y != "" && exists i :: 0 <= i < |words| && Meaning(w, c, words[i]) == Some(y)
  }

  lemma PlainHolds(env: Env, c: Column, v: Json, y: string)
    requires KindOf(c) == Plain
    ensures y in ValueList(env, v) <==> Said(env.words, c, ValueList(env, v), y)
    ensures ColumnValues(env, KindOf(c), v) == ValueList(env, v)
  {
    NoBlankWord(env, v, y);
    var words := ValueList(env, v);
    assert forall i :: 0 <= i < |words| ==> Meaning(env.words, c, words[i]) == Some(words[i]);
  }

  lemma AliasedHolds(env: Env, c: Column, v: Json, y: string)
    requires KindOf(c) != Plain
    ensures var r := Rewrite(env.words, KindOf(c), ValueList(env, v), []);
      && (y in r <==> Said(env.words, c, ValueList(env, v), y))
      && ColumnValues(env, KindOf(c), v) == if NoRestriction(KindOf(c), r) then [] else r
  {
    var words, kind := ValueList(env, v), KindOf(c);
    OnceIsEnough(env, v);
    RewriteHolds(env.words, kind, words, [], y);
    assert forall i :: 0 <= i < |words| ==> Meaning(env.words, c, words[i]) == Alias(env.words, kind, words[i]);
  }

  /** A column holds what the listed words say, unless that is exactly the two opposites. */
  lemma ColumnHolds(env: Env, c: Column, v: Json, y: string)
    ensures var words, values := ValueList(env, v), ColumnValues(env, KindOf(c), v);
      && (values != [] ==> (y in values <==> Said(env.words, c, words, y)))
      && (values == [] && Said(env.words, c, words, y) ==>
            Opposites(c).Some? && (y == Opposites(c).value.0 || y == Opposites(c).value.1))
  {
    if KindOf(c) == Plain { PlainHolds(env, c, v, y); } else { AliasedHolds(env, c, v, y); }
  }

  lemma NoBlankWord(env: Env, v: Json, y: string)
    ensures y in ValueList(env, v) ==> y != ""
    ensures y in ValueList(env, v) <==> exists i :: 0 <= i < |ValueList(env, v)| && ValueList(env, v)[i] == y
  {
    ValueListSpec(env, v, []);
  }

  // ---------------------------------------------------------------- older names of filters

  /** The first value that says something, in the order of the names; nothing if none does. */
  function FirstSaid(vs: seq<Json>): Json {
    if vs == [] then Null else if |vs| == 1 || Truthy(vs[0]) then vs[0] else FirstSaid(vs[1..])
  }

  lemma FirstOfTwo(a: Json, b: Json)
    ensures FirstSaid([a, b]) == Or(a, b)
  {
    assert [a, b][1..] == [b] && FirstSaid([b]) == b;
  }

  lemma FirstOfThree(a: Json, b: Json, c: Json)
    ensures FirstSaid([a, b, c]) == Or(Or(a, b), c)
  {
    assert [a, b, c][1..] == [b, c];
    FirstOfTwo(b, c);
  }

  lemma FirstOfFour(a: Json, b: Json, c: Json, d: Json)
    ensures FirstSaid([a, b, c, d]) == Or(Or(a, b), Or(c, d))
  {
    assert [a, b, c, d][1..] == [b, c, d];
    FirstOfThree(b, c, d);
  }

  /** Under which names, in which order, each filter is looked for. */
  lemma FiltersLookedFor(env: Env, f: Fields)
    ensures var columns, filters := FieldsOf(Get(f, ColumnFilters)), NormalizeFilters(env, Object(f));
      && filters.search == SearchText(Str(env, FirstSaid([Get(f, Search), Get(f, Email), Get(columns, Email)])))
      && filters.status == ValueList(env, FirstSaid([Get(f, StatusList), Get(f, FilterStatus), Get(columns, StatusList)]))
      && (forall c :: c in COLUMNS ==>
            filters.columns[c] == ColumnValues(env, KindOf(c), if OfColumn(c) in columns then columns[OfColumn(c)] else Get(f, OfColumn(c))))
      && filters.payment == ReadSelection(env, if PaymentMethodSelection in columns then columns[PaymentMethodSelection]
                                               else Get(f, PaymentMethodSelection))
  {
    var columns := FieldsOf(Get(f, ColumnFilters));
    FirstOfThree(Get(f, Search), Get(f, Email), Get(columns, Email));
    FirstOfThree(Get(f, StatusList), Get(f, FilterStatus), Get(columns, StatusList));
  }

  lemma DirectionIs(env: Env, v: Json, default: string)
    ensures Direction(env, v, default) == DirectionSaid(env, v, default)
  {
  }

  /** The same for the two orders. */
  lemma OrdersLookedFor(env: Env, f: Fields)
    ensures var sort, filters := FieldsOf(Get(f, Sort)), NormalizeFilters(env, Object(f));
      && filters.sortOrder
         == DirectionSaid(env, FirstSaid([Get(f, SortOrder), Get(f, SubscriptionExpirySortOrder), Get(sort, SortOrder), Get(sort, Order)]), "")
      && filters.registration
         == DirectionSaid(env, FirstSaid([Get(f, RegistrationSortOrder), Get(f, CreatedAtSortOrder),
                                          Get(sort, RegistrationSortOrder), Get(sort, CreatedAtOrder)]), "desc")
  {
    var sort := FieldsOf(Get(f, Sort));
    FirstOfFour(Get(f, SortOrder), Get(f, SubscriptionExpirySortOrder), Get(sort, SortOrder), Get(sort, Order));
    FirstOfFour(Get(f, RegistrationSortOrder), Get(f, CreatedAtSortOrder), Get(sort, RegistrationSortOrder), Get(sort, CreatedAtOrder));
    DirectionIs(env, SortSource(f, sort), "");
    DirectionIs(env, RegistrationSource(f, sort), "desc");
  }

  function DirectionSaid(env: Env, v: Json, default: string): string {
    match Lower(Clip(Str(env, v), 8))
    case "asc" => "asc"
    case "desc" => "desc"
    case _ => default
  }

  /** The page size is the number said under either name, 20 when there is none or it is not within 1 to 200. */
  lemma PageSizeRead(env: Env, f: Fields)
    ensures var v := if Truthy(Get(f, PageSize)) then Get(f, PageSize) else Get(f, PageSizeOld);
            var size := NormalizeFilters(env, Object(f)).pageSize;
      && (Truthy(v) && 1 <= SafeInt(env, v) <= 200 ==> size == SafeInt(env, v))
      && (!Truthy(v) || SafeInt(env, v) < 1 || SafeInt(env, v) > 200 ==> size == 20)
  {
  }

  // ---------------------------------------------------------------- presets

  /** Which stored items are custom presets: objects with a name, and, in fixed mode, with an account. */
  lemma CustomKeptIff(env: Env, v: Json, freshId: string, now: string)
    ensures NormalizeCustom(env, v, freshId, now).Some? <==>
      && v.Object? && Clip(Str(env, Get(v.fields, Name)), 80) != ""
      && (FixedMode(env, Get(v.fields, Mode)) ==> AccountIdsOf(env, Get(v.fields, AccountIds)) != [])
  {
  }

  /** And what they say: texts trimmed, a blank or reserved id made up, an absent time the present one. */
  lemma CustomSays(env: Env, f: Fields, freshId: string, now: string)
    requires NormalizeCustom(env, Object(f), freshId, now).Some?
    ensures var p := NormalizeCustom(env, Object(f), freshId, now).value;
            var id, created, updated := Clip(Str(env, Get(f, Id)), 80), Clip(Str(env, Get(f, CreatedAt)), 40), Clip(Str(env, Get(f, UpdatedAt)), 40);
      && (id != "" && !("builtin_" <= id) ==> p.id == id) && (id == "" || "builtin_" <= id ==> p.id == freshId)
      && p.name == Clip(Str(env, Get(f, Name)), 80) && p.description == Clip(Str(env, Get(f, Description)), 240)
      && p.pinned == Truthy(Get(f, Pinned)) && !p.builtIn && (p.fixed <==> FixedMode(env, Get(f, Mode)))
      && p.createdAt == (if created == "" then now else created) && p.updatedAt == (if updated == "" then p.createdAt else updated)
      && (p.fixed ==> p.accounts == AccountIdsOf(env, Get(f, AccountIds)) && p.refs == RefsOf(env, Get(f, AccountRefs), p.accounts))
      && (!p.fixed ==> p.accounts == [] && p.refs == [] && p.filters == NormalizeFilters(env, Get(f, Filters)))
  {
    PrefixIs(Clip(Str(env, Get(f, Id)), 80));
  }

  lemma PrefixIs(id: string)
    ensures Reserved(id) <==> "builtin_" <= id
  {
  }

  lemma UnsaidTexts(env: Env, d: Preset, parts: Parts, now: string)
    requires Steady(env) && NormalPreset(env, d)
    ensures !Truthy(parts.name) ==> OverrideName(env, parts, d) == d.name
    ensures parts.description.None? ==> OverrideDescription(env, parts, d) == d.description
    ensures !Truthy(parts.mode) ==> OverrideFixed(env, parts, d) == d.fixed
    ensures !Truthy(parts.createdAt) ==> OverrideCreated(env, parts, d, now) == d.createdAt
  {
    TrimText(env, d.name, MAX_NAME);
    TrimText(env, d.description, MAX_DESCRIPTION);
    ClipSpec(d.createdAt, MAX_TIME);
    ModeReadsBack(env, d.fixed);
    ClipBlank(MAX_TIME);
  }

  lemma UnsaidFilters(env: Env, d: Preset, parts: Parts)
    requires NormalFilters(env, d.filters) && !parts.filters.Object? && !OverrideFixed(env, parts, d)
    ensures OverrideContent(env, parts, d) == Some(Content([], [], AgainFilters(d.filters)))
  {
    FiltersReadBack(env, d.filters);
  }

  lemma ChangeFrom(env: Env, b: Builtins, id: string, f: Fields, now: string)
    requires id in b
    ensures NormalizeOverride(env, b, id, Object(f), now) == OverrideFrom(env, id, b[id], PartsOf(f), now)
  {
  }

  /** A change to a built-in preset takes whatever it does not say from the preset it changes. */
  lemma ChangeInherits(env: Env, b: Builtins, id: string, f: Fields, now: string)
    requires Steady(env) && BuiltinsFine(env, b) && id in b && !b[id].fixed
    ensures var o := NormalizeOverride(env, b, id, Object(f), now);
      && (!Truthy(Get(f, Name)) && !Truthy(Get(f, Mode)) ==> o.Some?)
      && (o.Some? ==>
            && o.value.id == id && o.value.builtIn
            && (!Truthy(Get(f, Name)) ==> o.value.name == b[id].name)
            && (Description !in f ==> o.value.description == b[id].description)
            && (Pinned !in f ==> o.value.pinned == b[id].pinned)
            && (!Truthy(Get(f, Mode)) ==> !o.value.fixed)
            && (!o.value.fixed && !Get(f, Filters).Object? ==> o.value.filters == AgainFilters(b[id].filters))
            && (!Truthy(Get(f, CreatedAt)) ==> o.value.createdAt == b[id].createdAt))
  {
    var d, parts := b[id], PartsOf(f);
    assert NormalOverride(env, b, id, d);
    ChangeFrom(env, b, id, f, now);
    UnsaidTexts(env, d, parts, now);
    if !parts.filters.Object? && !OverrideFixed(env, parts, d) { UnsaidFilters(env, d, parts); }
  }

  /** Its own time is the present one unless it says another. */
  lemma ChangeIsDated(env: Env, b: Builtins, id: string, f: Fields, now: string)
    requires NormalizeOverride(env, b, id, Object(f), now).Some? && !Truthy(Get(f, UpdatedAt))
    ensures NormalizeOverride(env, b, id, Object(f), now).value.updatedAt == now
  {
    ClipBlank(MAX_TIME);
  }

  lemma ClipBlank(most: nat)
    ensures Clip("", most) == ""
  {
    StripFixed("");
  }

  /** And what it does say replaces it. */
  lemma ChangeSays(env: Env, b: Builtins, id: string, f: Fields, now: string)
    requires NormalizeOverride(env, b, id, Object(f), now).Some?
    ensures id in b
    ensures var p := NormalizeOverride(env, b, id, Object(f), now).value;
      && (Truthy(Get(f, Name)) ==> p.name == Clip(Str(env, Get(f, Name)), 80))
      && (Description in f ==> p.description == Clip(Str(env, f[Description]), 240))
      && (Pinned in f ==> p.pinned == Truthy(f[Pinned]))
      && (Truthy(Get(f, Mode)) ==> (p.fixed <==> FixedMode(env, Get(f, Mode))))
      && (p.fixed ==> p.accounts == AccountIdsOf(env, Get(f, AccountIds)) != [])
      && (!p.fixed && Get(f, Filters).Object? ==> p.filters == NormalizeFilters(env, f[Filters]))
      && (Clip(Str(env, Get(f, CreatedAt)), 40) != "" ==> p.createdAt == Clip(Str(env, Get(f, CreatedAt)), 40))
      && (Clip(Str(env, Get(f, UpdatedAt)), 40) != "" ==> p.updatedAt == Clip(Str(env, Get(f, UpdatedAt)), 40))
  {
  }

  // ---------------------------------------------------------------- whole states

  /** What the older default order does to a preset from before version 3. */
  function Modernised(p: Preset, migrate: bool): Preset {
    if migrate then p.(filters := p.filters.(registration := "desc")) else p
  }

  /** The list after one more item: the same when it is full, the item is no preset, or its id is taken. */
  function Grown(r: seq<Preset>, item: Option<Preset>, migrate: bool): seq<Preset> {
    if |r| >= 80 || item.None? || exists p :: p in r && p.id == item.value.id then r else r + [Modernised(item.value, migrate)]
  }

  lemma {:induction false} CustomsNext(read: CustomReader, items: seq<Json>, v: Json, k: nat, migrate: bool, found: seq<Preset>)
    ensures Customs(read, items + [v], k, migrate, found)
         == Grown(Customs(read, items, k, migrate, found), read(k + |items|, v), migrate)
    decreases |items|
  {
    if items == [] {
      assert items + [v] == [v] && [v][1..] == [];
    } else if |found| < MAX_CUSTOM {
      assert (items + [v])[1..] == items[1..] + [v];
      CustomsNext(read, items[1..], v, k + 1, migrate, Added(found, read(k, items[0]), migrate));
    }
  }

  lemma {:induction false} ChangesNext(read: ChangeReader, entries: seq<(string, Json)>, e: (string, Json), deleted: set<string>,
                                       migrate: bool, found: map<string, Preset>)
    ensures var r, id := Changes(read, entries, deleted, migrate, found), Clip(e.0, 80);
            var item := read(id, e.1);
            Changes(read, entries + [e], deleted, migrate, found)
            == if id in deleted || item.None? then r else r[id := Modernised(item.value, migrate)]
    decreases |entries|
  {
    if entries == [] {
      assert entries + [e] == [e] && [e][1..] == [];
    } else {
      assert (entries + [e])[1..] == entries[1..] + [e];
      var id := Clip(entries[0].0, MAX_WORD);
      ChangesNext(read, entries[1..], e, deleted, migrate,
                  if id in deleted then found else Changed(found, id, read(id, entries[0].1), migrate));
    }
  }

  /** Which stored states get the newer default order: all without a version from 3 on. */
  lemma MigratesIff(env: Env, p: Payload)
    ensures Migrates(env, p) <==> !(p.Stored? && Truthy(p.version) && SafeInt(env, p.version) >= 3)
  {
  }

  lemma CustomsOfState(env: Env, b: Builtins, p: Payload, items: seq<Json>, s: Supply)
    requires p.Stored?
    ensures var q := p.(custom := List(items));
            NormalizeState(env, b, q, s).custom == Customs(Reader(env, s), items, 0, Migrates(env, p), [])
    ensures var q := p.(custom := List(items));
            NormalizeState(env, b, q, s).overrides == NormalizeState(env, b, p, s).overrides
            && NormalizeState(env, b, q, s).deleted == NormalizeState(env, b, p, s).deleted
  {
  }

  /** Custom presets are read item by item: an item that is no preset, or that repeats an id, adds nothing;
      the list ends at 80. */
  lemma StateCustomsNext(env: Env, b: Builtins, p: Payload, items: seq<Json>, v: Json, s: Supply)
    requires p.Stored? && p.custom == List(items)
    ensures var before, after := NormalizeState(env, b, p, s), NormalizeState(env, b, p.(custom := List(items + [v])), s);
      && after.overrides == before.overrides && after.deleted == before.deleted
      && after.custom == Grown(before.custom, NormalizeCustom(env, v, s.id(|items|), s.now), Migrates(env, p))
  {
    assert p == p.(custom := List(items));
    CustomsOfState(env, b, p, items, s);
    CustomsOfState(env, b, p, items + [v], s);
    CustomsNext(Reader(env, s), items, v, 0, Migrates(env, p), []);
  }

  /** Changes are read entry by entry: a later usable one replaces an earlier one, and a deleted built-in
      has none. */
  lemma StateChangesNext(env: Env, b: Builtins, p: Payload, entries: seq<(string, Json)>, e: (string, Json), s: Supply)
    requires p.Stored? && p.overrides == Keyed(entries)
    ensures var before, after := NormalizeState(env, b, p, s), NormalizeState(env, b, p.(overrides := Keyed(entries + [e])), s);
            var id := Clip(e.0, 80);
            var item := NormalizeOverride(env, b, id, e.1, s.now);
      && after.custom == before.custom && after.deleted == before.deleted
      && after.overrides == if id in before.deleted || item.None? then before.overrides
                            else before.overrides[id := Modernised(item.value, Migrates(env, p))]
  {
    ChangesNext(OverrideReader(env, b, s.now), entries, e, DeletedIds(env, b, DeletedValue(p)), Migrates(env, p), map[]);
  }

  /** Deleted are the listed ids of built-in presets. */
  lemma StateDeletes(env: Env, b: Builtins, p: Payload, s: Supply, id: string)
    requires p.Stored?
    ensures id in NormalizeState(env, b, p, s).deleted <==> id in b && id in ValueList(env, p.deleted)
  {
  }

  lemma {:induction false} ListedAsKeyed(env: Env, items: seq<Json>)
    requires forall i :: 0 <= i < |items| ==> items[i].Object?
    ensures |ListedEntries(env, items)| == |items|
    ensures forall i :: 0 <= i < |items| ==> ListedEntries(env, items)[i] == (Str(env, Get(items[i].fields, Id)), items[i])
  {
    if items != [] { ListedAsKeyed(env, items[1..]); }
  }

  /** Older shapes read like the newest: a bare list like the custom presets of a state without a version,
      the older name of the list like the newer, listed changes like keyed ones. */
  lemma ShapesReadAlike(env: Env, b: Builtins, xs: seq<Json>, p: Payload, s: Supply)
    requires p.Stored?
    ensures NormalizeState(env, b, Bare(xs), s) == NormalizeState(env, b, Stored(Null, List(xs), Null, Unknown, Null), s)
    ensures !p.custom.List? ==>
      NormalizeState(env, b, p.(items := List(xs)), s) == NormalizeState(env, b, p.(custom := List(xs)), s)
    ensures NormalizeState(env, b, p.(overrides := Listed(xs)), s)
         == NormalizeState(env, b, p.(overrides := Keyed(ListedEntries(env, xs))), s)
    ensures NormalizeState(env, b, Nothing, s) == State([], map[], {})
  {
    assert ValueList(env, Null) == [] == ValueList(env, List([]));
    assert DeletedIds(env, b, Null) == DeletedIds(env, b, List([])) == {};
    MigratesIff(env, p);
  }

  // ---------------------------------------------------------------- search texts

  lemma {:induction false} EmailsHold(lines: seq<string>, found: seq<string>, e: string)
    ensures e in Emails(lines, found)
            <==> e in found || (e != "" && exists i :: 0 <= i < |lines| && Lower(Strip(lines[i])) == e)
    decreases |lines|
  {
    if lines != [] {
      var x := Lower(Strip(lines[0]));
      EmailsHold(lines[1..], if x == "" || x in found then found else found + [x], e);
      assert forall i :: 1 <= i < |lines| ==> lines[i] == lines[1..][i - 1];
      if i :| 0 <= i < |lines| && Lower(Strip(lines[i])) == e {
        assert i > 0 ==> Lower(Strip(lines[1..][i - 1])) == e;
      }
    }
  }

  /** A search text of at most one line that holds something is that text, trimmed; one of several lists their
      addresses in lower case, each once and at most 1000, and below that all of them. */
  lemma SearchHolds(raw: string)
    ensures var lines := Filled(Lines(raw));
      && (|lines| <= 1 ==> SearchText(raw) == Clip(raw, 320))
      && (|lines| > 1 ==>
            var all := Emails(lines, []);
            var es := if |all| > 1000 then all[..1000] else all;
            && SearchText(raw) == (if |es| == 1 then es[0] + ['\n'] + es[0] else Joined(es))
            && forall e :: e in all <==> e != "" && exists i :: 0 <= i < |lines| && Lower(Strip(lines[i])) == e)
  {
    var lines := Filled(Lines(raw));
    forall e: string ensures e in Emails(lines, []) <==> e != "" && exists i :: 0 <= i < |lines| && Lower(Strip(lines[i])) == e {
      EmailsHold(lines, [], e);
    }
  }

  // ---------------------------------------------------------------- method names

  /** Letters and digits only, in either case. */
  predicate PlainWord(w: string) {
    w != "" && forall i :: 0 <= i < |w| ==> 'a' <= w[i] <= 'z' || 'A' <= w[i] <= 'Z' || '0' <= w[i] <= '9'
  }

  lemma LowerAppend(a: string, c: char, b: string)
    ensures Lower(a + [c] + b) == Lower(a) + [LowerChar(c)] + Lower(b)
  {
  }

  lemma {:induction false} SqueezeWord(w: string, rest: string, bad: char -> bool, inRun: bool)
    requires w != "" && forall i :: 0 <= i < |w| ==> !bad(w[i])
    ensures Squeeze(w + rest, bad, inRun) == w + Squeeze(rest, bad, false)
  {
    assert (w + rest)[1..] == w[1..] + rest;
    if |w| == 1 {
      assert w[1..] + rest == rest && [w[0]] == w;
    } else {
      SqueezeWord(w[1..], rest, bad, false);
      assert [w[0]] + (w[1..] + Squeeze(rest, bad, false)) == w + Squeeze(rest, bad, false);
    }
  }

  lemma SqueezeHead(c: char, b: string, bad: char -> bool)
    requires b != "" && forall i :: 0 <= i < |b| ==> !bad(b[i])
    ensures Squeeze([c] + b, bad, false) == [if bad(c) then '_' else c] + b
  {
    assert ([c] + b)[1..] == b;
    SqueezeClean(b, bad, false);
    SqueezeClean(b, bad, true);
  }

  lemma SqueezeBetween(a: string, c: char, b: string, bad: char -> bool)
    requires a != "" && b != "" && (forall i :: 0 <= i < |a| ==> !bad(a[i])) && forall i :: 0 <= i < |b| ==> !bad(b[i])
    ensures Squeeze(a + ([c] + b), bad, false) == a + ([if bad(c) then '_' else c] + b)
  {
    SqueezeWord(a, [c] + b, bad, false);
    SqueezeHead(c, b, bad);
  }

  lemma PlainLowers(w: string)
    requires PlainWord(w)
    ensures AllSlug(Lower(w)) && Lower(w) != "" && Stripped(w)
    ensures forall i :: 0 <= i < |w| ==> !IsSpace(Lower(w)[i]) && !OddChar(Lower(w)[i]) && Lower(w)[i] != '_' && Lower(w)[i] != '-'
  {
  }

  /** A word names its method in lower case; two words with any character between them that is no letter, digit or
      underscore, a blank or a hyphen say, are joined by an underscore. */
  lemma MethodOfWords(a: string, c: char, b: string)
    requires PlainWord(a) && PlainWord(b) && |a| + |b| < 80
    requires !SlugChar(LowerChar(c))
    ensures MethodType(a) == Lower(a)
    ensures MethodType(a + [c] + b) == Lower(a) + (['_'] + Lower(b))
  {
    PlainLowers(a);
    PlainLowers(b);
    SlugOfWord(a);
    SlugOfWords(a, c, b);
  }

  lemma SlugOfWord(a: string)
    requires PlainWord(a)
    ensures Slug(a) == Lower(a)
  {
    PlainLowers(a);
    StripFixed(a);
    assert Hyphens(Lower(a)) == Lower(a);
    SqueezeClean(Lower(a), IsSpace, false);
    SqueezeClean(Lower(a), OddChar, false);
    DropLeftSpec(Lower(a));
    DropRightSpec(Lower(a));
  }

  /** Characters that nothing replaces. */
  predicate Kept(w: string) {
    w != "" && forall i :: 0 <= i < |w| ==> !IsSpace(w[i]) && !OddChar(w[i]) && w[i] != '_' && w[i] != '-'
  }

  lemma HyphensBetween(x: string, d: char, y: string)
    requires Kept(x) && Kept(y)
    ensures Hyphens(x + ([d] + y)) == x + ([if d == '-' then '_' else d] + y)
  {
  }

  lemma SqueezedWords(x: string, d: char, y: string)
    requires Kept(x) && Kept(y) && !SlugChar(d)
    ensures Squeeze(Squeeze(Hyphens(x + ([d] + y)), IsSpace, false), OddChar, false) == x + (['_'] + y)
  {
    HyphensBetween(x, d, y);
    var e := if d == '-' then '_' else d;
    SqueezeBetween(x, e, y, IsSpace);
    SqueezeBetween(x, if IsSpace(e) then '_' else e, y, OddChar);
  }

  lemma NothingToTrim(x: string, y: string)
    requires Kept(x) && Kept(y)
    ensures TrimUnderscores(x + (['_'] + y)) == x + (['_'] + y)
  {
    var m := x + (['_'] + y);
    assert m[0] == x[0] && m[|m| - 1] == y[|y| - 1];
    DropLeftSpec(m);
    DropRightSpec(m);
  }

  lemma StrippedBetween(a: string, t: string, b: string)
    requires a != "" && b != "" && !IsSpace(a[0]) && !IsSpace(b[|b| - 1])
    ensures Strip(a + t + b) == a + t + b
  {
    var u := a + t + b;
    assert u[0] == a[0] && u[|u| - 1] == b[|b| - 1];
    StripFixed(u);
  }

  lemma Regrouped(x: string, d: char, y: string)
    ensures x + [d] + y == x + ([d] + y)
  {
  }

  lemma WordsStripped(a: string, c: char, b: string)
    requires PlainWord(a) && PlainWord(b)
    ensures Lower(Strip(a + [c] + b)) == Lower(a) + ([LowerChar(c)] + Lower(b))
  {
    StrippedBetween(a, [c], b);
    LowerAppend(a, c, b);
    Regrouped(Lower(a), LowerChar(c), Lower(b));
  }

  lemma SlugOfWords(a: string, c: char, b: string)
    requires PlainWord(a) && PlainWord(b) && !SlugChar(LowerChar(c))
    ensures Slug(a + [c] + b) == Lower(a) + (['_'] + Lower(b))
  {
    PlainLowers(a);
    PlainLowers(b);
    WordsStripped(a, c, b);
    SqueezedWords(Lower(a), LowerChar(c), Lower(b));
    NothingToTrim(Lower(a), Lower(b));
  }

  // ---------------------------------------------------------------- selections keep pairs

  /** The selection has that method for that country. */
  ghost predicate Pairs(sel: seq<Choice>, country: string, m: string) {
    exists i :: 0 <= i < |sel| && sel[i].country == country && m in sel[i].methods
  }

  /** The item says that country and one of its methods reads as that name. */
  ghost predicate SaysPair(env: Env, v: Json, country: string, m: string) {
    && EntryOf(v).Some? && CountryOf(env, EntryOf(v).value.country) == country && country != "" && m != ""
    && exists k :: 0 <= k < |EntryOf(v).value.methods| && MethodType(MethodText(env, EntryOf(v).value.methods[k])) == m
  }

  lemma {:induction false} InsertHolds(ms: seq<string>, m: string, x: string)
    ensures x in Insert(ms, m) <==> x in ms || x == m
  {
    if ms != [] && m != ms[0] && !TextLeq(m, ms[0]) { InsertHolds(ms[1..], m, x); }
  }

  lemma {:induction false} InsertAllHolds(ms: seq<string>, names: seq<string>, x: string)
    ensures x in InsertAll(ms, names) <==> x in ms || (x != "" && x in names)
    decreases |names|
  {
    if names != [] {
      InsertAllHolds(if names[0] == "" then ms else Insert(ms, names[0]), names[1..], x);
      if names[0] != "" { InsertHolds(ms, names[0], x); }
    }
  }

  ghost predicate OncePerCountry(sel: seq<Choice>) {
    forall i, j :: 0 <= i < j < |sel| ==> sel[i].country != sel[j].country
  }

  lemma MergePairs(found: seq<Choice>, country: string, names: seq<string>, x: string, m: string)
    requires OncePerCountry(found)
    ensures OncePerCountry(Merge(found, country, names))
    ensures Pairs(Merge(found, country, names), x, m)
            <==> Pairs(found, x, m) || (x == country && country != "" && m != "" && m in names)
  {
    if country != "" {
      var k := PositionOf(found, country);
      var next := Merge(found, country, names);
      InsertAllHolds(if k < |found| then found[k].methods else [], names, m);
      if Pairs(found, x, m) {
        var i :| 0 <= i < |found| && found[i].country == x && m in found[i].methods;
        assert next[i].country == x && m in next[i].methods;
      }
      if x == country && m != "" && m in names {
        assert next[k].country == x && m in next[k].methods;
      }
      if Pairs(next, x, m) {
        var i :| 0 <= i < |next| && next[i].country == x && m in next[i].methods;
        if i < |found| && i != k { assert found[i] == next[i]; }
      }
    }
  }

  lemma TakenPairs(env: Env, found: seq<Choice>, v: Json, x: string, m: string)
    requires OncePerCountry(found)
    ensures OncePerCountry(Taken(env, found, v))
    ensures Pairs(Taken(env, found, v), x, m) <==> Pairs(found, x, m) || SaysPair(env, v, x, m)
  {
    if EntryOf(v).Some? {
      var e := EntryOf(v).value;
      MergePairs(found, CountryOf(env, e.country), NamesOf(env, e.methods), x, m);
      if m in NamesOf(env, e.methods) {
        var k :| 0 <= k < |e.methods| && NamesOf(env, e.methods)[k] == m;
        assert MethodType(MethodText(env, e.methods[k])) == m;
      }
    }
  }

  lemma {:induction false} GatherPairs(env: Env, items: seq<Json>, found: seq<Choice>, x: string, m: string)
    requires OncePerCountry(found)
    ensures Pairs(Gather(TakerOf(env), items, found), x, m)
            <==> Pairs(found, x, m) || exists i :: 0 <= i < |items| && SaysPair(env, items[i], x, m)
    decreases |items|
  {
    if items != [] {
      TakenPairs(env, found, items[0], x, m);
      GatherPairs(env, items[1..], Taken(env, found, items[0]), x, m);
      assert forall i :: 1 <= i < |items| ==> items[i] == items[1..][i - 1];
      if i :| 0 <= i < |items| && SaysPair(env, items[i], x, m) {
        assert i > 0 ==> SaysPair(env, items[1..][i - 1], x, m);
      }
    }
  }

  /** A selection keeps each method with its country: it has the pair exactly when some stored item says both. */
  lemma SelectionKeepsPairs(env: Env, v: Json, country: string, m: string)
    ensures Pairs(ReadSelection(env, v), country, m)
            <==> exists i :: 0 <= i < |ItemsOf(env, v)| && SaysPair(env, ItemsOf(env, v)[i], country, m)
  {
    GatherPairs(env, ItemsOf(env, v), [], country, m);
  }
}
