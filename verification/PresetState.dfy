/** The whole preset state: custom presets, changes to built-in ones and deleted built-in ones, read
    from every version and shape of the stored value, saved, and read back. */
module PresetState {
  import opened Common
  import opened FilterSettings
  import opened FilterValues
  import opened PaymentSelection
  import opened PresetAccounts
  import opened PresetNormalizer
  import opened Text

  /** Changes to built-in presets, stored under their ids or as a list of items that carry them. */
  datatype Overrides = Keyed(entries: seq<(string, Json)>) | Listed(listed: seq<Json>) | Unknown

  /** The shapes of the stored value: a bare list from the first version, or an object; `items` is the
      older name for the custom presets. */
  datatype Payload = Nothing | Bare(presets: seq<Json>)
    | Stored(version: Json, custom: Json, items: Json, overrides: Overrides, deleted: Json)

  datatype State = State(custom: seq<Preset>, overrides: map<string, Preset>, deleted: set<string>)

  // ---------------------------------------------------------------- reading

  /** States before this version get the newer default order of registration. */
  predicate Migrates(env: Env, p: Payload) {
    match p
    case Stored(version, _, _, _, _) => (if Truthy(version) then SafeInt(env, version) else 1) < REGISTRATION_DESC_VERSION
    case _ => true
  }

  function CustomItems(p: Payload): seq<Json> {
    match p
    case Nothing => []
    case Bare(presets) => presets
    case Stored(_, custom, items, _, _) => if custom.List? then custom.items else ListOf(items)
  }

  function ListedEntries(env: Env, items: seq<Json>): seq<(string, Json)> {
    if items == [] then []
    else (match items[0] case Object(f) => [(Str(env, Get(f, Id)), items[0])] case _ => []) + ListedEntries(env, items[1..])
  }

  function OverrideEntries(env: Env, p: Payload): seq<(string, Json)> {
    match p
    case Stored(_, _, _, Keyed(entries), _) => entries
    case Stored(_, _, _, Listed(items), _) => ListedEntries(env, items)
    case _ => []
  }

  function DeletedValue(p: Payload): Json {
    match p
    case Stored(_, _, _, _, deleted) => deleted
    case _ => List([])
  }

  function Described(p: Preset, migrate: bool): Preset {
    if migrate then p.(filters := p.filters.(registration := "desc")) else p
  }

  predicate HasId(ps: seq<Preset>, id: string) {
    exists p :: p in ps && p.id == id
  }

  /** What an item of the list adds to the presets found. */
  function Added(found: seq<Preset>, item: Option<Preset>, migrate: bool): seq<Preset> {
    match item
    case None => found
    case Some(p) => if HasId(found, p.id) then found else found + [Described(p, migrate)]
  }

  /** Reads the `k`th stored item as a custom preset. */
  type CustomReader = (nat, Json) -> Option<Preset>

  /** Reads what is stored under an id as a change to the built-in preset of that id. */
  type ChangeReader = (string, Json) -> Option<Preset>

  /** The first usable item of each id, up to the cap. */
  function Customs(read: CustomReader, items: seq<Json>, k: nat, migrate: bool, found: seq<Preset>): seq<Preset>
    decreases |items|
  {
    if items == [] || |found| >= MAX_CUSTOM then found
    else Customs(read, items[1..], k + 1, migrate, Added(found, read(k, items[0]), migrate))
  }

  function Changed(found: map<string, Preset>, id: string, item: Option<Preset>, migrate: bool): map<string, Preset> {
    match item
    case None => found
    case Some(p) => found[id := Described(p, migrate)]
  }

  /** The usable changes to built-in presets that are not deleted; a later one replaces an earlier one. */
  function Changes(read: ChangeReader, entries: seq<(string, Json)>, deleted: set<string>, migrate: bool,
                   found: map<string, Preset>): map<string, Preset>
    decreases |entries|
  {
    if entries == [] then found
    else
      var id := Clip(entries[0].0, MAX_WORD);
      Changes(read, entries[1..], deleted, migrate,
              if id in deleted then found else Changed(found, id, read(id, entries[0].1), migrate))
  }

  function DeletedIds(env: Env, b: Builtins, v: Json): set<string> {
    set id | id in ValueList(env, v) && id in b
  }

  function Reader(env: Env, s: Supply): CustomReader {
    (k: nat, v: Json) => NormalizeCustom(env, v, s.id(k), s.now)
  }

  function OverrideReader(env: Env, b: Builtins, now: string): ChangeReader {
    (id, v) => NormalizeOverride(env, b, id, v, now)
  }

  function NormalizeState(env: Env, b: Builtins, p: Payload, s: Supply): State {
    var migrate := Migrates(env, p);
    var deleted := DeletedIds(env, b, DeletedValue(p));
    State(Customs(Reader(env, s), CustomItems(p), 0, migrate, []),
          Changes(OverrideReader(env, b, s.now), OverrideEntries(env, p), deleted, migrate, map[]), deleted)
  }

  // ---------------------------------------------------------------- normal states

  ghost predicate NormalCustoms(env: Env, ps: seq<Preset>) {
    && |ps| <= MAX_CUSTOM && (forall i, j :: 0 <= i < j < |ps| ==> ps[i].id != ps[j].id)
    && (forall p :: p in ps ==> NormalCustom(env, p))
  }

  ghost predicate NormalChanges(env: Env, b: Builtins, changes: map<string, Preset>, deleted: set<string>) {
    forall id :: id in changes ==> id !in deleted && NormalOverride(env, b, id, changes[id])
  }

  ghost predicate NormalState(env: Env, b: Builtins, st: State) {
    NormalCustoms(env, st.custom) && NormalChanges(env, b, st.overrides, st.deleted) && st.deleted <= b.Keys
  }

  lemma DescribedNormal(env: Env, p: Preset, migrate: bool)
    ensures NormalPreset(env, p) ==> NormalPreset(env, Described(p, migrate))
  {
    if NormalPreset(env, p) && migrate && p.fixed {
      assert p.filters.registration == "desc";
      assert Described(p, migrate) == p;
    }
  }

  lemma AddedNormal(env: Env, found: seq<Preset>, item: Option<Preset>, migrate: bool)
    requires NormalCustoms(env, found) && |found| < MAX_CUSTOM && (item.Some? ==> NormalCustom(env, item.value))
    ensures NormalCustoms(env, Added(found, item, migrate))
  {
    if item.Some? { DescribedNormal(env, item.value, migrate); }
  }

  ghost predicate ReadsNormal(env: Env, read: CustomReader) {
    forall k, v :: read(k, v).Some? ==> NormalCustom(env, read(k, v).value)
  }

  ghost predicate ReadsNormalChanges(env: Env, b: Builtins, read: ChangeReader) {
    forall id, v :: read(id, v).Some? ==> NormalOverride(env, b, id, read(id, v).value)
  }

  lemma {:induction false} CustomsNormal(env: Env, read: CustomReader, items: seq<Json>, k: nat, migrate: bool, found: seq<Preset>)
    requires ReadsNormal(env, read) && NormalCustoms(env, found)
    ensures NormalCustoms(env, Customs(read, items, k, migrate, found))
    decreases |items|
  {
    if items != [] && |found| < MAX_CUSTOM {
      AddedNormal(env, found, read(k, items[0]), migrate);
      CustomsNormal(env, read, items[1..], k + 1, migrate, Added(found, read(k, items[0]), migrate));
    }
  }

  lemma ChangedNormal(env: Env, b: Builtins, found: map<string, Preset>, id: string, item: Option<Preset>, migrate: bool,
                      deleted: set<string>)
    requires NormalChanges(env, b, found, deleted) && id !in deleted
    requires item.Some? ==> NormalOverride(env, b, id, item.value)
    ensures NormalChanges(env, b, Changed(found, id, item, migrate), deleted)
  {
    if item.Some? { DescribedNormal(env, item.value, migrate); }
  }

  lemma {:induction false} ChangesNormal(env: Env, b: Builtins, read: ChangeReader, entries: seq<(string, Json)>,
                                         deleted: set<string>, migrate: bool, found: map<string, Preset>)
    requires ReadsNormalChanges(env, b, read) && NormalChanges(env, b, found, deleted)
    ensures NormalChanges(env, b, Changes(read, entries, deleted, migrate, found), deleted)
    decreases |entries|
  {
    if entries != [] {
      var id := Clip(entries[0].0, MAX_WORD);
      if id in deleted {
        ChangesNormal(env, b, read, entries[1..], deleted, migrate, found);
      } else {
        var next := Changed(found, id, read(id, entries[0].1), migrate);
        ChangedNormal(env, b, found, id, read(id, entries[0].1), migrate, deleted);
        ChangesNormal(env, b, read, entries[1..], deleted, migrate, next);
      }
    }
  }

  lemma ReadersNormal(env: Env, b: Builtins, s: Supply)
    requires Steady(env) && BuiltinsFine(env, b) && SupplyFine(s)
    ensures ReadsNormal(env, Reader(env, s)) && ReadsNormalChanges(env, b, OverrideReader(env, b, s.now))
  {
    forall k: nat, v: Json | Reader(env, s)(k, v).Some? ensures NormalCustom(env, Reader(env, s)(k, v).value) {
      CustomNormal(env, v, s.id(k), s.now);
    }
    forall id: string, v: Json | OverrideReader(env, b, s.now)(id, v).Some?
      ensures NormalOverride(env, b, id, OverrideReader(env, b, s.now)(id, v).value)
    {
      OverrideNormal(env, b, id, v, s.now);
    }
  }

  /** Whatever is stored, the state read from it is normal. */
  lemma StateIsNormal(env: Env, b: Builtins, p: Payload, s: Supply)
    requires Steady(env) && BuiltinsFine(env, b) && SupplyFine(s)
    ensures NormalState(env, b, NormalizeState(env, b, p, s))
  {
    ReadersNormal(env, b, s);
    CustomsNormal(env, Reader(env, s), CustomItems(p), 0, Migrates(env, p), []);
    ChangesNormal(env, b, OverrideReader(env, b, s.now), OverrideEntries(env, p), DeletedIds(env, b, DeletedValue(p)),
                  Migrates(env, p), map[]);
  }

  // ---------------------------------------------------------------- writing

  type Writer = Preset -> Json

  function EncodeAll(write: Writer, ps: seq<Preset>): seq<Json> {
    if ps == [] then [] else [write(ps[0])] + EncodeAll(write, ps[1..])
  }

  function EncodeChanges(write: Writer, changes: map<string, Preset>, keys: seq<string>): seq<(string, Json)>
    requires forall k :: k in keys ==> k in changes
  {
    if keys == [] then [] else [(keys[0], write(changes[keys[0]]))] + EncodeChanges(write, changes, keys[1..])
  }

  /** The keys in some order, each once. */
  ghost predicate Lists(keys: seq<string>, ids: set<string>) {
    Unrepeated(keys) && forall k :: k in keys <==> k in ids
  }

  /** What is written for a state; the order of the changes and of the deleted ids is free. */
  function Encode(st: State, keys: seq<string>, gone: seq<string>): Payload
    requires forall k :: k in keys ==> k in st.overrides
  {
    Stored(Number(VERSION), List(EncodeAll(EncodePreset, st.custom)), Null,
           Keyed(EncodeChanges(EncodePreset, st.overrides, keys)), List(Texts(gone)))
  }

  // ---------------------------------------------------------------- reading a written state back

  type Rereader = Preset -> Preset

  function EachAgain(again: Rereader, ps: seq<Preset>): seq<Preset> {
    if ps == [] then [] else [again(ps[0])] + EachAgain(again, ps[1..])
  }

  lemma {:induction false} EachAgainSpec(again: Rereader, ps: seq<Preset>)
    ensures |EachAgain(again, ps)| == |ps| && forall i :: 0 <= i < |ps| ==> EachAgain(again, ps)[i] == again(ps[i])
  {
    if ps != [] { EachAgainSpec(again, ps[1..]); }
  }

  /** The reader gives back every preset that was written, as `again` has it. */
  ghost predicate ReadsBack(read: CustomReader, write: Writer, again: Rereader, ps: seq<Preset>) {
    forall k, p :: p in ps ==> read(k, write(p)) == Some(again(p)) && again(p).id == p.id
  }

  lemma ReadsRestBack(read: CustomReader, write: Writer, again: Rereader, ps: seq<Preset>)
    requires ReadsBack(read, write, again, ps) && ps != []
    ensures ReadsBack(read, write, again, ps[1..])
  {
    forall k: nat, p: Preset | p in ps[1..] ensures read(k, write(p)) == Some(again(p)) && again(p).id == p.id {
      assert p in ps;
    }
  }

  lemma CustomsStep(read: CustomReader, item: Json, rest: seq<Json>, k: nat, found: seq<Preset>, q: Preset)
    requires |found| < MAX_CUSTOM && read(k, item) == Some(q) && !HasId(found, q.id)
    ensures Customs(read, [item] + rest, k, false, found) == Customs(read, rest, k + 1, false, found + [q])
  {
    assert ([item] + rest)[1..] == rest;
  }

  /** No preset found has the id of one to come. */
  ghost predicate Ahead(found: seq<Preset>, ps: seq<Preset>) {
    && (forall i, j :: 0 <= i < |found| && 0 <= j < |ps| ==> found[i].id != ps[j].id)
    && (forall i, j :: 0 <= i < j < |ps| ==> ps[i].id != ps[j].id)
  }

  lemma StillAhead(found: seq<Preset>, ps: seq<Preset>, p: Preset)
    requires Ahead(found, ps) && ps != [] && p.id == ps[0].id
    ensures Ahead(found + [p], ps[1..]) && !HasId(found, p.id)
  {
  }

  lemma {:induction false} CustomsReadBack(read: CustomReader, write: Writer, again: Rereader, ps: seq<Preset>, k: nat,
                                           found: seq<Preset>)
    requires ReadsBack(read, write, again, ps) && |found| + |ps| <= MAX_CUSTOM && Ahead(found, ps)
    ensures Customs(read, EncodeAll(write, ps), k, false, found) == found + EachAgain(again, ps)
    decreases |ps|
  {
    if ps == [] {
      assert found + EachAgain(again, ps) == found;
    } else {
      var p, rest := ps[0], ps[1..];
      assert p in ps && read(k, write(p)) == Some(again(p)) && again(p).id == p.id;
      ReadsRestBack(read, write, again, ps);
      StillAhead(found, ps, again(p));
      CustomsStep(read, write(p), EncodeAll(write, rest), k, found, again(p));
      CustomsReadBack(read, write, again, rest, k + 1, found + [again(p)]);
      AppendFirst(found, again(p), EachAgain(again, rest));
    }
  }

  ghost predicate ReadsChangesBack(read: ChangeReader, write: Writer, again: Rereader, changes: map<string, Preset>) {
    forall id :: id in changes ==> read(id, write(changes[id])) == Some(again(changes[id]))
  }

  lemma {:induction false} ChangesReadBack(read: ChangeReader, write: Writer, again: Rereader, changes: map<string, Preset>,
                                           keys: seq<string>, deleted: set<string>, found: map<string, Preset>)
    requires ReadsChangesBack(read, write, again, changes)
    requires forall k :: k in keys ==> k in changes && k !in deleted && Clip(k, MAX_WORD) == k
    ensures Changes(read, EncodeChanges(write, changes, keys), deleted, false, found)
         == found + map k | k in keys :: again(changes[k])
    decreases |keys|
  {
    if keys == [] {
      assert (map k | k in keys :: again(changes[k])) == map[];
    } else {
      var id, rest := keys[0], keys[1..];
      assert keys == [id] + rest && id in keys;
      assert EncodeChanges(write, changes, keys)[1..] == EncodeChanges(write, changes, rest);
      ChangesReadBack(read, write, again, changes, rest, deleted, found[id := again(changes[id])]);
      MergeStep(again, changes, id, rest, found);
    }
  }

  lemma MergeStep(again: Rereader, changes: map<string, Preset>, id: string, rest: seq<string>, found: map<string, Preset>)
    requires id in changes && forall k :: k in rest ==> k in changes
    ensures found[id := again(changes[id])] + (map k | k in rest :: again(changes[k]))
         == found + map k | k in [id] + rest :: again(changes[k])
  {
  }

  lemma {:induction false} UnrepeatedFits(keys: seq<string>, ids: set<string>)
    requires Unrepeated(keys) && forall k :: k in keys ==> k in ids
    ensures |keys| <= |ids|
  {
    if keys != [] {
      var rest := keys[1..];
      assert keys == [keys[0]] + rest && keys[0] in keys;
      UnrepeatedFits(rest, ids - {keys[0]});
    }
  }

  lemma DeletedReadBack(env: Env, b: Builtins, gone: seq<string>)
    requires BuiltinsFine(env, b) && Unrepeated(gone) && forall k :: k in gone ==> k in b
    ensures DeletedIds(env, b, List(Texts(gone))) == set id | id in gone
  {
    UnrepeatedFits(gone, b.Keys);
    assert |b.Keys| == |b|;
    forall k | k in gone ensures Word(k) {
      assert NormalOverride(env, b, k, b[k]);
    }
    ValueListSpec(env, Null, gone);
  }

  lemma CustomStateReadsBack(env: Env, ps: seq<Preset>, s: Supply)
    requires Steady(env) && NormalCustoms(env, ps)
    ensures Customs(Reader(env, s), EncodeAll(EncodePreset, ps), 0, false, []) == EachAgain(AgainPreset, ps)
  {
    var read := Reader(env, s);
    forall k: nat, p: Preset | p in ps ensures read(k, EncodePreset(p)) == Some(AgainPreset(p)) && AgainPreset(p).id == p.id {
      CustomReadsBack(env, p, s.id(k), s.now);
    }
    CustomsReadBack(read, EncodePreset, AgainPreset, ps, 0, []);
    assert [] + EachAgain(AgainPreset, ps) == EachAgain(AgainPreset, ps);
  }

  lemma OverridesReadBack(env: Env, b: Builtins, changes: map<string, Preset>, deleted: set<string>, now: string)
    requires Steady(env) && NormalChanges(env, b, changes, deleted)
    ensures ReadsChangesBack(OverrideReader(env, b, now), EncodePreset, AgainPreset, changes)
    ensures forall id :: id in changes ==> id !in deleted && Clip(id, MAX_WORD) == id
  {
    forall id | id in changes
      ensures OverrideReader(env, b, now)(id, EncodePreset(changes[id])) == Some(AgainPreset(changes[id]))
      ensures Clip(id, MAX_WORD) == id
    {
      OverrideReadsBack(env, b, id, changes[id], now);
      ClipSpec(id, MAX_WORD);
    }
  }

  function ChangesAgain(again: Rereader, changes: map<string, Preset>): map<string, Preset> {
    map id | id in changes :: again(changes[id])
  }

  lemma ChangesReadAll(read: ChangeReader, write: Writer, again: Rereader, changes: map<string, Preset>, keys: seq<string>,
                       deleted: set<string>)
    requires ReadsChangesBack(read, write, again, changes) && Lists(keys, changes.Keys)
    requires forall id :: id in changes ==> id !in deleted && Clip(id, MAX_WORD) == id
    ensures Changes(read, EncodeChanges(write, changes, keys), deleted, false, map[]) == ChangesAgain(again, changes)
  {
    ChangesReadBack(read, write, again, changes, keys, deleted, map[]);
  }

  /** A state after one more reading. */
  function AgainState(st: State): State {
    State(EachAgain(AgainPreset, st.custom), ChangesAgain(AgainPreset, st.overrides), st.deleted)
  }

  lemma AgainKeys(st: State)
    ensures AgainState(st).overrides.Keys == st.overrides.Keys && AgainState(st).deleted == st.deleted
  {
  }

  /** The next reading leaves every preset of the state alone. */
  ghost predicate SettledState(st: State) {
    && (forall i :: 0 <= i < |st.custom| ==> SettledPreset(st.custom[i]))
    && (forall id :: id in st.overrides ==> SettledPreset(st.overrides[id]))
  }

  /** What the reader picks out of a written state. */
  lemma StoredParts(env: Env, customs: seq<Json>, changes: seq<(string, Json)>, deleted: Json)
    ensures var p := Stored(Number(VERSION), List(customs), Null, Keyed(changes), deleted);
            !Migrates(env, p) && CustomItems(p) == customs && OverrideEntries(env, p) == changes && DeletedValue(p) == deleted
  {
  }

  lemma Assembled(env: Env, b: Builtins, p: Payload, s: Supply, items: seq<Json>, entries: seq<(string, Json)>, deleted: Json,
                  st: State)
    requires !Migrates(env, p) && CustomItems(p) == items && OverrideEntries(env, p) == entries && DeletedValue(p) == deleted
    requires Customs(Reader(env, s), items, 0, false, []) == st.custom
    requires DeletedIds(env, b, deleted) == st.deleted
    requires Changes(OverrideReader(env, b, s.now), entries, st.deleted, false, map[]) == st.overrides
    ensures NormalizeState(env, b, p, s) == st
  {
  }

  /** A normal state that was written is read back with its payment selections read once more, whatever
      the order in which its parts were written and whatever the time and made-up ids of the request. */
  lemma StateReadsBack(env: Env, b: Builtins, st: State, keys: seq<string>, gone: seq<string>, s: Supply)
    requires Steady(env) && BuiltinsFine(env, b) && NormalState(env, b, st)
    requires Lists(keys, st.overrides.Keys) && Lists(gone, st.deleted)
    ensures NormalizeState(env, b, Encode(st, keys, gone), s) == AgainState(st)
  {
    var items, entries := EncodeAll(EncodePreset, st.custom), EncodeChanges(EncodePreset, st.overrides, keys);
    CustomStateReadsBack(env, st.custom, s);
    OverridesReadBack(env, b, st.overrides, st.deleted, s.now);
    ChangesReadAll(OverrideReader(env, b, s.now), EncodePreset, AgainPreset, st.overrides, keys, st.deleted);
    DeletedReadBack(env, b, gone);
    assert (set id | id in gone) == st.deleted;
    StoredParts(env, items, entries, List(Texts(gone)));
    Assembled(env, b, Encode(st, keys, gone), s, items, entries, List(Texts(gone)), AgainState(st));
  }

  lemma CustomSettles(env: Env, p: Preset)
    requires NormalCustom(env, p)
    ensures NormalCustom(env, AgainPreset(p)) && SettledPreset(AgainPreset(p)) && AgainPreset(p).id == p.id
    ensures AgainPreset(p) == p <==> SettledPreset(p)
  {
    PresetSettles(env, p);
  }

  lemma CustomsStayNormal(env: Env, ps: seq<Preset>)
    requires NormalCustoms(env, ps)
    ensures |EachAgain(AgainPreset, ps)| == |ps| && NormalCustoms(env, EachAgain(AgainPreset, ps))
  {
    var qs := EachAgain(AgainPreset, ps);
    EachAgainSpec(AgainPreset, ps);
    forall i | 0 <= i < |ps| ensures NormalCustom(env, qs[i]) && qs[i].id == ps[i].id {
      assert ps[i] in ps;
      CustomSettles(env, ps[i]);
    }
  }

  lemma CustomsSettle(env: Env, ps: seq<Preset>)
    requires forall p :: p in ps ==> NormalCustom(env, p)
    ensures |EachAgain(AgainPreset, ps)| == |ps|
    ensures forall i :: 0 <= i < |ps| ==> SettledPreset(EachAgain(AgainPreset, ps)[i])
    ensures EachAgain(AgainPreset, ps) == ps <==> forall i :: 0 <= i < |ps| ==> SettledPreset(ps[i])
  {
    var qs := EachAgain(AgainPreset, ps);
    EachAgainSpec(AgainPreset, ps);
    forall i | 0 <= i < |ps| ensures SettledPreset(qs[i]) && (qs[i] == ps[i] <==> SettledPreset(ps[i])) {
      assert ps[i] in ps;
      CustomSettles(env, ps[i]);
    }
  }

  lemma ChangeSettles(env: Env, b: Builtins, id: string, p: Preset)
    requires NormalOverride(env, b, id, p)
    ensures NormalOverride(env, b, id, AgainPreset(p)) && SettledPreset(AgainPreset(p))
    ensures AgainPreset(p) == p <==> SettledPreset(p)
  {
    PresetSettles(env, p);
  }

  lemma ChangesAgainSettled(env: Env, b: Builtins, changes: map<string, Preset>, deleted: set<string>)
    requires NormalChanges(env, b, changes, deleted)
    ensures NormalChanges(env, b, ChangesAgain(AgainPreset, changes), deleted)
    ensures forall id :: id in changes ==> SettledPreset(ChangesAgain(AgainPreset, changes)[id])
  {
    var now := ChangesAgain(AgainPreset, changes);
    forall id | id in changes ensures NormalOverride(env, b, id, now[id]) && SettledPreset(now[id]) {
      ChangeSettles(env, b, id, changes[id]);
    }
  }

  lemma SameIffEachIs(again: Rereader, settled: Preset -> bool, changes: map<string, Preset>)
    requires forall id :: id in changes ==> (again(changes[id]) == changes[id] <==> settled(changes[id]))
    ensures ChangesAgain(again, changes) == changes <==> forall id :: id in changes ==> settled(changes[id])
  {
    var now := ChangesAgain(again, changes);
    assert now == changes <==> forall id :: id in changes ==> now[id] == changes[id];
  }

  lemma ChangesSettle(env: Env, b: Builtins, changes: map<string, Preset>, deleted: set<string>)
    requires NormalChanges(env, b, changes, deleted)
    ensures NormalChanges(env, b, ChangesAgain(AgainPreset, changes), deleted)
    ensures forall id :: id in changes ==> SettledPreset(ChangesAgain(AgainPreset, changes)[id])
    ensures ChangesAgain(AgainPreset, changes) == changes <==> forall id :: id in changes ==> SettledPreset(changes[id])
  {
    ChangesAgainSettled(env, b, changes, deleted);
    forall id | id in changes ensures AgainPreset(changes[id]) == changes[id] <==> SettledPreset(changes[id]) {
      ChangeSettles(env, b, id, changes[id]);
    }
    SameIffEachIs(AgainPreset, SettledPreset, changes);
  }

  /** One more reading settles a state; it changes nothing exactly when the state was settled before. */
  lemma StateSettles(env: Env, b: Builtins, st: State)
    requires NormalState(env, b, st)
    ensures NormalState(env, b, AgainState(st)) && SettledState(AgainState(st))
    ensures AgainState(st) == st <==> SettledState(st)
  {
    CustomsStayNormal(env, st.custom);
    CustomsSettle(env, st.custom);
    ChangesSettle(env, b, st.overrides, st.deleted);
  }

  // ---------------------------------------------------------------- the two laws

  /** Normalising what was written gives the same state again exactly when that state is settled, and a
      third reading never changes what the second gave. */
  lemma NormalizeTwiceIff(env: Env, b: Builtins, p: Payload, s: Supply, later: Supply, keys: seq<string>, gone: seq<string>)
    requires Steady(env) && BuiltinsFine(env, b) && SupplyFine(s)
    requires var st := NormalizeState(env, b, p, s); Lists(keys, st.overrides.Keys) && Lists(gone, st.deleted)
    ensures var once := NormalizeState(env, b, p, s);
            var twice := NormalizeState(env, b, Encode(once, keys, gone), later);
            && (twice == once <==> SettledState(once))
            && Lists(keys, twice.overrides.Keys) && Lists(gone, twice.deleted)
            && NormalizeState(env, b, Encode(twice, keys, gone), later) == twice
  {
    var once := NormalizeState(env, b, p, s);
    StateIsNormal(env, b, p, s);
    TwiceFromNormal(env, b, once, later, keys, gone);
  }

  lemma TwiceFromNormal(env: Env, b: Builtins, once: State, later: Supply, keys: seq<string>, gone: seq<string>)
    requires Steady(env) && BuiltinsFine(env, b) && NormalState(env, b, once)
    requires Lists(keys, once.overrides.Keys) && Lists(gone, once.deleted)
    ensures var twice := NormalizeState(env, b, Encode(once, keys, gone), later);
            && (twice == once <==> SettledState(once))
            && Lists(keys, twice.overrides.Keys) && Lists(gone, twice.deleted)
            && NormalizeState(env, b, Encode(twice, keys, gone), later) == twice
  {
    StateReadsBack(env, b, once, keys, gone, later);
    StateSettles(env, b, once);
    AgainKeys(once);
    StateReadsBack(env, b, AgainState(once), keys, gone, later);
    StateSettles(env, b, AgainState(once));
  }

  // ---------------------------------------------------------------- which stored values are settled

  /** The stored items that become the custom presets. */
  function KeptItems(read: CustomReader, items: seq<Json>, k: nat, migrate: bool, found: seq<Preset>, raw: seq<Json>): seq<Json>
    decreases |items|
  {
    if items == [] || |found| >= MAX_CUSTOM then raw
    else
      var next := Added(found, read(k, items[0]), migrate);
      KeptItems(read, items[1..], k + 1, migrate, next, if |next| > |found| then raw + [items[0]] else raw)
  }

  /** The stored changes that become the overrides. */
  function KeptEntries(read: ChangeReader, entries: seq<(string, Json)>, deleted: set<string>, found: map<string, Json>): map<string, Json>
    decreases |entries|
  {
    if entries == [] then found
    else
      var id := Clip(entries[0].0, MAX_WORD);
      KeptEntries(read, entries[1..], deleted,
                  if id !in deleted && read(id, entries[0].1).Some? then found[id := entries[0].1] else found)
  }

  ghost predicate ReadAs(read: CustomReader, v: Json, p: Preset, migrate: bool) {
    exists k: nat :: read(k, v).Some? && p == Described(read(k, v).value, migrate)
  }

  ghost predicate AllReadAs(read: CustomReader, raw: seq<Json>, ps: seq<Preset>, migrate: bool) {
    |raw| == |ps| && forall i :: 0 <= i < |ps| ==> ReadAs(read, raw[i], ps[i], migrate)
  }

  lemma AddedReadAs(read: CustomReader, raw: seq<Json>, found: seq<Preset>, v: Json, k: nat, migrate: bool)
    requires AllReadAs(read, raw, found, migrate)
    ensures var next := Added(found, read(k, v), migrate);
            AllReadAs(read, if |next| > |found| then raw + [v] else raw, next, migrate)
  {
    var next := Added(found, read(k, v), migrate);
    if |next| > |found| {
      assert ReadAs(read, v, next[|found|], migrate);
    }
  }

  lemma {:induction false} CustomsAreKept(read: CustomReader, items: seq<Json>, k: nat, migrate: bool, found: seq<Preset>, raw: seq<Json>)
    requires AllReadAs(read, raw, found, migrate)
    ensures AllReadAs(read, KeptItems(read, items, k, migrate, found, raw), Customs(read, items, k, migrate, found), migrate)
    decreases |items|
  {
    if items != [] && |found| < MAX_CUSTOM {
      var next := Added(found, read(k, items[0]), migrate);
      AddedReadAs(read, raw, found, items[0], k, migrate);
      CustomsAreKept(read, items[1..], k + 1, migrate, next, if |next| > |found| then raw + [items[0]] else raw);
    }
  }

  lemma {:induction false} ChangesAreKept(read: ChangeReader, entries: seq<(string, Json)>, deleted: set<string>, migrate: bool,
                                          found: map<string, Preset>, raw: map<string, Json>)
    requires found.Keys == raw.Keys
    requires forall id :: id in raw ==> read(id, raw[id]).Some? && found[id] == Described(read(id, raw[id]).value, migrate)
    ensures var kept, r := KeptEntries(read, entries, deleted, raw), Changes(read, entries, deleted, migrate, found);
            && r.Keys == kept.Keys
            && forall id :: id in kept ==> read(id, kept[id]).Some? && r[id] == Described(read(id, kept[id]).value, migrate)
    decreases |entries|
  {
    if entries != [] {
      var id := Clip(entries[0].0, MAX_WORD);
      var item := read(id, entries[0].1);
      if id !in deleted && item.Some? {
        ChangesAreKept(read, entries[1..], deleted, migrate, Changed(found, id, item, migrate), raw[id := entries[0].1]);
      } else {
        ChangesAreKept(read, entries[1..], deleted, migrate, found, raw);
      }
    }
  }

  ghost predicate CleanCustom(env: Env, v: Json) {
    FixedMode(env, Get(FieldsOf(v), Mode)) || CleanFilters(env, Get(FieldsOf(v), Filters))
  }

  ghost predicate CleanOverride(env: Env, d: Preset, v: Json) {
    OverrideFixed(env, PartsOf(FieldsOf(v)), d) || CleanFilters(env, OverrideFilters(v, d))
  }

  function KeptCustoms(env: Env, p: Payload, s: Supply): seq<Json> {
    KeptItems(Reader(env, s), CustomItems(p), 0, Migrates(env, p), [], [])
  }

  function KeptOverrides(env: Env, b: Builtins, p: Payload, s: Supply): map<string, Json> {
    KeptEntries(OverrideReader(env, b, s.now), OverrideEntries(env, p), DeletedIds(env, b, DeletedValue(p)), map[])
  }

  /** In every stored preset and change that is kept, no cut of a method name falls behind an underscore. */
  ghost predicate CleanPayload(env: Env, b: Builtins, p: Payload, s: Supply) {
    && (forall i :: 0 <= i < |KeptCustoms(env, p, s)| ==> CleanCustom(env, KeptCustoms(env, p, s)[i]))
    && (forall id :: id in KeptOverrides(env, b, p, s) && id in b ==> CleanOverride(env, b[id], KeptOverrides(env, b, p, s)[id]))
  }

  lemma KeptCustomSettled(env: Env, s: Supply, v: Json, p: Preset, migrate: bool)
    requires ReadAs(Reader(env, s), v, p, migrate)
    ensures SettledPreset(p) <==> CleanCustom(env, v)
  {
    var k: nat :| Reader(env, s)(k, v).Some? && p == Described(Reader(env, s)(k, v).value, migrate);
    CustomSettledIff(env, v, s.id(k), s.now);
  }

  lemma KeptCustomsSettled(env: Env, b: Builtins, p: Payload, s: Supply)
    ensures var st := NormalizeState(env, b, p, s);
            (forall i :: 0 <= i < |st.custom| ==> SettledPreset(st.custom[i]))
            <==> forall i :: 0 <= i < |KeptCustoms(env, p, s)| ==> CleanCustom(env, KeptCustoms(env, p, s)[i])
  {
    var custom, kept := NormalizeState(env, b, p, s).custom, KeptCustoms(env, p, s);
    CustomsAreKept(Reader(env, s), CustomItems(p), 0, Migrates(env, p), [], []);
    forall i | 0 <= i < |kept| ensures SettledPreset(custom[i]) <==> CleanCustom(env, kept[i]) {
      KeptCustomSettled(env, s, kept[i], custom[i], Migrates(env, p));
    }
  }

  lemma KeptOverridesSettled(env: Env, b: Builtins, p: Payload, s: Supply)
    ensures var st := NormalizeState(env, b, p, s);
            (forall id :: id in st.overrides ==> SettledPreset(st.overrides[id]))
            <==> forall id :: id in KeptOverrides(env, b, p, s) && id in b ==> CleanOverride(env, b[id], KeptOverrides(env, b, p, s)[id])
  {
    var read, kept := OverrideReader(env, b, s.now), KeptOverrides(env, b, p, s);
    var overrides := NormalizeState(env, b, p, s).overrides;
    ChangesAreKept(read, OverrideEntries(env, p), DeletedIds(env, b, DeletedValue(p)), Migrates(env, p), map[], map[]);
    forall id | id in kept ensures id in b && (SettledPreset(overrides[id]) <==> CleanOverride(env, b[id], kept[id])) {
      assert read(id, kept[id]) == NormalizeOverride(env, b, id, kept[id], s.now);
      OverrideSettledIff(env, b, id, kept[id], s.now);
    }
  }

  /** What is read is settled exactly when every cut of a method name is clean in what is kept of it. */
  lemma SettledStateIff(env: Env, b: Builtins, p: Payload, s: Supply)
    ensures SettledState(NormalizeState(env, b, p, s)) <==> CleanPayload(env, b, p, s)
  {
    KeptCustomsSettled(env, b, p, s);
    KeptOverridesSettled(env, b, p, s);
  }

  /** Normalising is idempotent on a stored value exactly when no cut of a method name in what is kept
      of it falls behind an underscore. */
  lemma NormalizeIdempotentIff(env: Env, b: Builtins, p: Payload, s: Supply, later: Supply, keys: seq<string>, gone: seq<string>)
    requires Steady(env) && BuiltinsFine(env, b) && SupplyFine(s)
    requires var st := NormalizeState(env, b, p, s); Lists(keys, st.overrides.Keys) && Lists(gone, st.deleted)
    ensures var st := NormalizeState(env, b, p, s);
            NormalizeState(env, b, Encode(st, keys, gone), later) == st <==> CleanPayload(env, b, p, s)
  {
    NormalizeTwiceIff(env, b, p, s, later, keys, gone);
    SettledStateIff(env, b, p, s);
  }

  /** Saving normalises the state, then every part of it once more. */
  function Saved(env: Env, b: Builtins, p: Payload, s: Supply, again: Supply): State {
    var st := NormalizeState(env, b, p, s);
    State(Customs(Reader(env, again), EncodeAll(EncodePreset, st.custom), 0, false, []),
          Renormalized(OverrideReader(env, b, again.now), EncodePreset, st.overrides, st.deleted), st.deleted * b.Keys)
  }

  function Renormalized(read: ChangeReader, write: Writer, changes: map<string, Preset>, deleted: set<string>): map<string, Preset> {
    map id | id in changes && id !in deleted && read(id, write(changes[id])).Some? :: read(id, write(changes[id])).value
  }

  lemma RenormalizedAgain(read: ChangeReader, write: Writer, again: Rereader, changes: map<string, Preset>, deleted: set<string>)
    requires ReadsChangesBack(read, write, again, changes) && forall id :: id in changes ==> id !in deleted
    ensures Renormalized(read, write, changes, deleted) == ChangesAgain(again, changes)
  {
  }

  lemma SecondPass(env: Env, b: Builtins, st: State, again: Supply)
    requires Steady(env) && NormalState(env, b, st)
    ensures Customs(Reader(env, again), EncodeAll(EncodePreset, st.custom), 0, false, []) == EachAgain(AgainPreset, st.custom)
    ensures Renormalized(OverrideReader(env, b, again.now), EncodePreset, st.overrides, st.deleted)
         == ChangesAgain(AgainPreset, st.overrides)
    ensures st.deleted * b.Keys == st.deleted
  {
    CustomStateReadsBack(env, st.custom, again);
    OverridesReadBack(env, b, st.overrides, st.deleted, again.now);
    RenormalizedAgain(OverrideReader(env, b, again.now), EncodePreset, AgainPreset, st.overrides, st.deleted);
  }

  /** The second pass of a save is one more reading: its result is settled, and it changes the state
      exactly when what was stored has a cut behind an underscore. */
  lemma SaveSettles(env: Env, b: Builtins, p: Payload, s: Supply, again: Supply)
    requires Steady(env) && BuiltinsFine(env, b) && SupplyFine(s)
    ensures var once := NormalizeState(env, b, p, s);
            var saved := Saved(env, b, p, s, again);
            && saved == AgainState(once) && NormalState(env, b, saved) && SettledState(saved)
            && (saved == once <==> CleanPayload(env, b, p, s))
  {
    var once := NormalizeState(env, b, p, s);
    StateIsNormal(env, b, p, s);
    SettledStateIff(env, b, p, s);
    SecondPass(env, b, once, again);
    StateSettles(env, b, once);
  }

  /** Loading what a save wrote gives exactly the state the save returned. */
  lemma LoadAfterSave(env: Env, b: Builtins, p: Payload, s: Supply, again: Supply, later: Supply, keys: seq<string>, gone: seq<string>)
    requires Steady(env) && BuiltinsFine(env, b) && SupplyFine(s)
    requires var st := Saved(env, b, p, s, again); Lists(keys, st.overrides.Keys) && Lists(gone, st.deleted)
    ensures var st := Saved(env, b, p, s, again); NormalizeState(env, b, Encode(st, keys, gone), later) == st
  {
    var st := Saved(env, b, p, s, again);
    SaveSettles(env, b, p, s, again);
    StateReadsBack(env, b, st, keys, gone, later);
    StateSettles(env, b, st);
  }

  // ---------------------------------------------------------------- a stored value that is not read back

  /** A dynamic preset whose filters choose one method. */
  function ChoiceFields(name: string, country: string, method_: string): Fields {
    map[Name := Text(name), Mode := Text(ModeText(false)),
        Filters := Object(map[PaymentMethodSelection := OneMethod(country, method_)])]
  }

  lemma OnlyItemKept(read: CustomReader, v: Json, migrate: bool)
    requires read(0, v).Some?
    ensures KeptItems(read, [v], 0, migrate, [], []) == [v]
  {
    assert [v][1..] == [] && |Added([], read(0, v), migrate)| == 1;
  }

  lemma DynamicIsRead(env: Env, f: Fields, freshId: string, now: string)
    requires Trim(env, Get(f, Name), MAX_NAME) != "" && !FixedMode(env, Get(f, Mode))
    ensures NormalizeCustom(env, Object(f), freshId, now).Some?
  {
  }

  lemma OneIsKept(env: Env, s: Supply, f: Fields)
    requires Trim(env, Get(f, Name), MAX_NAME) != "" && !FixedMode(env, Get(f, Mode))
    ensures KeptCustoms(env, Bare([Object(f)]), s) == [Object(f)]
  {
    DynamicIsRead(env, f, s.id(0), s.now);
    OnlyItemKept(Reader(env, s), Object(f), Migrates(env, Bare([Object(f)])));
  }

  lemma ChoiceNotClean(env: Env, f: Fields, name: string, country: string, text: string)
    requires IsCountry(country) && f == ChoiceFields(name, country, text) && CutAtUnderscore(text)
    requires !FixedMode(env, Get(f, Mode))
    ensures !CleanCustom(env, Object(f))
  {
    var filters := Get(f, Filters);
    assert PaymentSource(filters) == OneMethod(country, text);
    OneMethodText(env, country, text);
    assert text in [text];
  }

  lemma OneNotClean(env: Env, b: Builtins, s: Supply, f: Fields)
    requires Trim(env, Get(f, Name), MAX_NAME) != "" && !FixedMode(env, Get(f, Mode))
    requires !CleanCustom(env, Object(f))
    ensures !CleanPayload(env, b, Bare([Object(f)]), s)
  {
    OneIsKept(env, s, f);
    assert KeptCustoms(env, Bare([Object(f)]), s)[0] == Object(f);
  }

  lemma ChoiceSays(env: Env, name: string, country: string, text: string)
    requires Steady(env) && NormalText(name, MAX_NAME)
    ensures var f := ChoiceFields(name, country, text);
            Trim(env, Get(f, Name), MAX_NAME) == name && !FixedMode(env, Get(f, Mode))
  {
    TrimText(env, name, MAX_NAME);
    ModeReadsBack(env, false);
  }

  lemma CutMethodNotClean(env: Env, b: Builtins, s: Supply, name: string, country: string, text: string)
    requires Steady(env) && NormalText(name, MAX_NAME) && IsCountry(country) && CutAtUnderscore(text)
    ensures !CleanPayload(env, b, Bare([Object(ChoiceFields(name, country, text))]), s)
  {
    var f := ChoiceFields(name, country, text);
    ChoiceSays(env, name, country, text);
    ChoiceNotClean(env, f, name, country, text);
    OneNotClean(env, b, s, f);
  }

  lemma CutMethodIsChangedBySave(env: Env, b: Builtins, s: Supply, again: Supply, name: string, country: string, text: string)
    requires Steady(env) && BuiltinsFine(env, b) && SupplyFine(s) && NormalText(name, MAX_NAME) && IsCountry(country)
    requires CutAtUnderscore(text)
    ensures var p := Bare([Object(ChoiceFields(name, country, text))]);
            Saved(env, b, p, s, again) != NormalizeState(env, b, p, s)
  {
    CutMethodNotClean(env, b, s, name, country, text);
    SaveSettles(env, b, Bare([Object(ChoiceFields(name, country, text))]), s, again);
  }

  /** The first reading of this stored value is not what the second gives: saving it stores something
      other than what was read. */
  lemma LongMethodIsChangedBySave(env: Env, b: Builtins, s: Supply, again: Supply, name: string, country: string)
    requires Steady(env) && BuiltinsFine(env, b) && SupplyFine(s) && NormalText(name, MAX_NAME) && IsCountry(country)
    ensures var p := Bare([Object(ChoiceFields(name, country, LongMethod()))]);
            Saved(env, b, p, s, again) != NormalizeState(env, b, p, s)
  {
    LongMethodCut();
    CutMethodIsChangedBySave(env, b, s, again, name, country, LongMethod());
  }

  // ---------------------------------------------------------------- the loops

  method ReadValueList(env: Env, v: Json) returns (found: seq<string>)
    ensures found == ValueList(env, v)
  {
    var items := RawItems(env, v);
    found := [];
    var i := 0;
    while i < |items| && |found| < MAX_VALUES
      invariant 0 <= i <= |items|
      invariant Collect(env, items[i..], found) == ValueList(env, v)
    {
      assert items[i..][0] == items[i] && items[i..][1..] == items[i + 1..];
      var t := Trim(env, items[i], MAX_WORD);
      if t != "" && t !in found {
        found := found + [t];
      }
      i := i + 1;
    }
  }

  method ReadAccountIds(env: Env, v: Json) returns (found: seq<int>)
    ensures found == AccountIdsOf(env, v)
  {
    var items := RawItems(env, v);
    found := [];
    var i := 0;
    while i < |items| && |found| < MAX_IDS
      invariant 0 <= i <= |items|
      invariant CollectIds(env, items[i..], found) == AccountIdsOf(env, v)
    {
      assert items[i..][0] == items[i] && items[i..][1..] == items[i + 1..];
      if !items[i].Flag? {
        var n := SafeInt(env, items[i]);
        if n > 0 && n !in found {
          found := found + [n];
        }
      }
      i := i + 1;
    }
  }

  method ReadCustoms(read: CustomReader, items: seq<Json>, migrate: bool) returns (found: seq<Preset>)
    ensures found == Customs(read, items, 0, migrate, [])
  {
    found := [];
    var i := 0;
    while i < |items| && |found| < MAX_CUSTOM
      invariant 0 <= i <= |items|
      invariant Customs(read, items[i..], i, migrate, found) == Customs(read, items, 0, migrate, [])
    {
      assert items[i..][0] == items[i] && items[i..][1..] == items[i + 1..];
      var item := read(i, items[i]);
      if item.Some? && !HasId(found, item.value.id) {
        found := found + [Described(item.value, migrate)];
      }
      i := i + 1;
    }
  }

  method ReadChanges(read: ChangeReader, entries: seq<(string, Json)>, deleted: set<string>, migrate: bool)
    returns (found: map<string, Preset>)
    ensures found == Changes(read, entries, deleted, migrate, map[])
  {
    found := map[];
    var i := 0;
    while i < |entries|
      invariant 0 <= i <= |entries|
      invariant Changes(read, entries[i..], deleted, migrate, found) == Changes(read, entries, deleted, migrate, map[])
    {
      assert entries[i..][0] == entries[i] && entries[i..][1..] == entries[i + 1..];
      var id := Clip(entries[i].0, MAX_WORD);
      if id !in deleted {
        var item := read(id, entries[i].1);
        if item.Some? {
          found := found[id := Described(item.value, migrate)];
        }
      }
      i := i + 1;
    }
  }

  method KeysInSomeOrder(ids: set<string>) returns (keys: seq<string>)
    ensures Lists(keys, ids)
  {
    keys := [];
    var todo := ids;
    while todo != {}
      invariant todo <= ids && Lists(keys, ids - todo)
      decreases |todo|
    {
      var id :| id in todo;
      keys, todo := keys + [id], todo - {id};
    }
    assert ids - todo == ids;
  }

  /** The stored setting. */
  class PresetConfig {
    var stored: Payload

    constructor ()
      ensures stored == Nothing
    {
      stored := Nothing;
    }

    method Load(env: Env, b: Builtins, s: Supply) returns (st: State)
      ensures st == NormalizeState(env, b, stored, s)
    {
      var migrate := Migrates(env, stored);
      var deleted := DeletedIds(env, b, DeletedValue(stored));
      var custom := ReadCustoms(Reader(env, s), CustomItems(stored), migrate);
      var changes := ReadChanges(OverrideReader(env, b, s.now), OverrideEntries(env, stored), deleted, migrate);
      st := State(custom, changes, deleted);
    }

    /** Save a state given in any shape; any later load returns what this call returned, and so would
        saving that again. */
    method Save(env: Env, b: Builtins, p: Payload, s: Supply, again: Supply) returns (st: State)
      requires Steady(env) && BuiltinsFine(env, b) && SupplyFine(s)
      modifies this
      ensures st == AgainState(NormalizeState(env, b, p, s)) && AgainState(st) == st
      ensures forall later: Supply :: NormalizeState(env, b, stored, later) == st
    {
      st := Saved(env, b, p, s, again);
      SaveSettles(env, b, p, s, again);
      StateSettles(env, b, st);
      var keys := KeysInSomeOrder(st.overrides.Keys);
      var gone := KeysInSomeOrder(st.deleted);
      stored := Encode(st, keys, gone);
      forall later: Supply ensures NormalizeState(env, b, stored, later) == st {
        LoadAfterSave(env, b, p, s, again, later, keys, gone);
      }
    }
  }
}
