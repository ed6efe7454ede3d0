/** The saved preset state: one normaliser reads every version and shape of it, and what is saved is
    read back unchanged. */
module PresetNormalizer {
  import opened Common
  import opened FilterSettings
  import opened FilterValues
  import opened PaymentSelection
  import opened PresetAccounts
  import opened Text

  const MAX_CUSTOM := 80
  const MAX_NAME := 80
  const MAX_DESCRIPTION := 240
  const MAX_TIME := 40
  const VERSION := 4
  const REGISTRATION_DESC_VERSION := 3

  datatype Preset = Preset(
    id: string, name: string, description: string, fixed: bool, filters: FilterSet, accounts: seq<int>, refs: seq<Ref>,
    pinned: bool, builtIn: bool, createdAt: string, updatedAt: string)

  type Builtins = map<string, Preset>

  /** What a request adds: the time, and ids made up for items that have none. */
  datatype Supply = Supply(now: string, id: nat -> string)

  // ---------------------------------------------------------------- one preset

  predicate FixedMode(env: Env, v: Json) {
    Hyphens(Lower(Trim(env, v, 24))) in env.words.fixed
  }

  function ModeText(fixed: bool): string {
    if fixed then "fixed" else "dynamic"
  }

  /** The two mode names are read as what they say. */
  ghost predicate ModesSteady(w: Words) {
    forall b :: ModeText(b) in w.fixed <==> b
  }

  datatype Content = Content(accounts: seq<int>, refs: seq<Ref>, filters: FilterSet)

  /** A fixed preset holds accounts and no filters, and is dropped without any; a dynamic one holds filters. */
  function ContentOf(env: Env, fixed: bool, ids: Json, refs: Json, filters: Json): Option<Content> {
    if fixed then
      var accounts := AccountIdsOf(env, ids);
      if accounts == [] then None else Some(Content(accounts, RefsOf(env, refs, accounts), NO_FILTERS))
    else Some(Content([], [], NormalizeFilters(env, filters)))
  }

  /** The content after one more reading. */
  function AgainContent(fixed: bool, c: Content): Content {
    if fixed then c else c.(filters := AgainFilters(c.filters))
  }

  predicate Reserved(id: string) {
    |id| >= 8 && id[..8] == "builtin_"
  }

  function OrElse(text: string, other: string): string {
    if text == "" then other else text
  }

  /** The stored parts of a preset; description and pinned mark may be absent, which is not the same as empty. */
  datatype Parts = Parts(
    id: Json, name: Json, description: Option<Json>, mode: Json, filters: Json, ids: Json, refs: Json,
    pinned: Option<Json>, createdAt: Json, updatedAt: Json)

  function Find(f: Fields, k: Field): Option<Json> {
    if k in f then Some(f[k]) else None
  }

  function PartsOf(f: Fields): Parts {
    Parts(Get(f, Id), Get(f, Name), Find(f, Description), Get(f, Mode), Get(f, Filters), Get(f, AccountIds),
          Get(f, AccountRefs), Find(f, Pinned), Get(f, CreatedAt), Get(f, UpdatedAt))
  }

  function OrNull(v: Option<Json>): Json {
    match v case Some(x) => x case None => Null
  }

  function CustomContent(env: Env, f: Parts): Option<Content> {
    ContentOf(env, FixedMode(env, f.mode), f.ids, f.refs, f.filters)
  }

  function CustomFrom(env: Env, f: Parts, freshId: string, now: string): Option<Preset> {
    var name := Trim(env, f.name, MAX_NAME);
    if name == "" then None
    else
      var id := Trim(env, f.id, MAX_WORD);
      match CustomContent(env, f)
      case None => None
      case Some(c) =>
        var createdAt := OrElse(Trim(env, f.createdAt, MAX_TIME), now);
        Some(Preset(if id == "" || Reserved(id) then freshId else id, name, Trim(env, OrNull(f.description), MAX_DESCRIPTION),
                    FixedMode(env, f.mode), c.filters, c.accounts, c.refs, Truthy(OrNull(f.pinned)), false,
                    createdAt, OrElse(Trim(env, f.updatedAt, MAX_TIME), createdAt)))
  }

  /** A custom preset as stored, if it is one. */
  function NormalizeCustom(env: Env, v: Json, freshId: string, now: string): Option<Preset> {
    match v
    case Object(f) => CustomFrom(env, PartsOf(f), freshId, now)
    case _ => None
  }

  function OverrideName(env: Env, f: Parts, d: Preset): string {
    Trim(env, Or(f.name, Text(d.name)), MAX_NAME)
  }

  function OverrideFixed(env: Env, f: Parts, d: Preset): bool {
    FixedMode(env, Or(f.mode, Text(ModeText(d.fixed))))
  }

  function OverrideContent(env: Env, f: Parts, d: Preset): Option<Content> {
    ContentOf(env, OverrideFixed(env, f, d), f.ids, f.refs, if f.filters.Object? then f.filters else EncodeFilters(d.filters))
  }

  function OverrideDescription(env: Env, f: Parts, d: Preset): string {
    Trim(env, match f.description case Some(x) => x case None => Text(d.description), MAX_DESCRIPTION)
  }

  function OverrideCreated(env: Env, f: Parts, d: Preset, now: string): string {
    OrElse(Trim(env, f.createdAt, MAX_TIME), OrElse(Clip(d.createdAt, MAX_TIME), now))
  }

  /** A change to a built-in preset: what it does not say is taken from the default. */
  function OverrideFrom(env: Env, id: string, d: Preset, f: Parts, now: string): Option<Preset> {
    if OverrideName(env, f, d) == "" then None
    else match OverrideContent(env, f, d)
      case None => None
      case Some(c) =>
        Some(Preset(id, OverrideName(env, f, d), OverrideDescription(env, f, d), OverrideFixed(env, f, d),
                    c.filters, c.accounts, c.refs, match f.pinned case Some(x) => Truthy(x) case None => d.pinned, true,
                    OverrideCreated(env, f, d, now), OrElse(Trim(env, f.updatedAt, MAX_TIME), now)))
  }

  function NormalizeOverride(env: Env, b: Builtins, id: string, v: Json, now: string): Option<Preset> {
    if id !in b || !v.Object? then None else OverrideFrom(env, id, b[id], PartsOf(v.fields), now)
  }

  function WrittenPreset(parts: Parts): Fields
    requires parts.description.Some? && parts.pinned.Some?
  {
    map[Id := parts.id, Name := parts.name, Description := parts.description.value, Mode := parts.mode,
        Filters := parts.filters, AccountIds := parts.ids, AccountRefs := parts.refs,
        Pinned := parts.pinned.value, CreatedAt := parts.createdAt, UpdatedAt := parts.updatedAt]
  }

  function EncodedParts(p: Preset): Parts {
    Parts(Text(p.id), Text(p.name), Some(Text(p.description)), Text(ModeText(p.fixed)), EncodeFilters(p.filters),
          List(Numbers(p.accounts)), List(EncodeRefs(p.refs)), Some(Flag(p.pinned)), Text(p.createdAt), Text(p.updatedAt))
  }

  function EncodePreset(p: Preset): Json {
    Object(WrittenPreset(EncodedParts(p)))
  }

  // ---------------------------------------------------------------- normal presets

  ghost predicate NormalContent(env: Env, fixed: bool, c: Content) {
    if fixed then c.accounts != [] && NormalIds(c.accounts) && NormalRefs(c.refs, c.accounts) && c.filters == NO_FILTERS
    else c.accounts == [] && c.refs == [] && NormalFilters(env, c.filters)
  }

  predicate NormalText(s: string, most: nat) {
    s != "" && Clipped(s, most)
  }

  function ContentIn(p: Preset): Content {
    Content(p.accounts, p.refs, p.filters)
  }

  ghost predicate NormalPreset(env: Env, p: Preset) {
    && NormalText(p.id, MAX_WORD) && NormalText(p.name, MAX_NAME) && Clipped(p.description, MAX_DESCRIPTION)
    && NormalText(p.createdAt, MAX_TIME) && NormalText(p.updatedAt, MAX_TIME)
    && NormalContent(env, p.fixed, ContentIn(p))
  }

  ghost predicate NormalCustom(env: Env, p: Preset) {
    NormalPreset(env, p) && !Reserved(p.id) && !p.builtIn
  }

  ghost predicate NormalOverride(env: Env, b: Builtins, id: string, p: Preset) {
    NormalPreset(env, p) && p.id == id && id in b && p.builtIn
  }

  /** Alias tables whose values stand for themselves, and mode names that read back. */
  ghost predicate Steady(env: Env) {
    WordsSteady(env.words) && ModesSteady(env.words)
  }

  ghost predicate SupplyFine(s: Supply) {
    NormalText(s.now, MAX_TIME) && forall k :: NormalText(s.id(k), MAX_WORD) && !Reserved(s.id(k))
  }

  ghost predicate BuiltinsFine(env: Env, b: Builtins) {
    |b| <= MAX_VALUES && forall id :: id in b ==> NormalOverride(env, b, id, b[id])
  }

  lemma ContentNormal(env: Env, fixed: bool, ids: Json, refs: Json, filters: Json)
    requires Steady(env)
    ensures var c := ContentOf(env, fixed, ids, refs, filters); c.Some? ==> NormalContent(env, fixed, c.value)
  {
    if fixed {
      IdsSpec(env, ids, []);
      RefsNormal(env, refs, AccountIdsOf(env, ids));
    } else {
      FiltersAreNormal(env, filters);
    }
  }

  lemma ContentReadsBack(env: Env, fixed: bool, c: Content)
    requires NormalContent(env, fixed, c)
    ensures ContentOf(env, fixed, List(Numbers(c.accounts)), List(EncodeRefs(c.refs)), EncodeFilters(c.filters))
         == Some(AgainContent(fixed, c))
  {
    if fixed {
      IdsSpec(env, Null, c.accounts);
      RefsReadBack(env, c.refs, c.accounts);
    } else {
      FiltersReadBack(env, c.filters);
    }
  }

  /** A preset after one more reading. */
  function AgainPreset(p: Preset): Preset {
    if p.fixed then p else p.(filters := AgainFilters(p.filters))
  }

  /** The next reading leaves the preset alone. */
  predicate SettledPreset(p: Preset) {
    p.fixed || SettledSelection(p.filters.payment)
  }

  lemma PresetSettles(env: Env, p: Preset)
    requires NormalPreset(env, p)
    ensures NormalPreset(env, AgainPreset(p)) && SettledPreset(AgainPreset(p))
    ensures AgainPreset(p) == p <==> SettledPreset(p)
  {
    if !p.fixed { FiltersSettle(env, p.filters); }
  }

  lemma TrimNormal(env: Env, v: Json, most: nat, other: string)
    requires NormalText(other, most)
    ensures Clipped(Trim(env, v, most), most) && NormalText(OrElse(Trim(env, v, most), other), most)
  {
    ClipSpec(Str(env, v), most);
  }

  lemma CustomTexts(env: Env, f: Parts, freshId: string, now: string)
    requires NormalText(freshId, MAX_WORD) && NormalText(now, MAX_TIME)
    ensures Clipped(Trim(env, f.name, MAX_NAME), MAX_NAME)
    ensures Clipped(Trim(env, OrNull(f.description), MAX_DESCRIPTION), MAX_DESCRIPTION)
    ensures NormalText(OrElse(Trim(env, f.id, MAX_WORD), freshId), MAX_WORD)
    ensures var createdAt := OrElse(Trim(env, f.createdAt, MAX_TIME), now);
            NormalText(createdAt, MAX_TIME) && NormalText(OrElse(Trim(env, f.updatedAt, MAX_TIME), createdAt), MAX_TIME)
  {
    ClipSpec(Str(env, f.name), MAX_NAME);
    ClipSpec(Str(env, OrNull(f.description)), MAX_DESCRIPTION);
    TrimNormal(env, f.id, MAX_WORD, freshId);
    TrimNormal(env, f.createdAt, MAX_TIME, now);
    TrimNormal(env, f.updatedAt, MAX_TIME, OrElse(Trim(env, f.createdAt, MAX_TIME), now));
  }

  lemma CustomContentNormal(env: Env, f: Parts)
    requires Steady(env)
    ensures CustomContent(env, f).Some? ==> NormalContent(env, FixedMode(env, f.mode), CustomContent(env, f).value)
  {
    ContentNormal(env, FixedMode(env, f.mode), f.ids, f.refs, f.filters);
  }

  lemma CustomFromNormal(env: Env, f: Parts, freshId: string, now: string)
    requires Steady(env) && NormalText(freshId, MAX_WORD) && !Reserved(freshId) && NormalText(now, MAX_TIME)
    ensures var p := CustomFrom(env, f, freshId, now); p.Some? ==> NormalCustom(env, p.value)
  {
    var p := CustomFrom(env, f, freshId, now);
    if p.Some? {
      CustomTexts(env, f, freshId, now);
      CustomContentNormal(env, f);
      assert ContentIn(p.value) == CustomContent(env, f).value;
    }
  }

  /** A custom preset that is kept is normal. */
  lemma CustomNormal(env: Env, v: Json, freshId: string, now: string)
    requires Steady(env) && NormalText(freshId, MAX_WORD) && !Reserved(freshId) && NormalText(now, MAX_TIME)
    ensures var p := NormalizeCustom(env, v, freshId, now); p.Some? ==> NormalCustom(env, p.value)
  {
    if v.Object? { CustomFromNormal(env, PartsOf(v.fields), freshId, now); }
  }

  lemma OverrideTexts(env: Env, f: Parts, d: Preset, now: string)
    requires NormalText(now, MAX_TIME)
    ensures Clipped(OverrideName(env, f, d), MAX_NAME) && Clipped(OverrideDescription(env, f, d), MAX_DESCRIPTION)
    ensures NormalText(OverrideCreated(env, f, d, now), MAX_TIME)
    ensures NormalText(OrElse(Trim(env, f.updatedAt, MAX_TIME), now), MAX_TIME)
  {
    ClipSpec(Str(env, Or(f.name, Text(d.name))), MAX_NAME);
    ClipSpec(Str(env, match f.description case Some(x) => x case None => Text(d.description)), MAX_DESCRIPTION);
    ClipSpec(d.createdAt, MAX_TIME);
    TrimNormal(env, f.createdAt, MAX_TIME, OrElse(Clip(d.createdAt, MAX_TIME), now));
    TrimNormal(env, f.updatedAt, MAX_TIME, now);
  }

  lemma OverrideContentNormal(env: Env, f: Parts, d: Preset)
    requires Steady(env)
    ensures OverrideContent(env, f, d).Some? ==> NormalContent(env, OverrideFixed(env, f, d), OverrideContent(env, f, d).value)
  {
    ContentNormal(env, OverrideFixed(env, f, d), f.ids, f.refs, if f.filters.Object? then f.filters else EncodeFilters(d.filters));
  }

  lemma OverrideFromNormal(env: Env, id: string, d: Preset, f: Parts, now: string)
    requires Steady(env) && NormalText(now, MAX_TIME) && NormalText(id, MAX_WORD)
    ensures var p := OverrideFrom(env, id, d, f, now);
            p.Some? ==> NormalPreset(env, p.value) && p.value.id == id && p.value.builtIn
  {
    var p := OverrideFrom(env, id, d, f, now);
    if p.Some? {
      OverrideTexts(env, f, d, now);
      OverrideContentNormal(env, f, d);
      assert ContentIn(p.value) == OverrideContent(env, f, d).value;
    }
  }

  /** An override that is kept is normal. */
  lemma OverrideNormal(env: Env, b: Builtins, id: string, v: Json, now: string)
    requires Steady(env) && BuiltinsFine(env, b) && NormalText(now, MAX_TIME)
    ensures var p := NormalizeOverride(env, b, id, v, now); p.Some? ==> NormalOverride(env, b, id, p.value)
  {
    if id in b && v.Object? {
      assert NormalOverride(env, b, id, b[id]);
      OverrideFromNormal(env, id, b[id], PartsOf(v.fields), now);
    }
  }

  // ---------------------------------------------------------------- reading a written preset back

  lemma WrittenParts(parts: Parts)
    requires parts.description.Some? && parts.pinned.Some?
    ensures PartsOf(WrittenPreset(parts)) == parts
  {
  }

  lemma PlainMode(env: Env, m: string)
    requires |m| <= 24 && forall i :: 0 <= i < |m| ==> 'a' <= m[i] <= 'z'
    ensures FixedMode(env, Text(m)) <==> m in env.words.fixed
  {
    TrimText(env, m, 24);
    assert Lower(m) == m;
    assert Hyphens(m) == m;
  }

  lemma ModeReadsBack(env: Env, fixed: bool)
    requires ModesSteady(env.words)
    ensures FixedMode(env, Text(ModeText(fixed))) == fixed
  {
    PlainMode(env, ModeText(fixed));
  }

  lemma TextsReadBack(env: Env, p: Preset)
    requires NormalPreset(env, p)
    ensures Trim(env, Text(p.id), MAX_WORD) == p.id && Trim(env, Text(p.name), MAX_NAME) == p.name
    ensures Trim(env, Text(p.description), MAX_DESCRIPTION) == p.description
    ensures Trim(env, Text(p.createdAt), MAX_TIME) == p.createdAt && Trim(env, Text(p.updatedAt), MAX_TIME) == p.updatedAt
  {
    TrimText(env, p.id, MAX_WORD);
    TrimText(env, p.name, MAX_NAME);
    TrimText(env, p.description, MAX_DESCRIPTION);
    TrimText(env, p.createdAt, MAX_TIME);
    TrimText(env, p.updatedAt, MAX_TIME);
  }

  ghost predicate SaysTexts(env: Env, f: Parts, p: Preset) {
    && Trim(env, f.id, MAX_WORD) == p.id && Trim(env, f.name, MAX_NAME) == p.name
    && f.description.Some? && Trim(env, f.description.value, MAX_DESCRIPTION) == p.description
    && f.pinned.Some? && Truthy(f.pinned.value) == p.pinned
    && Trim(env, f.createdAt, MAX_TIME) == p.createdAt && Trim(env, f.updatedAt, MAX_TIME) == p.updatedAt
  }

  ghost predicate SaysMode(env: Env, f: Parts, p: Preset) {
    FixedMode(env, f.mode) == p.fixed && Truthy(f.mode) && Truthy(f.name)
  }

  ghost predicate SaysContent(env: Env, f: Parts, p: Preset) {
    f.filters.Object? && ContentOf(env, p.fixed, f.ids, f.refs, f.filters) == Some(ContentIn(p))
  }

  /** The parts say what the preset says. */
  ghost predicate Says(env: Env, f: Parts, p: Preset) {
    SaysTexts(env, f, p) && SaysMode(env, f, p) && SaysContent(env, f, p)
  }

  lemma CustomAssembled(env: Env, f: Parts, p: Preset, freshId: string, now: string)
    requires Says(env, f, p) && p.id != "" && !Reserved(p.id) && p.name != "" && !p.builtIn
    requires p.createdAt != "" && p.updatedAt != ""
    ensures CustomFrom(env, f, freshId, now) == Some(p)
  {
  }

  lemma OverrideAssembled(env: Env, id: string, d: Preset, f: Parts, p: Preset, now: string)
    requires Says(env, f, p) && p.id == id && p.name != "" && p.builtIn && p.createdAt != "" && p.updatedAt != ""
    ensures OverrideFrom(env, id, d, f, now) == Some(p)
  {
  }

  lemma EncodedSaysTexts(env: Env, p: Preset)
    requires NormalPreset(env, p)
    ensures SaysTexts(env, EncodedParts(p), AgainPreset(p))
  {
    TextsReadBack(env, p);
  }

  lemma SaysModeIn(env: Env, f: Parts, m: string, p: Preset)
    requires f.mode == Text(m) && m != "" && FixedMode(env, Text(m)) == p.fixed && f.name == Text(p.name) && p.name != ""
    ensures SaysMode(env, f, p)
  {
  }

  lemma EncodedSaysMode(env: Env, p: Preset)
    requires ModesSteady(env.words) && p.name != ""
    ensures SaysMode(env, EncodedParts(p), AgainPreset(p))
  {
    ModeReadsBack(env, p.fixed);
    SaysModeIn(env, EncodedParts(p), ModeText(p.fixed), AgainPreset(p));
  }

  lemma EncodedSaysContent(env: Env, p: Preset)
    requires NormalContent(env, p.fixed, ContentIn(p))
    ensures SaysContent(env, EncodedParts(p), AgainPreset(p))
  {
    ContentReadsBack(env, p.fixed, ContentIn(p));
    assert ContentIn(AgainPreset(p)) == AgainContent(p.fixed, ContentIn(p));
  }

  lemma EncodedSays(env: Env, p: Preset)
    requires Steady(env) && NormalPreset(env, p)
    ensures Says(env, EncodedParts(p), AgainPreset(p))
  {
    EncodedSaysTexts(env, p);
    EncodedSaysMode(env, p);
    EncodedSaysContent(env, p);
  }

  lemma EncodedCustom(env: Env, p: Preset, freshId: string, now: string)
    requires Steady(env) && NormalCustom(env, p)
    ensures CustomFrom(env, EncodedParts(p), freshId, now) == Some(AgainPreset(p))
  {
    EncodedSays(env, p);
    CustomAssembled(env, EncodedParts(p), AgainPreset(p), freshId, now);
  }

  /** A normal custom preset is read back with its payment selection read once more, whatever the time
      and the made-up id. */
  lemma CustomReadsBack(env: Env, p: Preset, freshId: string, now: string)
    requires Steady(env) && NormalCustom(env, p)
    ensures NormalizeCustom(env, EncodePreset(p), freshId, now) == Some(AgainPreset(p))
  {
    WrittenParts(EncodedParts(p));
    EncodedCustom(env, p, freshId, now);
  }

  /** So is a normal override. */
  lemma OverrideReadsBack(env: Env, b: Builtins, id: string, p: Preset, now: string)
    requires Steady(env) && NormalOverride(env, b, id, p)
    ensures NormalizeOverride(env, b, id, EncodePreset(p), now) == Some(AgainPreset(p))
  {
    WrittenParts(EncodedParts(p));
    EncodedSays(env, p);
    OverrideAssembled(env, id, b[id], EncodedParts(p), AgainPreset(p), now);
  }

  // ---------------------------------------------------------------- which stored presets are settled

  /** No cut of a method name falls behind an underscore in the filters of a stored preset. */
  ghost predicate CleanFilters(env: Env, filters: Json) {
    CutsClean(env, PaymentSource(filters))
  }

  lemma ContentSettledIff(env: Env, fixed: bool, ids: Json, refs: Json, filters: Json)
    requires ContentOf(env, fixed, ids, refs, filters).Some? && !fixed
    ensures SettledSelection(ContentOf(env, fixed, ids, refs, filters).value.filters.payment) <==> CleanFilters(env, filters)
  {
    SettledIff(env, PaymentSource(filters));
  }

  /** A stored custom preset is read into a settled one exactly when it is fixed or its cuts are clean. */
  lemma CustomSettledIff(env: Env, v: Json, freshId: string, now: string)
    requires NormalizeCustom(env, v, freshId, now).Some?
    ensures SettledPreset(NormalizeCustom(env, v, freshId, now).value)
            <==> FixedMode(env, Get(FieldsOf(v), Mode)) || CleanFilters(env, Get(FieldsOf(v), Filters))
  {
    var f := PartsOf(v.fields);
    if !FixedMode(env, f.mode) { ContentSettledIff(env, false, f.ids, f.refs, f.filters); }
  }

  /** The filters an override is read from: its own, or the default's. */
  function OverrideFilters(v: Json, d: Preset): Json {
    if Get(FieldsOf(v), Filters).Object? then Get(FieldsOf(v), Filters) else EncodeFilters(d.filters)
  }

  /** A stored change to a built-in preset likewise. */
  lemma OverrideSettledIff(env: Env, b: Builtins, id: string, v: Json, now: string)
    requires NormalizeOverride(env, b, id, v, now).Some?
    ensures id in b
    ensures SettledPreset(NormalizeOverride(env, b, id, v, now).value)
            <==> OverrideFixed(env, PartsOf(FieldsOf(v)), b[id]) || CleanFilters(env, OverrideFilters(v, b[id]))
  {
    var f := PartsOf(v.fields);
    if !OverrideFixed(env, f, b[id]) { ContentSettledIff(env, false, f.ids, f.refs, OverrideFilters(v, b[id])); }
  }
}
