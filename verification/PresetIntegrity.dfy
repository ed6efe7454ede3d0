/** Filter presets in the settings and fixed groups in the database: what keeps the two consistent
    through every sequence of create, update, delete and migrate requests. */
module PresetIntegrity {
  import opened Common
  import opened Text
  import Plan = MigrationPlanner

  /** A preset as far as the two stores refer to it; a fixed one is an old preset not migrated yet. */
  datatype Preset = Preset(id: string, name: string, fixed: bool)

  /** The saved presets and the group tables. Built-in presets are given by `b` throughout. */
  datatype State = State(
    custom: seq<Preset>, overrides: map<string, Preset>, deleted: set<string>, groups: Plan.Groups, owners: Plan.Owners)

  const MAX_CUSTOM := 80
  const MAX_NAME := 80

  datatype Refusal = NoName | DuplicateName | NotFound | NoParent | Conflict | NoMembers | HasGroups | ModeFixed | NotMigratable

  // ---------------------------------------------------------------- what is visible

  predicate SameName(x: string, y: string) {
    Lower(Strip(x)) == Lower(Strip(y))
  }

  function Shown(s: State, d: Preset): Preset {
    if d.id in s.overrides then s.overrides[d.id] else d
  }

  /** The built-in presets that are not deleted, each as overridden. */
  function VisibleBuiltins(b: seq<Preset>, s: State): seq<Preset> {
    if b == [] then []
    else
      var rest := VisibleBuiltins(b[1..], s);
      var d := b[0];
      if d.id in s.deleted then rest else [Shown(s, d)] + rest
  }

  function Visible(b: seq<Preset>, s: State): seq<Preset> {
    VisibleBuiltins(b, s) + s.custom
  }

  predicate IsBuiltin(b: seq<Preset>, id: string) {
    exists d :: d in b && d.id == id
  }

  predicate IsDynamic(b: seq<Preset>, s: State, id: string) {
    exists p :: p in Visible(b, s) && p.id == id && !p.fixed
  }

  predicate NameUsed(b: seq<Preset>, s: State, name: string, ignored: string) {
    exists p :: p in Visible(b, s) && (ignored == "" || p.id != ignored) && SameName(p.name, name)
  }

  // ---------------------------------------------------------------- saving

  /** What a save keeps of the custom presets: the first with each id, at most the maximum. */
  function Kept(custom: seq<Preset>, seen: set<string>, room: nat): seq<Preset> {
    if custom == [] || room == 0 then []
    else if custom[0].id in seen then Kept(custom[1..], seen, room)
    else [custom[0]] + Kept(custom[1..], seen + {custom[0].id}, room - 1)
  }

  function Saved(s: State): State {
    s.(custom := Kept(s.custom, {}, MAX_CUSTOM), overrides := map k | k in s.overrides && k !in s.deleted :: s.overrides[k])
  }

  // ---------------------------------------------------------------- requests

  datatype Request =
    | CreatePreset(id: string, name: string)
    | CreateGroup(id: string, parent: string, name: string, accounts: seq<int>, move: bool)
    | Update(id: string, name: string, fixed: bool, accounts: seq<int>, move: bool)
    | Delete(id: string)
    | Migrate(order: seq<Plan.Candidate>)
    | MigrateInterrupted(order: seq<Plan.Candidate>)

  /** Ids made up by the server are new. */
  predicate Fresh(b: seq<Preset>, s: State, id: string) {
    id != "" && id !in s.groups && !IsBuiltin(b, id) && forall p :: p in s.custom ==> p.id != id
  }

  ghost predicate Enabled(b: seq<Preset>, s: State, r: Request) {
    (r.CreatePreset? || r.CreateGroup? ==> Fresh(b, s, r.id))
  }

  predicate TakesFromOthers(s: State, id: string, accounts: seq<int>) {
    exists a :: a in accounts && a in s.owners && s.owners[a] != id
  }

  function Members(s: State, id: string, accounts: seq<int>): State {
    s.(owners := Plan.Replaced(s.owners, id, accounts))
  }

  function IndexOf(custom: seq<Preset>, id: string): (i: int)
    ensures -1 <= i < |custom|
    ensures i >= 0 ==> custom[i].id == id
    ensures i < 0 ==> forall p :: p in custom ==> p.id != id
  {
    if custom == [] then -1
    else if custom[0].id == id then 0
    else
      var i := IndexOf(custom[1..], id);
      if i < 0 then -1 else i + 1
  }

  function Default(b: seq<Preset>, id: string): Option<Preset> {
    if b == [] then None else if b[0].id == id then Some(b[0]) else Default(b[1..], id)
  }

  function Without(custom: seq<Preset>, ids: set<string>): (r: seq<Preset>)
    ensures forall p :: p in r <==> p in custom && p.id !in ids
    ensures |r| <= |custom|
  {
    if custom == [] then []
    else
      var rest := Without(custom[1..], ids);
      if custom[0].id in ids then rest else [custom[0]] + rest
  }

  ghost function CreateOutcome(b: seq<Preset>, s: State, r: Request): Result<State, Refusal>
    requires r.CreatePreset? || r.CreateGroup?
  {
    var name := Clip(r.name, MAX_NAME);
    if name == "" then Err(NoName)
    else match r
      case CreatePreset(id, _) =>
        if NameUsed(b, s, name, "") then Err(DuplicateName)
        else Ok(Saved(s.(custom := s.custom + [Preset(id, name, false)])))
      case CreateGroup(id, parent, _, accounts, move) =>
        if !IsDynamic(b, s, parent) then Err(NoParent)
        else if Plan.NameClash(s.groups, id, parent, name) then Err(DuplicateName)
        else if accounts == [] then Err(NoMembers)
        else if !move && TakesFromOthers(s, id, accounts) then Err(Conflict)
        else Ok(Members(s.(groups := s.groups[id := Plan.Group(parent, name)]), id, accounts))
  }

  ghost function UpdateGroupOutcome(b: seq<Preset>, s: State, id: string, name: string, fixed: bool, accounts: seq<int>, move: bool): Result<State, Refusal>
    requires id in s.groups
  {
    var parent := s.groups[id].parent;
    if !fixed then Err(ModeFixed)
    else if Plan.NameClash(s.groups, id, parent, name) then Err(DuplicateName)
    else if !IsDynamic(b, s, parent) then Err(NoParent)
    else if accounts == [] then Err(NoMembers)
    else if !move && TakesFromOthers(s, id, accounts) then Err(Conflict)
    else Ok(Members(s.(groups := s.groups[id := Plan.Group(parent, name)]), id, accounts))
  }

  ghost function UpdatePresetOutcome(b: seq<Preset>, s: State, id: string, name: string, fixed: bool): Result<State, Refusal> {
    var i := IndexOf(s.custom, id);
    if IsBuiltin(b, id) && id in s.deleted then Err(NotFound)
    else if !IsBuiltin(b, id) && i < 0 then Err(NotFound)
    else if NameUsed(b, s, name, id) then Err(DuplicateName)
    else if IsBuiltin(b, id) then
      var now := if id in s.overrides then Some(s.overrides[id]) else Default(b, id);
      if now.Some? && now.value.fixed != fixed then Err(ModeFixed)
      else Ok(Saved(s.(overrides := s.overrides[id := Preset(id, name, fixed)], deleted := s.deleted - {id})))
    else if s.custom[i].fixed != fixed then Err(ModeFixed)
    else Ok(Saved(s.(custom := s.custom[i := Preset(id, name, fixed)])))
  }

  ghost function DeleteOutcome(b: seq<Preset>, s: State, id: string): Result<State, Refusal> {
    if id in s.groups then
      Ok(WithoutGroup(s, id))
    else if exists g :: g in s.groups && s.groups[g].parent == id then Err(HasGroups)
    else if IsBuiltin(b, id) then
      if id in s.deleted then Err(NotFound) else Ok(Saved(WithoutBuiltin(s, id)))
    else if IndexOf(s.custom, id) < 0 then Err(NotFound)
    else Ok(Saved(s.(custom := Without(s.custom, {id}))))
  }

  /** The request names every old fixed preset exactly once, none of them built in, and gives each a
      dynamic parent. */
  ghost predicate Migratable(b: seq<Preset>, s: State, order: seq<Plan.Candidate>) {
    && order != [] && Plan.DistinctIds(order)
    && (forall p :: p in VisibleBuiltins(b, s) ==> !p.fixed)
    && (forall p :: p in s.custom && p.fixed ==> exists i :: 0 <= i < |order| && order[i].id == p.id)
    && (forall i :: 0 <= i < |order| ==>
          Preset(order[i].id, order[i].name, true) in s.custom && IsDynamic(b, s, order[i].parent))
  }

  function Ids(order: seq<Plan.Candidate>): set<string> {
    set c | c in order :: c.id
  }

  ghost function MigrateOutcome(b: seq<Preset>, s: State, order: seq<Plan.Candidate>): Result<State, Refusal> {
    if !Migratable(b, s, order) then Err(NotMigratable)
    else match Plan.Migrate(Plan.Store(s.groups, s.owners), order)
      case Err(_) => Err(NotMigratable)
      case Ok(t) => Ok(Saved(s.(groups := t.groups, owners := t.owners, custom := Without(s.custom, Ids(order)))))
  }

  /** The database commit of a migration without the save of the presets that follows it. */
  ghost function InterruptedOutcome(b: seq<Preset>, s: State, order: seq<Plan.Candidate>): Result<State, Refusal> {
    if !Migratable(b, s, order) then Err(NotMigratable)
    else match Plan.Migrate(Plan.Store(s.groups, s.owners), order)
      case Err(_) => Err(NotMigratable)
      case Ok(t) => Ok(s.(groups := t.groups, owners := t.owners))
  }

  ghost function Outcome(b: seq<Preset>, s: State, r: Request): Result<State, Refusal> {
    match r
    case Migrate(order) => MigrateOutcome(b, s, order)
    case MigrateInterrupted(order) => InterruptedOutcome(b, s, order)
    case Delete(id) => DeleteOutcome(b, s, id)
    case Update(id, raw, fixed, accounts, move) =>
      (var name := Clip(raw, MAX_NAME);
       if name == "" then Err(NoName)
       else if id in s.groups then UpdateGroupOutcome(b, s, id, name, fixed, accounts, move)
       else UpdatePresetOutcome(b, s, id, name, fixed))
    case _ => CreateOutcome(b, s, r)
  }

  ghost function Step(b: seq<Preset>, s: State, r: Request): State {
    match Outcome(b, s, r)
    case Ok(t) => t
    case Err(_) => s
  }

  // ---------------------------------------------------------------- the invariant

  ghost predicate BuiltinsFine(b: seq<Preset>) {
    && (forall i, j :: 0 <= i < j < |b| ==> b[i].id != b[j].id && !SameName(b[i].name, b[j].name))
    && (forall i :: 0 <= i < |b| ==> !b[i].fixed && b[i].id != "")
  }

  ghost predicate IdsDistinct(ps: seq<Preset>) {
    forall i, j :: 0 <= i < j < |ps| ==> ps[i].id != ps[j].id
  }

  ghost predicate NamesDistinct(ps: seq<Preset>) {
    forall p, q :: p in ps && q in ps && p.id != q.id ==> !SameName(p.name, q.name)
  }

  ghost predicate PresetsFine(b: seq<Preset>, s: State) {
    && |s.custom| <= MAX_CUSTOM && IdsDistinct(s.custom)
    && (forall p :: p in s.custom ==> p.id != "" && !IsBuiltin(b, p.id))
    && (forall k :: k in s.overrides ==> IsBuiltin(b, k) && k !in s.deleted && s.overrides[k].id == k)
    && NamesDistinct(Visible(b, s))
  }

  ghost predicate GroupsFine(b: seq<Preset>, s: State) {
    && (forall g :: g in s.groups ==> IsDynamic(b, s, s.groups[g].parent))
    && Plan.Sound(Plan.Store(s.groups, s.owners))
  }

  ghost predicate Sound(b: seq<Preset>, s: State) {
    PresetsFine(b, s) && GroupsFine(b, s)
  }

  /** The built-in presets as shipped. */
  const SHIPPED: seq<Preset> := [
    Preset("builtin_all_chatgpt", "全部 ChatGPT", false),
    Preset("builtin_oaipay_pending", "OAIPay 待补传", false),
    Preset("builtin_plus_rt_oaipay_pending", "Plus 长效未传", false),
    Preset("builtin_plus_no_rt_oaipay_pending", "Plus 未接码未传", false),
    Preset("builtin_free_rt_oaipay_pending", "Free 带 RT 未传", false),
    Preset("builtin_sub2api_exists_oaipay_pending", "Sub2API 已有但 OAIPay 未传", false)]

  /** Two untrimmed names that differ somewhere, up to case, are different names. */
  lemma DifferentAt(x: string, y: string, i: nat)
    requires Stripped(x) && Stripped(y) && i < |x| && i < |y| && LowerChar(x[i]) != LowerChar(y[i])
    ensures !SameName(x, y)
  {
    StripFixed(x);
    StripFixed(y);
    assert Lower(x)[i] != Lower(y)[i];
  }

  /** Two places tell the shipped presets apart, in their ids as in their names. */
  lemma ShippedAt(k: nat)
    requires k < 6
    ensures var p := SHIPPED[k];
      && |p.id| > 13 && |p.name| > 5 && Stripped(p.name) && !p.fixed
      && p.id[8] == ['a', 'o', 'p', 'p', 'f', 's'][k] && (k == 2 ==> p.id[13] == 'r') && (k == 3 ==> p.id[13] == 'n')
      && LowerChar(p.name[0]) == ['全', 'o', 'p', 'p', 'f', 's'][k]
      && (k == 2 ==> p.name[5] == '长') && (k == 3 ==> p.name[5] == '未')
  {
    if k == 0 {
    } else if k == 1 {
    } else if k == 2 {
    } else if k == 3 {
    } else if k == 4 {
    } else {
      assert k == 5;
    }
  }

  /** The shipped presets have distinct ids and, up to case, distinct names. */
  lemma ShippedFine()
    ensures BuiltinsFine(SHIPPED)
  {
    var n := |SHIPPED|;
    assert n == 6;
    forall i, j | 0 <= i < j < n
      ensures SHIPPED[i].id != SHIPPED[j].id && !SameName(SHIPPED[i].name, SHIPPED[j].name)
    {
      ShippedPair(i, j);
    }
    forall i | 0 <= i < n ensures !SHIPPED[i].fixed && SHIPPED[i].id != "" {
      ShippedAt(i);
    }
  }

  lemma ShippedPair(i: nat, j: nat)
    requires i < j < 6
    ensures SHIPPED[i].id != SHIPPED[j].id && !SameName(SHIPPED[i].name, SHIPPED[j].name)
  {
    ShippedAt(i);
    ShippedAt(j);
    PairApart(SHIPPED[i], SHIPPED[j], if i == 2 && j == 3 then 13 else 8, if i == 2 && j == 3 then 5 else 0);
  }

  lemma PairApart(x: Preset, y: Preset, k: nat, m: nat)
    requires k < |x.id| && k < |y.id| && x.id[k] != y.id[k]
    requires Stripped(x.name) && Stripped(y.name) && m < |x.name| && m < |y.name|
    requires LowerChar(x.name[m]) != LowerChar(y.name[m])
    ensures x.id != y.id && !SameName(x.name, y.name)
  {
    DifferentAt(x.name, y.name, m);
  }

  // ---------------------------------------------------------------- visible presets

  lemma {:induction false} BuiltinVisibleIff(b: seq<Preset>, s: State, p: Preset)
    ensures p in VisibleBuiltins(b, s) <==> exists d :: d in b && d.id !in s.deleted && p == Shown(s, d)
  {
    if b != [] {
      BuiltinVisibleIff(b[1..], s, p);
      assert forall d :: d in b <==> d == b[0] || d in b[1..];
    }
  }

  lemma VisibleIff(b: seq<Preset>, s: State, p: Preset)
    ensures p in Visible(b, s) <==> p in s.custom || exists d :: d in b && d.id !in s.deleted && p == Shown(s, d)
  {
    BuiltinVisibleIff(b, s, p);
  }

  /** Visible ids are unique. */
  lemma VisibleUnique(b: seq<Preset>, s: State, p: Preset, q: Preset)
    requires BuiltinsFine(b) && PresetsFine(b, s) && p in Visible(b, s) && q in Visible(b, s) && p.id == q.id
    ensures p == q
  {
    VisibleIff(b, s, p);
    VisibleIff(b, s, q);
  }

  lemma {:induction false} VisibleSameBuiltins(b: seq<Preset>, s: State, t: State)
    requires s.overrides == t.overrides && s.deleted == t.deleted
    ensures VisibleBuiltins(b, s) == VisibleBuiltins(b, t)
  {
    if b != [] { VisibleSameBuiltins(b[1..], s, t); }
  }

  // ---------------------------------------------------------------- saving

  lemma {:induction false} KeptAll(custom: seq<Preset>, seen: set<string>, room: nat)
    requires IdsDistinct(custom) && forall p :: p in custom ==> p.id !in seen
    ensures Kept(custom, seen, room) == if |custom| <= room then custom else custom[..room]
  {
    if custom != [] && room > 0 {
      KeptAll(custom[1..], seen + {custom[0].id}, room - 1);
    }
  }

  /** Saving a state with at most the maximum of custom presets changes nothing. */
  lemma SavedIdentity(s: State)
    requires IdsDistinct(s.custom) && |s.custom| <= MAX_CUSTOM && s.deleted !! s.overrides.Keys
    ensures Saved(s) == s
  {
    KeptAll(s.custom, {}, MAX_CUSTOM);
  }

  // ---------------------------------------------------------------- how the parts depend on the visible presets

  /** What is visible in `t` was visible in `s`, and no dynamic preset that a group needs is gone. */
  lemma GroupsKeepParents(b: seq<Preset>, s: State, t: State)
    requires GroupsFine(b, s) && t.groups == s.groups && t.owners == s.owners
    requires forall p :: p in Visible(b, s) && !p.fixed && (exists g :: g in s.groups && s.groups[g].parent == p.id) ==>
               IsDynamic(b, t, p.id)
    ensures GroupsFine(b, t)
  {
    forall g | g in t.groups ensures IsDynamic(b, t, t.groups[g].parent) {
      assert IsDynamic(b, s, s.groups[g].parent);
    }
  }

  lemma FewerNames(b: seq<Preset>, s: State, t: State)
    requires NamesDistinct(Visible(b, s)) && forall p :: p in Visible(b, t) ==> p in Visible(b, s)
    ensures NamesDistinct(Visible(b, t))
  {
  }

  // ---------------------------------------------------------------- every request keeps the stores consistent

  lemma AppendSaved(s: State, made: Preset)
    requires IdsDistinct(s.custom) && |s.custom| <= MAX_CUSTOM && s.deleted !! s.overrides.Keys
    requires forall p :: p in s.custom ==> p.id != made.id
    ensures Saved(s.(custom := s.custom + [made])) == if |s.custom| < MAX_CUSTOM then s.(custom := s.custom + [made]) else s
  {
    var more := s.custom + [made];
    assert IdsDistinct(more);
    KeptAll(more, {}, MAX_CUSTOM);
    SavedIdentity(s);
    if |s.custom| == MAX_CUSTOM { assert more[..MAX_CUSTOM] == s.custom; }
  }

  lemma AddedNames(b: seq<Preset>, s: State, made: Preset)
    requires NamesDistinct(Visible(b, s)) && !NameUsed(b, s, made.name, "")
    ensures forall p :: p in Visible(b, s) ==> p in Visible(b, s.(custom := s.custom + [made]))
    ensures NamesDistinct(Visible(b, s.(custom := s.custom + [made])))
  {
    var t := s.(custom := s.custom + [made]);
    VisibleSameBuiltins(b, s, t);
    assert forall p :: p in Visible(b, t) <==> p in Visible(b, s) || p == made;
    forall x, y | x in Visible(b, t) && y in Visible(b, t) && x.id != y.id ensures !SameName(x.name, y.name) {
    }
  }

  lemma AddedKeeps(b: seq<Preset>, s: State, made: Preset)
    requires Sound(b, s) && Fresh(b, s, made.id) && |s.custom| < MAX_CUSTOM && !NameUsed(b, s, made.name, "")
    ensures Sound(b, s.(custom := s.custom + [made]))
  {
    var t := s.(custom := s.custom + [made]);
    AddedNames(b, s, made);
    assert IdsDistinct(t.custom);
    GroupsKeepParents(b, s, t);
  }

  /** A created preset is saved exactly when there was room for it; the presets saved before stay. */
  lemma CreatePresetKeeps(b: seq<Preset>, s: State, id: string, raw: string)
    requires Sound(b, s) && Fresh(b, s, id) && CreateOutcome(b, s, CreatePreset(id, raw)).Ok?
    ensures Sound(b, CreateOutcome(b, s, CreatePreset(id, raw)).value)
    ensures CreateOutcome(b, s, CreatePreset(id, raw)).value
         == if |s.custom| < MAX_CUSTOM then s.(custom := s.custom + [Preset(id, Clip(raw, MAX_NAME), false)]) else s
  {
    var made := Preset(id, Clip(raw, MAX_NAME), false);
    AppendSaved(s, made);
    if |s.custom| < MAX_CUSTOM { AddedKeeps(b, s, made); }
  }

  lemma GroupMembersSound(s: State, id: string, parent: string, name: string, accounts: seq<int>)
    requires Plan.Sound(Plan.Store(s.groups, s.owners))
    requires !Plan.NameClash(s.groups, id, parent, name)
    ensures var t := Members(s.(groups := s.groups[id := Plan.Group(parent, name)]), id, accounts);
            Plan.Sound(Plan.Store(t.groups, t.owners))
  {
    var groups := s.groups[id := Plan.Group(parent, name)];
    forall g | g in groups ensures !Plan.NameClash(groups, g, groups[g].parent, groups[g].name) {
      forall h | h in groups && h != g
        ensures !(groups[h].parent == groups[g].parent && Lower(groups[h].name) == Lower(groups[g].name))
      {
        if g != id && h != id {
          assert !Plan.NameClash(s.groups, g, s.groups[g].parent, s.groups[g].name);
        }
      }
    }
  }

  lemma WriteGroupKeeps(b: seq<Preset>, s: State, id: string, parent: string, name: string, accounts: seq<int>)
    requires Sound(b, s) && IsDynamic(b, s, parent) && !Plan.NameClash(s.groups, id, parent, name)
    ensures Sound(b, Members(s.(groups := s.groups[id := Plan.Group(parent, name)]), id, accounts))
  {
    var t := Members(s.(groups := s.groups[id := Plan.Group(parent, name)]), id, accounts);
    VisibleSameBuiltins(b, s, t);
    GroupMembersSound(s, id, parent, name, accounts);
    forall g | g in t.groups ensures IsDynamic(b, t, t.groups[g].parent) {
      assert g != id ==> IsDynamic(b, s, s.groups[g].parent);
    }
  }

  lemma OverrideVisible(b: seq<Preset>, s: State, id: string, name: string, fixed: bool, p: Preset)
    requires BuiltinsFine(b) && PresetsFine(b, s) && IsBuiltin(b, id) && id !in s.deleted
    ensures var q := Preset(id, name, fixed);
            var t := s.(overrides := s.overrides[id := q]);
            p in Visible(b, t) <==> (p in Visible(b, s) && p.id != id) || p == q
  {
    var q := Preset(id, name, fixed);
    var t := s.(overrides := s.overrides[id := q]);
    VisibleIff(b, s, p);
    VisibleIff(b, t, p);
    var d :| d in b && d.id == id;
    assert Shown(t, d) == q;
    assert forall e :: e in b && e.id != id ==> Shown(t, e) == Shown(s, e) && Shown(s, e).id == e.id;
  }

  lemma ReplacedNames(b: seq<Preset>, s: State, t: State, q: Preset)
    requires NamesDistinct(Visible(b, s)) && !NameUsed(b, s, q.name, q.id) && q.id != ""
    requires forall p :: p in Visible(b, t) ==> (p in Visible(b, s) && p.id != q.id) || p == q
    ensures NamesDistinct(Visible(b, t))
  {
    forall x, y | x in Visible(b, t) && y in Visible(b, t) && x.id != y.id ensures !SameName(x.name, y.name) {
    }
  }

  lemma OverrideKeeps(b: seq<Preset>, s: State, id: string, name: string, fixed: bool)
    requires BuiltinsFine(b) && Sound(b, s) && IsBuiltin(b, id) && id !in s.deleted && !NameUsed(b, s, name, id)
    requires forall p :: p in Visible(b, s) && p.id == id ==> p.fixed == fixed
    ensures Sound(b, s.(overrides := s.overrides[id := Preset(id, name, fixed)]))
  {
    var q := Preset(id, name, fixed);
    var t := s.(overrides := s.overrides[id := q]);
    forall p: Preset ensures p in Visible(b, t) <==> (p in Visible(b, s) && p.id != id) || p == q {
      OverrideVisible(b, s, id, name, fixed, p);
    }
    ReplacedNames(b, s, t, q);
    GroupsKeepParents(b, s, t);
  }

  lemma EditVisible(b: seq<Preset>, s: State, i: nat, name: string, fixed: bool, p: Preset)
    requires BuiltinsFine(b) && PresetsFine(b, s) && i < |s.custom|
    ensures var q := Preset(s.custom[i].id, name, fixed);
            var t := s.(custom := s.custom[i := q]);
            p in Visible(b, t) <==> (p in Visible(b, s) && p.id != q.id) || p == q
  {
    var q := Preset(s.custom[i].id, name, fixed);
    var t := s.(custom := s.custom[i := q]);
    VisibleSameBuiltins(b, s, t);
    VisibleIff(b, s, p);
    assert p in t.custom <==> (p in s.custom && p.id != q.id) || p == q by {
      if p in s.custom && p.id != q.id {
        var j :| 0 <= j < |s.custom| && s.custom[j] == p;
        assert t.custom[j] == p;
      }
      assert t.custom[i] == q;
    }
    assert p in VisibleBuiltins(b, s) ==> p.id != q.id by { BuiltinVisibleIff(b, s, p); }
  }

  lemma EditKeeps(b: seq<Preset>, s: State, i: nat, name: string, fixed: bool)
    requires BuiltinsFine(b) && Sound(b, s) && i < |s.custom| && s.custom[i].fixed == fixed
    requires !NameUsed(b, s, name, s.custom[i].id)
    ensures Sound(b, s.(custom := s.custom[i := Preset(s.custom[i].id, name, fixed)]))
  {
    var q := Preset(s.custom[i].id, name, fixed);
    var t := s.(custom := s.custom[i := q]);
    forall p: Preset ensures p in Visible(b, t) <==> (p in Visible(b, s) && p.id != q.id) || p == q {
      EditVisible(b, s, i, name, fixed, p);
    }
    ReplacedNames(b, s, t, q);
    EditedMode(b, s, i);
    GroupsKeepParents(b, s, t);
  }

  lemma EditedMode(b: seq<Preset>, s: State, i: nat)
    requires BuiltinsFine(b) && Sound(b, s) && i < |s.custom|
    ensures forall p :: p in Visible(b, s) && p.id == s.custom[i].id ==> p.fixed == s.custom[i].fixed
  {
    forall p | p in Visible(b, s) && p.id == s.custom[i].id ensures p == s.custom[i] {
      VisibleUnique(b, s, p, s.custom[i]);
    }
  }

  lemma {:induction false} DefaultIs(b: seq<Preset>, id: string)
    requires IsBuiltin(b, id)
    ensures Default(b, id).Some? && Default(b, id).value in b && Default(b, id).value.id == id
  {
    if b[0].id != id { assert IsBuiltin(b[1..], id); DefaultIs(b[1..], id); }
  }

  lemma UpdatePresetKeeps(b: seq<Preset>, s: State, id: string, name: string, fixed: bool)
    requires BuiltinsFine(b) && Sound(b, s) && UpdatePresetOutcome(b, s, id, name, fixed).Ok?
    ensures Sound(b, UpdatePresetOutcome(b, s, id, name, fixed).value)
    ensures UpdatePresetOutcome(b, s, id, name, fixed).value.deleted == s.deleted
    ensures |UpdatePresetOutcome(b, s, id, name, fixed).value.custom| == |s.custom|
  {
    var i := IndexOf(s.custom, id);
    if IsBuiltin(b, id) {
      DefaultIs(b, id);
      var d := Default(b, id).value;
      assert Shown(s, d).fixed == fixed && Shown(s, d).id == id;
      forall p | p in Visible(b, s) && p.id == id ensures p.fixed == fixed {
        VisibleIff(b, s, Shown(s, d));
        VisibleUnique(b, s, p, Shown(s, d));
      }
      OverrideKeeps(b, s, id, name, fixed);
      SavedIdentity(s.(overrides := s.overrides[id := Preset(id, name, fixed)]));
      assert s.deleted - {id} == s.deleted;
    } else {
      EditKeeps(b, s, i, name, fixed);
      SavedIdentity(s.(custom := s.custom[i := Preset(id, name, fixed)]));
    }
  }

  /** Taking presets away keeps everything, as long as no group's parent goes. */
  lemma RemovalKeeps(b: seq<Preset>, s: State, t: State, gone: set<string>)
    requires BuiltinsFine(b) && Sound(b, s) && t.groups == s.groups && t.owners == s.owners
    requires |t.custom| <= |s.custom| && IdsDistinct(t.custom) && forall p :: p in t.custom ==> p in s.custom
    requires forall k :: k in t.overrides ==> k in s.overrides && t.overrides[k] == s.overrides[k] && k !in t.deleted
    requires forall p :: p in Visible(b, t) <==> p in Visible(b, s) && p.id !in gone
    requires forall g :: g in s.groups ==> s.groups[g].parent !in gone
    ensures Sound(b, t)
  {
    FewerNames(b, s, t);
    GroupsKeepParents(b, s, t);
  }

  lemma {:induction false} WithoutDistinct(custom: seq<Preset>, ids: set<string>)
    requires IdsDistinct(custom)
    ensures IdsDistinct(Without(custom, ids))
  {
    if custom != [] {
      WithoutDistinct(custom[1..], ids);
      assert forall p :: p in Without(custom[1..], ids) ==> p.id != custom[0].id;
    }
  }

  lemma DropCustomKeeps(b: seq<Preset>, s: State, ids: set<string>)
    requires BuiltinsFine(b) && Sound(b, s) && forall id :: id in ids ==> !IsBuiltin(b, id)
    requires forall g :: g in s.groups ==> s.groups[g].parent !in ids
    ensures var t := s.(custom := Without(s.custom, ids)); Sound(b, t) && Saved(t) == t
  {
    var t := s.(custom := Without(s.custom, ids));
    WithoutDistinct(s.custom, ids);
    VisibleSameBuiltins(b, s, t);
    forall p: Preset ensures p in Visible(b, t) <==> p in Visible(b, s) && p.id !in ids {
      BuiltinVisibleIff(b, s, p);
    }
    RemovalKeeps(b, s, t, ids);
    SavedIdentity(t);
  }

  function WithoutBuiltin(s: State, id: string): State {
    s.(deleted := s.deleted + {id}, overrides := s.overrides - {id})
  }

  lemma DropVisible(b: seq<Preset>, s: State, id: string, p: Preset)
    requires BuiltinsFine(b) && PresetsFine(b, s) && IsBuiltin(b, id)
    ensures p in Visible(b, WithoutBuiltin(s, id)) <==> p in Visible(b, s) && p.id != id
  {
    var t := WithoutBuiltin(s, id);
    VisibleIff(b, s, p);
    VisibleIff(b, t, p);
    assert forall d :: d in b ==> Shown(s, d).id == d.id && (d.id != id ==> Shown(t, d) == Shown(s, d));
  }

  lemma DropBuiltinKeeps(b: seq<Preset>, s: State, id: string)
    requires BuiltinsFine(b) && Sound(b, s) && IsBuiltin(b, id)
    requires forall g :: g in s.groups ==> s.groups[g].parent != id
    ensures Sound(b, WithoutBuiltin(s, id)) && Saved(WithoutBuiltin(s, id)) == WithoutBuiltin(s, id)
  {
    var t := WithoutBuiltin(s, id);
    forall p: Preset ensures p in Visible(b, t) <==> p in Visible(b, s) && p.id !in {id} {
      DropVisible(b, s, id, p);
    }
    RemovalKeeps(b, s, t, {id});
    SavedIdentity(t);
  }

  function WithoutGroup(s: State, id: string): State {
    s.(groups := s.groups - {id}, owners := map a | a in s.owners && s.owners[a] != id :: s.owners[a])
  }

  lemma DropGroupTables(s: State, id: string)
    requires Plan.Sound(Plan.Store(s.groups, s.owners))
    ensures Plan.Sound(Plan.Store(WithoutGroup(s, id).groups, WithoutGroup(s, id).owners))
  {
    var groups := s.groups - {id};
    forall g | g in groups ensures !Plan.NameClash(groups, g, groups[g].parent, groups[g].name) {
      assert !Plan.NameClash(s.groups, g, s.groups[g].parent, s.groups[g].name);
      forall h | h in groups && h != g
        ensures !(groups[h].parent == groups[g].parent && Lower(groups[h].name) == Lower(groups[g].name))
      {
        assert h in s.groups;
      }
    }
  }

  lemma DropGroupKeeps(b: seq<Preset>, s: State, id: string)
    requires Sound(b, s)
    ensures Sound(b, WithoutGroup(s, id))
  {
    var t := WithoutGroup(s, id);
    VisibleSameBuiltins(b, s, t);
    DropGroupTables(s, id);
    forall g | g in t.groups ensures IsDynamic(b, t, t.groups[g].parent) {
      assert IsDynamic(b, s, s.groups[g].parent);
    }
  }

  lemma DeleteKeeps(b: seq<Preset>, s: State, id: string)
    requires BuiltinsFine(b) && Sound(b, s) && DeleteOutcome(b, s, id).Ok?
    ensures Sound(b, DeleteOutcome(b, s, id).value)
  {
    if id in s.groups {
      DropGroupKeeps(b, s, id);
    } else if IsBuiltin(b, id) {
      DropBuiltinKeeps(b, s, id);
    } else {
      DropCustomKeeps(b, s, {id});
    }
  }

  lemma MigrateKeeps(b: seq<Preset>, s: State, order: seq<Plan.Candidate>)
    requires BuiltinsFine(b) && Sound(b, s) && MigrateOutcome(b, s, order).Ok?
    ensures Sound(b, MigrateOutcome(b, s, order).value)
    ensures var t := MigrateOutcome(b, s, order).value;
            && (forall p :: p in Visible(b, t) ==> !p.fixed)
            && (forall p :: p in Visible(b, s) && !p.fixed ==> p in Visible(b, t))
  {
    var store := Plan.Migrate(Plan.Store(s.groups, s.owners), order).value;
    var u := s.(custom := Without(s.custom, Ids(order)));
    var t := u.(groups := store.groups, owners := store.owners);
    MigratedPresets(b, s, order, store);
    assert MigrateOutcome(b, s, order) == Ok(t);
    MigratedTables(b, s, order);
    forall g | g in t.groups ensures IsDynamic(b, t, t.groups[g].parent) {
      assert IsDynamic(b, s, t.groups[g].parent);
    }
  }

  lemma MigratedPresets(b: seq<Preset>, s: State, order: seq<Plan.Candidate>, store: Plan.Store)
    requires BuiltinsFine(b) && Sound(b, s) && Migratable(b, s, order)
    ensures var t := s.(custom := Without(s.custom, Ids(order)), groups := store.groups, owners := store.owners);
            && Saved(t) == t && PresetsFine(b, t)
            && forall p: Preset :: p in Visible(b, t) <==> p in Visible(b, s) && !p.fixed
  {
    NoParentMigrated(b, s, order);
    DropCustomKeeps(b, s, Ids(order));
    var u := s.(custom := Without(s.custom, Ids(order)));
    var t := u.(groups := store.groups, owners := store.owners);
    SamePresets(b, u, t);
    forall p: Preset ensures p in Visible(b, t) <==> p in Visible(b, s) && !p.fixed {
      MigratedVisible(b, s, order, p);
    }
  }

  lemma NoParentMigrated(b: seq<Preset>, s: State, order: seq<Plan.Candidate>)
    requires BuiltinsFine(b) && Sound(b, s) && Migratable(b, s, order)
    ensures forall id :: id in Ids(order) ==> !IsBuiltin(b, id)
    ensures forall g :: g in s.groups ==> s.groups[g].parent !in Ids(order)
  {
    forall g | g in s.groups ensures s.groups[g].parent !in Ids(order) {
      assert IsDynamic(b, s, s.groups[g].parent);
      var p :| p in Visible(b, s) && p.id == s.groups[g].parent && !p.fixed;
      forall i | 0 <= i < |order| ensures order[i].id != p.id {
        var q := Preset(order[i].id, order[i].name, true);
        if q.id == p.id { VisibleUnique(b, s, p, q); }
      }
    }
  }

  lemma MigratedVisible(b: seq<Preset>, s: State, order: seq<Plan.Candidate>, p: Preset)
    requires BuiltinsFine(b) && Sound(b, s) && Migratable(b, s, order)
    ensures p in Visible(b, s.(custom := Without(s.custom, Ids(order)))) <==> p in Visible(b, s) && !p.fixed
  {
    VisibleSameBuiltins(b, s, s.(custom := Without(s.custom, Ids(order))));
    if p in s.custom && p.id in Ids(order) {
      var i :| 0 <= i < |order| && order[i].id == p.id;
      VisibleUnique(b, s, p, Preset(order[i].id, order[i].name, true));
    }
  }

  lemma MigratedOwners(s: State, order: seq<Plan.Candidate>)
    requires Plan.Sound(Plan.Store(s.groups, s.owners)) && Plan.DistinctIds(order)
    requires Plan.Migrate(Plan.Store(s.groups, s.owners), order).Ok?
    ensures var store := Plan.Migrate(Plan.Store(s.groups, s.owners), order).value;
            forall a :: a in store.owners ==> store.owners[a] in store.groups
  {
    var before := Plan.Store(s.groups, s.owners);
    var store := Plan.Migrate(before, order).value;
    var plan := Plan.Assign(order, s.owners);
    Plan.MigrateGives(before, order);
    Plan.WithGroupsSpec(s.groups, order);
    Plan.AssignDisjoint(order, s.owners);
    forall a | a in store.owners ensures store.owners[a] in store.groups {
      Plan.CommitAt(order, plan, s.owners, a);
      Plan.PlannedListed(order, plan, a);
    }
  }

  lemma MigratedTables(b: seq<Preset>, s: State, order: seq<Plan.Candidate>)
    requires Sound(b, s) && MigrateOutcome(b, s, order).Ok?
    ensures var store := Plan.Migrate(Plan.Store(s.groups, s.owners), order).value;
            && Plan.Sound(store) && forall g :: g in store.groups ==> IsDynamic(b, s, store.groups[g].parent)
  {
    var before := Plan.Store(s.groups, s.owners);
    var store := Plan.Migrate(before, order).value;
    MigratedOwners(s, order);
    Plan.MigrateGives(before, order);
    Plan.WithGroupsSpec(s.groups, order);
    forall g | g in store.groups ensures IsDynamic(b, s, store.groups[g].parent) {
      if g !in s.groups {
        var i :| 0 <= i < |order| && order[i].id == g;
        assert store.groups[g] == Plan.Group(order[i].parent, order[i].name);
      }
    }
  }

  lemma SamePresets(b: seq<Preset>, s: State, t: State)
    requires PresetsFine(b, s) && t.custom == s.custom && t.overrides == s.overrides && t.deleted == s.deleted
    ensures PresetsFine(b, t) && Visible(b, t) == Visible(b, s)
  {
    VisibleSameBuiltins(b, s, t);
  }

  lemma InterruptedKeeps(b: seq<Preset>, s: State, order: seq<Plan.Candidate>)
    requires Sound(b, s) && InterruptedOutcome(b, s, order).Ok?
    ensures Sound(b, InterruptedOutcome(b, s, order).value)
  {
    var t := InterruptedOutcome(b, s, order).value;
    MigratedTables(b, s, order);
    SamePresets(b, s, t);
  }

  lemma UpdateKeeps(b: seq<Preset>, s: State, id: string, raw: string, fixed: bool, accounts: seq<int>, move: bool)
    requires BuiltinsFine(b) && Sound(b, s) && Outcome(b, s, Update(id, raw, fixed, accounts, move)).Ok?
    ensures Sound(b, Outcome(b, s, Update(id, raw, fixed, accounts, move)).value)
  {
    if id in s.groups {
      WriteGroupKeeps(b, s, id, s.groups[id].parent, Clip(raw, MAX_NAME), accounts);
    } else {
      UpdatePresetKeeps(b, s, id, Clip(raw, MAX_NAME), fixed);
    }
  }

  /** Every request leaves sound stores sound, whether it is carried out or refused. */
  lemma StepKeepsSound(b: seq<Preset>, s: State, r: Request)
    requires BuiltinsFine(b) && Sound(b, s) && Enabled(b, s, r)
    ensures Sound(b, Step(b, s, r))
  {
    if Outcome(b, s, r).Ok? {
      match r
      case CreatePreset(id, name) => CreatePresetKeeps(b, s, id, name);
      case CreateGroup(id, parent, name, accounts, move) =>
        WriteGroupKeeps(b, s, id, parent, Clip(name, MAX_NAME), accounts);
      case Update(id, raw, fixed, accounts, move) => UpdateKeeps(b, s, id, raw, fixed, accounts, move);
      case Delete(id) => DeleteKeeps(b, s, id);
      case Migrate(order) => MigrateKeeps(b, s, order);
      case MigrateInterrupted(order) => InterruptedKeeps(b, s, order);
    }
  }

  // ---------------------------------------------------------------- what the cap does

  /** The request names this preset for change or removal. */
  ghost predicate Targets(s: State, r: Request, p: Preset) {
    match r
    case Update(id, _, _, _, _) => id == p.id && id !in s.groups
    case Delete(id) => id == p.id && id !in s.groups
    case Migrate(order) => p.id in Ids(order)
    case _ => false
  }

  /** A saved preset is never lost to the cap: only a request that names it can change or remove it. */
  lemma SavedPresetsStay(b: seq<Preset>, s: State, r: Request, p: Preset)
    requires BuiltinsFine(b) && Sound(b, s) && Enabled(b, s, r) && p in s.custom
    ensures p in Step(b, s, r).custom || Targets(s, r, p)
  {
    if Outcome(b, s, r).Ok? {
      match r
      case CreatePreset(id, name) => CreatePresetKeeps(b, s, id, name);
      case CreateGroup(id, parent, name, accounts, move) =>
      case Update(id, raw, fixed, accounts, move) => if id !in s.groups { UpdateLeavesOthers(b, s, id, Clip(raw, MAX_NAME), fixed, p); }
      case Delete(id) => if id !in s.groups { DeleteLeavesOthers(b, s, id, p); }
      case Migrate(order) =>
        NoParentMigrated(b, s, order);
        DropCustomKeeps(b, s, Ids(order));
      case MigrateInterrupted(order) =>
    }
  }

  lemma UpdateLeavesOthers(b: seq<Preset>, s: State, id: string, name: string, fixed: bool, p: Preset)
    requires Sound(b, s) && UpdatePresetOutcome(b, s, id, name, fixed).Ok? && p in s.custom
    ensures p in UpdatePresetOutcome(b, s, id, name, fixed).value.custom || p.id == id
  {
    var i := IndexOf(s.custom, id);
    if IsBuiltin(b, id) {
      KeptAll(s.custom, {}, MAX_CUSTOM);
    } else {
      var changed := s.custom[i := Preset(id, name, fixed)];
      KeptAll(changed, {}, MAX_CUSTOM);
      var j :| 0 <= j < |s.custom| && s.custom[j] == p;
      assert j != i ==> changed[j] == p;
    }
  }

  lemma DeleteLeavesOthers(b: seq<Preset>, s: State, id: string, p: Preset)
    requires BuiltinsFine(b) && Sound(b, s) && id !in s.groups && DeleteOutcome(b, s, id).Ok? && p in s.custom
    ensures p in DeleteOutcome(b, s, id).value.custom || p.id == id
  {
    if IsBuiltin(b, id) {
      DropBuiltinKeeps(b, s, id);
    } else {
      DropCustomKeeps(b, s, {id});
    }
  }

  /** A create request that is accepted saves its preset if and only if the cap is not reached; at the
      cap the request still succeeds and nothing is saved. */
  lemma CreatedIsSavedIff(b: seq<Preset>, s: State, id: string, raw: string)
    requires BuiltinsFine(b) && Sound(b, s) && Fresh(b, s, id) && Outcome(b, s, CreatePreset(id, raw)).Ok?
    ensures (exists p :: p in Step(b, s, CreatePreset(id, raw)).custom && p.id == id) <==> |s.custom| < MAX_CUSTOM
    ensures |s.custom| == MAX_CUSTOM ==> Step(b, s, CreatePreset(id, raw)) == s
  {
    CreatePresetKeeps(b, s, id, raw);
    var t := Step(b, s, CreatePreset(id, raw));
    if |s.custom| < MAX_CUSTOM { assert t.custom[|s.custom|].id == id; }
  }

  // ---------------------------------------------------------------- whole runs

  /** A run: requests whose made-up ids are not new are skipped. */
  ghost function Run(b: seq<Preset>, s: State, rs: seq<Request>): State
    decreases |rs|
  {
    if rs == [] then s else Run(b, if Enabled(b, s, rs[0]) then Step(b, s, rs[0]) else s, rs[1..])
  }

  /** Nothing saved yet. */
  const EMPTY := State([], map[], {}, map[], map[])

  lemma {:induction false} EmptySound(b: seq<Preset>)
    requires BuiltinsFine(b)
    ensures Sound(b, EMPTY)
  {
    assert forall p :: p in Visible(b, EMPTY) ==> p in b by {
      forall p | p in Visible(b, EMPTY) ensures p in b { VisibleIff(b, EMPTY, p); }
    }
  }

  lemma {:induction false} RunKeepsSound(b: seq<Preset>, s: State, rs: seq<Request>)
    requires BuiltinsFine(b) && Sound(b, s)
    ensures Sound(b, Run(b, s, rs))
    decreases |rs|
  {
    if rs != [] {
      var t := if Enabled(b, s, rs[0]) then Step(b, s, rs[0]) else s;
      if Enabled(b, s, rs[0]) { StepKeepsSound(b, s, rs[0]); }
      RunKeepsSound(b, t, rs[1..]);
    }
  }

  /** Referential integrity over whole runs: after any requests from any sound stores, also such as
      still hold old fixed presets, every fixed group hangs under a visible dynamic preset, visible
      names differ up to case, no deleted built-in has an override, and the custom presets are within
      the cap with distinct ids. */
  lemma IntegrityHolds(b: seq<Preset>, start: State, rs: seq<Request>)
    requires BuiltinsFine(b) && Sound(b, start)
    ensures var s := Run(b, start, rs);
      && (forall g :: g in s.groups ==> exists p :: p in Visible(b, s) && p.id == s.groups[g].parent && !p.fixed)
      && (forall p, q :: p in Visible(b, s) && q in Visible(b, s) && p != q ==>
            p.id != q.id && Lower(Strip(p.name)) != Lower(Strip(q.name)))
      && s.deleted !! s.overrides.Keys && |s.custom| <= MAX_CUSTOM && IdsDistinct(s.custom)
      && (forall a :: a in s.owners ==> s.owners[a] in s.groups)
  {
    RunKeepsSound(b, start, rs);
    var s := Run(b, start, rs);
    forall p, q | p in Visible(b, s) && q in Visible(b, s) && p != q ensures p.id != q.id {
      if p.id == q.id { VisibleUnique(b, s, p, q); }
    }
    forall g | g in s.groups ensures exists p :: p in Visible(b, s) && p.id == s.groups[g].parent && !p.fixed {
      assert IsDynamic(b, s, s.groups[g].parent);
    }
  }

  /** The same from nothing saved. */
  lemma IntegrityFromEmpty(b: seq<Preset>, rs: seq<Request>)
    requires BuiltinsFine(b)
    ensures Sound(b, Run(b, EMPTY, rs))
  {
    EmptySound(b);
    RunKeepsSound(b, EMPTY, rs);
  }

  // ---------------------------------------------------------------- migrations in runs

  lemma CandidatesApart(b: seq<Preset>, s: State, order: seq<Plan.Candidate>)
    requires Sound(b, s) && Migratable(b, s, order)
    ensures Plan.NamesApart(order)
  {
    forall i, j | 0 <= i < j < |order| ensures Lower(order[i].name) != Lower(order[j].name) {
      var p, q := Preset(order[i].id, order[i].name, true), Preset(order[j].id, order[j].name, true);
      assert p in Visible(b, s) && q in Visible(b, s) && p.id != q.id;
      assert !SameName(p.name, q.name);
      LowerOfStrip(p.name);
      LowerOfStrip(q.name);
    }
  }

  /** In sound stores a migration request is carried out exactly when it names the old presets as it
      should, every group already there has the wanted parent, no other group has the name, and no
      account lies outside its parent. */
  lemma MigratesIff(b: seq<Preset>, s: State, order: seq<Plan.Candidate>)
    requires Sound(b, s)
    ensures MigrateOutcome(b, s, order).Ok?
            <==> Migratable(b, s, order) && Plan.AllChecked(s.groups, order) && Plan.NothingOutside(order)
  {
    if Migratable(b, s, order) {
      CandidatesApart(b, s, order);
      Plan.MigrateOkIff(Plan.Store(s.groups, s.owners), order);
    }
  }

  lemma MigratedGroups(b: seq<Preset>, s: State, order: seq<Plan.Candidate>)
    requires Sound(b, s) && MigrateOutcome(b, s, order).Ok?
    ensures var groups := MigrateOutcome(b, s, order).value.groups;
      && (forall i :: 0 <= i < |order| ==> order[i].id in groups && groups[order[i].id].parent == order[i].parent)
      && (forall g :: g in s.groups ==> g in groups && groups[g] == s.groups[g])
  {
    MigratesIff(b, s, order);
    Plan.MigrateGives(Plan.Store(s.groups, s.owners), order);
    Plan.WithGroupsSpec(s.groups, order);
    var groups := MigrateOutcome(b, s, order).value.groups;
    forall i | 0 <= i < |order| ensures order[i].id in groups && groups[order[i].id].parent == order[i].parent {
      assert Plan.Checked(s.groups, order[i]);
    }
  }

  lemma NothingToMigrate(b: seq<Preset>, s: State, order: seq<Plan.Candidate>)
    requires forall p :: p in Visible(b, s) ==> !p.fixed
    ensures MigrateOutcome(b, s, order) == Err(NotMigratable)
  {
    if order != [] {
      var p := Preset(order[0].id, order[0].name, true);
      assert p in Visible(b, s) || p !in s.custom;
    }
  }

  /** What a migration leaves: no old preset is visible any more, every dynamic one still is, each named
      preset is a group under its parent, groups that were there stay, and asking again is refused. */
  lemma MigrationCompletes(b: seq<Preset>, s: State, order: seq<Plan.Candidate>, again: seq<Plan.Candidate>)
    requires BuiltinsFine(b) && Sound(b, s) && MigrateOutcome(b, s, order).Ok?
    ensures var t := MigrateOutcome(b, s, order).value;
      && (forall p :: p in Visible(b, t) ==> !p.fixed)
      && (forall p :: p in Visible(b, s) && !p.fixed ==> p in Visible(b, t))
      && (forall i :: 0 <= i < |order| ==>
            order[i].id in t.groups && t.groups[order[i].id].parent == order[i].parent)
      && (forall g :: g in s.groups ==> g in t.groups && t.groups[g] == s.groups[g])
      && MigrateOutcome(b, t, again) == Err(NotMigratable)
  {
    MigrateKeeps(b, s, order);
    MigratedGroups(b, s, order);
    NothingToMigrate(b, MigrateOutcome(b, s, order).value, again);
  }

  /** A store from before there were groups, with one old fixed preset. */
  function OldStore(p: Preset): State {
    State([p], map[], {}, map[], map[])
  }

  function OldOrder(p: Preset, parent: string, account: int): seq<Plan.Candidate> {
    [Plan.Candidate(p.id, parent, p.name, [account], {account}, {account})]
  }

  lemma OldStoreSound(b: seq<Preset>, p: Preset)
    requires BuiltinsFine(b) && p.id != ""
    requires forall d :: d in b ==> d.id != p.id && !SameName(d.name, p.name)
    ensures Sound(b, OldStore(p))
    ensures forall q :: q in VisibleBuiltins(b, OldStore(p)) <==> q in b
  {
    var s := OldStore(p);
    forall q: Preset ensures q in VisibleBuiltins(b, s) <==> q in b {
      BuiltinVisibleIff(b, s, q);
    }
    forall x, y | x in Visible(b, s) && y in Visible(b, s) && x.id != y.id ensures !SameName(x.name, y.name) {
      if x in b && y in b {
        var i :| 0 <= i < |b| && b[i] == x;
        var j :| 0 <= j < |b| && b[j] == y;
        assert i < j || j < i;
      }
    }
  }

  lemma OldOrderGives(p: Preset, parent: string, account: int)
    ensures var order := OldOrder(p, parent, account);
      && Plan.Assign(order, map[]) == [[account]]
      && Plan.Commit(order, [[account]], map[]) == map[account := p.id]
      && Plan.WithGroups(map[], order) == Some(map[p.id := Plan.Group(parent, p.name)])
      && Without([p], Ids(order)) == []
  {
    var order := OldOrder(p, parent, account);
    var c := order[0];
    assert order[1..] == [];
    assert Plan.WithFate(c, map[], Plan.Given, [account]) == [account] by {
      assert [account][1..] == [];
    }
    assert Plan.Assigned(c, map[]) == [account];
    assert Plan.Assign([], Plan.Claim(map[], c)) == [];
    assert c in order;
  }

  /** Any old fixed preset that is given a built-in parent becomes a group with its account. */
  lemma OldPresetBecomesGroup(b: seq<Preset>, p: Preset, parent: Preset, account: int)
    requires BuiltinsFine(b) && parent in b && p.id != "" && p.fixed
    requires forall d :: d in b ==> d.id != p.id && !SameName(d.name, p.name)
    ensures Sound(b, OldStore(p))
    ensures MigrateOutcome(b, OldStore(p), OldOrder(p, parent.id, account))
            == Ok(State([], map[], {}, map[p.id := Plan.Group(parent.id, p.name)], map[account := p.id]))
  {
    var s, order := OldStore(p), OldOrder(p, parent.id, account);
    OldStoreSound(b, p);
    assert parent in Visible(b, s);
    assert IsDynamic(b, s, parent.id);
    assert order[0].id == p.id;
    assert Migratable(b, s, order);
    MigratesIff(b, s, order);
    OldOrderGives(p, parent.id, account);
    Plan.MigrateGives(Plan.Store(map[], map[]), order);
  }

  const OLD_PRESET := Preset("custom_1", "VIP", true)

  lemma OldPresetApart(d: Preset)
    requires d in SHIPPED
    ensures d.id != OLD_PRESET.id && !SameName(d.name, OLD_PRESET.name)
  {
    var k :| 0 <= k < 6 && SHIPPED[k] == d;
    ShippedAt(k);
    DifferentAt(d.name, OLD_PRESET.name, 0);
  }

  lemma OldPresetTaken(b: seq<Preset>, p: Preset, parent: Preset, account: int)
    requires BuiltinsFine(b) && parent in b && p.id != "" && p.fixed
    requires forall d :: d in b ==> d.id != p.id && !SameName(d.name, p.name)
    ensures Sound(b, OldStore(p))
    ensures Run(b, OldStore(p), [Migrate(OldOrder(p, parent.id, account))])
            == State([], map[], {}, map[p.id := Plan.Group(parent.id, p.name)], map[account := p.id])
  {
    OldPresetBecomesGroup(b, p, parent, account);
    RunOne(b, OldStore(p), Migrate(OldOrder(p, parent.id, account)));
  }

  /** So migrations do take place in these runs, also with the presets as shipped. */
  lemma OldPresetMigrates(parent: Preset, account: int)
    requires parent in SHIPPED
    ensures BuiltinsFine(SHIPPED) && Sound(SHIPPED, OldStore(OLD_PRESET))
    ensures Run(SHIPPED, OldStore(OLD_PRESET), [Migrate(OldOrder(OLD_PRESET, parent.id, account))])
            == State([], map[], {}, map[OLD_PRESET.id := Plan.Group(parent.id, OLD_PRESET.name)], map[account := OLD_PRESET.id])
  {
    ShippedFine();
    forall d | d in SHIPPED ensures d.id != OLD_PRESET.id && !SameName(d.name, OLD_PRESET.name) {
      OldPresetApart(d);
    }
    OldPresetTaken(SHIPPED, OLD_PRESET, parent, account);
  }

  lemma RunOne(b: seq<Preset>, s: State, r: Request)
    requires Enabled(b, s, r)
    ensures Run(b, s, [r]) == Step(b, s, r)
  {
    assert [r][1..] == [];
    assert Run(b, Step(b, s, r), []) == Step(b, s, r);
  }

  // ---------------------------------------------------------------- the handlers

  /** The saved presets and the group tables, changed in place by the request handlers. */
  class PresetStore {
    var custom: seq<Preset>
    var overrides: map<string, Preset>
    var deleted: set<string>
    var groups: Plan.Groups
    var owners: Plan.Owners

    ghost function Value(): State
      reads this
    {
      State(custom, overrides, deleted, groups, owners)
    }

    constructor ()
      ensures Value() == EMPTY
    {
      custom, overrides, deleted, groups, owners := [], map[], {}, map[], map[];
    }

    method Save()
      modifies this
      ensures Value() == Saved(old(Value()))
    {
      var kept: seq<Preset> := [];
      var seen: set<string> := {};
      var i := 0;
      while i < |custom| && |kept| < MAX_CUSTOM
        invariant 0 <= i <= |custom| && |kept| <= MAX_CUSTOM
        invariant kept + Kept(custom[i..], seen, MAX_CUSTOM - |kept|) == Kept(custom, {}, MAX_CUSTOM)
        invariant Value() == old(Value())
      {
        assert custom[i..][0] == custom[i] && custom[i..][1..] == custom[i + 1..];
        if custom[i].id !in seen {
          seen := seen + {custom[i].id};
          kept := kept + [custom[i]];
        }
        i := i + 1;
      }
      overrides := map k | k in overrides && k !in deleted :: overrides[k];
      custom := kept;
    }

    method Create(b: seq<Preset>, id: string, raw: string) returns (refusal: Option<Refusal>)
      modifies this
      ensures Value() == Step(b, old(Value()), CreatePreset(id, raw))
      ensures Refused(Outcome(b, old(Value()), CreatePreset(id, raw))) == refusal
    {
      var name := Clip(raw, MAX_NAME);
      var s := State(custom, overrides, deleted, groups, owners);
      if name == "" {
        return Some(NoName);
      }
      if NameUsed(b, s, name, "") {
        return Some(DuplicateName);
      }
      custom := custom + [Preset(id, name, false)];
      Save();
      refusal := None;
    }

    /** Change a preset that is not a fixed group. */
    method Change(b: seq<Preset>, id: string, raw: string, fixed: bool) returns (refusal: Option<Refusal>)
      requires id !in groups
      modifies this
      ensures Value() == Step(b, old(Value()), Update(id, raw, fixed, [], false))
      ensures Refused(Outcome(b, old(Value()), Update(id, raw, fixed, [], false))) == refusal
    {
      var name := Clip(raw, MAX_NAME);
      var s := State(custom, overrides, deleted, groups, owners);
      if name == "" {
        return Some(NoName);
      }
      var builtin := IsBuiltin(b, id);
      var i := IndexOf(custom, id);
      if (builtin && id in deleted) || (!builtin && i < 0) {
        return Some(NotFound);
      }
      if NameUsed(b, s, name, id) {
        return Some(DuplicateName);
      }
      if builtin {
        var present := if id in overrides then Some(overrides[id]) else Default(b, id);
        if present.Some? && present.value.fixed != fixed {
          return Some(ModeFixed);
        }
        overrides, deleted := overrides[id := Preset(id, name, fixed)], deleted - {id};
      } else {
        if custom[i].fixed != fixed {
          return Some(ModeFixed);
        }
        custom := custom[i := Preset(id, name, fixed)];
      }
      Save();
      refusal := None;
    }

    /** Create a fixed group under a dynamic preset. */
    method CreateFixedGroup(b: seq<Preset>, id: string, parent: string, raw: string, accounts: seq<int>, move: bool)
      returns (refusal: Option<Refusal>)
      modifies this
      ensures Value() == Step(b, old(Value()), CreateGroup(id, parent, raw, accounts, move))
      ensures Refused(Outcome(b, old(Value()), CreateGroup(id, parent, raw, accounts, move))) == refusal
    {
      var name := Clip(raw, MAX_NAME);
      var s := State(custom, overrides, deleted, groups, owners);
      if name == "" {
        return Some(NoName);
      }
      if !IsDynamic(b, s, parent) {
        return Some(NoParent);
      }
      refusal := WriteGroup(s, id, parent, name, accounts, move);
    }

    /** Change the name and the members of a fixed group; its parent stays. */
    method ChangeFixedGroup(b: seq<Preset>, id: string, raw: string, fixed: bool, accounts: seq<int>, move: bool)
      returns (refusal: Option<Refusal>)
      requires id in groups
      modifies this
      ensures Value() == Step(b, old(Value()), Update(id, raw, fixed, accounts, move))
      ensures Refused(Outcome(b, old(Value()), Update(id, raw, fixed, accounts, move))) == refusal
    {
      var name := Clip(raw, MAX_NAME);
      var s := State(custom, overrides, deleted, groups, owners);
      if name == "" {
        return Some(NoName);
      }
      if !fixed {
        return Some(ModeFixed);
      }
      if Plan.NameClash(groups, id, groups[id].parent, name) {
        return Some(DuplicateName);
      }
      if !IsDynamic(b, s, groups[id].parent) {
        return Some(NoParent);
      }
      refusal := WriteGroup(s, id, groups[id].parent, name, accounts, move);
    }

    /** Store a group and exactly its members, account by account, unless something speaks against it. */
    method WriteGroup(s: State, id: string, parent: string, name: string, accounts: seq<int>, move: bool)
      returns (refusal: Option<Refusal>)
      requires s == Value()
      modifies this
      ensures refusal == if Plan.NameClash(s.groups, id, parent, name) then Some(DuplicateName)
                         else if accounts == [] then Some(NoMembers)
                         else if !move && TakesFromOthers(s, id, accounts) then Some(Conflict) else None
      ensures Value() == if refusal.Some? then s else Members(s.(groups := s.groups[id := Plan.Group(parent, name)]), id, accounts)
    {
      if Plan.NameClash(groups, id, parent, name) {
        return Some(DuplicateName);
      }
      if accounts == [] {
        return Some(NoMembers);
      }
      if !move && TakesFromOthers(s, id, accounts) {
        return Some(Conflict);
      }
      groups := groups[id := Plan.Group(parent, name)];
      ReplaceMembers(id, accounts);
      refusal := None;
    }

    /** Take everyone out of the group, then put the given accounts in one by one. */
    method ReplaceMembers(id: string, accounts: seq<int>)
      modifies this
      ensures Value() == Members(old(Value()), id, accounts)
    {
      owners := map a | a in owners && owners[a] != id :: owners[a];
      ghost var cleared := owners;
      var i := 0;
      while i < |accounts|
        invariant 0 <= i <= |accounts|
        invariant owners == cleared + map a | a in accounts[..i] :: id
        invariant Value() == old(Value()).(owners := owners)
      {
        owners := owners[accounts[i] := id];
        i := i + 1;
      }
      assert accounts[..i] == accounts;
    }

    method Remove(b: seq<Preset>, id: string) returns (refusal: Option<Refusal>)
      modifies this
      ensures Value() == Step(b, old(Value()), Delete(id))
      ensures Refused(Outcome(b, old(Value()), Delete(id))) == refusal
    {
      refusal := None;
      if id in groups {
        groups, owners := groups - {id}, map a | a in owners && owners[a] != id :: owners[a];
      } else if exists g :: g in groups && groups[g].parent == id {
        refusal := Some(HasGroups);
      } else if IsBuiltin(b, id) {
        if id in deleted {
          return Some(NotFound);
        }
        deleted, overrides := deleted + {id}, overrides - {id};
        Save();
      } else {
        if IndexOf(custom, id) < 0 {
          return Some(NotFound);
        }
        custom := Without(custom, {id});
        Save();
      }
    }
  }

  function Refused(o: Result<State, Refusal>): Option<Refusal> {
    match o
    case Ok(_) => None
    case Err(e) => Some(e)
  }
}
