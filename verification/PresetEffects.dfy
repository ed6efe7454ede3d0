/** What each request on presets and fixed groups decides and does, said of what is visible before and
    after it and of the two group tables, and not of the rule that carries it out. */
module PresetEffects {
  import opened Common
  import opened PresetIntegrity
  import opened Text
  import Plan = MigrationPlanner

  // ---------------------------------------------------------------- in the caller's terms

  ghost predicate VisibleId(b: seq<Preset>, s: State, id: string) {
    exists p :: p in Visible(b, s) && p.id == id
  }

  /** Another visible preset has the name, up to case and outer blanks. */
  ghost predicate NameTaken(b: seq<Preset>, s: State, name: string, id: string) {
    exists p :: p in Visible(b, s) && p.id != id && Lower(Strip(p.name)) == Lower(Strip(name))
  }

  ghost predicate HasChild(s: State, id: string) {
    exists g :: g in s.groups && s.groups[g].parent == id
  }

  /** A sibling group has the name, up to case. */
  ghost predicate GroupNameTaken(s: State, id: string, parent: string, name: string) {
    exists g :: g in s.groups && g != id && s.groups[g].parent == parent && Lower(s.groups[g].name) == Lower(name)
  }

  ghost predicate OwnedElsewhere(s: State, id: string, accounts: seq<int>) {
    exists i :: 0 <= i < |accounts| && accounts[i] in s.owners && s.owners[accounts[i]] != id
  }

  /** The presets are the same in both stores. */
  ghost predicate SameVisible(b: seq<Preset>, s: State, t: State) {
    forall p :: p in Visible(b, t) <==> p in Visible(b, s)
  }

  ghost predicate SameGroups(s: State, t: State) {
    t.groups == s.groups && t.owners == s.owners
  }

  // ---------------------------------------------------------------- the visible presets

  lemma BuiltinIsVisible(b: seq<Preset>, s: State, id: string)
    requires BuiltinsFine(b) && PresetsFine(b, s) && IsBuiltin(b, id)
    ensures VisibleId(b, s, id) <==> id !in s.deleted
    ensures Default(b, id).Some?
    ensures id !in s.deleted ==>
      var p := if id in s.overrides then s.overrides[id] else Default(b, id).value;
      p in Visible(b, s) && p.id == id
  {
    DefaultIs(b, id);
    var d := Default(b, id).value;
    if id !in s.deleted {
      VisibleIff(b, s, Shown(s, d));
    }
    forall p | p in Visible(b, s) && p.id == id ensures id !in s.deleted {
      VisibleIff(b, s, p);
    }
  }

  lemma CustomIsVisible(b: seq<Preset>, s: State, id: string)
    requires BuiltinsFine(b) && PresetsFine(b, s) && !IsBuiltin(b, id)
    ensures VisibleId(b, s, id) <==> IndexOf(s.custom, id) >= 0
    ensures IndexOf(s.custom, id) >= 0 ==> s.custom[IndexOf(s.custom, id)] in Visible(b, s)
  {
    var i := IndexOf(s.custom, id);
    if i >= 0 {
      assert s.custom[i] in s.custom;
      VisibleIff(b, s, s.custom[i]);
    }
    forall p | p in Visible(b, s) && p.id == id ensures p in s.custom {
      VisibleIff(b, s, p);
      assert forall d :: d in b ==> Shown(s, d).id == d.id;
    }
  }

  lemma NameUsedIff(b: seq<Preset>, s: State, name: string, id: string)
    requires id != ""
    ensures NameUsed(b, s, name, id) <==> NameTaken(b, s, name, id)
  {
  }

  // ---------------------------------------------------------------- deletion

  /** What a deletion is answered with: a group goes; a preset stays while groups hang under it, and is
      not found when it is not visible. */
  lemma DeleteDecides(b: seq<Preset>, s: State, id: string)
    requires BuiltinsFine(b) && Sound(b, s)
    ensures var o := Outcome(b, s, Delete(id));
      if id in s.groups then o.Ok?
      else if HasChild(s, id) then o == Err(HasGroups)
      else if !VisibleId(b, s, id) then o == Err(NotFound)
      else o.Ok?
  {
    if IsBuiltin(b, id) { BuiltinIsVisible(b, s, id); } else { CustomIsVisible(b, s, id); }
  }

  lemma DroppedCustom(b: seq<Preset>, s: State, id: string, p: Preset)
    requires BuiltinsFine(b) && Sound(b, s) && !IsBuiltin(b, id)
    ensures p in Visible(b, s.(custom := Without(s.custom, {id}))) <==> p in Visible(b, s) && p.id != id
  {
    VisibleSameBuiltins(b, s, s.(custom := Without(s.custom, {id})));
    BuiltinVisibleIff(b, s, p);
    assert forall d :: d in b ==> Shown(s, d).id == d.id && d.id != id;
  }

  /** A deleted preset is gone, every other visible preset stays, the group tables are untouched, and
      deleting it again finds nothing. */
  lemma DeletedPresetIsGone(b: seq<Preset>, s: State, id: string)
    requires BuiltinsFine(b) && Sound(b, s) && id !in s.groups && Outcome(b, s, Delete(id)).Ok?
    ensures var t := Step(b, s, Delete(id));
      && (forall p :: p in Visible(b, t) <==> p in Visible(b, s) && p.id != id)
      && SameGroups(s, t)
      && Outcome(b, t, Delete(id)) == Err(NotFound)
  {
    var t := Step(b, s, Delete(id));
    if IsBuiltin(b, id) {
      DropBuiltinKeeps(b, s, id);
      forall p: Preset ensures p in Visible(b, t) <==> p in Visible(b, s) && p.id != id {
        DropVisible(b, s, id, p);
      }
    } else {
      DropCustomKeeps(b, s, {id});
      forall p: Preset ensures p in Visible(b, t) <==> p in Visible(b, s) && p.id != id {
        DroppedCustom(b, s, id, p);
      }
    }
    DeleteKeeps(b, s, id);
    DeleteDecides(b, t, id);
  }

  /** A deleted group is gone, exactly its accounts lose their owner, and nothing else changes. */
  lemma DeletedGroupIsGone(b: seq<Preset>, s: State, id: string)
    requires Sound(b, s) && id in s.groups
    ensures var t := Step(b, s, Delete(id));
      && (forall g :: g in t.groups <==> g in s.groups && g != id)
      && (forall g :: g in t.groups ==> t.groups[g] == s.groups[g])
      && (forall a :: a in t.owners <==> a in s.owners && s.owners[a] != id)
      && (forall a :: a in t.owners ==> t.owners[a] == s.owners[a])
      && SameVisible(b, s, t)
  {
    VisibleSameBuiltins(b, s, Step(b, s, Delete(id)));
  }

  // ---------------------------------------------------------------- changing a preset

  /** What a change of a preset is answered with. */
  lemma UpdateDecides(b: seq<Preset>, s: State, id: string, raw: string, fixed: bool, accounts: seq<int>, move: bool)
    requires BuiltinsFine(b) && Sound(b, s) && id !in s.groups
    ensures var o := Outcome(b, s, Update(id, raw, fixed, accounts, move));
            var name := Clip(raw, 80);
      if name == "" then o == Err(NoName)
      else if !VisibleId(b, s, id) then o == Err(NotFound)
      else if NameTaken(b, s, name, id) then o == Err(DuplicateName)
      else if exists p :: p in Visible(b, s) && p.id == id && p.fixed != fixed then o == Err(ModeFixed)
      else o.Ok?
  {
    if IsBuiltin(b, id) { BuiltinIsVisible(b, s, id); } else { CustomIsVisible(b, s, id); }
    if VisibleId(b, s, id) {
      VisibleNotBlank(b, s, id);
      NameUsedIff(b, s, Clip(raw, 80), id);
      var shown := if IsBuiltin(b, id) then (if id in s.overrides then s.overrides[id] else Default(b, id).value)
                   else s.custom[IndexOf(s.custom, id)];
      assert shown in Visible(b, s) && shown.id == id;
      forall p | p in Visible(b, s) && p.id == id ensures p == shown {
        VisibleUnique(b, s, p, shown);
      }
    }
  }

  lemma VisibleNotBlank(b: seq<Preset>, s: State, id: string)
    requires BuiltinsFine(b) && PresetsFine(b, s) && VisibleId(b, s, id)
    ensures id != ""
  {
    var p :| p in Visible(b, s) && p.id == id;
    VisibleIff(b, s, p);
    assert forall d :: d in b ==> Shown(s, d).id == d.id && d.id != "";
  }

  /** A changed preset is shown with its new name and its mode, every other visible preset stays, and the
      group tables are untouched. */
  lemma UpdatedPresetIsShown(b: seq<Preset>, s: State, id: string, raw: string, fixed: bool, accounts: seq<int>, move: bool)
    requires BuiltinsFine(b) && Sound(b, s) && id !in s.groups && Outcome(b, s, Update(id, raw, fixed, accounts, move)).Ok?
    ensures var t := Step(b, s, Update(id, raw, fixed, accounts, move));
      && (forall p :: p in Visible(b, t) <==> (p in Visible(b, s) && p.id != id) || p == Preset(id, Clip(raw, 80), fixed))
      && SameGroups(s, t)
  {
    var name := Clip(raw, 80);
    var i := IndexOf(s.custom, id);
    UpdatePresetKeeps(b, s, id, name, fixed);
    if IsBuiltin(b, id) {
      var u := s.(overrides := s.overrides[id := Preset(id, name, fixed)]);
      forall p: Preset ensures p in Visible(b, u) <==> (p in Visible(b, s) && p.id != id) || p == Preset(id, name, fixed) {
        OverrideVisible(b, s, id, name, fixed, p);
      }
      SavedIdentity(u);
      assert s.deleted - {id} == s.deleted;
    } else {
      var u := s.(custom := s.custom[i := Preset(id, name, fixed)]);
      forall p: Preset ensures p in Visible(b, u) <==> (p in Visible(b, s) && p.id != id) || p == Preset(id, name, fixed) {
        EditVisible(b, s, i, name, fixed, p);
      }
      assert IdsDistinct(u.custom);
      SavedIdentity(u);
    }
  }

  // ---------------------------------------------------------------- writing a group

  /** The group has this parent and name and exactly these accounts; other groups, and accounts that are
      neither given nor its old members, stay; so do the presets. */
  ghost predicate GroupWritten(b: seq<Preset>, s: State, t: State, id: string, parent: string, name: string, accounts: seq<int>) {
    && id in t.groups && t.groups[id].parent == parent && t.groups[id].name == name
    && (forall g :: g != id ==> (g in t.groups <==> g in s.groups) && (g in s.groups ==> t.groups[g] == s.groups[g]))
    && (forall a :: a in t.owners && t.owners[a] == id <==> exists i :: 0 <= i < |accounts| && accounts[i] == a)
    && (forall a :: a in t.owners && t.owners[a] != id ==> a in s.owners && s.owners[a] == t.owners[a])
    && (forall a :: a in s.owners && s.owners[a] != id && a !in accounts ==> a in t.owners && t.owners[a] == s.owners[a])
    && SameVisible(b, s, t)
  }

  lemma MembersWritten(b: seq<Preset>, s: State, id: string, parent: string, name: string, accounts: seq<int>)
    ensures GroupWritten(b, s, Members(s.(groups := s.groups[id := Plan.Group(parent, name)]), id, accounts),
                         id, parent, name, accounts)
  {
    VisibleSameBuiltins(b, s, Members(s.(groups := s.groups[id := Plan.Group(parent, name)]), id, accounts));
  }

  /** What creating a group is answered with, and what it writes. */
  lemma CreateGroupDecides(b: seq<Preset>, s: State, id: string, parent: string, raw: string, accounts: seq<int>, move: bool)
    ensures var r := CreateGroup(id, parent, raw, accounts, move);
            var name := Clip(raw, 80);
      if name == "" then Outcome(b, s, r) == Err(NoName)
      else if !(exists p :: p in Visible(b, s) && p.id == parent && !p.fixed) then Outcome(b, s, r) == Err(NoParent)
      else if GroupNameTaken(s, id, parent, name) then Outcome(b, s, r) == Err(DuplicateName)
      else if accounts == [] then Outcome(b, s, r) == Err(NoMembers)
      else if !move && OwnedElsewhere(s, id, accounts) then Outcome(b, s, r) == Err(Conflict)
      else Outcome(b, s, r).Ok? && GroupWritten(b, s, Step(b, s, r), id, parent, name, accounts)
  {
    ElsewhereIff(s, id, accounts);
    MembersWritten(b, s, id, parent, Clip(raw, 80), accounts);
  }

  lemma ElsewhereIff(s: State, id: string, accounts: seq<int>)
    ensures TakesFromOthers(s, id, accounts) <==> OwnedElsewhere(s, id, accounts)
  {
    if TakesFromOthers(s, id, accounts) {
      var a :| a in accounts && a in s.owners && s.owners[a] != id;
      var i :| 0 <= i < |accounts| && accounts[i] == a;
      assert accounts[i] in s.owners && s.owners[accounts[i]] != id;
    }
    if OwnedElsewhere(s, id, accounts) {
      var i :| 0 <= i < |accounts| && accounts[i] in s.owners && s.owners[accounts[i]] != id;
      var a := accounts[i];
      assert a in accounts && a in s.owners && s.owners[a] != id;
    }
  }

  /** What changing a group is answered with, and what it writes; its parent stays. */
  lemma UpdateGroupDecides(b: seq<Preset>, s: State, id: string, raw: string, fixed: bool, accounts: seq<int>, move: bool)
    requires Sound(b, s) && id in s.groups
    ensures var r := Update(id, raw, fixed, accounts, move);
            var name, parent := Clip(raw, 80), s.groups[id].parent;
      if name == "" then Outcome(b, s, r) == Err(NoName)
      else if !fixed then Outcome(b, s, r) == Err(ModeFixed)
      else if GroupNameTaken(s, id, parent, name) then Outcome(b, s, r) == Err(DuplicateName)
      else if accounts == [] then Outcome(b, s, r) == Err(NoMembers)
      else if !move && OwnedElsewhere(s, id, accounts) then Outcome(b, s, r) == Err(Conflict)
      else Outcome(b, s, r).Ok? && GroupWritten(b, s, Step(b, s, r), id, parent, name, accounts)
  {
    ElsewhereIff(s, id, accounts);
    MembersWritten(b, s, id, s.groups[id].parent, Clip(raw, 80), accounts);
    assert IsDynamic(b, s, s.groups[id].parent);
  }

  // ---------------------------------------------------------------- creating a preset

  /** What creating a preset is answered with, and what is visible afterwards. */
  lemma CreateDecides(b: seq<Preset>, s: State, id: string, raw: string)
    requires BuiltinsFine(b) && Sound(b, s) && Fresh(b, s, id)
    ensures var r := CreatePreset(id, raw);
            var t := Step(b, s, r);
            var name := Clip(raw, 80);
      && (if name == "" then Outcome(b, s, r) == Err(NoName)
          else if NameTaken(b, s, name, id) then Outcome(b, s, r) == Err(DuplicateName)
          else Outcome(b, s, r).Ok?)
      && (Outcome(b, s, r).Ok? ==>
            && (forall p :: p in Visible(b, t) <==> p in Visible(b, s) || (p == Preset(id, name, false) && |s.custom| < 80))
            && SameGroups(s, t))
  {
    var made := Preset(id, Clip(raw, 80), false);
    FreshNotVisible(b, s, id);
    assert NameUsed(b, s, Clip(raw, 80), "") <==> NameTaken(b, s, Clip(raw, 80), id);
    if Outcome(b, s, CreatePreset(id, raw)).Ok? {
      CreatePresetKeeps(b, s, id, raw);
      VisibleSameBuiltins(b, s, s.(custom := s.custom + [made]));
    }
  }

  lemma FreshNotVisible(b: seq<Preset>, s: State, id: string)
    requires BuiltinsFine(b) && Sound(b, s) && Fresh(b, s, id)
    ensures !VisibleId(b, s, id)
  {
    CustomIsVisible(b, s, id);
    assert forall i :: 0 <= i < |s.custom| ==> s.custom[i] in s.custom;
  }

  // ---------------------------------------------------------------- migration

  /** The account is stored in the old preset, still exists, and satisfies the conditions of its parent. */
  ghost predicate MayHave(c: Plan.Candidate, a: int) {
    a in c.stored && a in c.resolved && a in c.admitted
  }

  ghost predicate FirstToHave(order: seq<Plan.Candidate>, a: int, i: nat) {
    i < |order| && MayHave(order[i], a) && forall j :: 0 <= j < i ==> !MayHave(order[j], a)
  }

  ghost predicate NobodyMayHave(order: seq<Plan.Candidate>, a: int) {
    forall i :: 0 <= i < |order| ==> !MayHave(order[i], a)
  }

  lemma {:induction false} FirstToHaveTakes(order: seq<Plan.Candidate>, owners: Plan.Owners, a: int, i: nat)
    requires a !in owners && FirstToHave(order, a, i)
    ensures Plan.Taker(order, owners, a) == Some(order[i].id)
  {
    if i > 0 {
      assert !MayHave(order[0], a);
      assert forall j :: 0 <= j < |order| - 1 ==> order[1..][j] == order[j + 1];
      FirstToHaveTakes(order[1..], owners, a, i - 1);
    }
  }

  lemma {:induction false} NobodyTakes(order: seq<Plan.Candidate>, owners: Plan.Owners, a: int)
    requires a !in owners && NobodyMayHave(order, a)
    ensures Plan.Taker(order, owners, a) == None
  {
    if order != [] {
      assert !MayHave(order[0], a);
      assert forall j :: 0 <= j < |order| - 1 ==> order[1..][j] == order[j + 1];
      NobodyTakes(order[1..], owners, a);
    }
  }

  /** Where an account is after a migration: without a group before, in the first listed preset that may
      have it, or still in none; in a group that is not migrated, still there. */
  ghost predicate MovedRightly(order: seq<Plan.Candidate>, owners: Plan.Owners, after: Plan.Owners, a: int) {
    && (forall i: nat :: a !in owners && FirstToHave(order, a, i) ==> a in after && after[a] == order[i].id)
    && (a !in owners && NobodyMayHave(order, a) ==> a !in after)
    && (a in owners && (forall i :: 0 <= i < |order| ==> order[i].id != owners[a]) ==> a in after && after[a] == owners[a])
  }

  lemma NewcomersMoveRightly(order: seq<Plan.Candidate>, owners: Plan.Owners, a: int)
    requires Plan.DistinctIds(order) && a !in owners
    ensures MovedRightly(order, owners, Plan.Commit(order, Plan.Assign(order, owners), owners), a)
  {
    var plan := Plan.Assign(order, owners);
    Plan.AssignDisjoint(order, owners);
    Plan.CommitAt(order, plan, owners, a);
    Plan.UnownedAfterCommit(order, owners, a);
    forall i: nat | FirstToHave(order, a, i) ensures Plan.Taker(order, owners, a) == Some(order[i].id) {
      FirstToHaveTakes(order, owners, a, i);
    }
    if NobodyMayHave(order, a) { NobodyTakes(order, owners, a); }
  }

  lemma MembersMoveRightly(order: seq<Plan.Candidate>, owners: Plan.Owners, a: int)
    requires Plan.DistinctIds(order) && a in owners
    ensures MovedRightly(order, owners, Plan.Commit(order, Plan.Assign(order, owners), owners), a)
  {
    var plan := Plan.Assign(order, owners);
    Plan.AssignDisjoint(order, owners);
    Plan.CommitAt(order, plan, owners, a);
    if forall i :: 0 <= i < |order| ==> order[i].id != owners[a] {
      forall i | 0 <= i < |order| ensures a !in plan[i] {
        Plan.OwnedNotElsewhere(order, owners, a, i);
      }
      Plan.NotPlanned(order, plan, a);
    }
  }

  /** A migration moves every account rightly, and so does one that stops before the presets are saved,
      which leaves the same group tables and all presets as they were. */
  lemma MigratedAccounts(b: seq<Preset>, s: State, order: seq<Plan.Candidate>, a: int)
    requires MigrateOutcome(b, s, order).Ok?
    ensures InterruptedOutcome(b, s, order).Ok?
    ensures SameGroups(MigrateOutcome(b, s, order).value, InterruptedOutcome(b, s, order).value)
    ensures SameVisible(b, s, InterruptedOutcome(b, s, order).value)
    ensures MovedRightly(order, s.owners, MigrateOutcome(b, s, order).value.owners, a)
  {
    Plan.MigrateGives(Plan.Store(s.groups, s.owners), order);
    if a in s.owners { MembersMoveRightly(order, s.owners, a); } else { NewcomersMoveRightly(order, s.owners, a); }
    VisibleSameBuiltins(b, s, InterruptedOutcome(b, s, order).value);
  }
}
