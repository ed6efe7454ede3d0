/** Moving old fixed presets into fixed groups: which account goes where, and what a second run after
    an interrupted first one does. */
module MigrationPlanner {
  import opened Common
  import opened Text

  /** One old fixed preset with its chosen parent: the stored account ids, those that still name the
      same account, and those that the parent's conditions admit. */
  datatype Candidate = Candidate(id: string, parent: string, name: string, stored: seq<int>, resolved: set<int>, admitted: set<int>)

  /** Which group each account belongs to; an account has at most one row. */
  type Owners = map<int, string>

  predicate Eligible(c: Candidate, a: int) {
    a in c.stored && a in c.resolved && a in c.admitted
  }

  ghost predicate DistinctIds(order: seq<Candidate>) {
    forall i, j :: 0 <= i < j < |order| ==> order[i].id != order[j].id
  }

  // ---------------------------------------------------------------- one group

  predicate Free(claimed: Owners, a: int, id: string) {
    a !in claimed || claimed[a] == id
  }

  /** What the plan says of one stored account. */
  datatype Fate = Given | Conflict | Missing | Outside

  function FateOf(c: Candidate, claimed: Owners, a: int): Fate {
    if a !in c.resolved then Missing
    else if a !in c.admitted then Outside
    else if Free(claimed, a, c.id) then Given
    else Conflict
  }

  /** The stored accounts with one fate, in their stored order. */
  function WithFate(c: Candidate, claimed: Owners, fate: Fate, stored: seq<int>): (r: seq<int>)
    ensures forall a :: a in r <==> a in stored && FateOf(c, claimed, a) == fate
  {
    if stored == [] then []
    else
      var rest := WithFate(c, claimed, fate, stored[1..]);
      if FateOf(c, claimed, stored[0]) == fate then [stored[0]] + rest else rest
  }

  function Assigned(c: Candidate, claimed: Owners): seq<int> {
    WithFate(c, claimed, Given, c.stored)
  }

  /** Every stored account is counted exactly once. */
  lemma {:induction false} CountsAddUp(c: Candidate, claimed: Owners, stored: seq<int>)
    ensures |stored| == |WithFate(c, claimed, Given, stored)| + |WithFate(c, claimed, Conflict, stored)|
                      + |WithFate(c, claimed, Missing, stored)| + |WithFate(c, claimed, Outside, stored)|
  {
    if stored != [] { CountsAddUp(c, claimed, stored[1..]); }
  }

  // ---------------------------------------------------------------- all groups in priority order

  function Claim(claimed: Owners, c: Candidate): Owners {
    claimed + map a | a in Assigned(c, claimed) :: c.id
  }

  /** The assignments of all groups, each seeing what the earlier ones took. */
  function Assign(order: seq<Candidate>, claimed: Owners): (r: seq<seq<int>>)
    ensures |r| == |order|
  {
    if order == [] then [] else [Assigned(order[0], claimed)] + Assign(order[1..], Claim(claimed, order[0]))
  }

  /** Who gets an account, said directly: its present owner, or else the first group that may have it. */
  function Taker(order: seq<Candidate>, owners: Owners, a: int): Option<string> {
    if a in owners then Some(owners[a])
    else if order == [] then None
    else if Eligible(order[0], a) then Some(order[0].id)
    else Taker(order[1..], owners, a)
  }

  lemma {:induction false} TakerAfterHead(order: seq<Candidate>, claimed: Owners, a: int)
    requires order != []
    ensures Taker(order[1..], Claim(claimed, order[0]), a) == Taker(order, claimed, a)
  {
    var after := Claim(claimed, order[0]);
    if a !in claimed && !Eligible(order[0], a) {
      assert a !in after;
      TakerIgnoresOthers(order[1..], claimed, after, a);
    }
  }

  lemma {:induction false} TakerIgnoresOthers(order: seq<Candidate>, x: Owners, y: Owners, a: int)
    requires a in x <==> a in y
    requires a in x ==> x[a] == y[a]
    ensures Taker(order, x, a) == Taker(order, y, a)
  {
    if order != [] { TakerIgnoresOthers(order[1..], x, y, a); }
  }

  /** The greedy planner does what was asked: an account is assigned to a group exactly when the group
      may have it and is the one who gets it. */
  lemma {:induction false} PlannerRefinesSpec(order: seq<Candidate>, owners: Owners, i: nat, a: int)
    requires DistinctIds(order) && i < |order|
    ensures a in Assign(order, owners)[i] <==> Eligible(order[i], a) && Taker(order, owners, a) == Some(order[i].id)
  {
    if i == 0 {
      if a !in owners && !Eligible(order[0], a) { TakerIsLater(order, owners, a); }
    } else {
      PlannerRefinesSpec(order[1..], Claim(owners, order[0]), i - 1, a);
      TakerAfterHead(order, owners, a);
    }
  }

  lemma TakerIsLater(order: seq<Candidate>, owners: Owners, a: int)
    requires DistinctIds(order) && order != [] && a !in owners && !Eligible(order[0], a)
    ensures Taker(order, owners, a) != Some(order[0].id)
  {
    TakerIsListed(order[1..], owners, a);
  }

  lemma {:induction false} TakerIsListed(order: seq<Candidate>, owners: Owners, a: int)
    requires a !in owners
    ensures Taker(order, owners, a).Some? ==>
              exists i :: 0 <= i < |order| && Eligible(order[i], a) && Taker(order, owners, a) == Some(order[i].id)
    ensures Taker(order, owners, a).None? <==> forall i :: 0 <= i < |order| ==> !Eligible(order[i], a)
  {
    if order != [] {
      TakerIsListed(order[1..], owners, a);
      if !Eligible(order[0], a) && Taker(order, owners, a).Some? {
        var i :| 0 <= i < |order[1..]| && Eligible(order[1..][i], a) && Taker(order[1..], owners, a) == Some(order[1..][i].id);
        assert order[i + 1] == order[1..][i];
      }
      assert forall i :: 0 < i < |order| ==> order[i] == order[1..][i - 1];
    }
  }

  /** No account is assigned to two groups. */
  lemma AssignmentsDisjoint(order: seq<Candidate>, owners: Owners, i: nat, j: nat, a: int)
    requires DistinctIds(order) && i < j < |order|
    ensures !(a in Assign(order, owners)[i] && a in Assign(order, owners)[j])
  {
    PlannerRefinesSpec(order, owners, i, a);
    PlannerRefinesSpec(order, owners, j, a);
  }

  // ---------------------------------------------------------------- committing the plan

  /** Give a group exactly these accounts. */
  function Replaced(owners: Owners, id: string, accounts: seq<int>): Owners {
    (map a | a in owners && owners[a] != id :: owners[a]) + map a | a in accounts :: id
  }

  /** Groups that get nothing keep the members they have. */
  function Commit(order: seq<Candidate>, plan: seq<seq<int>>, owners: Owners): Owners
    requires |plan| == |order|
  {
    if order == [] then owners
    else Commit(order[1..], plan[1..], if plan[0] == [] then owners else Replaced(owners, order[0].id, plan[0]))
  }

  ghost predicate Disjoint(plan: seq<seq<int>>) {
    forall i, j, a :: 0 <= i < j < |plan| && a in plan[i] ==> a !in plan[j]
  }

  function Planned(order: seq<Candidate>, plan: seq<seq<int>>, a: int): Option<string>
    requires |plan| == |order|
  {
    if order == [] then None
    else if a in plan[0] then Some(order[0].id)
    else Planned(order[1..], plan[1..], a)
  }

  /** Group `id` has its members replaced. */
  predicate Replaces(order: seq<Candidate>, plan: seq<seq<int>>, id: string)
    requires |plan| == |order|
  {
    exists i :: 0 <= i < |order| && order[i].id == id && plan[i] != []
  }

  /** The owner of an account after the commit. */
  function OwnerAfter(order: seq<Candidate>, plan: seq<seq<int>>, owners: Owners, a: int): Option<string>
    requires |plan| == |order|
  {
    match Planned(order, plan, a)
    case Some(id) => Some(id)
    case None => if a in owners && !Replaces(order, plan, owners[a]) then Some(owners[a]) else None
  }

  lemma ReplacesStep(order: seq<Candidate>, plan: seq<seq<int>>, id: string)
    requires |plan| == |order| && order != []
    ensures Replaces(order, plan, id) <==> (order[0].id == id && plan[0] != []) || Replaces(order[1..], plan[1..], id)
  {
    if Replaces(order, plan, id) {
      var i :| 0 <= i < |order| && order[i].id == id && plan[i] != [];
      if i > 0 { assert order[1..][i - 1].id == id && plan[1..][i - 1] != []; }
    }
    if Replaces(order[1..], plan[1..], id) {
      var i :| 0 <= i < |order[1..]| && order[1..][i].id == id && plan[1..][i] != [];
      assert order[i + 1].id == id && plan[i + 1] != [];
    }
  }

  lemma {:induction false} PlannedIn(order: seq<Candidate>, plan: seq<seq<int>>, a: int, i: nat)
    requires |plan| == |order| && i < |order| && a in plan[i] && Disjoint(plan)
    ensures Planned(order, plan, a) == Some(order[i].id)
  {
    if i > 0 {
      assert a in plan[1..][i - 1];
      assert forall x, y, b :: 0 <= x < y < |plan[1..]| && b in plan[1..][x] ==> b !in plan[1..][y];
      PlannedIn(order[1..], plan[1..], a, i - 1);
    }
  }

  lemma {:induction false} NotPlanned(order: seq<Candidate>, plan: seq<seq<int>>, a: int)
    requires |plan| == |order|
    requires forall i :: 0 <= i < |plan| ==> a !in plan[i]
    ensures Planned(order, plan, a).None?
  {
    if order != [] { NotPlanned(order[1..], plan[1..], a); }
  }

  lemma {:induction false} PlannedListed(order: seq<Candidate>, plan: seq<seq<int>>, a: int)
    requires |plan| == |order|
    ensures Planned(order, plan, a).Some? ==> exists i :: 0 <= i < |order| && Planned(order, plan, a) == Some(order[i].id)
  {
    if order != [] && a !in plan[0] {
      PlannedListed(order[1..], plan[1..], a);
      assert forall i :: 0 <= i < |order| - 1 ==> order[1..][i] == order[i + 1];
    }
  }

  /** The commit leaves each account with the owner just described. */
  lemma {:induction false} CommitAt(order: seq<Candidate>, plan: seq<seq<int>>, owners: Owners, a: int)
    requires |plan| == |order| && DistinctIds(order) && Disjoint(plan)
    ensures a in Commit(order, plan, owners) <==> OwnerAfter(order, plan, owners, a).Some?
    ensures a in Commit(order, plan, owners) ==> Some(Commit(order, plan, owners)[a]) == OwnerAfter(order, plan, owners, a)
  {
    if order != [] {
      var id := order[0].id;
      var next := if plan[0] == [] then owners else Replaced(owners, id, plan[0]);
      CommitAt(order[1..], plan[1..], next, a);
      ReplacesStep(order, plan, id);
      if a in owners { ReplacesStep(order, plan, owners[a]); }
      assert !Replaces(order[1..], plan[1..], id);
      if a in plan[0] {
        NotPlanned(order[1..], plan[1..], a);
      }
    }
  }

  lemma AssignDisjoint(order: seq<Candidate>, owners: Owners)
    requires DistinctIds(order)
    ensures Disjoint(Assign(order, owners))
  {
    forall i, j, a | 0 <= i < j < |order| && a in Assign(order, owners)[i] ensures a !in Assign(order, owners)[j] {
      AssignmentsDisjoint(order, owners, i, j, a);
    }
  }

  /** When the members of group `i` are replaced, none of its accounts belongs to another group, so the
      replacement, which refuses to move accounts, never refuses. */
  lemma CommitMovesNobody(order: seq<Candidate>, owners: Owners, i: nat, a: int)
    requires DistinctIds(order) && i < |order|
    ensures var plan := Assign(order, owners);
            a in plan[i] ==> a in order[i].resolved && Free(Commit(order[..i], plan[..i], owners), a, order[i].id)
  {
    var plan := Assign(order, owners);
    if a in plan[i] {
      AssignDisjoint(order, owners);
      PlannerRefinesSpec(order, owners, i, a);
      var before, part := order[..i], plan[..i];
      assert forall j :: 0 <= j < |part| ==> part[j] == plan[j];
      NotPlanned(before, part, a);
      CommitAt(before, part, owners, a);
    }
  }

  // ---------------------------------------------------------------- running it again

  /** The account belongs to a migrated group that is given new members, and is not one of them: the
      commit takes it out of the group. */
  ghost predicate Dropped(order: seq<Candidate>, owners: Owners, a: int) {
    && a in owners
    && (exists i :: 0 <= i < |order| && order[i].id == owners[a] && Assign(order, owners)[i] != [] && !Eligible(order[i], a))
  }

  ghost predicate Wanted(order: seq<Candidate>, a: int) {
    exists i :: 0 <= i < |order| && Eligible(order[i], a)
  }

  lemma OwnedNotElsewhere(order: seq<Candidate>, owners: Owners, a: int, i: nat)
    requires DistinctIds(order) && i < |order| && a in owners
    ensures a in Assign(order, owners)[i] <==> Eligible(order[i], a) && owners[a] == order[i].id
  {
    PlannerRefinesSpec(order, owners, i, a);
  }

  /** After the commit an account that was not dropped would be taken by the same group again. */
  lemma TakerAfterCommit(order: seq<Candidate>, owners: Owners, a: int)
    requires DistinctIds(order)
    ensures var after := Commit(order, Assign(order, owners), owners);
            && (Dropped(order, owners, a) ==> a !in after)
            && (!Dropped(order, owners, a) ==> Taker(order, after, a) == Taker(order, owners, a))
  {
    var plan := Assign(order, owners);
    var after := Commit(order, plan, owners);
    AssignDisjoint(order, owners);
    CommitAt(order, plan, owners, a);
    if a in owners {
      forall i | 0 <= i < |order| ensures a in plan[i] <==> Eligible(order[i], a) && owners[a] == order[i].id {
        OwnedNotElsewhere(order, owners, a, i);
      }
      OwnedAfterCommit(order, owners, a);
    } else {
      UnownedAfterCommit(order, owners, a);
      if a !in after { TakerIgnoresOthers(order, after, owners, a); }
    }
  }

  lemma OwnedAfterCommit(order: seq<Candidate>, owners: Owners, a: int)
    requires DistinctIds(order) && a in owners && Disjoint(Assign(order, owners))
    requires forall i :: 0 <= i < |order| ==> (a in Assign(order, owners)[i] <==> Eligible(order[i], a) && owners[a] == order[i].id)
    ensures OwnerAfter(order, Assign(order, owners), owners, a)
         == if Dropped(order, owners, a) then None else Some(owners[a])
  {
    var plan := Assign(order, owners);
    if i :| 0 <= i < |order| && a in plan[i] {
      PlannedIn(order, plan, a, i);
      assert forall j :: 0 <= j < |order| && order[j].id == owners[a] ==> j == i;
    } else {
      NotPlanned(order, plan, a);
    }
  }

  lemma UnownedAfterCommit(order: seq<Candidate>, owners: Owners, a: int)
    requires DistinctIds(order) && a !in owners && Disjoint(Assign(order, owners))
    ensures OwnerAfter(order, Assign(order, owners), owners, a) == Taker(order, owners, a)
  {
    var plan := Assign(order, owners);
    TakerIsListed(order, owners, a);
    if Taker(order, owners, a).Some? {
      var i :| 0 <= i < |order| && Eligible(order[i], a) && Taker(order, owners, a) == Some(order[i].id);
      PlannerRefinesSpec(order, owners, i, a);
      PlannedIn(order, plan, a, i);
    } else {
      forall i | 0 <= i < |order| ensures a !in plan[i] {
        PlannerRefinesSpec(order, owners, i, a);
      }
      NotPlanned(order, plan, a);
    }
  }

  lemma {:induction false} SameFatesSameList(c: Candidate, x: Owners, y: Owners, stored: seq<int>)
    requires forall a :: a in stored ==> (FateOf(c, x, a) == Given <==> FateOf(c, y, a) == Given)
    ensures WithFate(c, x, Given, stored) == WithFate(c, y, Given, stored)
  {
    if stored != [] { SameFatesSameList(c, x, y, stored[1..]); }
  }

  /** What is claimed when the turn of group `i` comes. */
  function ClaimedBefore(order: seq<Candidate>, owners: Owners, i: nat): Owners
    requires i <= |order|
  {
    if i == 0 then owners else ClaimedBefore(order[1..], Claim(owners, order[0]), i - 1)
  }

  lemma {:induction false} AssignAt(order: seq<Candidate>, owners: Owners, i: nat)
    requires i < |order|
    ensures Assign(order, owners)[i] == Assigned(order[i], ClaimedBefore(order, owners, i))
  {
    if i > 0 { AssignAt(order[1..], Claim(owners, order[0]), i - 1); }
  }

  lemma SameTakersSamePlan(order: seq<Candidate>, x: Owners, y: Owners)
    requires DistinctIds(order)
    requires forall a, i :: 0 <= i < |order| && Eligible(order[i], a) ==> Taker(order, x, a) == Taker(order, y, a)
    ensures Assign(order, x) == Assign(order, y)
  {
    forall i | 0 <= i < |order| ensures Assign(order, x)[i] == Assign(order, y)[i] {
      AssignAt(order, x, i);
      AssignAt(order, y, i);
      var cx, cy := ClaimedBefore(order, x, i), ClaimedBefore(order, y, i);
      forall a | a in order[i].stored ensures FateOf(order[i], cx, a) == Given <==> FateOf(order[i], cy, a) == Given {
        PlannerRefinesSpec(order, x, i, a);
        PlannerRefinesSpec(order, y, i, a);
      }
      SameFatesSameList(order[i], cx, cy, order[i].stored);
    }
  }

  /** Running the same migration again gives every group the same accounts if and only if no account
      that the first run takes out of a migrated group is one that some migrated group may have. */
  lemma RerunSameIff(order: seq<Candidate>, owners: Owners)
    requires DistinctIds(order)
    ensures var plan := Assign(order, owners);
            Assign(order, Commit(order, plan, owners)) == plan
            <==> forall a :: Dropped(order, owners, a) ==> !Wanted(order, a)
  {
    var plan := Assign(order, owners);
    var after := Commit(order, plan, owners);
    if forall a :: Dropped(order, owners, a) ==> !Wanted(order, a) {
      forall a, i | 0 <= i < |order| && Eligible(order[i], a) ensures Taker(order, after, a) == Taker(order, owners, a) {
        assert Wanted(order, a);
        TakerAfterCommit(order, owners, a);
      }
      SameTakersSamePlan(order, after, owners);
    } else {
      var a :| Dropped(order, owners, a) && Wanted(order, a);
      DroppedIsRetaken(order, owners, a);
    }
  }

  lemma DroppedNotGiven(order: seq<Candidate>, owners: Owners, a: int, i: nat)
    requires DistinctIds(order) && Dropped(order, owners, a) && i < |order|
    ensures a !in Assign(order, owners)[i]
  {
    OwnedNotElsewhere(order, owners, a, i);
    var k :| 0 <= k < |order| && order[k].id == owners[a] && Assign(order, owners)[k] != [] && !Eligible(order[k], a);
  }

  lemma DroppedIsRetaken(order: seq<Candidate>, owners: Owners, a: int)
    requires DistinctIds(order) && Dropped(order, owners, a) && Wanted(order, a)
    ensures Assign(order, Commit(order, Assign(order, owners), owners)) != Assign(order, owners)
  {
    var after := Commit(order, Assign(order, owners), owners);
    TakerAfterCommit(order, owners, a);
    TakerIsListed(order, after, a);
    var i :| 0 <= i < |order| && Eligible(order[i], a) && Taker(order, after, a) == Some(order[i].id);
    PlannerRefinesSpec(order, after, i, a);
    DroppedNotGiven(order, owners, a, i);
  }

  /** Committing the same plan twice changes nothing the second time. */
  lemma CommitTwice(order: seq<Candidate>, plan: seq<seq<int>>, owners: Owners)
    requires |plan| == |order| && DistinctIds(order) && Disjoint(plan)
    ensures Commit(order, plan, Commit(order, plan, owners)) == Commit(order, plan, owners)
  {
    var once := Commit(order, plan, owners);
    var twice := Commit(order, plan, once);
    forall a: int ensures (a in twice <==> a in once) && (a in once ==> twice[a] == once[a]) {
      CommitAt(order, plan, owners, a);
      CommitAt(order, plan, once, a);
    }
  }

  // ---------------------------------------------------------------- the whole request

  datatype Group = Group(parent: string, name: string)

  type Groups = map<string, Group>

  datatype Refusal = WrongParent | NameTaken | OutsideParent

  /** Another group under the same parent has the name, up to case. */
  predicate NameClash(groups: Groups, id: string, parent: string, name: string) {
    exists g :: g in groups && g != id && groups[g].parent == parent && Lower(groups[g].name) == Lower(name)
  }

  ghost predicate Checked(groups: Groups, c: Candidate) {
    (c.id in groups ==> groups[c.id].parent == c.parent) && !NameClash(groups, c.id, c.parent, c.name)
  }

  ghost predicate AllChecked(groups: Groups, order: seq<Candidate>) {
    forall i :: 0 <= i < |order| ==> Checked(groups, order[i])
  }

  ghost predicate NothingOutside(order: seq<Candidate>) {
    forall i, a :: 0 <= i < |order| && a in order[i].stored && a in order[i].resolved ==> a in order[i].admitted
  }

  /** Create the groups that do not exist yet; the unique index on parent and name may refuse one, and
      then nothing is kept. */
  ghost function WithGroups(groups: Groups, order: seq<Candidate>): Option<Groups>
    decreases |order|
  {
    if order == [] then Some(groups)
    else if order[0].id in groups then WithGroups(groups, order[1..])
    else if NameClash(groups, order[0].id, order[0].parent, order[0].name) then None
    else WithGroups(groups[order[0].id := Group(order[0].parent, order[0].name)], order[1..])
  }

  datatype Store = Store(groups: Groups, owners: Owners)

  /** One committed migration, up to the commit of the database. */
  ghost function Migrate(s: Store, order: seq<Candidate>): Result<Store, Refusal> {
    if exists i :: 0 <= i < |order| && order[i].id in s.groups && s.groups[order[i].id].parent != order[i].parent
      then Err(WrongParent)
    else if !AllChecked(s.groups, order) then Err(NameTaken)
    else if !NothingOutside(order) then Err(OutsideParent)
    else match WithGroups(s.groups, order)
      case None => Err(NameTaken)
      case Some(groups) => Ok(Store(groups, Commit(order, Assign(order, s.owners), s.owners)))
  }

  /** Member rows name existing groups, and names are unique under each parent. */
  ghost predicate Sound(s: Store) {
    && (forall a :: a in s.owners ==> s.owners[a] in s.groups)
    && (forall g :: g in s.groups ==> !NameClash(s.groups, g, s.groups[g].parent, s.groups[g].name))
  }

  lemma {:induction false} WithGroupsSpec(groups: Groups, order: seq<Candidate>)
    requires WithGroups(groups, order).Some? && DistinctIds(order)
    requires forall g :: g in groups ==> !NameClash(groups, g, groups[g].parent, groups[g].name)
    ensures var after := WithGroups(groups, order).value;
            && (forall g :: g in groups ==> g in after && after[g] == groups[g])
            && (forall i :: 0 <= i < |order| ==> order[i].id in after)
            && (forall i :: 0 <= i < |order| && order[i].id !in groups ==> after[order[i].id] == Group(order[i].parent, order[i].name))
            && (forall g :: g in after ==> g in groups || exists i :: 0 <= i < |order| && order[i].id == g)
            && (forall g :: g in after ==> !NameClash(after, g, after[g].parent, after[g].name))
    decreases |order|
  {
    if order != [] {
      var c := order[0];
      if c.id in groups {
        WithGroupsSpec(groups, order[1..]);
      } else {
        var next := groups[c.id := Group(c.parent, c.name)];
        forall g | g in next ensures !NameClash(next, g, next[g].parent, next[g].name) {
          NoNewClash(groups, c, g);
        }
        WithGroupsSpec(next, order[1..]);
      }
      assert forall i :: 0 < i < |order| ==> order[i] == order[1..][i - 1];
    }
  }

  ghost predicate NamesApart(order: seq<Candidate>) {
    forall i, j :: 0 <= i < j < |order| ==> Lower(order[i].name) != Lower(order[j].name)
  }

  /** Candidates that clash neither with the groups nor with each other all get their group. */
  lemma {:induction false} WithGroupsFits(groups: Groups, order: seq<Candidate>)
    requires AllChecked(groups, order) && DistinctIds(order) && NamesApart(order)
    ensures WithGroups(groups, order).Some?
    decreases |order|
  {
    if order != [] {
      var c := order[0];
      assert Checked(groups, c);
      var next := if c.id in groups then groups else groups[c.id := Group(c.parent, c.name)];
      forall i | 0 <= i < |order[1..]| ensures Checked(next, order[1..][i]) {
        assert order[1..][i] == order[i + 1] && Checked(groups, order[i + 1]);
      }
      WithGroupsFits(next, order[1..]);
    }
  }

  /** A migration of candidates with different names goes through exactly when every existing group
      has the wanted parent, no other group has the name, and no account lies outside its parent. */
  lemma MigrateOkIff(s: Store, order: seq<Candidate>)
    requires DistinctIds(order) && NamesApart(order)
    ensures Migrate(s, order).Ok? <==> AllChecked(s.groups, order) && NothingOutside(order)
  {
    if AllChecked(s.groups, order) {
      WithGroupsFits(s.groups, order);
      assert forall i :: 0 <= i < |order| ==> Checked(s.groups, order[i]);
    }
  }

  lemma NoNewClash(groups: Groups, c: Candidate, g: string)
    requires c.id !in groups && !NameClash(groups, c.id, c.parent, c.name)
    requires g in groups ==> !NameClash(groups, g, groups[g].parent, groups[g].name)
    requires g in groups || g == c.id
    ensures var next := groups[c.id := Group(c.parent, c.name)]; !NameClash(next, g, next[g].parent, next[g].name)
  {
    var next := groups[c.id := Group(c.parent, c.name)];
    forall h | h in next && h != g
      ensures !(next[h].parent == next[g].parent && Lower(next[h].name) == Lower(next[g].name))
    {
    }
  }

  lemma {:induction false} WithGroupsPresent(groups: Groups, order: seq<Candidate>)
    requires forall i :: 0 <= i < |order| ==> order[i].id in groups
    ensures WithGroups(groups, order) == Some(groups)
  {
    if order != [] { WithGroupsPresent(groups, order[1..]); }
  }

  lemma NothingDroppedFromNew(order: seq<Candidate>, owners: Owners)
    requires DistinctIds(order)
    requires forall a, i :: a in owners && 0 <= i < |order| ==> owners[a] != order[i].id
    ensures forall a :: !Dropped(order, owners, a)
  {
  }

  /** The second run meets no objection: every group is there under its parent and its own name. */
  lemma SecondRunChecks(s: Store, order: seq<Candidate>)
    requires DistinctIds(order) && Sound(s) && Migrate(s, order).Ok?
    requires forall i :: 0 <= i < |order| ==> order[i].id !in s.groups
    ensures var t := Migrate(s, order).value;
            && AllChecked(t.groups, order) && WithGroups(t.groups, order) == Some(t.groups)
            && (forall i :: 0 <= i < |order| ==> order[i].id in t.groups && t.groups[order[i].id].parent == order[i].parent)
  {
    var t := Migrate(s, order).value;
    WithGroupsSpec(s.groups, order);
    WithGroupsPresent(t.groups, order);
    forall i | 0 <= i < |order| ensures Checked(t.groups, order[i]) {
      assert t.groups[order[i].id] == Group(order[i].parent, order[i].name);
    }
  }

  lemma SecondRunSamePlan(s: Store, order: seq<Candidate>)
    requires DistinctIds(order) && Sound(s)
    requires forall i :: 0 <= i < |order| ==> order[i].id !in s.groups
    ensures var owners := Commit(order, Assign(order, s.owners), s.owners);
            && Assign(order, owners) == Assign(order, s.owners)
            && Commit(order, Assign(order, owners), owners) == owners
  {
    NothingDroppedFromNew(order, s.owners);
    RerunSameIff(order, s.owners);
    AssignDisjoint(order, s.owners);
    CommitTwice(order, Assign(order, s.owners), s.owners);
  }

  lemma MigrateGives(s: Store, order: seq<Candidate>)
    requires Migrate(s, order).Ok?
    ensures NothingOutside(order) && WithGroups(s.groups, order) == Some(Migrate(s, order).value.groups)
    ensures Migrate(s, order).value.owners == Commit(order, Assign(order, s.owners), s.owners)
  {
  }

  lemma MigratePasses(s: Store, order: seq<Candidate>)
    requires forall i :: 0 <= i < |order| && order[i].id in s.groups ==> s.groups[order[i].id].parent == order[i].parent
    requires AllChecked(s.groups, order) && NothingOutside(order) && WithGroups(s.groups, order).Some?
    ensures Migrate(s, order)
         == Ok(Store(WithGroups(s.groups, order).value, Commit(order, Assign(order, s.owners), s.owners)))
  {
  }

  /** Restart safety: if none of the migrated groups existed before, and the process stops after the
      database commit but before the presets are saved, the same request succeeds again, assigns every
      group the same accounts and leaves groups and membership as they are. */
  lemma RestartIsSafe(s: Store, order: seq<Candidate>)
    requires DistinctIds(order) && Sound(s) && Migrate(s, order).Ok?
    requires forall i :: 0 <= i < |order| ==> order[i].id !in s.groups
    ensures var t := Migrate(s, order).value;
            Migrate(t, order) == Ok(t) && Assign(order, t.owners) == Assign(order, s.owners)
  {
    MigrateGives(s, order);
    SecondRunChecks(s, order);
    SecondRunSamePlan(s, order);
    MigratePasses(Migrate(s, order).value, order);
  }

  lemma OneFate(c: Candidate, claimed: Owners, fate: Fate, a: int)
    ensures WithFate(c, claimed, fate, [a]) == if FateOf(c, claimed, a) == fate then [a] else []
  {
    assert WithFate(c, claimed, fate, [a][1..]) == [];
  }

  /** The hypothesis matters: with a group that existed before and loses a member to the replacement,
      the second run hands that account to another group. */
  lemma RestartCanDiffer(g: string, h: string, parent: string)
    requires g != h
    ensures var order := [Candidate(g, parent, "a", [1], {1}, {1}), Candidate(h, parent, "b", [2], {2}, {2})];
            var owners := map[2 := g];
            && Assign(order, owners)[1] == []
            && Assign(order, Commit(order, Assign(order, owners), owners))[1] == [2]
  {
    var first, second := Candidate(g, parent, "a", [1], {1}, {1}), Candidate(h, parent, "b", [2], {2}, {2});
    var order := [first, second];
    var owners := map[2 := g];
    OneFate(first, owners, Given, 1);
    OneFate(second, Claim(owners, first), Given, 2);
    assert order[1..] == [second] && order[1..][1..] == [];
    var plan := Assign(order, owners);
    assert Assign([second], Claim(owners, first)) == [[]] by { assert [second][1..] == []; }
    assert plan == [[1], []];
    var after := Commit(order, plan, owners);
    assert after == Commit([second], [[]], Replaced(owners, g, [1])) by { assert plan[1..] == [[]]; }
    assert Commit([second], [[]], Replaced(owners, g, [1])) == Replaced(owners, g, [1]) by {
      assert [second][1..] == [];
    }
    assert 2 !in after && 1 in after && after[1] == g;
    OneFate(first, after, Given, 1);
    OneFate(second, Claim(after, first), Given, 2);
    assert 2 !in Claim(after, first);
  }

  // ---------------------------------------------------------------- the loops

  /** One line of the plan. */
  datatype PlanLine = PlanLine(id: string, priority: nat, given: seq<int>, conflicts: nat, missing: nat, outside: nat)

  /** How many of the stored accounts satisfy the test. */
  function Number(stored: seq<int>, test: int -> bool): nat {
    if stored == [] then 0 else (if test(stored[0]) then 1 else 0) + Number(stored[1..], test)
  }

  lemma {:induction false} FatesNumber(c: Candidate, claimed: Owners, fate: Fate, stored: seq<int>, test: int -> bool)
    requires forall a :: a in stored ==> (test(a) <==> FateOf(c, claimed, a) == fate)
    ensures |WithFate(c, claimed, fate, stored)| == Number(stored, test)
  {
    if stored != [] { FatesNumber(c, claimed, fate, stored[1..], test); }
  }

  /** An account that a group may have, but does not get. */
  predicate Lost(order: seq<Candidate>, owners: Owners, i: nat, a: int)
    requires i < |order|
  {
    a in order[i].resolved && a in order[i].admitted && Taker(order, owners, a) != Some(order[i].id)
  }

  lemma LineNumbers(order: seq<Candidate>, owners: Owners, i: nat)
    requires i < |order|
    ensures var c, claimed := order[i], ClaimedBefore(order, owners, i);
      && (DistinctIds(order) ==> |WithFate(c, claimed, Conflict, c.stored)| == Number(c.stored, a => Lost(order, owners, i, a)))
      && |WithFate(c, claimed, Missing, c.stored)| == Number(c.stored, a => a !in c.resolved)
      && |WithFate(c, claimed, Outside, c.stored)| == Number(c.stored, a => a in c.resolved && a !in c.admitted)
  {
    var c, claimed := order[i], ClaimedBefore(order, owners, i);
    AssignAt(order, owners, i);
    if DistinctIds(order) {
      forall a | a in c.stored ensures Lost(order, owners, i, a) <==> FateOf(c, claimed, a) == Conflict {
        PlannerRefinesSpec(order, owners, i, a);
      }
      FatesNumber(c, claimed, Conflict, c.stored, a => Lost(order, owners, i, a));
    }
    FatesNumber(c, claimed, Missing, c.stored, a => a !in c.resolved);
    FatesNumber(c, claimed, Outside, c.stored, a => a in c.resolved && a !in c.admitted);
  }

  /** The line of group `i`: its rank, exactly the accounts the plan gives it, how many of its stored accounts
      it loses to another group, how many are gone, how many lie outside its parent, and these add up. */
  ghost predicate LineFor(order: seq<Candidate>, owners: Owners, i: nat, line: PlanLine)
    requires i < |order|
  {
    && line.id == order[i].id && line.priority == i + 1 && line.given == Assign(order, owners)[i]
    && (DistinctIds(order) ==> line.conflicts == Number(order[i].stored, a => Lost(order, owners, i, a)))
    && line.missing == Number(order[i].stored, a => a !in order[i].resolved)
    && line.outside == Number(order[i].stored, a => a in order[i].resolved && a !in order[i].admitted)
    && |order[i].stored| == |line.given| + line.conflicts + line.missing + line.outside
  }

  lemma LineHolds(order: seq<Candidate>, owners: Owners, i: nat, line: PlanLine)
    requires i < |order|
    requires var c, claimed := order[i], ClaimedBefore(order, owners, i);
             && line.id == c.id && line.priority == i + 1 && line.given == Assigned(c, claimed)
             && line.conflicts == |WithFate(c, claimed, Conflict, c.stored)|
             && line.missing == |WithFate(c, claimed, Missing, c.stored)|
             && line.outside == |WithFate(c, claimed, Outside, c.stored)|
             && |c.stored| == |line.given| + line.conflicts + line.missing + line.outside
    ensures LineFor(order, owners, i, line) && line.given == Assign(order, owners)[i] == Assigned(order[i], ClaimedBefore(order, owners, i))
  {
    AssignAt(order, owners, i);
    LineNumbers(order, owners, i);
  }

  /** The lines of the first groups. */
  ghost predicate LinesFor(order: seq<Candidate>, owners: Owners, lines: seq<PlanLine>) {
    |lines| <= |order| && forall i :: 0 <= i < |lines| ==> LineFor(order, owners, i, lines[i])
  }

  lemma OneMoreLine(order: seq<Candidate>, owners: Owners, lines: seq<PlanLine>, line: PlanLine)
    requires LinesFor(order, owners, lines) && |lines| < |order| && LineFor(order, owners, |lines|, line)
    ensures LinesFor(order, owners, lines + [line])
  {
  }

  /** Walk the groups in priority order and divide their stored accounts. */
  method PlanFixedPresets(order: seq<Candidate>, owners: Owners) returns (lines: seq<PlanLine>)
    ensures |lines| == |order|
    ensures forall i :: 0 <= i < |order| ==> LineFor(order, owners, i, lines[i])
  {
    lines := [];
    var claimedBy := owners;
    var n := 0;
    while n < |order|
      invariant 0 <= n <= |order| && |lines| == n
      invariant claimedBy == ClaimedBefore(order, owners, n)
      invariant LinesFor(order, owners, lines)
    {
      var line := PlanOne(order[n], n + 1, claimedBy);
      LineHolds(order, owners, n, line);
      ClaimNext(order, owners, n);
      OneMoreLine(order, owners, lines, line);
      lines := lines + [line];
      claimedBy := claimedBy + map a | a in line.given :: order[n].id;
      n := n + 1;
    }
  }

  method PlanOne(c: Candidate, priority: nat, claimedBy: Owners) returns (line: PlanLine)
    ensures line.id == c.id && line.priority == priority && line.given == Assigned(c, claimedBy)
    ensures line.conflicts == |WithFate(c, claimedBy, Conflict, c.stored)|
    ensures line.missing == |WithFate(c, claimedBy, Missing, c.stored)|
    ensures line.outside == |WithFate(c, claimedBy, Outside, c.stored)|
    ensures |c.stored| == |line.given| + line.conflicts + line.missing + line.outside
  {
    var given := WithFate(c, claimedBy, Given, c.stored);
    var conflicts := WithFate(c, claimedBy, Conflict, c.stored);
    var missing := WithFate(c, claimedBy, Missing, c.stored);
    var outside := WithFate(c, claimedBy, Outside, c.stored);
    CountsAddUp(c, claimedBy, c.stored);
    line := PlanLine(c.id, priority, given, |conflicts|, |missing|, |outside|);
  }

  lemma {:induction false} ClaimNext(order: seq<Candidate>, owners: Owners, n: nat)
    requires n < |order|
    ensures ClaimedBefore(order, owners, n + 1) == Claim(ClaimedBefore(order, owners, n), order[n])
  {
    if n > 0 { ClaimNext(order[1..], Claim(owners, order[0]), n - 1); }
  }

  /** The group tables. */
  class GroupStore {
    var groups: Groups
    var owners: Owners

    constructor (g: Groups, o: Owners)
      ensures groups == g && owners == o
    {
      groups, owners := g, o;
    }

    /** Create the missing groups and give each its accounts, in one transaction: when the unique index
        refuses a name, everything is rolled back. */
    method CommitMigration(order: seq<Candidate>, plan: seq<seq<int>>) returns (done: bool)
      requires |plan| == |order|
      modifies this
      ensures done <==> WithGroups(old(groups), order).Some?
      ensures done ==> groups == WithGroups(old(groups), order).value && owners == Commit(order, plan, old(owners))
      ensures !done ==> groups == old(groups) && owners == old(owners)
    {
      var g, o := groups, owners;
      var i := 0;
      while i < |order|
        invariant 0 <= i <= |order|
        invariant WithGroups(g, order[i..]) == WithGroups(groups, order)
        invariant Commit(order[i..], plan[i..], o) == Commit(order, plan, owners)
        invariant groups == old(groups) && owners == old(owners)
      {
        var c := order[i];
        assert order[i..][0] == c && order[i..][1..] == order[i + 1..] && plan[i..][1..] == plan[i + 1..];
        if c.id !in g {
          if NameClash(g, c.id, c.parent, c.name) {
            return false;
          }
          g := g[c.id := Group(c.parent, c.name)];
        }
        if plan[i] != [] {
          o := Replaced(o, c.id, plan[i]);
        }
        i := i + 1;
      }
      groups, owners := g, o;
      done := true;
    }
  }
}
