/** The accounts of an old fixed preset: ids, and who each id meant when the preset was saved. */
module PresetAccounts {
  import opened Common
  import opened FilterValues
  import opened Text

  const MAX_IDS := 5000

  /** Who an account id meant when the preset was saved. */
  datatype Ref = Ref(id: int, email: string, createdAt: string)

  // ---------------------------------------------------------------- account ids

  function CollectIds(env: Env, items: seq<Json>, found: seq<int>): seq<int>
    decreases |items|
  {
    if items == [] || |found| >= MAX_IDS then found
    else
      var n := if items[0].Flag? then 0 else SafeInt(env, items[0]);
      CollectIds(env, items[1..], if n <= 0 || n in found then found else found + [n])
  }

  function AccountIdsOf(env: Env, v: Json): seq<int> {
    CollectIds(env, RawItems(env, v), [])
  }

  ghost predicate NormalIds(ids: seq<int>) {
    |ids| <= MAX_IDS && Unrepeated(ids) && forall n :: n in ids ==> n > 0
  }

  function Numbers(ids: seq<int>): (r: seq<Json>)
    ensures |r| == |ids| && forall i :: 0 <= i < |r| ==> r[i] == Number(ids[i])
  {
    if ids == [] then [] else [Number(ids[0])] + Numbers(ids[1..])
  }

  lemma {:induction false} CollectIdsNormal(env: Env, items: seq<Json>, found: seq<int>)
    requires NormalIds(found)
    ensures NormalIds(CollectIds(env, items, found))
    decreases |items|
  {
    if items != [] && |found| < MAX_IDS {
      var n := if items[0].Flag? then 0 else SafeInt(env, items[0]);
      CollectIdsNormal(env, items[1..], if n <= 0 || n in found then found else found + [n]);
    }
  }

  lemma NextIdIsNew(found: seq<int>, ids: seq<int>)
    requires NormalIds(found + ids) && ids != []
    ensures ids[0] !in found && ids[0] > 0 && |found| < MAX_IDS && found + [ids[0]] + ids[1..] == found + ids
  {
    var all := found + ids;
    assert all[|found|] == ids[0] && ids[0] in all;
    assert forall i :: 0 <= i < |found| ==> all[i] == found[i];
    assert [ids[0]] + ids[1..] == ids;
    assert found + [ids[0]] + ids[1..] == found + ([ids[0]] + ids[1..]);
  }

  lemma {:induction false} CollectIdsFixed(env: Env, ids: seq<int>, found: seq<int>)
    requires NormalIds(found + ids)
    ensures CollectIds(env, Numbers(ids), found) == found + ids
    decreases |ids|
  {
    if ids != [] {
      NextIdIsNew(found, ids);
      assert Numbers(ids)[1..] == Numbers(ids[1..]);
      CollectIdsFixed(env, ids[1..], found + [ids[0]]);
    } else {
      assert found + ids == found;
    }
  }

  lemma IdsSpec(env: Env, v: Json, ids: seq<int>)
    ensures NormalIds(AccountIdsOf(env, v))
    ensures NormalIds(ids) ==> AccountIdsOf(env, List(Numbers(ids))) == ids
  {
    CollectIdsNormal(env, RawItems(env, v), []);
    assert [] + ids == ids;
    if NormalIds(ids) { CollectIdsFixed(env, ids, []); }
  }

  // ---------------------------------------------------------------- account references

  const MAX_EMAIL := 320

  /** A usable reference among the stored ones, if the item is one. */
  function RefOf(env: Env, v: Json): Option<Ref> {
    if !v.Object? then None
    else
      var id := SafeInt(env, Get(v.fields, Id));
      var email := Lower(Trim(env, Get(v.fields, Email), MAX_EMAIL));
      var createdAt := Trim(env, Get(v.fields, CreatedAt), MAX_WORD);
      if id <= 0 || email == "" || createdAt == "" then None else Some(Ref(id, email, createdAt))
  }

  /** The first usable reference of each listed account. */
  function RefsById(env: Env, items: seq<Json>, ids: set<int>, found: map<int, Ref>): map<int, Ref>
    decreases |items|
  {
    if items == [] then found
    else
      var r := RefOf(env, items[0]);
      RefsById(env, items[1..], ids,
               if r.None? || r.value.id !in ids || r.value.id in found then found else found[r.value.id := r.value])
  }

  /** The references in the order of the account ids. */
  function InOrder(ids: seq<int>, refs: map<int, Ref>): seq<Ref> {
    if ids == [] then []
    else if ids[0] in refs then [refs[ids[0]]] + InOrder(ids[1..], refs)
    else InOrder(ids[1..], refs)
  }

  function IdSet(ids: seq<int>): set<int> {
    set n | n in ids
  }

  function RefsOf(env: Env, v: Json, ids: seq<int>): seq<Ref> {
    InOrder(ids, RefsById(env, ListOf(v), IdSet(ids), map[]))
  }

  predicate NormalRef(r: Ref) {
    r.id > 0 && r.email != "" && Clipped(r.email, MAX_EMAIL) && Lower(r.email) == r.email
    && r.createdAt != "" && Clipped(r.createdAt, MAX_WORD)
  }

  ghost predicate NormalRefMap(refs: map<int, Ref>) {
    forall n :: n in refs ==> NormalRef(refs[n]) && refs[n].id == n
  }

  ghost predicate NormalRefs(refs: seq<Ref>, ids: seq<int>) {
    exists m :: NormalRefMap(m) && refs == InOrder(ids, m)
  }

  function EncodeRef(r: Ref): Json {
    Object(map[Id := Number(r.id), Email := Text(r.email), CreatedAt := Text(r.createdAt)])
  }

  function EncodeRefs(refs: seq<Ref>): seq<Json> {
    if refs == [] then [] else [EncodeRef(refs[0])] + EncodeRefs(refs[1..])
  }

  lemma RefIsNormal(env: Env, v: Json)
    ensures RefOf(env, v).Some? ==> NormalRef(RefOf(env, v).value)
  {
    if v.Object? {
      ClipSpec(Str(env, Get(v.fields, Email)), MAX_EMAIL);
      LowerSpec(Trim(env, Get(v.fields, Email), MAX_EMAIL));
      ClipSpec(Str(env, Get(v.fields, CreatedAt)), MAX_WORD);
    }
  }

  lemma RefReadsBack(env: Env, r: Ref)
    requires NormalRef(r)
    ensures RefOf(env, EncodeRef(r)) == Some(r)
  {
    var f := EncodeRef(r).fields;
    assert Get(f, Id) == Number(r.id) && Get(f, Email) == Text(r.email) && Get(f, CreatedAt) == Text(r.createdAt);
    TrimText(env, r.email, MAX_EMAIL);
    TrimText(env, r.createdAt, MAX_WORD);
  }

  lemma {:induction false} RefsByIdNormal(env: Env, items: seq<Json>, ids: set<int>, found: map<int, Ref>)
    requires NormalRefMap(found)
    ensures NormalRefMap(RefsById(env, items, ids, found))
    decreases |items|
  {
    if items != [] {
      var r := RefOf(env, items[0]);
      RefIsNormal(env, items[0]);
      RefsByIdNormal(env, items[1..], ids,
        if r.None? || r.value.id !in ids || r.value.id in found then found else found[r.value.id := r.value]);
    }
  }

  /** Only the references of listed accounts matter. */
  function Among(m: map<int, Ref>, ids: seq<int>): map<int, Ref> {
    map n | n in m && n in ids :: m[n]
  }

  lemma {:induction false} InOrderAmong(ids: seq<int>, x: map<int, Ref>, y: map<int, Ref>)
    requires forall n :: n in ids ==> (n in x <==> n in y) && (n in x ==> x[n] == y[n])
    ensures InOrder(ids, x) == InOrder(ids, y)
  {
    if ids != [] {
      var n, rest := ids[0], ids[1..];
      assert n in ids;
      InOrderAmong(rest, x, y);
      assert InOrder(rest, x) == InOrder(rest, y);
      assert n in x <==> n in y;
      assert n in x ==> InOrder(ids, x) == [x[n]] + InOrder(rest, x);
      assert n in y ==> InOrder(ids, y) == [y[n]] + InOrder(rest, y);
    }
  }

  lemma RefStep(env: Env, r: Ref, rest: seq<Json>, all: set<int>, found: map<int, Ref>)
    requires NormalRef(r) && r.id in all && r.id !in found
    ensures RefsById(env, [EncodeRef(r)] + rest, all, found) == RefsById(env, rest, all, found[r.id := r])
  {
    RefReadsBack(env, r);
    assert ([EncodeRef(r)] + rest)[1..] == rest;
  }

  lemma AmongStep(m: map<int, Ref>, n: int, rest: seq<int>, found: map<int, Ref>)
    requires n !in rest && n !in found
    ensures n in m ==> found[n := m[n]] + Among(m, rest) == found + Among(m, [n] + rest)
    ensures n !in m ==> Among(m, rest) == Among(m, [n] + rest)
  {
  }

  /** Reading ordered references back collects exactly those. */
  lemma {:induction false} RefsReadBackFrom(env: Env, ids: seq<int>, m: map<int, Ref>, all: set<int>, found: map<int, Ref>)
    requires NormalRefMap(m) && Unrepeated(ids) && forall n :: n in ids ==> n in all && n !in found
    ensures RefsById(env, EncodeRefs(InOrder(ids, m)), all, found) == found + Among(m, ids)
    decreases |ids|
  {
    if ids == [] {
      assert Among(m, ids) == map[];
    } else {
      var n, rest := ids[0], ids[1..];
      assert ids == [n] + rest && n in ids;
      AmongStep(m, n, rest, found);
      if n in m {
        RefStep(env, m[n], EncodeRefs(InOrder(rest, m)), all, found);
        EncodeRefsCons(m[n], InOrder(rest, m));
        RefsReadBackFrom(env, rest, m, all, found[n := m[n]]);
      } else {
        assert InOrder(ids, m) == InOrder(rest, m);
        RefsReadBackFrom(env, rest, m, all, found);
      }
    }
  }

  lemma EncodeRefsCons(r: Ref, refs: seq<Ref>)
    ensures EncodeRefs([r] + refs) == [EncodeRef(r)] + EncodeRefs(refs)
  {
    assert ([r] + refs)[1..] == refs;
  }

  lemma RefsNormal(env: Env, v: Json, ids: seq<int>)
    ensures NormalRefs(RefsOf(env, v, ids), ids)
  {
    RefsByIdNormal(env, ListOf(v), IdSet(ids), map[]);
  }

  lemma RefsReadBack(env: Env, refs: seq<Ref>, ids: seq<int>)
    requires NormalRefs(refs, ids) && Unrepeated(ids)
    ensures RefsOf(env, List(EncodeRefs(refs)), ids) == refs
  {
    var m :| NormalRefMap(m) && refs == InOrder(ids, m);
    RefsReadBackFrom(env, ids, m, IdSet(ids), map[]);
    InOrderAmong(ids, m, map[] + Among(m, ids));
  }
}
