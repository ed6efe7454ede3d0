/** What every run of a GoPay batch guarantees: exclusive phones, the round barrier, one start per
    account, the graceful stop, and termination once sessions end. */
module GopayBatchTheorems {
  import opened Common
  import opened GopayBatch
  import opened GopayBatchRuns
  import opened GopayBatchInvariant

  // ---------------------------------------------------------------- exclusive phones

  /** In every reachable state no two active items hold the same phone. */
  lemma ActivePhonesExclusive(n: World)
    requires Reachable(n)
    ensures forall i, j :: 0 <= i < j < |n.task.items| && IsActive(n.task.items[i]) && IsActive(n.task.items[j]) ==>
      PhoneKey(n.task.items[i]) != PhoneKey(n.task.items[j]) || PhoneKey(n.task.items[i]) == ""
  {
    ReachableInv(n);
    forall i, j | 0 <= i < j < |n.task.items| && IsActive(n.task.items[i]) && IsActive(n.task.items[j])
      ensures PhoneKey(n.task.items[i]) != PhoneKey(n.task.items[j]) || PhoneKey(n.task.items[i]) == ""
    {
      assert Claims(n.task.items[i], Committed(n)) && Claims(n.task.items[j], Committed(n));
    }
  }

  /** A report that takes back the evidence that a phone was used. */
  ghost predicate Forgets(w: World, e: Event, key: string) {
    && e.DecideNow? && w.worker.Awake?
    && exists i :: 0 <= i < |w.task.items| && IsConsumed(w.task.items[i]) && PhoneKey(w.task.items[i]) == key
                   && !IsConsumed(RefreshItem(w.task.items[i], e.answers))
  }

  /** Some event of the run took back the evidence of that phone. */
  ghost predicate Forgotten(w: World, events: seq<Event>, key: string) {
    events != [] &&
    (Forgotten(w, events[..|events| - 1], key) || Forgets(Run(w, events[..|events| - 1]), events[|events| - 1], key))
  }

  /** Whether a consumed key still belongs to a consumed item. */
  ghost predicate SpentHeld(w: World, key: string) {
    key in w.spent ==> key in ConsumedKeys(w.task.items)
  }

  /** Consumed items with that key stay consumed and keep their phone. */
  ghost predicate ConsumptionStays(a: seq<Item>, b: seq<Item>, key: string) {
    |a| == |b| && forall i :: 0 <= i < |a| && IsConsumed(a[i]) && PhoneKey(a[i]) == key ==>
      IsConsumed(b[i]) && b[i].phone == a[i].phone
  }

  lemma ConsumedKeyStays(a: seq<Item>, b: seq<Item>, key: string)
    requires ConsumptionStays(a, b, key) && key in ConsumedKeys(a)
    ensures key in ConsumedKeys(b)
  {
    var i :| 0 <= i < |a| && IsConsumed(a[i]) && PhoneKey(a[i]) == key && key != "";
    assert PhoneKey(b[i]) == key;
  }

  ghost predicate Remembers(t: Task, answers: map<AccountId, Answer>, key: string) {
    forall i :: 0 <= i < |t.items| && IsConsumed(t.items[i]) && PhoneKey(t.items[i]) == key ==>
      IsConsumed(RefreshItem(t.items[i], answers))
  }

  lemma RefreshKeepsConsumption(t: Task, answers: map<AccountId, Answer>, key: string)
    requires RestGate(t) && Remembers(t, answers, key)
    ensures ConsumptionStays(t.items, Refresh(t, answers).items, key)
  {
    RefreshKeepsRest(t, answers);
  }

  lemma FinalizeKeepsConsumption(t: Task, key: string)
    requires RestGate(t)
    ensures ConsumptionStays(t.items, Finalize(t).items, key)
  {
    RecalcKeeps(t.items);
    RecalcKeeps(StopItems(t.items));
  }

  lemma PromotionKeepsConsumption(items: seq<Item>, sources: seq<Item>, c: int, key: string)
    requires AllCoherent(items)
    ensures ConsumptionStays(items, PromotedItems(items, sources, c), key)
  {
  }

  lemma DispatchKeepsConsumption(t: Task, now: real, key: string)
    requires RestGate(t)
    ensures ConsumptionStays(t.items, Dispatch(t, now).0.items, key)
  {
    if t.stopMode == NoStop {
      if Promote(t).1 != [] {
        var next := PromotedItems(t.items, ReleasedItems(t.items), t.currentRound);
        PromotionKeepsConsumption(t.items, ReleasedItems(t.items), t.currentRound, key);
        assert Dispatch(t, now).0.items == RecalcItems(next);
      } else {
        DispatchRoundShape(t, now);
      }
    }
  }

  lemma ConsumptionStaysOn(a: seq<Item>, b: seq<Item>, c: seq<Item>, key: string)
    requires ConsumptionStays(a, b, key) && ConsumptionStays(b, c, key)
    ensures ConsumptionStays(a, c, key)
  {
  }

  lemma DecideKeepsConsumption(t: Task, answers: map<AccountId, Answer>, now: real, key: string)
    requires RestGate(t) && Remembers(t, answers, key)
    ensures ConsumptionStays(t.items, Decide(t, answers, now).0.items, key)
  {
    var r := Refresh(t, answers);
    RefreshKeepsRest(t, answers);
    RefreshKeepsConsumption(t, answers, key);
    FinalizeKeepsRest(r);
    FinalizeKeepsConsumption(r, key);
    ConsumptionStaysOn(t.items, r.items, Finalize(r).items, key);
    if IsTaskActive(Finalize(r).status) {
      DispatchKeepsConsumption(Finalize(r), now, key);
      ConsumptionStaysOn(t.items, Finalize(r).items, Dispatch(Finalize(r), now).0.items, key);
    }
  }

  lemma ThreadKeepsConsumption(w: World, e: Event, key: string)
    requires Inv(w) && (e.Mark? || e.AdmitNow? || e.RecordNow?)
    ensures ConsumptionStays(w.task.items, Move(w, e).task.items, key)
  {
    ThreadItems(w, e);
  }

  lemma StepKeepsSpentHeld(w: World, e: Event, key: string)
    requires Inv(w) && SpentHeld(w, key) && !Forgets(w, e, key)
    ensures SpentHeld(Step(w, e), key)
  {
    RecalcKeeps(w.task.items);
    if e.DecideNow? && w.worker.Awake? {
      RestingWorld(w);
      DecideKeepsConsumption(w.task, e.answers, e.now, key);
    } else if e.Mark? || e.AdmitNow? || e.RecordNow? {
      ThreadKeepsConsumption(w, e, key);
    }
    if key in w.spent {
      ConsumedKeyStays(w.task.items, Move(w, e).task.items, key);
    }
  }

  lemma {:induction false} RunKeepsSpentHeld(w: World, events: seq<Event>, key: string)
    requires Init(w) && !Forgotten(w, events, key)
    ensures Inv(Run(w, events)) && SpentHeld(Run(w, events), key)
  {
    InitInv(w);
    RunKeepsInv(w, events);
    if events != [] {
      var front := events[..|events| - 1];
      RunKeepsSpentHeld(w, front, key);
      StepKeepsSpentHeld(Run(w, front), events[|events| - 1], key);
    }
  }

  lemma {:induction false} ForgottenIsSpent(w: World, events: seq<Event>, key: string)
    requires Init(w) && key != ""
    ensures ConsumedKeys(Run(w, events).task.items) <= Run(w, events).spent
    ensures Forgotten(w, events, key) ==> key in Run(w, events).spent
  {
    if events != [] {
      ForgottenIsSpent(w, events[..|events| - 1], key);
    }
  }

  /** Over every run: an account that has just been given a phone holds one that some session has
      used, now or before, exactly when a report on that phone has taken back the evidence. */
  lemma PromotionGivesSpentIff(w: World, events: seq<Event>, answers: map<AccountId, Answer>, now: real, i: nat)
    requires Init(w) && Run(w, events).worker.Awake?
    requires var m := Run(w, events + [DecideNow(answers, now)]);
             m.worker.Launching? && i < |m.task.items| && m.task.items[i].accountId in m.worker.pending
    ensures var m := Run(w, events + [DecideNow(answers, now)]);
            var key := PhoneKey(m.task.items[i]);
            key != "" && (key in m.spent <==> Forgotten(w, events + [DecideNow(answers, now)], key))
  {
    var all := events + [DecideNow(answers, now)];
    assert all[..|all| - 1] == events;
    var n, m := Run(w, events), Run(w, all);
    InitInv(w);
    RunKeepsInv(w, events);
    RestingWorld(n);
    DecidedKeysFree(n.task, answers, now);
    var key := PhoneKey(m.task.items[i]);
    ForgottenIsSpent(w, all, key);
    if !Forgotten(w, all, key) {
      RunKeepsSpentHeld(w, all, key);
    }
  }

  lemma DecidedKeysFree(t: Task, answers: map<AccountId, Answer>, now: real)
    requires RestGate(t)
    ensures var (u, v) := Decide(t, answers, now);
            v.LaunchPromoted? ==>
              forall i :: 0 <= i < |u.items| && u.items[i].accountId in v.ids ==>
                PhoneKey(u.items[i]) != "" && PhoneKey(u.items[i]) !in ConsumedKeys(u.items)
  {
    RefreshKeepsRest(t, answers);
    var f := Finalize(Refresh(t, answers));
    FinalizeKeepsRest(Refresh(t, answers));
    var (u, v) := Decide(t, answers, now);
    if v.LaunchPromoted? {
      forall i | 0 <= i < |u.items| && u.items[i].accountId in v.ids
        ensures PhoneKey(u.items[i]) != "" && PhoneKey(u.items[i]) !in ConsumedKeys(u.items)
      {
        PromotedKeyFree(f, now, i);
      }
    }
  }

  lemma PromotedKeyFree(f: Task, now: real, i: nat)
    requires RestGate(f) && Dispatch(f, now).1.LaunchPromoted?
    requires i < |Dispatch(f, now).0.items| && Dispatch(f, now).0.items[i].accountId in Dispatch(f, now).1.ids
    ensures PhoneKey(Dispatch(f, now).0.items[i]) != ""
    ensures PhoneKey(Dispatch(f, now).0.items[i]) !in ConsumedKeys(Dispatch(f, now).0.items)
  {
    if Promote(f).1 == [] {
      DispatchRoundShape(f, now);
      assert false;
    }
    var ids := Promote(f).1;
    PromoteKeepsInv(f, Launching(ids, false));
    PromotedIdsSpec(f.items, |ReleasedItems(f.items)|, |f.items|);
    assert f.items[i].accountId == Dispatch(f, now).0.items[i].accountId;
    PromotedKeyUnconsumed(f.items, f.currentRound, i);
  }

  lemma PromotedKeyUnconsumed(items: seq<Item>, c: int, i: nat)
    requires AllCoherent(items) && i < |items| && IsPromoted(items, i, |ReleasedItems(items)|)
    ensures var next := PromotedItems(items, ReleasedItems(items), c);
            PhoneKey(next[i]) != "" && PhoneKey(next[i]) !in ConsumedKeys(next)
  {
    PromotedHolds(items, HeldKeys(items), i, c);
    var next := PromotedItems(items, ReleasedItems(items), c);
    forall k | 0 <= k < |next| && IsConsumed(next[k]) ensures PhoneKey(next[k]) != PhoneKey(next[i]) {
      assert next[k] == items[k];
      assert PhoneKey(items[k]) != "" ==> PhoneKey(items[k]) in HeldKeys(items);
    }
  }

  // ---------------------------------------------------------------- what one event may do to an item

  /** Accounts are fixed; terminal items are frozen; only a queued item may get another phone or an
      earlier round, and only while it stays queued; nothing returns to the queue. */
  ghost predicate ItemMove(a: Item, b: Item) {
    && b.accountId == a.accountId
    && (IsTerminal(a.status) ==> b == a)
    && (b.status == Queued ==> a.status == Queued && b.round <= a.round)
    && (b.status != Queued ==> b.round == a.round && b.phone == a.phone)
    && (a.status == Queued ==> b.status in {Queued, Starting, Stopped, Cancelled} && b.snapshot == a.snapshot)
    && (a.status == Starting ==> b.status != Queued)
    && (a.status == Running ==> b.status != Queued && b.status != Starting)
  }

  ghost predicate ItemMoves(a: seq<Item>, b: seq<Item>) {
    |a| == |b| && forall i :: 0 <= i < |a| ==> ItemMove(a[i], b[i])
  }

  /** A thread phase touches at most its own item, whose snapshot it sets only from `Starting`. */
  ghost predicate OwnItemOnly(a: seq<Item>, b: seq<Item>, id: AccountId) {
    b == a ||
    (var k := IndexOf(a, id);
     k < |a| && |b| == |a| && b == a[k := b[k]] && ItemMove(a[k], b[k])
     && (a[k].status != Starting ==> b[k].snapshot == a[k].snapshot))
  }

  lemma MarkItems(w: World, id: AccountId)
    requires Inv(w)
    ensures OwnItemOnly(w.task.items, MarkStep(w, id).task.items, id)
  {
    if id in w.threads && w.threads[id].Spawned? {
      var k := IndexOf(w.task.items, id);
      assert ItemInStep(w, w.task.items[k]);
      MarkedIsOwnMove(w.task.items[k], w.task.stopMode);
      SetItemItems(w.task, k, MarkStartingItem(w.task.items[k], w.task.stopMode));
    }
  }

  lemma AdmitItems(w: World, id: AccountId, result: StartResult)
    requires Inv(w)
    ensures OwnItemOnly(w.task.items, AdmitStep(w, id, result).task.items, id)
  {
    if id in w.threads && w.threads[id].Marked? {
      var k := IndexOf(w.task.items, id);
      assert ItemInStep(w, w.task.items[k]);
      RefusedIsOwnMove(w.task.items[k], w.task.stopMode);
      SetItemItems(w.task, k, RefuseItem(w.task.items[k], w.task.stopMode));
    }
  }

  lemma RecordItems(w: World, id: AccountId)
    requires Inv(w)
    ensures OwnItemOnly(w.task.items, RecordStep(w, id).task.items, id)
  {
    if id in w.threads && w.threads[id].Created? {
      var k := IndexOf(w.task.items, id);
      assert ItemInStep(w, w.task.items[k]);
      RecordedIsOwnMove(w.task.items[k], w.task.status, w.threads[id].result);
      SetItemItems(w.task, k, RecordItem(w.task.items[k], w.task.status, w.threads[id].result));
    }
  }

  lemma ThreadItems(w: World, e: Event)
    requires Inv(w) && (e.Mark? || e.AdmitNow? || e.RecordNow?)
    ensures OwnItemOnly(w.task.items, Move(w, e).task.items, e.id)
  {
    match e
    case Mark(id) => MarkItems(w, id);
    case AdmitNow(id, result) => AdmitItems(w, id, result);
    case RecordNow(id) => RecordItems(w, id);
  }

  lemma DispatchMoves(t: Task, now: real)
    requires RestGate(t)
    ensures ItemMoves(t.items, Dispatch(t, now).0.items)
    ensures forall i :: 0 <= i < |t.items| && t.items[i].status != Queued ==> Dispatch(t, now).0.items[i] == t.items[i]
  {
    if t.stopMode == NoStop {
      if Promote(t).1 != [] {
        PromoteKeepsInv(t, Launching(Promote(t).1, false));
        PromotedMoves(t.items, t.currentRound);
      } else {
        DispatchRoundShape(t, now);
      }
    }
  }

  lemma PromotedMoves(items: seq<Item>, c: int)
    requires Launched(items, {}, c)
    ensures ItemMoves(items, PromotedItems(items, ReleasedItems(items), c))
  {
    forall i | 0 <= i < |items|
      ensures ItemMove(items[i], PromotedItem(items, i, ReleasedItems(items), c))
    {
      if IsPromoted(items, i, |ReleasedItems(items)|) {
        assert Waiting(items[i], {});
      }
    }
  }

  lemma RefreshMoves(t: Task, answers: map<AccountId, Answer>)
    requires RestGate(t)
    ensures ItemMoves(t.items, Refresh(t, answers).items)
    ensures forall i :: 0 <= i < |t.items| && t.items[i].status == Queued ==> Refresh(t, answers).items[i] == t.items[i]
  {
    RefreshKeepsRest(t, answers);
  }

  lemma FinalizeMoves(t: Task)
    requires RestGate(t)
    ensures Finalize(t).items == t.items || Finalize(t).items == StopItems(t.items)
  {
    RecalcKeeps(t.items);
    RecalcKeeps(StopItems(t.items));
  }

  lemma DecideMoves(t: Task, answers: map<AccountId, Answer>, now: real)
    requires RestGate(t)
    ensures ItemMoves(t.items, Decide(t, answers, now).0.items)
  {
    var r := Refresh(t, answers);
    RefreshKeepsRest(t, answers);
    RefreshMoves(t, answers);
    FinalizeKeepsRest(r);
    FinalizeMoves(r);
    if IsTaskActive(Finalize(r).status) {
      DispatchMoves(Finalize(r), now);
    }
  }

  lemma ThreadMoves(w: World, e: Event)
    requires Inv(w) && (e.Mark? || e.AdmitNow? || e.RecordNow?)
    ensures ItemMoves(w.task.items, Step(w, e).task.items)
  {
    ThreadItems(w, e);
  }

  lemma WorkerMoves(w: World, e: Event)
    requires Inv(w) && e.DecideNow? && w.worker.Awake?
    ensures ItemMoves(w.task.items, Step(w, e).task.items)
  {
    RestingWorld(w);
    DecideMoves(w.task, e.answers, e.now);
  }

  lemma OtherMoves(w: World, e: Event)
    requires Inv(w) && !(e.DecideNow? && w.worker.Awake?) && !e.Mark? && !e.AdmitNow? && !e.RecordNow?
    ensures ItemMoves(w.task.items, Step(w, e).task.items)
  {
    RecalcKeeps(w.task.items);
  }

  lemma StepMovesItems(w: World, e: Event)
    requires Inv(w)
    ensures ItemMoves(w.task.items, Step(w, e).task.items)
  {
    if e.DecideNow? && w.worker.Awake? {
      WorkerMoves(w, e);
    } else if e.Mark? || e.AdmitNow? || e.RecordNow? {
      ThreadMoves(w, e);
    } else {
      OtherMoves(w, e);
    }
  }

  // ---------------------------------------------------------------- the round barrier

  ghost predicate Starts(n: World, m: World, i: nat) {
    i < |n.task.items| && i < |m.task.items| && n.task.items[i].status == Queued && m.task.items[i].status == Starting
  }

  /** An item leaves the queue to start only when every item of an earlier round is terminal, and
      everything else in flight sits in the very same round. */
  lemma RoundBarrier(n: World, e: Event, i: nat)
    requires Reachable(n)
    ensures Starts(n, Step(n, e), i) ==>
      forall j :: 0 <= j < |n.task.items| ==>
        && (n.task.items[j].round < n.task.items[i].round ==> IsTerminal(n.task.items[j].status))
        && (n.task.items[j].status == Starting || n.task.items[j].status == Running ==>
              n.task.items[j].round == n.task.items[i].round)
  {
    ReachableInv(n);
    if Starts(n, Step(n, e), i) {
      StartsOnlyByMark(n, e, i);
      assert ItemInStep(n, n.task.items[i]);
      assert n.task.items[i].accountId in Committed(n);
      assert Launched(n.task.items, Committed(n), n.task.currentRound);
    }
  }

  lemma StartsOnlyByMark(w: World, e: Event, i: nat)
    requires Inv(w) && Starts(w, Step(w, e), i)
    ensures e.Mark? && e.id == w.task.items[i].accountId && e.id in w.threads && w.threads[e.id].Spawned?
    ensures w.worker.Launching? && w.task.stopMode == NoStop
  {
    RecalcKeeps(w.task.items);
    if e.DecideNow? && w.worker.Awake? {
      RestingWorld(w);
      DecideLeavesNoStarting(w.task, e.answers, e.now);
      assert false;
    } else if e.Mark? || e.AdmitNow? || e.RecordNow? {
      ThreadItems(w, e);
      IndexOfItem(w.task.items, i);
      assert ItemInStep(w, w.task.items[i]);
      if e.id in w.threads && w.threads[e.id].Spawned? && e.Mark? {
        SetItemItems(w.task, i, MarkStartingItem(w.task.items[i], w.task.stopMode));
      }
    }
  }

  /** No event moves an item to a later round, and none touches a terminal item. */
  lemma RoundsNeverRise(n: World, e: Event)
    requires Reachable(n)
    ensures var m := Step(n, e);
            |m.task.items| == |n.task.items|
            && forall i :: 0 <= i < |n.task.items| ==>
                 m.task.items[i].round <= n.task.items[i].round
                 && (IsTerminal(n.task.items[i].status) ==> m.task.items[i] == n.task.items[i])
  {
    ReachableInv(n);
    StepMovesItems(n, e);
  }
}
