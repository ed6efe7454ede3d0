/** The invariant of a batch run: active phones stay exclusive, and everything in flight sits in
    the one round that has been launched. Every event keeps it. */
module GopayBatchInvariant {
  import opened Common
  import opened GopayBatch
  import opened GopayBatchRuns

  ghost predicate WellFormed(items: seq<Item>) {
    && (forall i, j :: 0 <= i < j < |items| ==> items[i].accountId != items[j].accountId)
    && (forall i :: 0 <= i < |items| ==> items[i].round >= 1)
  }

  /** The status tells the outcome the session reported. */
  ghost predicate Coherent(it: Item) {
    && (it.status == Done <==> it.snapshot.phase == SucceededPhase)
    && (it.snapshot.phase == FailedPhase ==> it.status == Failed)
    && (it.snapshot.phase == CancelledPhase ==> it.status == Cancelled)
    && (it.status == Queued || it.status == Starting ==> it.snapshot == EMPTY_SNAPSHOT)
  }

  ghost predicate AllCoherent(items: seq<Item>) {
    forall i :: 0 <= i < |items| ==> Coherent(items[i])
  }

  /** Accounts already handed to a launch whose thread has not yet marked its item. */
  ghost function Committed(w: World): set<AccountId> {
    (set id | w.worker.Launching? && id in w.worker.pending)
    + (set id | id in w.threads && w.threads[id].Spawned?)
  }

  ghost predicate Claims(it: Item, committed: set<AccountId>) {
    IsActive(it) || it.accountId in committed
  }

  /** No two active or committed items hold the same phone key. */
  ghost predicate ExclusiveKeys(items: seq<Item>, committed: set<AccountId>) {
    forall i, j :: 0 <= i < j < |items| && Claims(items[i], committed) && Claims(items[j], committed) ==>
      PhoneKey(items[i]) != PhoneKey(items[j]) || PhoneKey(items[i]) == ""
  }

  ghost predicate Waiting(it: Item, committed: set<AccountId>) {
    it.status == Queued && it.accountId !in committed
  }

  ghost predicate RoundKeys(items: seq<Item>, committed: set<AccountId>) {
    forall i, j :: 0 <= i < j < |items| && Waiting(items[i], committed) && Waiting(items[j], committed) ==>
      items[i].round != items[j].round || PhoneKey(items[i]) != PhoneKey(items[j]) || PhoneKey(items[i]) == ""
  }

  /** Nothing in flight and no phone to hand on. */
  ghost predicate Quiet(items: seq<Item>, committed: set<AccountId>) {
    && committed == {}
    && (forall i :: 0 <= i < |items| && !IsTerminal(items[i].status) ==> items[i].status == Queued)
    && ReleasedItems(items) == []
  }

  /** Round `c` has been launched: everything in flight sits in it, everything waiting comes later. */
  ghost predicate Launched(items: seq<Item>, committed: set<AccountId>, c: int) {
    && c >= 1
    && (forall i :: 0 <= i < |items| && Waiting(items[i], committed) ==> items[i].round > c)
    && (forall i :: 0 <= i < |items| && items[i].accountId in committed ==> items[i].round == c)
    && (forall i :: 0 <= i < |items| && (items[i].status == Starting || items[i].status == Running)
                    ==> items[i].round == c)
  }

  ghost predicate Gate(t: Task, committed: set<AccountId>) {
    RoundKeys(t.items, committed) && (Quiet(t.items, committed) || Launched(t.items, committed, t.currentRound))
  }

  ghost predicate ThreadFits(status: Status, pc: Launch) {
    match pc
    case Spawned => status == Queued
    case Marked => status == Starting || status == Stopped || status == Cancelled
    case Created(_) => status == Starting
    case Finished => status != Queued && status != Starting
  }

  ghost predicate Threads(w: World) {
    && (!w.worker.Launching? ==> w.threads == map[])
    && (w.worker.Launching? ==>
          && (forall a, b :: 0 <= a < b < |w.worker.pending| ==> w.worker.pending[a] != w.worker.pending[b])
          && (forall id :: id in w.worker.pending ==> id !in w.threads && IndexOf(w.task.items, id) < |w.task.items|))
    && (forall id :: id in w.threads ==> IndexOf(w.task.items, id) < |w.task.items|)
    && (forall i :: 0 <= i < |w.task.items| ==> ItemInStep(w, w.task.items[i]))
  }

  ghost predicate ItemInStep(w: World, it: Item) {
    && (it.accountId in w.threads ==> ThreadFits(it.status, w.threads[it.accountId]))
    && (it.status == Starting ==> it.accountId in w.threads && !w.threads[it.accountId].Finished?)
    && (w.worker.Launching? && it.accountId in w.worker.pending ==> it.status == Queued)
  }

  ghost predicate Chosen(t: Task, r: int) {
    && t.currentRound == r
    && Quiet(t.items, {})
    && (forall i :: 0 <= i < |t.items| && t.items[i].status == Queued ==> t.items[i].round >= r)
    && AnyQueuedIn(t.items, r)
  }

  /** The part of the invariant that speaks of the task and the committed accounts. */
  ghost predicate TaskInv(t: Task, committed: set<AccountId>, worker: Worker) {
    && WellFormed(t.items)
    && AllCoherent(t.items)
    && ExclusiveKeys(t.items, committed)
    && (t.stopMode == NoStop && !worker.Exited? ==>
          && Gate(t, committed)
          && (worker.Launching? ==> Launched(t.items, committed, t.currentRound))
          && (worker.Choosing? ==> Chosen(t, worker.round)))
  }

  ghost predicate Inv(w: World) {
    Threads(w) && TaskInv(w.task, Committed(w), w.worker)
  }

  /** A batch as created: everything queued, distinct accounts, distinct phone keys within a round. */
  ghost predicate Init(w: World) {
    && w.worker == Asleep && w.threads == map[] && w.admissions == [] && w.spent == {}
    && w.task.stopMode == NoStop && IsTaskActive(w.task.status)
    && WellFormed(w.task.items)
    && (forall i :: 0 <= i < |w.task.items| ==>
          w.task.items[i].status == Queued && w.task.items[i].snapshot == EMPTY_SNAPSHOT)
    && RoundKeys(w.task.items, {})
  }

  // ---------------------------------------------------------------- bookkeeping lemmas

  lemma RecalcKeeps(items: seq<Item>)
    requires AllCoherent(items)
    ensures RecalcItems(items) == items
  {
  }

  lemma IndexOfItem(items: seq<Item>, i: nat)
    requires WellFormed(items) && i < |items|
    ensures IndexOf(items, items[i].accountId) == i
  {
  }

  lemma {:induction false} ReleasedEmpty(items: seq<Item>, held: set<string>)
    requires forall i :: 0 <= i < |items| ==> items[i].status != Failed
    ensures ReleasedFrom(items, held) == []
  {
    if items != [] {
      ReleasedEmpty(items[..|items| - 1], held);
    }
  }

  lemma {:induction false} NothingToPromote(items: seq<Item>, n: nat)
    requires n <= |items|
    ensures PromotedIds(items, 0, n) == []
  {
    if n > 0 {
      NothingToPromote(items, n - 1);
    }
  }

  lemma InitInv(w: World)
    requires Init(w)
    ensures Inv(w)
  {
    ReleasedEmpty(w.task.items, HeldKeys(w.task.items));
    assert Quiet(w.task.items, Committed(w));
  }

  // ---------------------------------------------------------------- status changes that keep the rest

  /** Same accounts, phones and rounds, position by position. */
  ghost predicate SameShape(a: seq<Item>, b: seq<Item>) {
    && |a| == |b|
    && forall i :: 0 <= i < |a| ==>
         a[i].accountId == b[i].accountId && a[i].phone == b[i].phone && a[i].round == b[i].round
  }

  /** Fewer claims, and whoever waits in `b` waited in `a`. */
  ghost predicate Settles(a: seq<Item>, p: set<AccountId>, b: seq<Item>, q: set<AccountId>) {
    && SameShape(a, b)
    && (forall i :: 0 <= i < |a| && Claims(b[i], q) ==> Claims(a[i], p))
    && (forall i :: 0 <= i < |a| && Waiting(b[i], q) ==> Waiting(a[i], p))
    && (forall i :: 0 <= i < |a| && a[i].accountId in q ==> a[i].accountId in p)
    && (forall i :: 0 <= i < |a| && (b[i].status == Starting || b[i].status == Running) ==>
          a[i].status == Starting || a[i].status == Running || a[i].accountId in p)
  }

  lemma SettledExclusive(a: seq<Item>, p: set<AccountId>, b: seq<Item>, q: set<AccountId>)
    requires Settles(a, p, b, q) && ExclusiveKeys(a, p)
    ensures ExclusiveKeys(b, q)
  {
    forall i, j | 0 <= i < j < |b| && Claims(b[i], q) && Claims(b[j], q)
      ensures PhoneKey(b[i]) != PhoneKey(b[j]) || PhoneKey(b[i]) == ""
    {
      assert PhoneKey(a[i]) == PhoneKey(b[i]) && PhoneKey(a[j]) == PhoneKey(b[j]);
    }
  }

  lemma SettledRounds(a: seq<Item>, p: set<AccountId>, b: seq<Item>, q: set<AccountId>)
    requires Settles(a, p, b, q) && RoundKeys(a, p)
    ensures RoundKeys(b, q)
  {
    forall i, j | 0 <= i < j < |b| && Waiting(b[i], q) && Waiting(b[j], q)
      ensures b[i].round != b[j].round || PhoneKey(b[i]) != PhoneKey(b[j]) || PhoneKey(b[i]) == ""
    {
      assert PhoneKey(a[i]) == PhoneKey(b[i]) && PhoneKey(a[j]) == PhoneKey(b[j]);
    }
  }

  lemma SettledLaunched(a: seq<Item>, p: set<AccountId>, b: seq<Item>, q: set<AccountId>, c: int)
    requires Settles(a, p, b, q) && Launched(a, p, c)
    ensures Launched(b, q, c)
  {
  }

  lemma SettledShape(a: seq<Item>, b: seq<Item>)
    requires SameShape(a, b) && WellFormed(a)
    ensures WellFormed(b)
  {
  }

  lemma SetItemItems(t: Task, k: nat, it: Item)
    requires k < |t.items| && AllCoherent(t.items) && Coherent(it)
    ensures SetItem(t, k, it).items == t.items[k := it]
    ensures SetItem(t, k, it).stopMode == t.stopMode && SetItem(t, k, it).currentRound == t.currentRound
  {
    RecalcKeeps(t.items[k := it]);
  }

  /** What a thread may do to its own item. */
  ghost predicate OwnMove(before: Item, after: Item, wasCommitted: bool) {
    && after.accountId == before.accountId && after.phone == before.phone && after.round == before.round
    && Coherent(after)
    && after.status != Queued
    && (IsActive(after) || after.status == Running ==> before.status == Starting || wasCommitted)
  }

  lemma OwnMoveSettles(items: seq<Item>, k: nat, it: Item, p: set<AccountId>, q: set<AccountId>)
    requires WellFormed(items) && k < |items|
    requires OwnMove(items[k], it, it.accountId in p)
    requires q == p - {it.accountId}
    ensures Settles(items, p, items[k := it], q)
  {
    assert forall i :: 0 <= i < |items| && i != k ==> items[i].accountId != it.accountId;
  }

  lemma CommittedAfterMove(w: World, id: AccountId, pc: Launch, n: World)
    requires Threads(w) && id in w.threads && !pc.Spawned?
    requires n.worker == w.worker && n.threads == w.threads[id := pc]
    ensures Committed(n) == Committed(w) - {id}
    ensures id in Committed(w) <==> w.threads[id].Spawned?
  {
  }

  /** One thread moves its own item on: the shape of every thread phase. */
  lemma ThreadMoveKeepsInv(w: World, id: AccountId, it: Item, pc: Launch, n: World, k: nat)
    requires Inv(w) && id in w.threads && k == IndexOf(w.task.items, id)
    requires OwnMove(w.task.items[k], it, w.threads[id].Spawned?)
    requires n.task.items == w.task.items[k := it]
    requires ThreadFits(it.status, pc) && (it.status == Starting ==> !pc.Finished?) && !pc.Spawned?
    requires n.worker == w.worker && n.threads == w.threads[id := pc]
    requires n.task.stopMode == w.task.stopMode && n.task.currentRound == w.task.currentRound
    ensures Inv(n)
  {
    CommittedAfterMove(w, id, pc, n);
    ThreadMoveThreads(w, id, it, pc, n);
    OwnMoveSettles(w.task.items, k, it, Committed(w), Committed(n));
    SettledInv(w.task, Committed(w), n.task, Committed(n), w.worker, n.worker);
  }

  /** While threads run, a settling change keeps the invariant. */
  lemma SettledInv(t: Task, p: set<AccountId>, u: Task, q: set<AccountId>, a: Worker, b: Worker)
    requires TaskInv(t, p, a) && a.Launching? && b.Launching?
    requires Settles(t.items, p, u.items, q) && AllCoherent(u.items)
    requires u.stopMode == NoStop ==> t.stopMode == NoStop
    requires u.currentRound == t.currentRound
    ensures TaskInv(u, q, b)
  {
    SettledShape(t.items, u.items);
    SettledExclusive(t.items, p, u.items, q);
    if u.stopMode == NoStop {
      SettledRounds(t.items, p, u.items, q);
      SettledLaunched(t.items, p, u.items, q, t.currentRound);
    }
  }

  lemma ThreadMoveThreads(w: World, id: AccountId, it: Item, pc: Launch, n: World)
    requires WellFormed(w.task.items) && Threads(w) && id in w.threads
    requires var items := w.task.items; var k := IndexOf(items, id);
             && it.accountId == id
             && n.task.items == items[k := it]
             && ThreadFits(it.status, pc) && (it.status == Starting ==> !pc.Finished?)
    requires n.worker == w.worker && n.threads == w.threads[id := pc]
    ensures Threads(n)
  {
    var items := w.task.items;
    var k := IndexOf(items, id);
    forall x | IndexOf(items, x) < |items| ensures IndexOf(n.task.items, x) < |n.task.items| {
      var m := IndexOf(items, x);
      assert n.task.items[m].accountId == x;
    }
    forall i | 0 <= i < |items| ensures ItemInStep(n, n.task.items[i]) {
      assert ItemInStep(w, items[i]);
    }
  }

  lemma MarkedIsOwnMove(it: Item, mode: StopMode)
    requires Coherent(it) && it.status == Queued
    ensures OwnMove(it, MarkStartingItem(it, mode), true)
  {
  }

  lemma RefusedIsOwnMove(it: Item, mode: StopMode)
    requires Coherent(it) && it.status != Queued
    ensures Coherent(RefuseItem(it, mode))
    ensures it.status != Running ==> OwnMove(it, RefuseItem(it, mode), false)
  {
  }

  lemma RecordedIsOwnMove(it: Item, task: TaskStatus, result: StartResult)
    requires Coherent(it) && it.status == Starting
    ensures OwnMove(it, RecordItem(it, task, result), false)
  {
  }

  lemma MarkKeepsInv(w: World, id: AccountId)
    requires Inv(w)
    ensures Inv(MarkStep(w, id))
  {
    if id in w.threads && w.threads[id].Spawned? {
      var k := IndexOf(w.task.items, id);
      assert ItemInStep(w, w.task.items[k]);
      var it := MarkStartingItem(w.task.items[k], w.task.stopMode);
      MarkedIsOwnMove(w.task.items[k], w.task.stopMode);
      SetItemItems(w.task, k, it);
      ThreadMoveKeepsInv(w, id, it, Marked, MarkStep(w, id), k);
    }
  }

  lemma AdmitKeepsInv(w: World, id: AccountId, result: StartResult)
    requires Inv(w)
    ensures Inv(AdmitStep(w, id, result))
  {
    if id in w.threads && w.threads[id].Marked? {
      var k := IndexOf(w.task.items, id);
      assert ItemInStep(w, w.task.items[k]);
      var n := AdmitStep(w, id, result);
      if Admits(w.task, id) {
        ThreadMoveKeepsInv(w, id, w.task.items[k], Created(result), n, k);
      } else {
        var it := RefuseItem(w.task.items[k], w.task.stopMode);
        RefusedIsOwnMove(w.task.items[k], w.task.stopMode);
        SetItemItems(w.task, k, it);
        ThreadMoveKeepsInv(w, id, it, Finished, n, k);
      }
    }
  }

  lemma RecordKeepsInv(w: World, id: AccountId)
    requires Inv(w)
    ensures Inv(RecordStep(w, id))
  {
    if id in w.threads && w.threads[id].Created? {
      var k := IndexOf(w.task.items, id);
      assert ItemInStep(w, w.task.items[k]);
      var it := RecordItem(w.task.items[k], w.task.status, w.threads[id].result);
      RecordedIsOwnMove(w.task.items[k], w.task.status, w.threads[id].result);
      SetItemItems(w.task, k, it);
      ThreadMoveKeepsInv(w, id, it, Finished, RecordStep(w, id), k);
    }
  }

  // ---------------------------------------------------------------- launching

  predicate Distinct(ids: seq<AccountId>) {
    forall a, b :: 0 <= a < b < |ids| ==> ids[a] != ids[b]
  }

  lemma {:induction false} RoundIdsSpec(items: seq<Item>, r: int)
    requires WellFormed(items)
    ensures forall i :: 0 <= i < |items| ==>
      (items[i].accountId in RoundIds(items, r) <==> items[i].round == r && items[i].status == Queued)
    ensures forall id :: id in RoundIds(items, r) ==> exists i :: 0 <= i < |items| && items[i].accountId == id
    ensures Distinct(RoundIds(items, r))
  {
    if items != [] {
      var front := items[..|items| - 1];
      var last := items[|items| - 1];
      RoundIdsSpec(front, r);
      assert forall i :: 0 <= i < |front| ==> front[i] == items[i];
      assert last.accountId !in RoundIds(front, r);
      forall id | id in RoundIds(items, r) ensures exists i :: 0 <= i < |items| && items[i].accountId == id {
        if id in RoundIds(front, r) {
          var j :| 0 <= j < |front| && front[j].accountId == id;
          assert items[j].accountId == id;
        } else {
          assert items[|items| - 1].accountId == id;
        }
      }
    }
  }

  lemma RoundCommitsExclusive(items: seq<Item>, r: int, q: set<AccountId>)
    requires Quiet(items, {}) && RoundKeys(items, {})
    requires forall i :: 0 <= i < |items| ==> (items[i].accountId in q <==> items[i].round == r && items[i].status == Queued)
    ensures ExclusiveKeys(items, q)
  {
    forall i, j | 0 <= i < j < |items| && Claims(items[i], q) && Claims(items[j], q)
      ensures PhoneKey(items[i]) != PhoneKey(items[j]) || PhoneKey(items[i]) == ""
    {
      assert Waiting(items[i], {}) && Waiting(items[j], {});
    }
  }

  lemma CommittingKeepsRoundKeys(items: seq<Item>, q: set<AccountId>)
    requires RoundKeys(items, {})
    ensures RoundKeys(items, q)
  {
    forall i, j | 0 <= i < j < |items| && Waiting(items[i], q) && Waiting(items[j], q)
      ensures items[i].round != items[j].round || PhoneKey(items[i]) != PhoneKey(items[j]) || PhoneKey(items[i]) == ""
    {
      assert Waiting(items[i], {}) && Waiting(items[j], {});
    }
  }

  /** Committing every queued item of the lowest pending round keeps phone keys exclusive. */
  lemma RoundCommits(t: Task, a: Worker, b: Worker, q: set<AccountId>)
    requires TaskInv(t, {}, a) && a.Choosing? && b.Launching? && t.stopMode == NoStop
    requires forall i :: 0 <= i < |t.items| ==>
      (t.items[i].accountId in q <==> t.items[i].round == a.round && t.items[i].status == Queued)
    ensures TaskInv(t, q, b)
  {
    RoundCommitsExclusive(t.items, a.round, q);
    CommittingKeepsRoundKeys(t.items, q);
    var k :| 0 <= k < |t.items| && t.items[k].round == a.round && t.items[k].status == Queued;
    assert Launched(t.items, q, a.round);
  }

  lemma BeginRoundKeepsInv(w: World)
    requires Inv(w)
    ensures Inv(BeginRoundStep(w))
  {
    if w.worker.Choosing? && w.task.stopMode == NoStop {
      RoundIdsSpec(w.task.items, w.worker.round);
      var n := BeginRoundStep(w);
      assert Committed(w) == {};
      assert Committed(n) == set id | id in RoundIds(w.task.items, w.worker.round);
      BeginRoundThreads(w);
      RoundCommits(w.task, w.worker, n.worker, Committed(n));
    }
  }

  lemma BeginRoundThreads(w: World)
    requires Inv(w) && w.worker.Choosing? && w.task.stopMode == NoStop
    ensures Threads(BeginRoundStep(w))
  {
    var items := w.task.items;
    RoundIdsSpec(items, w.worker.round);
    var n := BeginRoundStep(w);
    forall i | 0 <= i < |items| ensures ItemInStep(n, items[i]) {
      assert ItemInStep(w, items[i]);
    }
    forall id | id in n.worker.pending ensures IndexOf(items, id) < |items| {
      var i :| 0 <= i < |items| && items[i].accountId == id;
      IndexOfItem(items, i);
    }
  }

  lemma SpawnThreads(w: World)
    requires WellFormed(w.task.items) && Threads(w) && w.worker.Launching? && w.worker.pending != []
    ensures Threads(SpawnStep(w))
  {
    var n := SpawnStep(w);
    var items := w.task.items;
    assert w.worker.pending[0] in w.worker.pending;
    forall i | 0 <= i < |items| ensures ItemInStep(n, items[i]) {
      assert ItemInStep(w, items[i]);
    }
  }

  lemma SpawnKeepsInv(w: World)
    requires Inv(w)
    ensures Inv(SpawnStep(w))
  {
    if w.worker.Launching? && w.worker.pending != [] {
      var n := SpawnStep(w);
      SpawnThreads(w);
      if w.worker.heedStop && w.task.stopMode != NoStop {
        assert forall i :: 0 <= i < |w.task.items| && Claims(w.task.items[i], Committed(n)) ==>
          Claims(w.task.items[i], Committed(w));
      } else {
        assert w.worker.pending == [w.worker.pending[0]] + w.worker.pending[1..];
        assert Committed(n) == Committed(w);
      }
    }
  }

  lemma JoinKeepsInv(w: World)
    requires Inv(w)
    ensures Inv(JoinStep(w))
  {
    var n := JoinStep(w);
    if n != w {
      assert Committed(w) == {} == Committed(n);
      forall i | 0 <= i < |w.task.items| ensures ItemInStep(n, w.task.items[i]) {
        assert ItemInStep(w, w.task.items[i]);
      }
    }
  }

  // ---------------------------------------------------------------- waking and stopping

  lemma WakeKeepsInv(w: World)
    requires Inv(w)
    ensures Inv(WakeStep(w))
  {
    RecalcKeeps(w.task.items);
    var n := WakeStep(w);
    assert n.task.items == w.task.items && Committed(n) == Committed(w);
    assert forall i :: 0 <= i < |w.task.items| && ItemInStep(w, w.task.items[i]) ==> ItemInStep(n, w.task.items[i]);
  }

  lemma StopKeepsInv(w: World, mode: StopMode)
    requires Inv(w)
    ensures Inv(StopStep(w, mode))
  {
    RecalcKeeps(w.task.items);
    var n := StopStep(w, mode);
    assert n.task.items == w.task.items && Committed(n) == Committed(w);
    assert forall i :: 0 <= i < |w.task.items| && ItemInStep(w, w.task.items[i]) ==> ItemInStep(n, w.task.items[i]);
  }

  // ---------------------------------------------------------------- one worker iteration

  /** The items at rest: no thread in flight, so nobody is between queued and running. */
  ghost predicate AtRest(items: seq<Item>) {
    && WellFormed(items) && AllCoherent(items)
    && ExclusiveKeys(items, {})
    && forall i :: 0 <= i < |items| ==> items[i].status != Starting
  }

  ghost predicate RestGate(t: Task) {
    AtRest(t.items) && (t.stopMode == NoStop ==> Gate(t, {}))
  }

  lemma RestingWorld(w: World)
    requires Inv(w) && !w.worker.Launching? && !w.worker.Exited?
    ensures RestGate(w.task) && Committed(w) == {}
  {
    forall i | 0 <= i < |w.task.items| ensures w.task.items[i].status != Starting {
      assert ItemInStep(w, w.task.items[i]);
    }
    assert Committed(w) == {};
  }

  lemma RefreshSettles(items: seq<Item>, answers: map<AccountId, Answer>)
    requires AllCoherent(items)
    ensures Settles(items, {}, RefreshItems(items, answers), {})
    ensures AllCoherent(RefreshItems(items, answers))
  {
  }

  lemma RefreshKeepsRest(t: Task, answers: map<AccountId, Answer>)
    requires RestGate(t)
    ensures RestGate(Refresh(t, answers))
    ensures Refresh(t, answers).stopMode == t.stopMode
    ensures Refresh(t, answers).items == t.items || Refresh(t, answers).items == RefreshItems(t.items, answers)
  {
    if RefreshAsks(t.items) {
      var a, b := t.items, RefreshItems(t.items, answers);
      RefreshSettles(a, answers);
      RecalcKeeps(b);
      assert Refresh(t, answers).items == b;
      SettledShape(a, b);
      SettledExclusive(a, {}, b, {});
      if t.stopMode == NoStop {
        SettledRounds(a, {}, b, {});
        if Launched(a, {}, t.currentRound) {
          SettledLaunched(a, {}, b, {}, t.currentRound);
        } else {
          assert false;
        }
      }
    }
  }

  lemma FinalizeKeepsRest(t: Task)
    requires RestGate(t)
    ensures AtRest(Finalize(t).items)
    ensures IsTaskActive(Finalize(t).status) ==> RestGate(Finalize(t)) && Finalize(t).items == t.items
    ensures Finalize(t).stopMode == t.stopMode
    ensures t.stopMode == NoStop ==> Finalize(t) == t || !IsTaskActive(Finalize(t).status)
  {
    RecalcKeeps(t.items);
    RecalcKeeps(StopItems(t.items));
    if t.stopMode == AfterCurrent && !AnyActive(t.items) {
      var b := StopItems(t.items);
      assert Settles(t.items, {}, b, {});
      SettledShape(t.items, b);
      SettledExclusive(t.items, {}, b, {});
    }
  }

  lemma {:induction false} QueuedBeforeGrows(items: seq<Item>, i: nat, j: nat)
    requires i <= j <= |items|
    ensures QueuedBefore(items, i) <= QueuedBefore(items, j)
    ensures i < j && items[i].status == Queued ==> QueuedBefore(items, i) < QueuedBefore(items, j)
  {
    if i < j {
      QueuedBeforeGrows(items, i, j - 1);
    }
  }

  lemma {:induction false} PromotedIdsSpec(items: seq<Item>, n: nat, upTo: nat)
    requires WellFormed(items) && upTo <= |items|
    ensures forall i :: 0 <= i < upTo ==> (items[i].accountId in PromotedIds(items, n, upTo) <==> IsPromoted(items, i, n))
    ensures forall id :: id in PromotedIds(items, n, upTo) ==>
      exists i :: 0 <= i < upTo && items[i].accountId == id && IsPromoted(items, i, n)
    ensures Distinct(PromotedIds(items, n, upTo))
    ensures n > 0 && QueuedBefore(items, upTo) > 0 ==> PromotedIds(items, n, upTo) != []
  {
    if upTo > 0 {
      PromotedIdsSpec(items, n, upTo - 1);
      assert items[upTo - 1].accountId !in PromotedIds(items, n, upTo - 1);
    }
  }

  lemma PromotedHolds(items: seq<Item>, held: set<string>, i: nat, c: int)
    requires i < |items| && IsPromoted(items, i, |ReleasedFrom(items, held)|)
    ensures var it := PromotedItem(items, i, ReleasedFrom(items, held), c);
            it.accountId == items[i].accountId && it.status == Queued && it.snapshot == items[i].snapshot
            && PhoneKey(it) == PhoneKey(ReleasedFrom(items, held)[QueuedBefore(items, i)])
            && PhoneKey(it) != "" && PhoneKey(it) !in held
    ensures c >= 1 ==> PromotedItem(items, i, ReleasedFrom(items, held), c).round == c
  {
    ReleasedFromSpec(items, held);
    var sources := ReleasedFrom(items, held);
    assert sources[QueuedBefore(items, i)] in sources;
  }

  /** Two promoted items get different keys, and none that an active or consumed item holds. */
  lemma PromotionExclusive(items: seq<Item>, c: int, q: set<AccountId>)
    requires AtRest(items)
    requires forall i :: 0 <= i < |items| ==>
      (items[i].accountId in q <==> IsPromoted(items, i, |ReleasedItems(items)|))
    ensures ExclusiveKeys(PromotedItems(items, ReleasedItems(items), c), q)
  {
    var sources := ReleasedItems(items);
    var next := PromotedItems(items, sources, c);
    forall i, j | 0 <= i < j < |items| && Claims(next[i], q) && Claims(next[j], q)
      ensures PhoneKey(next[i]) != PhoneKey(next[j]) || PhoneKey(next[i]) == ""
    {
      var n := |sources|;
      if IsPromoted(items, i, n) {
        PromotedHolds(items, HeldKeys(items), i, c);
      }
      if IsPromoted(items, j, n) {
        PromotedHolds(items, HeldKeys(items), j, c);
      }
      if IsPromoted(items, i, n) && IsPromoted(items, j, n) {
        QueuedBeforeGrows(items, i, j);
        ReleasedFromSpec(items, HeldKeys(items));
      } else if IsPromoted(items, i, n) {
        assert PhoneKey(items[j]) != "" ==> PhoneKey(items[j]) in HeldKeys(items);
      } else if IsPromoted(items, j, n) {
        assert PhoneKey(items[i]) != "" ==> PhoneKey(items[i]) in HeldKeys(items);
      } else {
        assert Claims(items[i], {}) && Claims(items[j], {});
      }
    }
  }

  lemma PromotionItems(items: seq<Item>, c: int)
    requires AtRest(items) && c >= 1
    ensures var next := PromotedItems(items, ReleasedItems(items), c);
            WellFormed(next) && AllCoherent(next)
  {
    var next := PromotedItems(items, ReleasedItems(items), c);
    forall i | 0 <= i < |items|
      ensures next[i].accountId == items[i].accountId && next[i].round >= 1 && Coherent(next[i])
    {
      if IsPromoted(items, i, |ReleasedItems(items)|) {
        PromotedHolds(items, HeldKeys(items), i, c);
      }
    }
  }

  lemma PromotionGate(items: seq<Item>, c: int, q: set<AccountId>)
    requires AtRest(items) && RoundKeys(items, {}) && Launched(items, {}, c)
    requires forall i :: 0 <= i < |items| ==>
      (items[i].accountId in q <==> IsPromoted(items, i, |ReleasedItems(items)|))
    ensures var next := PromotedItems(items, ReleasedItems(items), c);
            RoundKeys(next, q) && Launched(next, q, c)
  {
    var next := PromotedItems(items, ReleasedItems(items), c);
    forall i | 0 <= i < |items| ensures items[i].accountId in q ==> next[i].round == c {
      if IsPromoted(items, i, |ReleasedItems(items)|) {
        PromotedHolds(items, HeldKeys(items), i, c);
      }
    }
    forall i, j | 0 <= i < j < |items| && Waiting(next[i], q) && Waiting(next[j], q)
      ensures next[i].round != next[j].round || PhoneKey(next[i]) != PhoneKey(next[j]) || PhoneKey(next[i]) == ""
    {
      assert Waiting(items[i], {}) && Waiting(items[j], {});
    }
  }

  lemma QueuedCounts(items: seq<Item>, i: nat)
    requires i < |items| && items[i].status == Queued
    ensures QueuedBefore(items, |items|) > 0
  {
    QueuedBeforeGrows(items, i, |items|);
  }

  /** What promotion yields on a resting task: the launched round stays `currentRound`. */
  lemma PromoteKeepsInv(t: Task, worker: Worker)
    requires RestGate(t) && t.stopMode == NoStop && Promote(t).1 != []
    requires worker.Launching?
    ensures var (p, ids) := Promote(t);
            Launched(t.items, {}, t.currentRound)
            && p.items == PromotedItems(t.items, ReleasedItems(t.items), t.currentRound)
            && RecalcItems(p.items) == p.items
            && TaskInv(Recalculate(p), (set id | id in ids), worker)
  {
    var (p, ids) := Promote(t);
    var q := set id | id in ids;
    PromotedIdsSpec(t.items, |ReleasedItems(t.items)|, |t.items|);
    assert ids[0] in ids;
    assert Launched(t.items, {}, t.currentRound);
    PromotionItems(t.items, t.currentRound);
    PromotionExclusive(t.items, t.currentRound, q);
    PromotionGate(t.items, t.currentRound, q);
    RecalcKeeps(p.items);
  }

  lemma {:induction false} LowestPendingSpec(items: seq<Item>)
    ensures LowestPendingRound(items).None? <==> AllTerminal(items)
    ensures LowestPendingRound(items).Some? ==>
      forall i :: 0 <= i < |items| && !IsTerminal(items[i].status) ==> items[i].round >= LowestPendingRound(items).value
    ensures LowestPendingRound(items).Some? ==>
      exists i :: 0 <= i < |items| && !IsTerminal(items[i].status) && items[i].round == LowestPendingRound(items).value
  {
    if items != [] {
      var front := items[..|items| - 1];
      LowestPendingSpec(front);
      assert forall i :: 0 <= i < |front| ==> front[i] == items[i];
      if LowestPendingRound(front).Some? {
        var k :| 0 <= k < |front| && !IsTerminal(front[k].status) && front[k].round == LowestPendingRound(front).value;
        assert items[k] == front[k];
      }
    }
  }

  lemma NothingReleased(items: seq<Item>, k: nat)
    requires WellFormed(items) && k < |items| && items[k].status == Queued
    requires PromotedIds(items, |ReleasedItems(items)|, |items|) == []
    ensures ReleasedItems(items) == []
  {
    QueuedCounts(items, k);
    PromotedIdsSpec(items, |ReleasedItems(items)|, |items|);
  }

  /** With nothing to promote, a queued item in the lowest pending round and nobody active there,
      nothing at all is in flight. */
  lemma OpenRound(t: Task, r: int)
    requires RestGate(t) && t.stopMode == NoStop && Promote(t).1 == []
    requires LowestPendingRound(t.items) == Some(r) && !AnyActiveIn(t.items, r) && AnyQueuedIn(t.items, r)
    ensures Quiet(t.items, {})
    ensures forall i :: 0 <= i < |t.items| && t.items[i].status == Queued ==> t.items[i].round >= r
  {
    LowestPendingSpec(t.items);
    var k :| 0 <= k < |t.items| && t.items[k].round == r && t.items[k].status == Queued;
    NothingReleased(t.items, k);
    assert Waiting(t.items[k], {});
  }

  /** Round dispatch leaves the items alone; it moves `currentRound` only to the lowest pending round. */
  lemma DispatchRoundShape(t: Task, now: real)
    requires AllCoherent(t.items) && t.stopMode == NoStop
    ensures var (u, v) := DispatchRound(t, now);
            u.items == t.items && u.stopMode == NoStop && !v.LaunchPromoted?
    ensures var (u, v) := DispatchRound(t, now);
            v.Sleep? && u.currentRound != t.currentRound ==>
              LowestPendingRound(t.items) == Some(u.currentRound)
              && (AnyActiveIn(t.items, u.currentRound) || AnyQueuedIn(t.items, u.currentRound))
    ensures var (u, v) := DispatchRound(t, now);
            v.LaunchRound? ==>
              LowestPendingRound(t.items) == Some(v.round) && u.currentRound == v.round
              && AnyQueuedIn(t.items, v.round) && !AnyActiveIn(t.items, v.round)
  {
    RecalcKeeps(t.items);
    LowestPendingSpec(t.items);
  }

  lemma DispatchRoundKeepsInv(t: Task, now: real)
    requires RestGate(t) && t.stopMode == NoStop && Promote(t).1 == []
    ensures var (u, v) := DispatchRound(t, now);
            TaskInv(u, {}, AfterVerdict(v))
  {
    var (u, v) := DispatchRound(t, now);
    DispatchRoundShape(t, now);
    LowestPendingSpec(t.items);
    match v
    case Exit =>
    case LaunchPromoted(_) =>
    case LaunchRound(r) =>
      OpenRound(t, r);
    case Sleep =>
      if u.currentRound != t.currentRound {
        if AnyActiveIn(t.items, u.currentRound) {
          var k :| 0 <= k < |t.items| && t.items[k].round == u.currentRound && IsActive(t.items[k]);
        } else {
          OpenRound(t, u.currentRound);
        }
      }
  }

  /** The accounts a verdict commits. */
  function Commits(v: Verdict): set<AccountId> {
    if v.LaunchPromoted? then (set id | id in v.ids) else {}
  }

  lemma DispatchTaskInv(t: Task, now: real)
    requires RestGate(t)
    ensures TaskInv(Dispatch(t, now).0, Commits(Dispatch(t, now).1), AfterVerdict(Dispatch(t, now).1))
  {
    if t.stopMode == NoStop {
      var ids := Promote(t).1;
      if ids != [] {
        PromoteKeepsInv(t, Launching(ids, false));
      } else {
        DispatchRoundShape(t, now);
        DispatchRoundKeepsInv(t, now);
      }
    }
  }

  lemma DecideTaskInv(t: Task, answers: map<AccountId, Answer>, now: real)
    requires RestGate(t)
    ensures var (u, v) := Decide(t, answers, now);
            TaskInv(u, Commits(v), AfterVerdict(v))
  {
    RefreshKeepsRest(t, answers);
    var f := Finalize(Refresh(t, answers));
    FinalizeKeepsRest(Refresh(t, answers));
    if IsTaskActive(f.status) {
      DispatchTaskInv(f, now);
    }
  }

  lemma DecideThreads(w: World, answers: map<AccountId, Answer>, now: real)
    requires Inv(w) && w.worker.Awake?
    ensures Threads(DecideStep(w, answers, now))
  {
    RestingWorld(w);
    var n := DecideStep(w, answers, now);
    var (u, v) := Decide(w.task, answers, now);
    RefreshKeepsRest(w.task, answers);
    FinalizeKeepsRest(Refresh(w.task, answers));
    DecideTaskInv(w.task, answers, now);
    DecideLeavesNoStarting(w.task, answers, now);
    forall i | 0 <= i < |u.items| ensures ItemInStep(n, u.items[i]) {
    }
    forall id | v.LaunchPromoted? && id in v.ids ensures IndexOf(u.items, id) < |u.items| {
      var i :| 0 <= i < |u.items| && u.items[i].accountId == id;
      IndexOfItem(u.items, i);
    }
  }

  ghost predicate LaunchesQueued(items: seq<Item>, ids: seq<AccountId>) {
    && Distinct(ids)
    && (forall id :: id in ids ==> exists i :: 0 <= i < |items| && items[i].accountId == id)
    && (forall i :: 0 <= i < |items| && items[i].accountId in ids ==> items[i].status == Queued)
  }

  lemma PromotedAreQueued(t: Task)
    requires WellFormed(t.items)
    ensures LaunchesQueued(Promote(t).0.items, Promote(t).1)
  {
    var (p, ids) := Promote(t);
    if ids != [] {
      PromotedIdsSpec(t.items, |ReleasedItems(t.items)|, |t.items|);
      assert forall i :: 0 <= i < |t.items| ==> p.items[i].accountId == t.items[i].accountId && p.items[i].status == t.items[i].status;
      forall id | id in ids ensures exists i :: 0 <= i < |p.items| && p.items[i].accountId == id {
        var i :| 0 <= i < |t.items| && t.items[i].accountId == id;
        assert p.items[i].accountId == id;
      }
    }
  }

  /** No item is left starting, and a promoted account is a queued item of the written task. */
  lemma DecideLeavesNoStarting(t: Task, answers: map<AccountId, Answer>, now: real)
    requires RestGate(t)
    ensures var (u, v) := Decide(t, answers, now);
            && (forall i :: 0 <= i < |u.items| ==> u.items[i].status != Starting)
            && (v.LaunchPromoted? ==> LaunchesQueued(u.items, v.ids))
  {
    RefreshKeepsRest(t, answers);
    var f := Finalize(Refresh(t, answers));
    FinalizeKeepsRest(Refresh(t, answers));
    if IsTaskActive(f.status) && f.stopMode == NoStop {
      var (p, ids) := Promote(f);
      if ids != [] {
        PromoteKeepsInv(f, Launching(ids, false));
        PromotedAreQueued(f);
      } else {
        DispatchRoundShape(f, now);
      }
    }
  }

  lemma DecideKeepsInv(w: World, answers: map<AccountId, Answer>, now: real)
    requires Inv(w)
    ensures Inv(DecideStep(w, answers, now))
  {
    if w.worker.Awake? {
      RestingWorld(w);
      var n := DecideStep(w, answers, now);
      DecideThreads(w, answers, now);
      DecideTaskInv(w.task, answers, now);
      var (u, v) := Decide(w.task, answers, now);
      assert Committed(n) == Commits(v);
    }
  }

  lemma MoveKeepsInv(w: World, e: Event)
    requires Inv(w)
    ensures Inv(Move(w, e))
  {
    match e
    case Wake => WakeKeepsInv(w);
    case DecideNow(answers, now) => DecideKeepsInv(w, answers, now);
    case BeginRound => BeginRoundKeepsInv(w);
    case Spawn => SpawnKeepsInv(w);
    case Join => JoinKeepsInv(w);
    case Mark(id) => MarkKeepsInv(w, id);
    case AdmitNow(id, result) => AdmitKeepsInv(w, id, result);
    case RecordNow(id) => RecordKeepsInv(w, id);
    case RequestStop(mode) => StopKeepsInv(w, mode);
  }

  /** The logs play no part in the invariant. */
  lemma InvIgnoresSpent(w: World, spent: set<string>)
    requires Inv(w)
    ensures Inv(w.(spent := spent))
  {
    var n := w.(spent := spent);
    assert Committed(n) == Committed(w);
    forall i | 0 <= i < |w.task.items| ensures ItemInStep(n, w.task.items[i]) {
      assert ItemInStep(w, w.task.items[i]);
    }
  }

  lemma StepKeepsInv(w: World, e: Event)
    requires Inv(w)
    ensures Inv(Step(w, e))
  {
    MoveKeepsInv(w, e);
    InvIgnoresSpent(Move(w, e), Step(w, e).spent);
  }

  lemma {:induction false} RunKeepsInv(w: World, events: seq<Event>)
    requires Inv(w)
    ensures Inv(Run(w, events))
  {
    if events != [] {
      RunKeepsInv(w, events[..|events| - 1]);
      StepKeepsInv(Run(w, events[..|events| - 1]), events[|events| - 1]);
    }
  }

  /** A state some run from a freshly created batch ends in. */
  ghost predicate Reachable(n: World) {
    exists w, events :: Init(w) && n == Run(w, events)
  }

  lemma ReachableInv(n: World)
    requires Reachable(n)
    ensures Inv(n)
  {
    var w, events :| Init(w) && n == Run(w, events);
    InitInv(w);
    RunKeepsInv(w, events);
  }
}
