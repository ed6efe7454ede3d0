/** One session per account, and the graceful stop: admission closes, admitted sessions drain to
    their own outcome, everything else is stopped, and the counters add up. */
module GopayBatchStop {
  import opened Common
  import opened GopayBatch
  import opened GopayBatchRuns
  import opened GopayBatchInvariant
  import opened GopayBatchTheorems

  // ---------------------------------------------------------------- the admission log

  ghost predicate ItemLogged(w: World, it: Item) {
    && (it.accountId in w.admissions ==>
          && it.status != Queued
          && (it.accountId in w.threads ==>
                w.threads[it.accountId].Created? || w.threads[it.accountId].Finished?))
    && (it.accountId in w.threads && w.threads[it.accountId].Created? ==> it.accountId in w.admissions)
    && (it.status == Running ==> it.accountId in w.admissions)
  }

  ghost predicate Logged(w: World) {
    && Distinct(w.admissions)
    && forall i :: 0 <= i < |w.task.items| ==> ItemLogged(w, w.task.items[i])
  }

  lemma DecideRunning(t: Task, answers: map<AccountId, Answer>, now: real)
    requires RestGate(t)
    ensures var u := Decide(t, answers, now).0;
            |u.items| == |t.items|
            && forall i :: 0 <= i < |t.items| && u.items[i].status == Running ==> t.items[i].status == Running
  {
    DecideMoves(t, answers, now);
    DecideLeavesNoStarting(t, answers, now);
  }

  lemma DecideKeepsLog(w: World, e: Event)
    requires Inv(w) && Logged(w) && e.DecideNow? && w.worker.Awake?
    ensures Logged(Move(w, e))
  {
    RestingWorld(w);
    DecideMoves(w.task, e.answers, e.now);
    DecideRunning(w.task, e.answers, e.now);
    var n := Move(w, e);
    forall i | 0 <= i < |n.task.items| ensures ItemLogged(n, n.task.items[i]) {
      assert ItemLogged(w, w.task.items[i]) && ItemMove(w.task.items[i], n.task.items[i]);
    }
  }

  /** A phase that does not admit: the item keeps its place in the log. */
  lemma ThreadKeepsLog(w: World, id: AccountId, n: World)
    requires Inv(w) && Logged(w) && id in w.threads
    requires OwnItemOnly(w.task.items, n.task.items, id)
    requires n.worker == w.worker && n.admissions == w.admissions
    requires n.threads == w.threads[id := if w.threads[id].Spawned? then Marked else Finished]
    requires forall i :: 0 <= i < |n.task.items| && n.task.items[i].accountId == id && n.task.items[i].status == Running ==>
      w.threads[id].Created? || w.task.items[i].status == Running
    ensures Logged(n)
  {
    forall i | 0 <= i < |n.task.items| ensures ItemLogged(n, n.task.items[i]) {
      assert ItemLogged(w, w.task.items[i]);
      assert ItemInStep(w, w.task.items[i]);
      IndexOfItem(w.task.items, i);
    }
  }

  lemma AdmittedKeepsLog(w: World, id: AccountId, result: StartResult)
    requires Inv(w) && Logged(w) && id in w.threads && w.threads[id].Marked? && Admits(w.task, id)
    ensures Logged(AdmitStep(w, id, result))
  {
    var n := AdmitStep(w, id, result);
    var k := IndexOf(w.task.items, id);
    assert ItemLogged(w, w.task.items[k]) && ItemInStep(w, w.task.items[k]);
    AdmitItems(w, id, result);
    assert id !in w.admissions;
    forall i | 0 <= i < |n.task.items| ensures ItemLogged(n, n.task.items[i]) {
      assert ItemLogged(w, w.task.items[i]);
      IndexOfItem(w.task.items, i);
    }
  }

  lemma RefusedKeepsLog(w: World, id: AccountId, result: StartResult)
    requires Inv(w) && Logged(w) && id in w.threads && w.threads[id].Marked? && !Admits(w.task, id)
    ensures Logged(AdmitStep(w, id, result))
  {
    var n := AdmitStep(w, id, result);
    var k := IndexOf(w.task.items, id);
    assert ItemInStep(w, w.task.items[k]);
    AdmitItems(w, id, result);
    forall i | 0 <= i < |n.task.items| && n.task.items[i].accountId == id ensures n.task.items[i].status != Running {
      IndexOfItem(w.task.items, i);
      SetItemItems(w.task, k, RefuseItem(w.task.items[k], w.task.stopMode));
    }
    ThreadKeepsLog(w, id, n);
  }

  lemma AdmitKeepsLog(w: World, id: AccountId, result: StartResult)
    requires Inv(w) && Logged(w)
    ensures Logged(AdmitStep(w, id, result))
  {
    if id in w.threads && w.threads[id].Marked? {
      if Admits(w.task, id) {
        AdmittedKeepsLog(w, id, result);
      } else {
        RefusedKeepsLog(w, id, result);
      }
    }
  }

  lemma MarkKeepsLog(w: World, id: AccountId)
    requires Inv(w) && Logged(w)
    ensures Logged(MarkStep(w, id))
  {
    var n := MarkStep(w, id);
    if id in w.threads && w.threads[id].Spawned? {
      var k := IndexOf(w.task.items, id);
      MarkItems(w, id);
      assert ItemInStep(w, w.task.items[k]);
      forall i | 0 <= i < |n.task.items| && n.task.items[i].accountId == id ensures n.task.items[i].status != Running {
        IndexOfItem(w.task.items, i);
      }
      ThreadKeepsLog(w, id, n);
    }
  }

  lemma RecordKeepsLog(w: World, id: AccountId)
    requires Inv(w) && Logged(w)
    ensures Logged(RecordStep(w, id))
  {
    if id in w.threads && w.threads[id].Created? {
      RecordItems(w, id);
      ThreadKeepsLog(w, id, RecordStep(w, id));
    }
  }

  lemma SpawnKeepsLog(w: World)
    requires Inv(w) && Logged(w)
    ensures Logged(SpawnStep(w))
  {
    var n := SpawnStep(w);
    if w.worker.Launching? && w.worker.pending != [] {
      assert w.worker.pending[0] in w.worker.pending;
      forall i | 0 <= i < |n.task.items| ensures ItemLogged(n, n.task.items[i]) {
        assert ItemLogged(w, w.task.items[i]) && ItemInStep(w, w.task.items[i]);
      }
    }
  }

  lemma QuietEventKeepsLog(w: World, e: Event)
    requires Inv(w) && Logged(w) && (e.Wake? || e.BeginRound? || e.Join? || e.RequestStop?)
    ensures Logged(Move(w, e))
  {
    RecalcKeeps(w.task.items);
    var n := Move(w, e);
    forall i | 0 <= i < |n.task.items| ensures ItemLogged(n, n.task.items[i]) {
      assert ItemLogged(w, w.task.items[i]);
    }
  }

  lemma MoveKeepsLog(w: World, e: Event)
    requires Inv(w) && Logged(w)
    ensures Logged(Move(w, e))
  {
    match e
    case DecideNow(answers, now) => if w.worker.Awake? { DecideKeepsLog(w, e); }
    case Spawn => SpawnKeepsLog(w);
    case Mark(id) => MarkKeepsLog(w, id);
    case AdmitNow(id, result) => AdmitKeepsLog(w, id, result);
    case RecordNow(id) => RecordKeepsLog(w, id);
    case _ => QuietEventKeepsLog(w, e);
  }

  lemma {:induction false} RunKeepsLog(w: World, events: seq<Event>)
    requires Init(w)
    ensures Inv(Run(w, events)) && Logged(Run(w, events))
  {
    InitInv(w);
    RunKeepsInv(w, events);
    if events == [] {
      forall i | 0 <= i < |w.task.items| ensures ItemLogged(w, w.task.items[i]) {
      }
    } else {
      var front := events[..|events| - 1];
      RunKeepsLog(w, front);
      var b := Run(w, front);
      MoveKeepsLog(b, events[|events| - 1]);
      var n := Run(w, events);
      forall i | 0 <= i < |n.task.items| ensures ItemLogged(n, n.task.items[i]) {
        assert ItemLogged(Move(b, events[|events| - 1]), n.task.items[i]);
      }
    }
  }

  /** Whatever the interleaving, no account gets a second session. */
  lemma EachAccountStartsAtMostOnce(w: World, events: seq<Event>)
    requires Init(w)
    ensures Distinct(Run(w, events).admissions)
  {
    RunKeepsLog(w, events);
  }

  // ---------------------------------------------------------------- how a batch ends

  ghost predicate Counted(t: Task) {
    && t.total == |t.items|
    && t.success == CountStatus(t.items, Done)
    && t.failed == CountStatus(t.items, Failed)
    && t.cancelled == CountStatus(t.items, Cancelled)
    && t.stopped == CountStatus(t.items, Stopped)
  }

  function FinalStatus(mode: StopMode): TaskStatus {
    match mode
    case NoStop => TaskDone
    case AfterCurrent => TaskStopped
    case Immediate => TaskCancelled
  }

  ghost predicate Closed(t: Task) {
    AllTerminal(t.items) && Counted(t) && t.status == FinalStatus(t.stopMode)
  }

  /** The worker leaves exactly when the task has closed. */
  ghost predicate ExitsClosed(w: World) {
    && (w.worker.Exited? <==> !IsTaskActive(w.task.status))
    && (w.worker.Exited? ==> Closed(w.task))
  }

  lemma FinalizeCloses(t: Task)
    requires RestGate(t) && IsTaskActive(t.status) && !IsTaskActive(Finalize(t).status)
    ensures Closed(Finalize(t))
  {
    RecalcKeeps(t.items);
    RecalcKeeps(StopItems(t.items));
  }

  lemma DispatchStatus(t: Task, now: real)
    requires RestGate(t) && IsTaskActive(t.status)
    ensures var (u, v) := Dispatch(t, now);
            (v.Exit? <==> !IsTaskActive(u.status)) && (v.Exit? ==> Closed(u))
  {
    if t.stopMode == NoStop && Promote(t).1 == [] && LowestPendingRound(t.items).None?
       && !IsTaskActive(Finalize(t).status) {
      FinalizeCloses(t);
    }
  }

  lemma DecideExitsClosed(t: Task, answers: map<AccountId, Answer>, now: real)
    requires RestGate(t) && IsTaskActive(t.status)
    ensures var (u, v) := Decide(t, answers, now);
            (v.Exit? <==> !IsTaskActive(u.status)) && (v.Exit? ==> Closed(u))
  {
    RefreshKeepsRest(t, answers);
    var r := Refresh(t, answers);
    FinalizeKeepsRest(r);
    if IsTaskActive(Finalize(r).status) {
      DispatchStatus(Finalize(r), now);
    } else {
      FinalizeCloses(r);
    }
  }

  lemma MoveKeepsExitsClosed(w: World, e: Event)
    requires Inv(w) && ExitsClosed(w)
    ensures ExitsClosed(Move(w, e))
  {
    if e.DecideNow? && w.worker.Awake? {
      RestingWorld(w);
      DecideExitsClosed(w.task, e.answers, e.now);
    } else if w.worker.Exited? {
      assert w.threads == map[];
    } else {
      assert IsTaskActive(Move(w, e).task.status);
    }
  }

  lemma {:induction false} RunKeepsExitsClosed(w: World, events: seq<Event>)
    requires Init(w)
    ensures ExitsClosed(Run(w, events))
  {
    if events != [] {
      var front := events[..|events| - 1];
      RunKeepsExitsClosed(w, front);
      RunKeepsLog(w, front);
      MoveKeepsExitsClosed(Run(w, front), events[|events| - 1]);
    }
  }

  /** A worker that has left leaves only terminal items behind, the counters split the total, and
      the task status tells which stop mode, if any, was in force. */
  lemma ExitLeavesNothingOpen(n: World)
    requires Reachable(n) && n.worker.Exited?
    ensures AllTerminal(n.task.items)
    ensures n.task.success + n.task.failed + n.task.cancelled + n.task.stopped == n.task.total == |n.task.items|
    ensures n.task.status == FinalStatus(n.task.stopMode)
  {
    var w, events :| Init(w) && n == Run(w, events);
    RunKeepsExitsClosed(w, events);
    TerminalCountsAddUp(n.task.items);
  }

  // ---------------------------------------------------------------- the graceful stop

  /** What the payment calls promise: a phase from the two tables, and a session id to ask about. */
  predicate KnownSnapshot(s: Snapshot) {
    (IsActivePhase(s.phase) || IsTerminalPhase(s.phase)) && s.sessionId != ""
  }

  ghost predicate KnownEvent(e: Event) {
    match e
    case DecideNow(answers, _) =>
      forall id :: id in answers && answers[id].Latest? ==> KnownSnapshot(answers[id].snapshot)
    case AdmitNow(_, result) => result.Session? ==> KnownSnapshot(result.snapshot)
    case RequestStop(mode) => mode == AfterCurrent
    case _ => true
  }

  ghost predicate AllKnown(events: seq<Event>) {
    forall k :: 0 <= k < |events| ==> KnownEvent(events[k])
  }

  ghost predicate ItemDrains(w: World, it: Item) {
    && (it.status == Running ==> KnownSnapshot(it.snapshot))
    && (it.accountId in w.admissions ==> it.status != Stopped)
  }

  ghost predicate Drains(w: World) {
    && w.task.stopMode != Immediate
    && (forall id :: id in w.threads && w.threads[id].Created? && w.threads[id].result.Session? ==>
          KnownSnapshot(w.threads[id].result.snapshot))
    && (forall i :: 0 <= i < |w.task.items| ==> ItemDrains(w, w.task.items[i]))
  }

  /** Everything a run from a fresh batch with a well-behaved payment service maintains. */
  ghost predicate Reach(w: World) {
    Inv(w) && Logged(w) && ExitsClosed(w) && Drains(w)
  }

  lemma RefreshDrains(w: World, answers: map<AccountId, Answer>, i: nat)
    requires Drains(w) && i < |w.task.items| && KnownEvent(DecideNow(answers, 0.0))
    ensures ItemDrains(w, RefreshItem(w.task.items[i], answers))
  {
    assert ItemDrains(w, w.task.items[i]);
  }

  /** With known phases, whatever is not active and not terminal is still queued. */
  lemma IdleMeansQueued(t: Task, answers: map<AccountId, Answer>, w: World)
    requires RestGate(t) && Drains(w) && w.task == t && KnownEvent(DecideNow(answers, 0.0))
    ensures var r := Refresh(t, answers);
            forall i :: 0 <= i < |r.items| && !IsActive(r.items[i]) && !IsTerminal(r.items[i].status) ==>
              r.items[i].status == Queued && t.items[i].status == Queued
  {
    RefreshKeepsRest(t, answers);
    RefreshMoves(t, answers);
    var r := Refresh(t, answers);
    forall i | 0 <= i < |r.items| && !IsActive(r.items[i]) && !IsTerminal(r.items[i].status)
      ensures r.items[i].status == Queued && t.items[i].status == Queued
    {
      RefreshDrains(w, answers, i);
      assert ItemMove(t.items[i], r.items[i]);
      assert ItemDrains(w, t.items[i]);
    }
  }

  /** Where one item of the written task comes from: its refreshed form, kept or stopped, or a
      queued item that the dispatch gate moved. */
  lemma DecideItem(t: Task, answers: map<AccountId, Answer>, now: real, i: nat)
    requires RestGate(t) && i < |t.items|
    ensures var r, u := Refresh(t, answers), Decide(t, answers, now).0;
            && |u.items| == |r.items| == |t.items| && u.stopMode == t.stopMode
            && (r.items[i] == t.items[i] || r.items[i] == RefreshItem(t.items[i], answers))
            && (u.items[i] == r.items[i]
                || (u.items[i] == StopItem(r.items[i]) && t.stopMode == AfterCurrent && !AnyActive(r.items))
                || (r.items[i].status == Queued && ItemMove(r.items[i], u.items[i]) && !IsTerminal(u.items[i].status)))
  {
    var r := Refresh(t, answers);
    RefreshKeepsRest(t, answers);
    FinalizeKeepsRest(r);
    FinalizeStops(r);
    if IsTaskActive(Finalize(r).status) {
      DispatchMoves(Finalize(r), now);
      DispatchKeepsMode(Finalize(r), now);
    }
  }

  lemma FinalizeStops(t: Task)
    requires RestGate(t)
    ensures Finalize(t).items == t.items
            || (Finalize(t).items == StopItems(t.items) && t.stopMode == AfterCurrent && !AnyActive(t.items))
  {
    RecalcKeeps(t.items);
    RecalcKeeps(StopItems(t.items));
  }

  lemma DispatchKeepsMode(t: Task, now: real)
    requires RestGate(t)
    ensures Dispatch(t, now).0.stopMode == t.stopMode
    ensures forall i :: 0 <= i < |t.items| && t.items[i].status == Queued ==> Dispatch(t, now).0.items[i].status == Queued
  {
    if t.stopMode == NoStop {
      if Promote(t).1 != [] {
        PromoteKeepsInv(t, Launching(Promote(t).1, false));
      } else {
        DispatchRoundShape(t, now);
      }
    }
  }

  lemma DecideItemDrains(w: World, answers: map<AccountId, Answer>, now: real, i: nat)
    requires Reach(w) && w.worker.Awake? && KnownEvent(DecideNow(answers, now)) && i < |w.task.items|
    ensures |Decide(w.task, answers, now).0.items| == |w.task.items|
    ensures ItemDrains(w, Decide(w.task, answers, now).0.items[i])
  {
    RestingWorld(w);
    DecideItem(w.task, answers, now, i);
    IdleMeansQueued(w.task, answers, w);
    RefreshDrains(w, answers, i);
    assert ItemDrains(w, w.task.items[i]) && ItemLogged(w, w.task.items[i]);
  }

  lemma DecideDrains(w: World, answers: map<AccountId, Answer>, now: real)
    requires Reach(w) && w.worker.Awake? && KnownEvent(DecideNow(answers, now))
    ensures Drains(DecideStep(w, answers, now))
  {
    RestingWorld(w);
    var n := DecideStep(w, answers, now);
    assert n.task.stopMode == w.task.stopMode by {
      DecideKeepsMode(w.task, answers, now);
    }
    DecideMoves(w.task, answers, now);
    forall i | 0 <= i < |n.task.items| ensures ItemDrains(n, n.task.items[i]) {
      DecideItemDrains(w, answers, now, i);
    }
  }

  lemma DecideKeepsMode(t: Task, answers: map<AccountId, Answer>, now: real)
    requires RestGate(t)
    ensures Decide(t, answers, now).0.stopMode == t.stopMode
  {
    RefreshKeepsRest(t, answers);
    FinalizeKeepsRest(Refresh(t, answers));
    if IsTaskActive(Finalize(Refresh(t, answers)).status) {
      DispatchKeepsMode(Finalize(Refresh(t, answers)), now);
    }
  }

  lemma MarkedItem(w: World, id: AccountId)
    requires Reach(w) && id in w.threads && w.threads[id].Spawned?
    ensures var k := IndexOf(w.task.items, id);
            ItemDrains(MarkStep(w, id), MarkStartingItem(w.task.items[k], w.task.stopMode))
            && MarkStep(w, id).task.items == w.task.items[k := MarkStartingItem(w.task.items[k], w.task.stopMode)]
  {
    var k := IndexOf(w.task.items, id);
    assert ItemDrains(w, w.task.items[k]) && ItemLogged(w, w.task.items[k]) && ItemInStep(w, w.task.items[k]);
    SetItemItems(w.task, k, MarkStartingItem(w.task.items[k], w.task.stopMode));
  }

  lemma RefusedItem(w: World, id: AccountId, result: StartResult)
    requires Reach(w) && id in w.threads && w.threads[id].Marked? && !Admits(w.task, id)
    ensures var k := IndexOf(w.task.items, id);
            ItemDrains(AdmitStep(w, id, result), RefuseItem(w.task.items[k], w.task.stopMode))
            && AdmitStep(w, id, result).task.items == w.task.items[k := RefuseItem(w.task.items[k], w.task.stopMode)]
  {
    var k := IndexOf(w.task.items, id);
    assert ItemDrains(w, w.task.items[k]) && ItemLogged(w, w.task.items[k]) && ItemInStep(w, w.task.items[k]);
    SetItemItems(w.task, k, RefuseItem(w.task.items[k], w.task.stopMode));
  }

  lemma RecordedItem(w: World, id: AccountId)
    requires Reach(w) && id in w.threads && w.threads[id].Created?
    ensures var k := IndexOf(w.task.items, id);
            ItemDrains(RecordStep(w, id), RecordItem(w.task.items[k], w.task.status, w.threads[id].result))
            && RecordStep(w, id).task.items
               == w.task.items[k := RecordItem(w.task.items[k], w.task.status, w.threads[id].result)]
  {
    var k := IndexOf(w.task.items, id);
    assert ItemDrains(w, w.task.items[k]) && ItemLogged(w, w.task.items[k]) && ItemInStep(w, w.task.items[k]);
    SetItemItems(w.task, k, RecordItem(w.task.items[k], w.task.status, w.threads[id].result));
  }

  lemma ThreadDrains(w: World, e: Event)
    requires Reach(w) && KnownEvent(e) && (e.Mark? || e.AdmitNow? || e.RecordNow?)
    ensures Drains(Move(w, e))
  {
    var n := Move(w, e);
    if e.id in w.threads {
      if e.Mark? && w.threads[e.id].Spawned? {
        MarkedItem(w, e.id);
      } else if e.AdmitNow? && w.threads[e.id].Marked? && !Admits(w.task, e.id) {
        RefusedItem(w, e.id, e.result);
      } else if e.RecordNow? && w.threads[e.id].Created? {
        RecordedItem(w, e.id);
      }
    }
    forall i | 0 <= i < |n.task.items| ensures ItemDrains(n, n.task.items[i]) {
      assert ItemDrains(w, w.task.items[i]);
    }
  }

  lemma MoveKeepsReach(w: World, e: Event)
    requires Reach(w) && KnownEvent(e)
    ensures Reach(Move(w, e))
  {
    MoveKeepsInv(w, e);
    MoveKeepsLog(w, e);
    MoveKeepsExitsClosed(w, e);
    RecalcKeeps(w.task.items);
    if e.DecideNow? && w.worker.Awake? {
      DecideDrains(w, e.answers, e.now);
    } else if e.Mark? || e.AdmitNow? || e.RecordNow? {
      ThreadDrains(w, e);
    } else {
      var n := Move(w, e);
      forall i | 0 <= i < |n.task.items| ensures ItemDrains(n, n.task.items[i]) {
        assert ItemDrains(w, w.task.items[i]);
      }
    }
  }

  lemma ReachIgnoresSpent(w: World, spent: set<string>)
    requires Reach(w)
    ensures Reach(w.(spent := spent))
  {
    var n := w.(spent := spent);
    InvIgnoresSpent(w, spent);
    forall i | 0 <= i < |w.task.items| ensures ItemLogged(n, n.task.items[i]) && ItemDrains(n, n.task.items[i]) {
      assert ItemLogged(w, w.task.items[i]) && ItemDrains(w, w.task.items[i]);
    }
  }

  lemma StepKeepsReach(w: World, e: Event)
    requires Reach(w) && KnownEvent(e)
    ensures Reach(Step(w, e))
  {
    MoveKeepsReach(w, e);
    ReachIgnoresSpent(Move(w, e), Step(w, e).spent);
  }

  lemma {:induction false} RunKeepsReach(w: World, events: seq<Event>)
    requires Reach(w) && AllKnown(events)
    ensures Reach(Run(w, events))
  {
    if events != [] {
      RunKeepsReach(w, events[..|events| - 1]);
      StepKeepsReach(Run(w, events[..|events| - 1]), events[|events| - 1]);
    }
  }

  lemma InitReach(w: World)
    requires Init(w)
    ensures Reach(w)
  {
    InitInv(w);
    RunKeepsLog(w, []);
  }

  /** How a world relates to the moment the graceful stop took hold: admission is closed, terminal
      items are frozen, and an account without a session can only end up stopped. */
  ghost predicate Fate(m: World, w: World) {
    && w.task.stopMode == AfterCurrent
    && w.admissions == m.admissions
    && |w.task.items| == |m.task.items|
    && forall i :: 0 <= i < |m.task.items| ==> ItemFate(m, m.task.items[i], w.task.items[i])
  }

  ghost predicate ItemFate(m: World, a: Item, b: Item) {
    && b.accountId == a.accountId
    && (IsTerminal(a.status) ==> b == a)
    && (!IsTerminal(a.status) && a.accountId !in m.admissions ==> b.status in {Queued, Starting, Stopped})
  }

  lemma ThreadKeepsFate(m: World, w: World, e: Event)
    requires Reach(w) && Fate(m, w) && (e.Mark? || e.AdmitNow? || e.RecordNow?)
    ensures Fate(m, Move(w, e))
  {
    var n := Move(w, e);
    ThreadItems(w, e);
    if e.id in w.threads {
      var k := IndexOf(w.task.items, e.id);
      assert ItemLogged(w, w.task.items[k]) && ItemInStep(w, w.task.items[k]);
      if e.Mark? && w.threads[e.id].Spawned? {
        MarkedItem(w, e.id);
      } else if e.AdmitNow? && w.threads[e.id].Marked? {
        RefusedItem(w, e.id, e.result);
      } else if e.RecordNow? && w.threads[e.id].Created? {
        RecordedItem(w, e.id);
      }
    }
    forall i | 0 <= i < |n.task.items| ensures ItemFate(m, m.task.items[i], n.task.items[i]) {
      assert ItemFate(m, m.task.items[i], w.task.items[i]);
    }
  }

  lemma DecideKeepsFate(m: World, w: World, e: Event)
    requires Reach(w) && Fate(m, w) && e.DecideNow? && w.worker.Awake?
    ensures Fate(m, Move(w, e))
  {
    RestingWorld(w);
    DecideMoves(w.task, e.answers, e.now);
    DecideKeepsMode(w.task, e.answers, e.now);
    var n := Move(w, e);
    forall i | 0 <= i < |n.task.items| ensures ItemFate(m, m.task.items[i], n.task.items[i]) {
      assert ItemFate(m, m.task.items[i], w.task.items[i]) && ItemMove(w.task.items[i], n.task.items[i]);
      DecideItem(w.task, e.answers, e.now, i);
    }
  }

  lemma StepKeepsFate(m: World, w: World, e: Event)
    requires Reach(w) && Fate(m, w)
    ensures Fate(m, Step(w, e))
  {
    RecalcKeeps(w.task.items);
    if e.DecideNow? && w.worker.Awake? {
      DecideKeepsFate(m, w, e);
    } else if e.Mark? || e.AdmitNow? || e.RecordNow? {
      ThreadKeepsFate(m, w, e);
    }
  }

  lemma {:induction false} RunKeepsFate(m: World, events: seq<Event>)
    requires Reach(m) && m.task.stopMode == AfterCurrent && AllKnown(events)
    ensures Fate(m, Run(m, events))
  {
    if events != [] {
      var front := events[..|events| - 1];
      RunKeepsFate(m, front);
      RunKeepsReach(m, front);
      StepKeepsFate(m, Run(m, front), events[|events| - 1]);
    }
  }

  /** A session's own outcome: done exactly when it succeeded, cancelled or failed when it said so. */
  ghost predicate Outcome(it: Item) {
    && it.status in {Done, Failed, Cancelled}
    && (it.status == Done <==> it.snapshot.phase == SucceededPhase)
    && (it.snapshot.phase == FailedPhase ==> it.status == Failed)
    && (it.snapshot.phase == CancelledPhase ==> it.status == Cancelled)
  }

  /** The graceful stop. From the moment it holds: no further session is admitted; and when the
      worker leaves, the batch is stopped, finished items are untouched, every admitted session has
      reached its own outcome, and every other open item is stopped. */
  lemma GracefulStop(w: World, before: seq<Event>, after: seq<Event>)
    requires Init(w) && AllKnown(before) && AllKnown(after)
    requires Run(w, before).task.stopMode == AfterCurrent
    ensures Run(Run(w, before), after).admissions == Run(w, before).admissions
    ensures Run(Run(w, before), after).worker.Exited? ==>
      var m, n := Run(w, before), Run(Run(w, before), after);
      && n.task.status == TaskStopped
      && |n.task.items| == |m.task.items|
      && (forall i :: 0 <= i < |m.task.items| && IsTerminal(m.task.items[i].status) ==>
            n.task.items[i] == m.task.items[i])
      && (forall i :: 0 <= i < |m.task.items| && !IsTerminal(m.task.items[i].status) ==>
            if m.task.items[i].accountId in m.admissions
            then Outcome(n.task.items[i])
            else n.task.items[i].status == Stopped)
  {
    InitReach(w);
    RunKeepsReach(w, before);
    var m := Run(w, before);
    RunKeepsReach(m, after);
    RunKeepsFate(m, after);
    var n := Run(m, after);
    if n.worker.Exited? {
      forall i | 0 <= i < |m.task.items| && !IsTerminal(m.task.items[i].status)
        ensures if m.task.items[i].accountId in m.admissions
                then Outcome(n.task.items[i])
                else n.task.items[i].status == Stopped
      {
        assert ItemFate(m, m.task.items[i], n.task.items[i]) && ItemDrains(n, n.task.items[i]);
        assert Coherent(n.task.items[i]);
      }
      assert forall i :: 0 <= i < |m.task.items| ==> ItemFate(m, m.task.items[i], n.task.items[i]);
    }
  }
}
