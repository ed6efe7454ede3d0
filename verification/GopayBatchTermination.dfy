/** The worker leaves: every decision taken once the sessions in flight have ended, and the wait for
    the next round is over, uses up part of a measure that nothing ever refills. */
module GopayBatchTermination {
  import opened Common
  import opened GopayBatch
  import opened GopayBatchRuns
  import opened GopayBatchInvariant
  import opened GopayBatchTheorems
  import opened GopayBatchStop

  /** Positions still waiting in the queue and not handed to a launch. */
  ghost function WaitingSet(items: seq<Item>, committed: set<AccountId>): set<int> {
    set i | 0 <= i < |items| && Waiting(items[i], committed)
  }

  ghost function RoundDelay(t: Task, worker: Worker): nat {
    if worker.Choosing? then 0 else if NextRoundUnset(t) then 2 else 1
  }

  ghost function WorkOf(t: Task, committed: set<AccountId>, worker: Worker): nat {
    if t.stopMode != NoStop || worker.Exited? then 0
    else 3 * |WaitingSet(t.items, committed)| + RoundDelay(t, worker) + 1
  }

  ghost function Work(w: World): nat {
    WorkOf(w.task, Committed(w), w.worker)
  }

  lemma SubsetSize<T>(a: set<T>, b: set<T>)
    requires a <= b
    ensures |a| <= |b|
    ensures a != b ==> |a| < |b|
  {
    assert b == a + (b - a);
  }

  lemma WaitingShrinks(a: seq<Item>, p: set<AccountId>, b: seq<Item>, q: set<AccountId>)
    requires |a| == |b|
    requires forall i :: 0 <= i < |a| && Waiting(b[i], q) ==> Waiting(a[i], p)
    ensures |WaitingSet(b, q)| <= |WaitingSet(a, p)|
  {
    SubsetSize(WaitingSet(b, q), WaitingSet(a, p));
  }

  lemma WaitingDrops(a: seq<Item>, p: set<AccountId>, b: seq<Item>, q: set<AccountId>, k: nat)
    requires |a| == |b| && k < |a| && Waiting(a[k], p) && !Waiting(b[k], q)
    requires forall i :: 0 <= i < |a| && Waiting(b[i], q) ==> Waiting(a[i], p)
    ensures |WaitingSet(b, q)| < |WaitingSet(a, p)|
  {
    assert k in WaitingSet(a, p) && k !in WaitingSet(b, q);
    SubsetSize(WaitingSet(b, q), WaitingSet(a, p));
  }

  // ---------------------------------------------------------------- the measure never grows

  lemma PromotedLeaves(t: Task) returns (k: nat)
    requires WellFormed(t.items) && Promote(t).1 != []
    ensures k < |t.items| && Waiting(t.items[k], {}) && t.items[k].accountId in Promote(t).1
  {
    var ids := Promote(t).1;
    PromotedIdsSpec(t.items, |ReleasedItems(t.items)|, |t.items|);
    assert ids[0] in ids;
    k :| 0 <= k < |t.items| && t.items[k].accountId == ids[0] && IsPromoted(t.items, k, |ReleasedItems(t.items)|);
  }

  lemma PromoteWork(t: Task, now: real)
    requires RestGate(t) && t.stopMode == NoStop && Promote(t).1 != []
    ensures var (u, v) := Dispatch(t, now);
            WorkOf(u, Commits(v), AfterVerdict(v)) < WorkOf(t, {}, Awake)
  {
    var (u, v) := Dispatch(t, now);
    var ids := Promote(t).1;
    assert v == LaunchPromoted(ids);
    var k := PromotedLeaves(t);
    DispatchMoves(t, now);
    WaitingDrops(t.items, {}, u.items, Commits(v), k);
  }

  lemma RoundWork(t: Task, now: real)
    requires RestGate(t) && t.stopMode == NoStop && Promote(t).1 == []
    ensures var (u, v) := DispatchRound(t, now);
            && WorkOf(u, {}, AfterVerdict(v)) <= WorkOf(t, {}, Awake)
            && (v.LaunchRound? || v.Exit? || NextRoundUnset(u) != NextRoundUnset(t) ==>
                  WorkOf(u, {}, AfterVerdict(v)) < WorkOf(t, {}, Awake))
  {
    DispatchRoundShape(t, now);
  }

  lemma RefreshWork(t: Task, answers: map<AccountId, Answer>)
    requires RestGate(t)
    ensures WorkOf(Refresh(t, answers), {}, Awake) <= WorkOf(t, {}, Awake)
    ensures Refresh(t, answers).nextRoundAt == t.nextRoundAt && Refresh(t, answers).status == t.status
  {
    RefreshKeepsRest(t, answers);
    RefreshMoves(t, answers);
    WaitingShrinks(t.items, {}, Refresh(t, answers).items, {});
  }

  lemma DecideWork(t: Task, answers: map<AccountId, Answer>, now: real)
    requires RestGate(t) && t.stopMode == NoStop
    ensures var (u, v) := Decide(t, answers, now);
            WorkOf(u, Commits(v), AfterVerdict(v)) <= WorkOf(t, {}, Awake)
  {
    var r := Refresh(t, answers);
    RefreshKeepsRest(t, answers);
    RefreshWork(t, answers);
    FinalizeKeepsRest(r);
    if IsTaskActive(Finalize(r).status) {
      if Promote(r).1 != [] {
        PromoteWork(r, now);
      } else {
        DispatchRoundShape(r, now);
        RoundWork(r, now);
      }
    }
  }

  lemma LaunchWork(w: World)
    requires Reach(w) && w.worker.Choosing? && w.task.stopMode == NoStop
    ensures Work(BeginRoundStep(w)) <= Work(w)
  {
    RestingWorld(w);
    var n := BeginRoundStep(w);
    var ids := RoundIds(w.task.items, w.worker.round);
    assert Committed(n) == set id | id in ids;
    var k :| 0 <= k < |w.task.items| && w.task.items[k].round == w.worker.round && w.task.items[k].status == Queued;
    RoundIdsHold(w.task.items, w.worker.round, k);
    WaitingDrops(w.task.items, {}, w.task.items, Committed(n), k);
  }

  lemma RoundIdsHold(items: seq<Item>, r: int, k: nat)
    requires WellFormed(items) && k < |items| && items[k].round == r && items[k].status == Queued
    ensures items[k].accountId in RoundIds(items, r)
  {
    RoundIdsSpec(items, r);
  }

  lemma ThreadWaiting(w: World, e: Event, id: AccountId)
    requires Reach(w) && (e.Mark? || e.AdmitNow? || e.RecordNow?) && id == e.id && Move(w, e) != w
    ensures var n := Move(w, e);
            |n.task.items| == |w.task.items|
            && forall i :: 0 <= i < |w.task.items| && Waiting(n.task.items[i], Committed(n)) ==>
                 Waiting(w.task.items[i], Committed(w))
  {
    var n := Move(w, e);
    ThreadItems(w, e);
    CommittedAfterMove(w, id, n.threads[id], n);
    if e.Mark? {
      MarkedItem(w, id);
    }
    forall i | 0 <= i < |w.task.items| && Waiting(n.task.items[i], Committed(n))
      ensures Waiting(w.task.items[i], Committed(w))
    {
      assert ItemInStep(w, w.task.items[i]);
      IndexOfItem(w.task.items, i);
    }
  }

  lemma ThreadWork(w: World, e: Event)
    requires Reach(w) && (e.Mark? || e.AdmitNow? || e.RecordNow?)
    ensures Work(Move(w, e)) <= Work(w)
  {
    var n := Move(w, e);
    if n != w {
      ThreadItems(w, e);
      ThreadTimer(w, e);
      ThreadWaiting(w, e, e.id);
      WaitingShrinks(w.task.items, Committed(w), n.task.items, Committed(n));
    }
  }

  lemma ThreadTimer(w: World, e: Event)
    requires e.Mark? || e.AdmitNow? || e.RecordNow?
    ensures Move(w, e).task.nextRoundAt == w.task.nextRoundAt && Move(w, e).task.stopMode == w.task.stopMode
    ensures Move(w, e).worker == w.worker
  {
  }

  lemma SpawnWork(w: World)
    requires Reach(w)
    ensures Work(SpawnStep(w)) <= Work(w)
  {
    if w.worker.Launching? && w.worker.pending != [] && w.task.stopMode == NoStop {
      assert w.worker.pending == [w.worker.pending[0]] + w.worker.pending[1..];
      assert Committed(SpawnStep(w)) == Committed(w);
    }
  }

  lemma QuietWork(w: World, e: Event)
    requires Reach(w) && (e.Wake? || e.Join? || e.RequestStop?)
    ensures Work(Move(w, e)) <= Work(w)
  {
    RecalcKeeps(w.task.items);
    assert Move(w, e).task.items == w.task.items;
    assert Committed(Move(w, e)) == Committed(w);
  }

  lemma MoveWork(w: World, e: Event)
    requires Reach(w)
    ensures Work(Move(w, e)) <= Work(w)
  {
    match e
    case DecideNow(answers, now) =>
      if w.worker.Awake? {
        if w.task.stopMode == NoStop {
          RestingWorld(w);
          DecideWork(w.task, answers, now);
          assert Committed(Move(w, e)) == Commits(Decide(w.task, answers, now).1);
        } else {
          RestingWorld(w);
          DecideKeepsMode(w.task, answers, now);
        }
      }
    case BeginRound => if w.worker.Choosing? && w.task.stopMode == NoStop { LaunchWork(w); }
    case Spawn => SpawnWork(w);
    case Mark(_) => ThreadWork(w, e);
    case AdmitNow(_, _) => ThreadWork(w, e);
    case RecordNow(_) => ThreadWork(w, e);
    case _ => QuietWork(w, e);
  }

  // ---------------------------------------------------------------- productive decisions

  /** A decision taken when every session in flight has ended and any wait for a round is over. */
  ghost predicate Productive(w: World, e: Event) {
    && e.DecideNow? && w.worker.Awake?
    && (forall i :: 0 <= i < |w.task.items| && IsActive(w.task.items[i]) ==>
          w.task.items[i].accountId in e.answers
          && (var a := e.answers[w.task.items[i].accountId];
              a.HttpError? || (a.Latest? && IsTerminalPhase(a.snapshot.phase))))
    && (w.task.nextRoundAt.Some? ==> w.task.nextRoundAt.value <= e.now)
  }

  lemma RefreshedItems(t: Task, answers: map<AccountId, Answer>)
    requires RestGate(t) && RefreshAsks(t.items)
    ensures Refresh(t, answers).items == RefreshItems(t.items, answers)
  {
    RefreshSettles(t.items, answers);
    RecalcKeeps(RefreshItems(t.items, answers));
  }

  lemma AllEnded(w: World, e: Event)
    requires Reach(w) && KnownEvent(e) && Productive(w, e)
    ensures var r := Refresh(w.task, e.answers);
            RestGate(r) && !AnyActive(r.items)
            && forall i :: 0 <= i < |r.items| && !IsTerminal(r.items[i].status) ==> r.items[i].status == Queued
  {
    RestingWorld(w);
    RefreshKeepsRest(w.task, e.answers);
    var r := Refresh(w.task, e.answers);
    IdleMeansQueued(w.task, e.answers, w);
    forall i | 0 <= i < |r.items| ensures !IsActive(r.items[i]) {
      assert ItemDrains(w, w.task.items[i]);
      if RefreshAsks(w.task.items) {
        RefreshedItems(w.task, e.answers);
      }
    }
  }

  lemma RoundProgress(t: Task, now: real)
    requires RestGate(t) && t.stopMode == NoStop && Promote(t).1 == []
    requires !AllTerminal(t.items) && !AnyActive(t.items)
    requires forall i :: 0 <= i < |t.items| && !IsTerminal(t.items[i].status) ==> t.items[i].status == Queued
    requires t.nextRoundAt.Some? ==> t.nextRoundAt.value <= now
    ensures var (u, v) := DispatchRound(t, now);
            v.LaunchRound? || (v.Sleep? && NextRoundUnset(t) && !NextRoundUnset(u))
  {
    LowestPendingSpec(t.items);
  }

  /** A task with nothing in flight: the gate either promotes, opens a round or arms its timer. */
  lemma IdleDispatchWorks(t: Task, now: real)
    requires RestGate(t) && t.stopMode == NoStop && !AllTerminal(t.items) && !AnyActive(t.items)
    requires forall i :: 0 <= i < |t.items| && !IsTerminal(t.items[i].status) ==> t.items[i].status == Queued
    requires t.nextRoundAt.Some? ==> t.nextRoundAt.value <= now
    ensures var (u, v) := Dispatch(t, now);
            WorkOf(u, Commits(v), AfterVerdict(v)) < WorkOf(t, {}, Awake)
  {
    if Promote(t).1 != [] {
      PromoteWork(t, now);
    } else {
      DispatchRoundShape(t, now);
      RoundProgress(t, now);
      RoundWork(t, now);
    }
  }

  lemma EndedDecideWorks(t: Task, answers: map<AccountId, Answer>, now: real)
    requires RestGate(t) && t.items != [] && IsTaskActive(t.status) && t.stopMode != Immediate
    requires var r := Refresh(t, answers);
             RestGate(r) && r.stopMode == t.stopMode && |r.items| == |t.items| && !AnyActive(r.items)
             && forall i :: 0 <= i < |r.items| && !IsTerminal(r.items[i].status) ==> r.items[i].status == Queued
    requires t.nextRoundAt.Some? ==> t.nextRoundAt.value <= now
    ensures var (u, v) := Decide(t, answers, now);
            v.Exit? || WorkOf(u, Commits(v), AfterVerdict(v)) < WorkOf(t, {}, Awake)
  {
    var r := Refresh(t, answers);
    RefreshWork(t, answers);
    FinalizeKeepsRest(r);
    if IsTaskActive(Finalize(r).status) {
      IdleDispatchWorks(r, now);
    }
  }

  lemma ProductiveDecideWorks(w: World, e: Event)
    requires Reach(w) && KnownEvent(e) && Productive(w, e) && w.task.items != []
    ensures Move(w, e).worker.Exited? || Work(Move(w, e)) < Work(w)
  {
    RestingWorld(w);
    AllEnded(w, e);
    RefreshKeepsRest(w.task, e.answers);
    EndedDecideWorks(w.task, e.answers, e.now);
    assert Committed(Move(w, e)) == Commits(Decide(w.task, e.answers, e.now).1);
  }

  // ---------------------------------------------------------------- the bound

  ghost function ProductiveCount(w: World, events: seq<Event>): nat {
    if events == [] then 0
    else
      var front := events[..|events| - 1];
      ProductiveCount(w, front) + if Productive(Run(w, front), events[|events| - 1]) then 1 else 0
  }

  lemma {:induction false} WorkIsSpent(w: World, events: seq<Event>)
    requires Reach(w) && AllKnown(events) && w.task.items != []
    ensures Reach(Run(w, events)) && Run(w, events).task.items != []
    ensures Run(w, events).worker.Exited? || ProductiveCount(w, events) + Work(Run(w, events)) <= Work(w)
  {
    if events != [] {
      var front := events[..|events| - 1];
      var e := events[|events| - 1];
      WorkIsSpent(w, front);
      var b := Run(w, front);
      StepKeepsReach(b, e);
      StepMovesItems(b, e);
      MoveWork(b, e);
      assert Work(Step(b, e)) == Work(Move(b, e)) by {
        assert Committed(Step(b, e)) == Committed(Move(b, e));
      }
      if Productive(b, e) {
        ProductiveDecideWorks(b, e);
      }
    }
  }

  ghost function UpTo(n: nat): set<int> {
    if n == 0 then {} else UpTo(n - 1) + {n - 1}
  }

  lemma {:induction false} UpToSize(n: nat)
    ensures forall i :: i in UpTo(n) <==> 0 <= i < n
    ensures |UpTo(n)| == n
  {
    if n > 0 {
      UpToSize(n - 1);
    }
  }

  lemma InitialWork(w: World)
    requires Init(w)
    ensures Work(w) <= 3 * |w.task.items| + 3
  {
    UpToSize(|w.task.items|);
    SubsetSize(WaitingSet(w.task.items, Committed(w)), UpTo(|w.task.items|));
  }

  /** Termination: a batch of n >= 1 items is closed after at most 3n + 4 decisions taken with every
      session ended and every round wait over, however many other events come in between. */
  lemma WorkerLeaves(w: World, events: seq<Event>)
    requires Init(w) && AllKnown(events) && w.task.items != []
    ensures ProductiveCount(w, events) > 3 * |w.task.items| + 3 ==> Run(w, events).worker.Exited?
  {
    InitReach(w);
    WorkIsSpent(w, events);
    InitialWork(w);
  }

  // ---------------------------------------------------------------- the way back to a decision

  /** Events that take no decision and request no stop: start threads, joining, waking up. */
  predicate Routine(e: Event) {
    !e.DecideNow? && !e.RequestStop? && (e.AdmitNow? ==> e.result.StartError?)
  }

  predicate AllRoutine(events: seq<Event>) {
    forall k :: 0 <= k < |events| ==> Routine(events[k])
  }

  ghost function Unfinished(w: World): set<AccountId> {
    set id | id in w.threads && !w.threads[id].Finished?
  }

  lemma MarkMoves(w: World, id: AccountId)
    requires id in w.threads
    ensures var n := Step(w, Mark(id));
            && n.worker == w.worker
            && n.threads == w.threads[id := if w.threads[id].Spawned? then Marked else w.threads[id]]
  {
  }

  lemma AdmitMoves(w: World, id: AccountId)
    requires id in w.threads
    ensures var n := Step(w, AdmitNow(id, StartError));
            && n.worker == w.worker && id in n.threads
            && n.threads == w.threads[id := n.threads[id]]
            && (!w.threads[id].Marked? ==> n.threads[id] == w.threads[id])
            && (w.threads[id].Marked? ==> n.threads[id].Created? || n.threads[id].Finished?)
  {
  }

  lemma RecordMoves(w: World, id: AccountId)
    requires id in w.threads && (w.threads[id].Created? || w.threads[id].Finished?)
    ensures Step(w, RecordNow(id)).worker == w.worker
    ensures Step(w, RecordNow(id)).threads == w.threads[id := Finished]
  {
  }

  lemma FinishOne(w: World, id: AccountId)
    requires id in Unfinished(w)
    ensures var n := Run(w, [Mark(id), AdmitNow(id, StartError)] + [RecordNow(id)]);
            n.worker == w.worker && n.threads == w.threads[id := Finished]
  {
    var w1 := Step(w, Mark(id));
    var w2 := Step(w1, AdmitNow(id, StartError));
    MarkMoves(w, id);
    AdmitMoves(w1, id);
    RecordMoves(w2, id);
    RunTwo(w, Mark(id), AdmitNow(id, StartError));
    RunOne(w2, RecordNow(id));
    RunAfter(w, [Mark(id), AdmitNow(id, StartError)], [RecordNow(id)]);
  }

  lemma {:induction false} FinishThreads(w: World) returns (events: seq<Event>)
    ensures AllRoutine(events)
    ensures Run(w, events).worker == w.worker && Unfinished(Run(w, events)) == {}
    decreases |Unfinished(w)|
  {
    if Unfinished(w) == {} {
      events := [];
    } else {
      var id :| id in Unfinished(w);
      var first := [Mark(id), AdmitNow(id, StartError)] + [RecordNow(id)];
      FinishOne(w, id);
      var n := Run(w, first);
      assert Unfinished(n) == Unfinished(w) - {id};
      var rest := FinishThreads(n);
      RunAfter(w, first, rest);
      events := first + rest;
    }
  }

  lemma {:induction false} SpawnAll(w: World) returns (events: seq<Event>)
    requires w.worker.Launching?
    ensures AllRoutine(events)
    ensures Run(w, events).worker.Launching? && Run(w, events).worker.pending == []
    decreases |w.worker.pending|
  {
    if w.worker.pending == [] {
      events := [];
    } else {
      RunOne(w, Spawn);
      var rest := SpawnAll(Step(w, Spawn));
      RunAfter(w, [Spawn], rest);
      events := [Spawn] + rest;
    }
  }

  lemma WakeUp(w: World)
    requires w.worker.Asleep?
    ensures Run(w, [Wake]).worker.Awake? || Run(w, [Wake]).worker.Exited?
  {
    RunOne(w, Wake);
  }

  lemma JoinAndWake(w: World)
    requires w.worker.Launching? && w.worker.pending == [] && Unfinished(w) == {}
    ensures Run(w, [Join, Wake]).worker.Awake? || Run(w, [Join, Wake]).worker.Exited?
  {
    forall id | id in w.threads ensures w.threads[id].Finished? {
      assert id !in Unfinished(w);
    }
    RunTwo(w, Join, Wake);
  }

  lemma LaunchingReturns(w: World) returns (events: seq<Event>)
    requires w.worker.Launching?
    ensures AllRoutine(events)
    ensures Run(w, events).worker.Awake? || Run(w, events).worker.Exited?
  {
    var spawns := SpawnAll(w);
    var w1 := Run(w, spawns);
    var ends := FinishThreads(w1);
    RunAfter(w, spawns, ends);
    JoinAndWake(Run(w1, ends));
    RunAfter(w, spawns + ends, [Join, Wake]);
    events := spawns + ends + [Join, Wake];
  }

  lemma WayBack(w: World) returns (events: seq<Event>)
    ensures AllRoutine(events)
    ensures Run(w, events).worker.Awake? || Run(w, events).worker.Exited?
  {
    if w.worker.Asleep? {
      WakeUp(w);
      events := [Wake];
    } else if w.worker.Launching? {
      events := LaunchingReturns(w);
    } else if w.worker.Choosing? {
      RunOne(w, BeginRound);
      var n := Step(w, BeginRound);
      var rest: seq<Event>;
      if n.worker.Asleep? {
        WakeUp(n);
        rest := [Wake];
      } else {
        rest := LaunchingReturns(n);
      }
      RunAfter(w, [BeginRound], rest);
      events := [BeginRound] + rest;
    } else {
      events := [];
    }
  }

  /** Wherever the worker stands, the events of its own threads, joining and waking up bring it back
      to a decision, unless it has left. */
  lemma WorkerReturns(w: World)
    ensures exists events ::
      AllRoutine(events) && (Run(w, events).worker.Awake? || Run(w, events).worker.Exited?)
  {
    var events := WayBack(w);
  }

  /** The decision in which every session in flight has failed and every wait is over. */
  ghost function LastDecision(w: World): Event {
    DecideNow(map i | 0 <= i < |w.task.items| :: w.task.items[i].accountId := HttpError,
              if w.task.nextRoundAt.Some? then w.task.nextRoundAt.value else 0.0)
  }

  predicate NoStopRequest(events: seq<Event>) {
    forall k :: 0 <= k < |events| ==> !events[k].RequestStop?
  }

  lemma LastDecisionWorks(w: World)
    requires Reach(w) && w.worker.Awake? && w.task.items != []
    ensures var n := Step(w, LastDecision(w));
            Reach(n) && n.task.items != [] && (n.worker.Exited? || Work(n) < Work(w))
  {
    var e := LastDecision(w);
    var n := Step(w, e);
    StepKeepsReach(w, e);
    StepMovesItems(w, e);
    ProductiveDecideWorks(w, e);
    assert Committed(n) == Committed(Move(w, e));
  }

  /** A continuation that ends the worker or uses up some of its work. */
  lemma ComesCloser(w: World) returns (events: seq<Event>)
    requires Reach(w) && w.task.items != []
    ensures AllKnown(events) && NoStopRequest(events)
    ensures var n := Run(w, events);
            Reach(n) && n.task.items != [] && (n.worker.Exited? || Work(n) < Work(w))
  {
    events := WayBack(w);
    WorkIsSpent(w, events);
    var n := Run(w, events);
    if !n.worker.Exited? {
      LastDecisionWorks(n);
      RunOne(n, LastDecision(n));
      RunAfter(w, events, [LastDecision(n)]);
      events := events + [LastDecision(n)];
    }
  }

  /** From every state of every run some continuation without a stop request ends the worker: nothing
      ever blocks the batch for good. */
  lemma {:induction false} CanAlwaysClose(w: World)
    requires Reach(w) && w.task.items != []
    ensures exists events :: AllKnown(events) && NoStopRequest(events) && Run(w, events).worker.Exited?
    decreases Work(w)
  {
    var closer := ComesCloser(w);
    var n := Run(w, closer);
    if !n.worker.Exited? {
      CanAlwaysClose(n);
      var rest :| AllKnown(rest) && NoStopRequest(rest) && Run(n, rest).worker.Exited?;
      RunAfter(w, closer, rest);
      assert NoStopRequest(closer + rest) && AllKnown(closer + rest);
    }
  }

  /** A batch without items is the exception: unless a stop is requested its worker never leaves. */
  lemma {:induction false} EmptyBatchNeverEnds(w: World, events: seq<Event>)
    requires Init(w) && w.task.items == []
    requires forall k :: 0 <= k < |events| ==> !events[k].RequestStop?
    ensures !Run(w, events).worker.Exited?
  {
    RunKeepsExitsClosed(w, events);
    EmptyBatchStaysActive(w, events);
  }

  lemma {:induction false} EmptyBatchStaysActive(w: World, events: seq<Event>)
    requires Init(w) && w.task.items == []
    requires forall k :: 0 <= k < |events| ==> !events[k].RequestStop?
    ensures var t := Run(w, events).task; t.items == [] && t.stopMode == NoStop && IsTaskActive(t.status)
  {
    if events != [] {
      EmptyBatchStaysActive(w, events[..|events| - 1]);
    }
  }
}
