/** A stop that arrives while the worker is in the middle of an iteration. The worker writes its own
    copy back at several places, each over whatever is stored, so the moment decides. Wherever the
    stop lands, the turn amounts to an undisturbed one with the stop after it, or without any stop. */
module GopayBatchLateStop {
  import opened Common
  import opened GopayBatch
  import opened GopayBatchRuns
  import opened GopayBatchInvariant
  import opened GopayBatchStop

  // ---------------------------------------------------------------- iterations that save nothing

  /** Nothing to close or promote, and either a round timer still running or a lowest round with
      neither active nor queued items. */
  predicate RestIdle(t: Task, now: real) {
    && (t.items == [] || !AllTerminal(t.items))
    && Promote(t).1 == []
    && (var lowest := LowestPendingRound(t.items);
        lowest.Some? ==>
          && !AnyActiveIn(t.items, lowest.value)
          && (AnyQueuedIn(t.items, lowest.value) ==>
                lowest.value > 1 && !NextRoundUnset(t) && t.nextRoundAt.value > now))
  }

  predicate IdleIteration(t: Task, now: real) {
    !RefreshAsks(t.items) && RestIdle(t, now)
  }

  /** An idle iteration leaves its copy as it loaded it, and goes back to sleep. */
  lemma IdleIterationChangesNothing(t: Task, answers: map<AccountId, Answer>, now: real)
    requires t.stopMode == NoStop && IsTaskActive(t.status) && IdleIteration(t, now)
    ensures Decide(t, answers, now) == (t, Sleep)
  {
  }

  // ---------------------------------------------------------------- the moment of the stop

  /** What is stored after some saves: each writes the whole copy over what was there. */
  function Stored(t: Task, saves: seq<Save>): Task {
    if saves == [] then t else saves[|saves| - 1].task
  }

  /** What is stored in the end when a stop request lands after the first `k` saves of an iteration. */
  function StoppedDuring(t: Task, saves: seq<Save>, k: nat, mode: StopMode): Task
    requires k <= |saves|
  {
    Stored(RequestedStop(Stored(t, saves[..k]), mode), saves[k..])
  }

  /** Whether a stop landing after the first `k` saves stands, read off what is stored at that moment. */
  predicate StopStands(t: Task, answers: map<AccountId, Answer>, now: real, k: nat)
    requires k <= |IterationSaves(t, answers, now)|
  {
    if k == 0 then IdleIteration(t, now)
    else
      var save := IterationSaves(t, answers, now)[k - 1];
      match save.stage
      case Refreshing => RestIdle(save.task, now)
      case Arming => !NextRoundUnset(save.task) && save.task.nextRoundAt.value > now
      case Closing => false
      case _ => true
  }

  lemma DispatchSavesNothingIff(t: Task, now: real)
    requires t.stopMode == NoStop && !FinalizeSaves(t)
    ensures DispatchSaves(t, now) == [] <==> RestIdle(t, now)
    ensures Dispatch(t, now).0 == Stored(t, DispatchSaves(t, now))
    ensures forall i :: 0 <= i < |DispatchSaves(t, now)| ==>
      DispatchSaves(t, now)[i].task.stopMode == NoStop && DispatchSaves(t, now)[i].task.status == t.status
  {
    LowestPendingSpec(t.items);
  }

  /** The stage of a save of the dispatch gate tells whether it was the last one. */
  lemma LastDispatchSave(t: Task, now: real, k: nat)
    requires t.stopMode == NoStop && !FinalizeSaves(t) && k < |DispatchSaves(t, now)|
    ensures var save := DispatchSaves(t, now)[k];
            && save.stage in {Promoting, Awaiting, Arming, Opening}
            && (k == |DispatchSaves(t, now)| - 1 <==>
                  save.stage != Arming || (!NextRoundUnset(save.task) && save.task.nextRoundAt.value > now))
  {
    LowestPendingSpec(t.items);
  }

  /** An iteration ends with what it saved last, and a closed task is saved by nothing but the closing. */
  lemma IterationStores(t: Task, answers: map<AccountId, Answer>, now: real)
    requires t.stopMode == NoStop && IsTaskActive(t.status)
    ensures Decide(t, answers, now).0 == Stored(t, IterationSaves(t, answers, now))
    ensures var r := Refresh(t, answers);
            IterationSaves(t, answers, now)
            == if FinalizeSaves(r) then RefreshSaves(t, answers) + [Save(Closing, Finalize(r))]
               else RefreshSaves(t, answers) + DispatchSaves(r, now)
  {
    var r := Refresh(t, answers);
    if FinalizeSaves(r) {
      assert !IsTaskActive(Finalize(r).status);
    } else {
      assert Finalize(r) == r;
      DispatchSavesNothingIff(r, now);
    }
  }

  /** Saves of an iteration without a stop: none carries one, and all but the closing one stay active. */
  predicate OpenSaves(saves: seq<Save>) {
    forall i :: 0 <= i < |saves| ==>
      saves[i].task.stopMode == NoStop && (IsTaskActive(saves[i].task.status) <==> saves[i].stage != Closing)
  }

  lemma IterationOpenSaves(t: Task, answers: map<AccountId, Answer>, now: real)
    requires t.stopMode == NoStop && IsTaskActive(t.status)
    ensures OpenSaves(IterationSaves(t, answers, now))
  {
    var r := Refresh(t, answers);
    IterationStores(t, answers, now);
    if !FinalizeSaves(r) {
      DispatchSavesNothingIff(r, now);
      forall i | 0 <= i < |DispatchSaves(r, now)| ensures DispatchSaves(r, now)[i].stage != Closing {
        LastDispatchSave(r, now, i);
      }
    }
  }

  lemma StandsIffLast(t: Task, answers: map<AccountId, Answer>, now: real, k: nat)
    requires t.stopMode == NoStop && IsTaskActive(t.status)
    requires k <= |IterationSaves(t, answers, now)|
    ensures var saves := IterationSaves(t, answers, now);
            StopStands(t, answers, now, k) <==> k == |saves| && (k == 0 || saves[k - 1].stage != Closing)
  {
    var r := Refresh(t, answers);
    var saves, first := IterationSaves(t, answers, now), RefreshSaves(t, answers);
    IterationStores(t, answers, now);
    if FinalizeSaves(r) {
      assert saves == first + [Save(Closing, Finalize(r))];
    } else {
      DispatchSavesNothingIff(r, now);
      if k > |first| {
        LastDispatchSave(r, now, k - |first| - 1);
        assert saves[k - 1] == DispatchSaves(r, now)[k - |first| - 1];
      } else if k > 0 {
        assert saves[k - 1] == Save(Refreshing, r);
      }
    }
  }

  lemma StoppedDuringSpec(t: Task, saves: seq<Save>, k: nat, mode: StopMode)
    requires t.stopMode == NoStop && IsTaskActive(t.status) && OpenSaves(saves) && k <= |saves|
    ensures var stands := k == |saves| && (k == 0 || saves[k - 1].stage != Closing);
            StoppedDuring(t, saves, k, mode)
            == if stands then RequestedStop(Stored(t, saves), mode) else Stored(t, saves)
  {
    if k == |saves| {
      assert saves[..k] == saves && saves[k..] == [];
    }
  }

  /** A stop landing at any moment of an iteration that loaded the task without it: it stands, with
      everything the iteration stored, or it leaves no trace; and which of the two follows from what
      is stored when it lands. */
  lemma StopSurvivesIff(t: Task, mode: StopMode, answers: map<AccountId, Answer>, now: real, k: nat)
    requires t.stopMode == NoStop && IsTaskActive(t.status) && mode != NoStop
    requires k <= |IterationSaves(t, answers, now)|
    ensures var u := Decide(t, answers, now).0;
            var n := StoppedDuring(t, IterationSaves(t, answers, now), k, mode);
            && (n.stopMode == mode <==> StopStands(t, answers, now, k))
            && n == (if StopStands(t, answers, now, k) then RequestedStop(u, mode) else u)
  {
    var saves := IterationSaves(t, answers, now);
    IterationStores(t, answers, now);
    IterationOpenSaves(t, answers, now);
    StandsIffLast(t, answers, now, k);
    StoppedDuringSpec(t, saves, k, mode);
    StoredMode(t, saves, mode);
  }

  lemma StoredMode(t: Task, saves: seq<Save>, mode: StopMode)
    requires t.stopMode == NoStop && IsTaskActive(t.status) && OpenSaves(saves) && mode != NoStop
    ensures Stored(t, saves).stopMode == NoStop
    ensures saves == [] || saves[|saves| - 1].stage != Closing ==> RequestedStop(Stored(t, saves), mode).stopMode == mode
  {
  }

  // ---------------------------------------------------------------- interrupted turns are runs

  /** One turn of an awake worker with a stop request landing after its first `k` saves. */
  function InterruptedTurn(w: World, answers: map<AccountId, Answer>, now: real, k: nat, mode: StopMode): World
    requires k <= |IterationSaves(w.task, answers, now)|
  {
    var t := StoppedDuring(w.task, IterationSaves(w.task, answers, now), k, mode);
    Moved(w, t, AfterVerdict(Decide(w.task, answers, now).1))
  }

  /** Waking up with a stop request landing after the first `k` saves of that step. */
  function InterruptedWake(w: World, k: nat, mode: StopMode): World
    requires k <= |WakingSaves(w.task)|
  {
    var t := StoppedDuring(w.task, WakingSaves(w.task), k, mode);
    Moved(w, t, Awake)
  }

  lemma RecalcKeepsConsumed(items: seq<Item>)
    ensures ConsumedKeys(RecalcItems(items)) == ConsumedKeys(items)
  {
    forall key | key in ConsumedKeys(items) ensures key in ConsumedKeys(RecalcItems(items)) {
      var i :| 0 <= i < |items| && IsConsumed(items[i]) && PhoneKey(items[i]) == key && key != "";
      assert RecalcItems(items)[i] == RecalcItem(items[i]);
    }
  }

  /** A world moved on to a task and a place of the worker. */
  function Moved(w: World, t: Task, worker: Worker): World {
    w.(task := t, worker := worker, spent := w.spent + ConsumedKeys(t.items))
  }

  lemma StopAfterMove(w: World, t: Task, worker: Worker, mode: StopMode)
    ensures Step(Moved(w, t, worker), RequestStop(mode)) == Moved(w, RequestedStop(t, mode), worker)
  {
    RecalcKeepsConsumed(t.items);
  }

  lemma DecideMoved(w: World, answers: map<AccountId, Answer>, now: real)
    requires w.worker.Awake?
    ensures Step(w, DecideNow(answers, now))
            == Moved(w, Decide(w.task, answers, now).0, AfterVerdict(Decide(w.task, answers, now).1))
  {
  }

  /** Wherever a stop lands inside a turn, the outcome is a run of whole steps: the turn and then the
      stop when the stop stands, the turn alone otherwise. */
  lemma InterruptedTurnIsARun(w: World, answers: map<AccountId, Answer>, now: real, k: nat, mode: StopMode)
    requires w.worker.Awake? && w.task.stopMode == NoStop && IsTaskActive(w.task.status) && mode != NoStop
    requires k <= |IterationSaves(w.task, answers, now)|
    ensures InterruptedTurn(w, answers, now, k, mode)
            == if StopStands(w.task, answers, now, k) then Run(w, [DecideNow(answers, now), RequestStop(mode)])
               else Run(w, [DecideNow(answers, now)])
  {
    var e := DecideNow(answers, now);
    var (u, v) := Decide(w.task, answers, now);
    StopSurvivesIff(w.task, mode, answers, now, k);
    DecideMoved(w, answers, now);
    StopAfterMove(w, u, AfterVerdict(v), mode);
    RunOne(w, e);
    RunTwo(w, e, RequestStop(mode));
  }

  /** While waking up, the stop stands exactly when the save of a queued task is behind it. */
  lemma InterruptedWakeIsARun(w: World, k: nat, mode: StopMode)
    requires w.worker.Asleep? && w.task.stopMode == NoStop && IsTaskActive(w.task.status) && mode != NoStop
    requires k <= |WakingSaves(w.task)|
    ensures InterruptedWake(w, k, mode)
            == if k == 1 || w.task.status == TaskRunning then Run(w, [Wake, RequestStop(mode)]) else Run(w, [Wake])
    ensures InterruptedWake(w, k, mode).task.stopMode == mode <==> k == 1 || w.task.status == TaskRunning
  {
    RunOne(w, Wake);
    RunTwo(w, Wake, RequestStop(mode));
    RecalcKeepsConsumed(Awoken(w.task).items);
  }

  // ---------------------------------------------------------------- a standing stop

  lemma AnyDecideKeepsMode(t: Task, answers: map<AccountId, Answer>, now: real)
    ensures Decide(t, answers, now).0.stopMode == t.stopMode
  {
    var r := Refresh(t, answers);
    assert Finalize(r).stopMode == t.stopMode;
    AnyDispatchKeepsMode(Finalize(r), now);
  }

  lemma AnyDispatchKeepsMode(t: Task, now: real)
    ensures Dispatch(t, now).0.stopMode == t.stopMode
  {
  }

  lemma {:induction false} StopFreezesAdmissions(w: World, events: seq<Event>)
    requires w.task.stopMode != NoStop
    ensures Run(w, events).task.stopMode == w.task.stopMode
    ensures Run(w, events).admissions == w.admissions
  {
    if events != [] {
      var front := events[..|events| - 1];
      var e := events[|events| - 1];
      StopFreezesAdmissions(w, front);
      if e.DecideNow? {
        AnyDecideKeepsMode(Run(w, front).task, e.answers, e.now);
      }
    }
  }

  /** A stop that stands holds for good: whatever follows, also in a round just opened or on threads
      just promoted, no session is admitted any more. One that does not stand changes no later event. */
  lemma StandingStopStartsNothing(w: World, answers: map<AccountId, Answer>, now: real, k: nat, mode: StopMode,
                                  after: seq<Event>)
    requires w.worker.Awake? && w.task.stopMode == NoStop && IsTaskActive(w.task.status) && mode != NoStop
    requires k <= |IterationSaves(w.task, answers, now)|
    ensures var n := InterruptedTurn(w, answers, now, k, mode);
            if StopStands(w.task, answers, now, k)
            then Run(n, after).task.stopMode == mode && Run(n, after).admissions == w.admissions
            else Run(n, after) == Run(w, [DecideNow(answers, now)] + after)
  {
    var n := InterruptedTurn(w, answers, now, k, mode);
    InterruptedTurnIsARun(w, answers, now, k, mode);
    StopSurvivesIff(w.task, mode, answers, now, k);
    if StopStands(w.task, answers, now, k) {
      StopFreezesAdmissions(n, after);
    } else {
      RunAfter(w, [DecideNow(answers, now)], after);
    }
  }

  // ---------------------------------------------------------------- a stop that is lost

  const FIRST := Item(1, Phone("62", "8"), 1, Queued, EMPTY_SNAPSHOT, 0)

  /** The plainest loss: the stop lands while the worker decides to open the first round. */
  lemma LostStopExists(now: real)
    ensures var w := World(Task(TaskRunning, NoStop, [FIRST], 0, None, 0, 1, 0, 0, 0, 0), Awake, map[], [], {});
            && IterationSaves(w.task, map[], now) != []
            && InterruptedTurn(w, map[], now, 0, AfterCurrent).task.stopMode == NoStop
            && InterruptedTurn(w, map[], now, 0, AfterCurrent).worker == Choosing(1)
  {
    var t := Task(TaskRunning, NoStop, [FIRST], 0, None, 0, 1, 0, 0, 0, 0);
    assert Refresh(t, map[]) == t;
    assert t.items[0].status == Queued;
    assert Finalize(t) == t;
    assert [FIRST][..0] == [];
    assert LowestPendingRound([FIRST]) == Some(1);
    ReleasedEmpty(t.items, HeldKeys(t.items));
    NothingToPromote(t.items, 1);
    assert AnyQueuedIn(t.items, 1) && !AnyActiveIn(t.items, 1);
    StopSurvivesIff(t, AfterCurrent, map[], now, 0);
  }
}
