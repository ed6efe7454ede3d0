/** Where the scheduler's guarantees end, and exactly when: a session in an unknown phase, evidence of
    use that a later report drops; and the pause between rounds. */
module GopayBatchLimits {
  import opened Common
  import opened GopayBatch
  import opened GopayBatchRuns
  import opened GopayBatchInvariant

  // ---------------------------------------------------------------- unknown phases

  /** The graceful stop marks a live session stopped exactly when nothing else is active and the
      session reports a phase outside both tables. */
  lemma LiveSessionStoppedIff(t: Task, i: nat)
    requires AllCoherent(t.items) && t.stopMode == AfterCurrent
    requires i < |t.items| && t.items[i].status == Running
    ensures i < |Finalize(t).items|
    ensures Finalize(t).items[i].status == Stopped <==> !AnyActive(t.items)
    ensures Finalize(t).items[i].status == Stopped ==> t.items[i].snapshot.phase == OtherPhase
  {
    RecalcKeeps(t.items);
    RecalcKeeps(StopItems(t.items));
  }

  // ---------------------------------------------------------------- dropped evidence

  /** A phone in use is handed on after a report exactly when that report says failed and carries
      no trace of the use. */
  lemma UsedPhoneReleasedIff(it: Item, s: Snapshot)
    requires IsActive(it) && IsConsumed(it) && it.snapshot.sessionId != ""
    ensures ReleasesPhone(RefreshItem(it, map[it.accountId := Latest(s)])) <==> s.phase == FailedPhase && !s.evidence
  {
  }

  const USED := Item(1, Phone("62", "8"), 1, Running, Snapshot(WaitingOtp, "s", false), 0)
  const NEXT := Item(2, Phone("62", "9"), 2, Queued, EMPTY_SNAPSHOT, 0)
  const FORGETTING := Task(TaskRunning, NoStop, [USED, NEXT], 1, None, 0, 2, 0, 0, 0, 0)

  const FAILED_USED := USED.(snapshot := Snapshot(FailedPhase, "s", false), status := Failed)

  lemma ForgottenKeyReleased()
    ensures PhoneKey(USED) == "62:8" == PhoneKey(FAILED_USED)
    ensures ReleasedItems([FAILED_USED, NEXT]) == [FAILED_USED]
  {
    DigitsOfPair("62", '6', '2');
    DigitsOfOne("8", '8');
    var items := [FAILED_USED, NEXT];
    assert HeldKeys(items) == {};
    assert items[..1] == [FAILED_USED];
    assert [FAILED_USED][..0] == [];
    assert ReleasedFrom([FAILED_USED], {}) == [FAILED_USED] by {
      assert KeysOf(ReleasedFrom([], {})) == {};
    }
    assert ReleasedFrom(items, {}) == ReleasedFrom([FAILED_USED], {});
  }

  lemma ForgettingDecision(now: real)
    ensures var (u, v) := Decide(FORGETTING, map[1 := Latest(Snapshot(FailedPhase, "s", false))], now);
            v == LaunchPromoted([2]) && u.stopMode == NoStop && IsTaskActive(u.status)
            && u.items == [FAILED_USED, NEXT.(phone := USED.phone, round := 1, deferredFrom := 1)]
  {
    ForgottenKeyReleased();
    var t := Refresh(FORGETTING, map[1 := Latest(Snapshot(FailedPhase, "s", false))]);
    assert IsActive(FORGETTING.items[0]) && FORGETTING.items[0].snapshot.sessionId != "";
    assert t.items == [FAILED_USED, NEXT];
    assert Finalize(t) == t by {
      assert !IsTerminal(t.items[1].status);
    }
    assert QueuedBefore(t.items, 1) == 0;
    assert PromotedIds(t.items, 1, 1) == [];
    assert PromotedIds(t.items, 1, 2) == [2];
    assert Promote(t).0.items == [FAILED_USED, Deferred(NEXT, FAILED_USED, 1)];
  }

  // ---------------------------------------------------------------- that decision in a run

  const CREATED := [USED.(status := Queued, snapshot := EMPTY_SNAPSHOT), NEXT]
  const BATCH := World(Task(TaskQueued, NoStop, CREATED, 0, None, 0, 2, 0, 0, 0, 0), Asleep, map[], [], {})
  const OTP := Session(USED.snapshot)
  const FORGET: map<AccountId, Answer> := map[1 := Latest(Snapshot(FailedPhase, "s", false))]

  /** The first round is opened for account 1. */
  function OpeningEvents(now: real): seq<Event> {
    [Wake, DecideNow(map[], now), BeginRound, Spawn]
  }

  /** Account 1 reaches the OTP step on phone 62:8. */
  function SessionEvents(): seq<Event> {
    [Mark(1), AdmitNow(1, OTP), RecordNow(1), Join]
  }

  /** The last report of account 1 forgets that, and account 2 is given a phone and started. */
  function HandingEvents(now: real): seq<Event> {
    [Wake, DecideNow(FORGET, now), Spawn, Mark(2)]
  }

  /** Everything of a world but the record of spent keys. */
  predicate At(w: World, t: Task, worker: Worker, threads: map<AccountId, Launch>, admissions: seq<AccountId>) {
    w.task == t && w.worker == worker && w.threads == threads && w.admissions == admissions
  }

  lemma FirstRound(now: real)
    ensures Decide(FORGETTING.(items := CREATED, currentRound := 0), map[], now)
            == (FORGETTING.(items := CREATED), LaunchRound(1))
    ensures RoundIds(CREATED, 1) == [1]
  {
    var t := FORGETTING.(items := CREATED, currentRound := 0);
    assert Refresh(t, map[]) == t;
    assert t.items[0].status == Queued;
    assert Finalize(t) == t;
    ReleasedEmpty(t.items, HeldKeys(t.items));
    NothingToPromote(t.items, 2);
    assert Promote(t) == (t, []);
    assert CREATED[..1] == [CREATED[0]] && [CREATED[0]][..0] == [];
    assert LowestPendingRound([]) == None;
    assert LowestPendingRound([CREATED[0]]) == Some(1);
    assert LowestPendingRound(CREATED) == Some(1);
    assert AnyQueuedIn(t.items, 1) && !AnyActiveIn(t.items, 1);
    assert RoundIds([], 1) == [];
    assert RoundIds([CREATED[0]], 1) == [1];
    RoundOneOpens(t, now);
  }

  lemma RoundOneOpens(t: Task, now: real)
    requires t == FORGETTING.(items := CREATED, currentRound := 0)
    requires LowestPendingRound(t.items) == Some(1) && AnyQueuedIn(t.items, 1) && !AnyActiveIn(t.items, 1)
    ensures DispatchRound(t, now) == (FORGETTING.(items := CREATED), LaunchRound(1))
  {
    RecalcKeeps(CREATED);
    CreatedCounts(CREATED);
  }

  /** Open items are in none of the four counters. */
  lemma CreatedCounts(items: seq<Item>)
    requires |items| == 2 && !IsTerminal(items[0].status) && !IsTerminal(items[1].status)
    ensures forall s :: IsTerminal(s) ==> CountStatus(items, s) == 0
  {
    forall s | IsTerminal(s) ensures CountStatus(items, s) == 0 {
      assert items[..1] == [items[0]] && [items[0]][..0] == [];
      assert CountStatus([items[0]], s) == 0;
    }
  }

  lemma FirstWake()
    ensures At(Step(BATCH, Wake), FORGETTING.(items := CREATED, currentRound := 0), Awake, map[], [])
  {
    RecalcKeeps(CREATED);
    CreatedCounts(CREATED);
  }

  lemma FirstDecision(w: World, now: real)
    requires At(w, FORGETTING.(items := CREATED, currentRound := 0), Awake, map[], [])
    ensures At(Step(w, DecideNow(map[], now)), FORGETTING.(items := CREATED), Choosing(1), map[], [])
  {
    FirstRound(now);
  }

  lemma FirstBegin(w: World)
    requires At(w, FORGETTING.(items := CREATED), Choosing(1), map[], [])
    ensures At(Step(w, BeginRound), FORGETTING.(items := CREATED), Launching([1], true), map[], [])
  {
    FirstRound(0.0);
  }

  lemma SpawnAt(w: World, t: Task, id: AccountId, heed: bool, admissions: seq<AccountId>)
    requires At(w, t, Launching([id], heed), map[], admissions) && t.stopMode == NoStop
    ensures At(Step(w, Spawn), t, Launching([], heed), map[id := Spawned], admissions)
  {
  }

  lemma AdmitAt(w: World, t: Task, worker: Worker, id: AccountId, result: StartResult, admissions: seq<AccountId>)
    requires At(w, t, worker, map[id := Marked], admissions) && Admits(t, id)
    ensures At(Step(w, AdmitNow(id, result)), t, worker, map[id := Created(result)], admissions + [id])
  {
  }

  lemma JoinAt(w: World, t: Task, heed: bool, id: AccountId, admissions: seq<AccountId>)
    requires At(w, t, Launching([], heed), map[id := Finished], admissions)
    ensures At(Step(w, Join), t, Asleep, map[], admissions)
  {
  }

  lemma OpeningRuns(now: real)
    ensures At(Run(BATCH, OpeningEvents(now)), FORGETTING.(items := CREATED), Launching([], true), map[1 := Spawned], [])
  {
    FirstWake();
    var w1 := Step(BATCH, Wake);
    FirstDecision(w1, now);
    var w2 := Step(w1, DecideNow(map[], now));
    FirstBegin(w2);
    SpawnAt(Step(w2, BeginRound), FORGETTING.(items := CREATED), 1, true, []);
    RunFour(BATCH, Wake, DecideNow(map[], now), BeginRound, Spawn);
  }

  lemma MarkedFirst(w: World)
    requires At(w, FORGETTING.(items := CREATED), Launching([], true), map[1 := Spawned], [])
    ensures At(Step(w, Mark(1)), FORGETTING.(items := [CREATED[0].(status := Starting), NEXT]),
               Launching([], true), map[1 := Marked], [])
  {
    var items := [CREATED[0].(status := Starting), NEXT];
    assert IndexOf(CREATED, 1) == 0;
    assert CREATED[0 := items[0]] == items;
    RecalcKeeps(items);
    CreatedCounts(items);
  }

  lemma RecordedFirst(w: World)
    requires At(w, FORGETTING.(items := [CREATED[0].(status := Starting), NEXT]),
                Launching([], true), map[1 := Created(OTP)], [1])
    ensures At(Step(w, RecordNow(1)), FORGETTING, Launching([], true), map[1 := Finished], [1])
    ensures "62:8" in Step(w, RecordNow(1)).spent
  {
    var items := [CREATED[0].(status := Starting), NEXT];
    assert IndexOf(items, 1) == 0;
    assert items[0 := USED] == FORGETTING.items;
    RecalcKeeps(FORGETTING.items);
    CreatedCounts(FORGETTING.items);
    ForgottenKeyReleased();
    var n := Step(w, RecordNow(1));
    assert n.task.items[0] == USED;
    assert PhoneKey(n.task.items[0]) in ConsumedKeys(n.task.items);
  }

  lemma SessionRuns(w: World)
    requires At(w, FORGETTING.(items := CREATED), Launching([], true), map[1 := Spawned], [])
    ensures At(Run(w, SessionEvents()), FORGETTING, Asleep, map[], [1])
    ensures "62:8" in Run(w, SessionEvents()).spent
  {
    MarkedFirst(w);
    var w1 := Step(w, Mark(1));
    AdmitAt(w1, w1.task, Launching([], true), 1, OTP, []);
    var w2 := Step(w1, AdmitNow(1, OTP));
    RecordedFirst(w2);
    var w3 := Step(w2, RecordNow(1));
    JoinAt(w3, FORGETTING, true, 1, [1]);
    RunFour(w, Mark(1), AdmitNow(1, OTP), RecordNow(1), Join);
  }

  const HANDED := NEXT.(phone := USED.phone, round := 1, deferredFrom := 1)

  lemma SecondDecision(w: World, now: real)
    requires At(w, FORGETTING, Awake, map[], [1])
    ensures var n := Step(w, DecideNow(FORGET, now));
            At(n, n.task, Launching([2], false), map[], [1])
            && n.task.items == [FAILED_USED, HANDED] && n.task.stopMode == NoStop
  {
    ForgettingDecision(now);
  }

  lemma MarkedSecond(w: World, t: Task)
    requires At(w, t, Launching([], false), map[2 := Spawned], [1])
    requires t.items == [FAILED_USED, HANDED] && t.stopMode == NoStop
    ensures var n := Step(w, Mark(2));
            At(n, n.task, Launching([], false), map[2 := Marked], [1])
            && n.task.items == [FAILED_USED, HANDED.(status := Starting)] && Admits(n.task, 2)
  {
    var items := [FAILED_USED, HANDED.(status := Starting)];
    assert IndexOf(t.items, 2) == 1;
    assert t.items[1 := items[1]] == items;
    RecalcKeeps(items);
    assert IndexOf(items, 2) == 1;
  }

  lemma HandingRuns(w: World, now: real)
    requires At(w, FORGETTING, Asleep, map[], [1])
    ensures var n := Step(Run(w, HandingEvents(now)), AdmitNow(2, OTP));
            && n.admissions == [1, 2] && |n.task.items| == 2
            && n.task.items[0].phone == n.task.items[1].phone == USED.phone
  {
    var w1 := Step(w, Wake);
    SecondDecision(w1, now);
    var w2 := Step(w1, DecideNow(FORGET, now));
    SpawnAt(w2, w2.task, 2, false, [1]);
    var w3 := Step(w2, Spawn);
    MarkedSecond(w3, w2.task);
    var w4 := Step(w3, Mark(2));
    AdmitAt(w4, w4.task, Launching([], false), 2, OTP, [1]);
    RunFour(w, Wake, DecideNow(FORGET, now), Spawn, Mark(2));
  }

  lemma UsedRuns(now: real)
    ensures var used := Run(BATCH, OpeningEvents(now) + SessionEvents());
            At(used, FORGETTING, Asleep, map[], [1]) && "62:8" in used.spent
  {
    OpeningRuns(now);
    RunAfter(BATCH, OpeningEvents(now), SessionEvents());
    SessionRuns(Run(BATCH, OpeningEvents(now)));
  }

  lemma RunInParts(w: World, a: seq<Event>, b: seq<Event>, c: seq<Event>)
    ensures Run(w, a + b + c) == Run(Run(Run(w, a), b), c)
  {
    RunAfter(w, a, b);
    RunAfter(w, a + b, c);
  }

  lemma HandedRuns(w: World, now: real)
    requires At(w, FORGETTING, Asleep, map[], [1])
    ensures var n := Run(Run(w, HandingEvents(now)), [AdmitNow(2, OTP)]);
            && n.admissions == [1, 2] && |n.task.items| == 2
            && n.task.items[0].phone == n.task.items[1].phone == USED.phone
  {
    HandingRuns(w, now);
    RunOne(Run(w, HandingEvents(now)), AdmitNow(2, OTP));
  }

  /** So the promise needs the payment service to keep its evidence: in this run of a batch created
      with distinct phones, account 1 has used phone 62:8 when account 2 is admitted on it. */
  lemma ForgottenEvidenceReusesPhone(now: real)
    ensures Init(BATCH)
    ensures var used := Run(BATCH, OpeningEvents(now) + SessionEvents());
            used.admissions == [1] && "62:8" in used.spent
    ensures var n := Run(BATCH, OpeningEvents(now) + SessionEvents() + HandingEvents(now) + [AdmitNow(2, OTP)]);
            && n.admissions == [1, 2] && |n.task.items| == 2
            && PhoneKey(n.task.items[0]) == PhoneKey(n.task.items[1]) == "62:8"
  {
    UsedRuns(now);
    HandedRuns(Run(BATCH, OpeningEvents(now) + SessionEvents()), now);
    RunInParts(BATCH, OpeningEvents(now) + SessionEvents(), HandingEvents(now), [AdmitNow(2, OTP)]);
    ForgottenKeyReleased();
  }

  lemma DigitsOfOne(s: string, a: char)
    requires s == [a] && '0' <= a <= '9'
    ensures DigitsOf(s) == [a]
  {
    assert s[1..] == [];
  }

  lemma DigitsOfPair(s: string, a: char, b: char)
    requires s == [a, b] && '0' <= a <= '9' && '0' <= b <= '9'
    ensures DigitsOf(s) == [a, b]
  {
    DigitsOfOne(s[1..], b);
  }

  // ---------------------------------------------------------------- the pause between rounds

  /** A round after the first opens only when its timer has run out, or when the clamped interval is
      zero; arming the timer sets it one clamped interval ahead. */
  lemma PauseBetweenRounds(t: Task, now: real)
    requires t.stopMode == NoStop
    ensures var (u, v) := DispatchRound(t, now);
            && Interval(t) == (if t.interval < 0 then 0 else if t.interval > 600 then 600 else t.interval) as real
            && (v.LaunchRound? && v.round > 1 ==>
                  if NextRoundUnset(t) then Interval(t) == 0.0 || now + Interval(t) == 0.0
                  else t.nextRoundAt.value <= now)
            && (v.Sleep? && u.nextRoundAt != t.nextRoundAt ==> u.nextRoundAt == Some(now + Interval(t)))
  {
  }
}
