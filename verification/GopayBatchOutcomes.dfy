/** What single events leave of the items they concern, said in phases and statuses, and what becomes of
    the phone of a failed item. */
module GopayBatchOutcomes {
  import opened Common
  import opened GopayBatch
  import opened GopayBatchRuns
  import opened GopayBatchInvariant
  import opened GopayBatchTheorems
  import opened GopayBatchStop

  // ---------------------------------------------------------------- in phases and digits

  predicate InFlight(it: Item) {
    match it.status
    case Starting => true
    case Running =>
      it.snapshot.phase in {NoPhase, CreatedPhase, StartingPhase, WaitingOtp, WaitingLinkPin, WaitingPaymentPin, Verifying}
    case _ => false
  }

  predicate PhoneUsed(it: Item) {
    it.snapshot.evidence || it.snapshot.phase in {WaitingOtp, WaitingLinkPin, WaitingPaymentPin, Verifying, SucceededPhase}
  }

  function OutcomeOf(p: Phase): Status {
    match p
    case SucceededPhase => Done
    case FailedPhase => Failed
    case CancelledPhase => Cancelled
    case _ => Running
  }

  lemma InFlightIff(it: Item)
    ensures IsActive(it) <==> InFlight(it)
    ensures IsConsumed(it) <==> PhoneUsed(it)
  {
  }

  predicate Digit(c: char) {
    '0' <= c <= '9'
  }

  lemma {:induction false} DigitsSpec(s: string)
    ensures forall i :: 0 <= i < |DigitsOf(s)| ==> Digit(DigitsOf(s)[i])
    ensures forall c :: Digit(c) ==> multiset(DigitsOf(s))[c] == multiset(s)[c]
  {
    if s != [] {
      DigitsSpec(s[1..]);
      assert s == [s[0]] + s[1..];
    }
  }

  lemma {:induction false} DigitsAppend(a: string, b: string)
    ensures DigitsOf(a + b) == DigitsOf(a) + DigitsOf(b)
  {
    if a == [] {
      assert a + b == b;
    } else {
      assert (a + b)[1..] == a[1..] + b;
      DigitsAppend(a[1..], b);
    }
  }

  lemma PrefixUpToColon(a: string, b: string, c: string, d: string)
    requires a + ":" + b == c + ":" + d && |a| <= |c|
    requires forall i :: 0 <= i < |c| ==> c[i] != ':'
    ensures a == c && b == d
  {
    var x, y := a + ":" + b, c + ":" + d;
    assert x[|a|] == ':';
    assert forall i :: 0 <= i < |c| ==> y[i] == c[i];
    assert forall i :: 0 <= i < |a| ==> x[i] == a[i];
    assert b == x[|a| + 1..] && d == y[|c| + 1..];
  }

  /** Two items hold the same phone exactly when the digits of country code and number agree; a phone
      without digits in either is no phone. */
  lemma SamePhoneIff(x: Item, y: Item)
    ensures PhoneKey(x) == "" <==> DigitsOf(x.phone.countryCode) == "" || DigitsOf(x.phone.number) == ""
    ensures PhoneKey(x) != "" && PhoneKey(y) != "" ==>
      (PhoneKey(x) == PhoneKey(y) <==>
         DigitsOf(x.phone.countryCode) == DigitsOf(y.phone.countryCode) && DigitsOf(x.phone.number) == DigitsOf(y.phone.number))
  {
    var a, b := DigitsOf(x.phone.countryCode), DigitsOf(x.phone.number);
    var c, d := DigitsOf(y.phone.countryCode), DigitsOf(y.phone.number);
    DigitsSpec(x.phone.countryCode);
    DigitsSpec(y.phone.countryCode);
    if PhoneKey(x) != "" && PhoneKey(x) == PhoneKey(y) {
      if |a| <= |c| { PrefixUpToColon(a, b, c, d); } else { PrefixUpToColon(c, d, a, b); }
    }
  }

  /** In every reachable state, two items in flight never hold the same digits. */
  lemma PhonesInFlightDiffer(n: World, i: nat, j: nat)
    requires Reachable(n) && i < j < |n.task.items| && InFlight(n.task.items[i]) && InFlight(n.task.items[j])
    ensures var x, y := n.task.items[i].phone, n.task.items[j].phone;
      DigitsOf(x.countryCode) != "" && DigitsOf(x.number) != "" ==>
        DigitsOf(x.countryCode) != DigitsOf(y.countryCode) || DigitsOf(x.number) != DigitsOf(y.number)
  {
    ActivePhonesExclusive(n);
    InFlightIff(n.task.items[i]);
    InFlightIff(n.task.items[j]);
    SamePhoneIff(n.task.items[i], n.task.items[j]);
    SamePhoneIff(n.task.items[j], n.task.items[i]);
  }

  // ---------------------------------------------------------------- the three phases of a start

  lemma ReachableWorld(n: World)
    requires Reachable(n)
    ensures Inv(n) && ExitsClosed(n)
  {
    ReachableInv(n);
    var w, events :| Init(w) && n == Run(w, events);
    RunKeepsExitsClosed(w, events);
  }

  lemma ReachableAfter(n: World, events: seq<Event>)
    requires Reachable(n)
    ensures Reachable(Run(n, events))
  {
    var w, before :| Init(w) && n == Run(w, before);
    RunAfter(w, before, events);
  }

  lemma ReachableStep(n: World, e: Event)
    requires Reachable(n)
    ensures Reachable(Step(n, e))
  {
    RunOne(n, e);
    ReachableAfter(n, [e]);
  }

  /** Nothing happens to any other item. */
  ghost predicate OnlyItem(a: seq<Item>, b: seq<Item>, k: nat) {
    |b| == |a| && k < |a| && forall i :: 0 <= i < |a| && i != k ==> b[i] == a[i]
  }

  /** What a start that was refused under a stop becomes. */
  function Refused(mode: StopMode, it: Item): Item {
    match mode
    case NoStop => it
    case AfterCurrent => it.(status := Stopped)
    case Immediate => it.(status := Cancelled)
  }

  lemma OwnItem(n: World, id: AccountId)
    requires Reachable(n) && id in n.threads
    ensures AllCoherent(n.task.items) && IsTaskActive(n.task.status)
    ensures var k := IndexOf(n.task.items, id); k < |n.task.items| && ThreadFits(n.task.items[k].status, n.threads[id])
  {
    ReachableWorld(n);
    assert ItemInStep(n, n.task.items[IndexOf(n.task.items, id)]);
  }

  lemma OneItemSet(t: Task, k: nat, it: Item)
    requires k < |t.items| && AllCoherent(t.items) && Coherent(it)
    ensures OnlyItem(t.items, SetItem(t, k, it).items, k) && SetItem(t, k, it).items[k] == it
  {
    SetItemItems(t, k, it);
  }

  lemma MarkedTask(t: Task, id: AccountId)
    requires AllCoherent(t.items)
    requires var k := IndexOf(t.items, id); k < |t.items| && t.items[k].status == Queued
    ensures var u, k := MarkStarting(t, id), IndexOf(t.items, id);
      && OnlyItem(t.items, u.items, k)
      && u.items[k] == if t.stopMode == NoStop then t.items[k].(status := Starting) else Refused(t.stopMode, t.items[k])
  {
    var k := IndexOf(t.items, id);
    MarkedIsOwnMove(t.items[k], t.stopMode);
    OneItemSet(t, k, MarkStartingItem(t.items[k], t.stopMode));
  }

  lemma RefusedTask(t: Task, id: AccountId)
    requires AllCoherent(t.items) && !Admits(t, id)
    requires var k := IndexOf(t.items, id); k < |t.items| && t.items[k].status != Queued
    ensures var u, k := Admit(t, id), IndexOf(t.items, id);
      && OnlyItem(t.items, u.items, k)
      && u.items[k] == if t.items[k].status == Starting then Refused(t.stopMode, t.items[k]) else t.items[k]
  {
    var k := IndexOf(t.items, id);
    RefusedIsOwnMove(t.items[k], t.stopMode);
    OneItemSet(t, k, RefuseItem(t.items[k], t.stopMode));
  }

  lemma RecordedTask(t: Task, id: AccountId, result: StartResult)
    requires AllCoherent(t.items) && IsTaskActive(t.status)
    requires var k := IndexOf(t.items, id); k < |t.items| && t.items[k].status == Starting
    ensures var u, k := Record(t, id, result), IndexOf(t.items, id);
      && OnlyItem(t.items, u.items, k)
      && u.items[k] == match result
                       case StartError => t.items[k].(status := Failed)
                       case Session(s) => t.items[k].(snapshot := s, status := OutcomeOf(s.phase))
  {
    var k := IndexOf(t.items, id);
    RecordedIsOwnMove(t.items[k], t.status, result);
    OneItemSet(t, k, RecordItem(t.items[k], t.status, result));
  }

  /** First phase: the queued item is claimed, or refused under a stop. */
  lemma MarkLeaves(n: World, id: AccountId)
    requires Reachable(n) && id in n.threads && n.threads[id].Spawned?
    ensures var m, k := Step(n, Mark(id)), IndexOf(n.task.items, id);
      && OnlyItem(n.task.items, m.task.items, k) && n.task.items[k].status == Queued && m.threads[id] == Marked
      && m.task.items[k] == if n.task.stopMode == NoStop then n.task.items[k].(status := Starting)
                            else Refused(n.task.stopMode, n.task.items[k])
  {
    OwnItem(n, id);
    MarkedTask(n.task, id);
  }

  /** Second phase: the session of a starting item is admitted unless a stop is in force. */
  lemma AdmitLeaves(n: World, id: AccountId, result: StartResult)
    requires Reachable(n) && id in n.threads && n.threads[id].Marked?
    ensures var m, k := Step(n, AdmitNow(id, result)), IndexOf(n.task.items, id);
      && k < |n.task.items|
      && (if n.task.items[k].status == Starting && n.task.stopMode == NoStop
          then m.task == n.task && m.threads[id] == Created(result) && m.admissions == n.admissions + [id]
          else && OnlyItem(n.task.items, m.task.items, k) && m.threads[id] == Finished && m.admissions == n.admissions
               && m.task.items[k] == if n.task.items[k].status == Starting then Refused(n.task.stopMode, n.task.items[k])
                                     else n.task.items[k])
  {
    OwnItem(n, id);
    if !Admits(n.task, id) { RefusedTask(n.task, id); }
  }

  /** Third phase: the item follows its session, and a start that failed is a failed item, with its
      snapshot, phone and round as they were. */
  lemma RecordLeaves(n: World, id: AccountId)
    requires Reachable(n) && id in n.threads && n.threads[id].Created?
    ensures var m, k := Step(n, RecordNow(id)), IndexOf(n.task.items, id);
      && OnlyItem(n.task.items, m.task.items, k) && n.task.items[k].status == Starting && m.threads[id] == Finished
      && m.task.items[k] == match n.threads[id].result
                            case StartError => n.task.items[k].(status := Failed)
                            case Session(s) => n.task.items[k].(snapshot := s, status := OutcomeOf(s.phase))
  {
    OwnItem(n, id);
    RecordedTask(n.task, id, n.threads[id].result);
  }

  // ---------------------------------------------------------------- reports on sessions

  /** What the report on a session in flight leaves of its item once the iteration is over: a terminal
      phase ends it, an HTTP error fails it, any other error or no report leaves it alone. */
  lemma ReportLeaves(n: World, answers: map<AccountId, Answer>, now: real, i: nat)
    requires Reachable(n) && n.worker.Awake? && i < |n.task.items|
    requires InFlight(n.task.items[i]) && n.task.items[i].snapshot.sessionId != ""
    ensures var it, m := n.task.items[i], Step(n, DecideNow(answers, now));
      && |m.task.items| == |n.task.items|
      && (if it.accountId !in answers then m.task.items[i] == it
          else match answers[it.accountId]
            case OtherError => m.task.items[i] == it
            case HttpError => m.task.items[i] == it.(status := Failed)
            case Latest(s) =>
              || m.task.items[i] == it.(snapshot := s, status := OutcomeOf(s.phase))
              || (s.phase == OtherPhase && n.task.stopMode == AfterCurrent && m.task.items[i] == it.(snapshot := s, status := Stopped)))
  {
    ReachableWorld(n);
    RestingWorld(n);
    InFlightIff(n.task.items[i]);
    DecideItem(n.task, answers, now, i);
    RefreshedItem(n.task, answers, i);
    var r := Refresh(n.task, answers);
    InFlightIff(r.items[i]);
  }

  lemma RefreshedItem(t: Task, answers: map<AccountId, Answer>, i: nat)
    requires RestGate(t) && i < |t.items| && IsActive(t.items[i]) && t.items[i].snapshot.sessionId != ""
    ensures |Refresh(t, answers).items| == |t.items| && Refresh(t, answers).items[i] == RefreshItem(t.items[i], answers)
  {
    RefreshSettles(t.items, answers);
    RecalcKeeps(RefreshItems(t.items, answers));
  }

  // ---------------------------------------------------------------- the phone of a failed item

  /** The item failed before its session reached the phone. */
  predicate FailedUnused(it: Item) {
    it.status == Failed && !PhoneUsed(it)
  }

  /** Nobody in flight and nobody who has used it holds that phone. */
  ghost predicate FreeKey(items: seq<Item>, key: string) {
    key != "" && forall i :: 0 <= i < |items| && (InFlight(items[i]) || PhoneUsed(items[i])) ==> PhoneKey(items[i]) != key
  }

  ghost predicate SomeQueued(items: seq<Item>) {
    exists i :: 0 <= i < |items| && items[i].status == Queued
  }

  lemma {:induction false} QueuedCounts(items: seq<Item>, n: nat, i: nat)
    requires i < n <= |items| && items[i].status == Queued
    ensures QueuedBefore(items, n) > QueuedBefore(items, i)
  {
    if i < n - 1 { QueuedCounts(items, n - 1, i); }
  }

  lemma {:induction false} NthQueued(items: seq<Item>, n: nat, p: nat) returns (i: nat)
    requires n <= |items| && p < QueuedBefore(items, n)
    ensures i < n && items[i].status == Queued && QueuedBefore(items, i) == p
  {
    if p < QueuedBefore(items, n - 1) {
      i := NthQueued(items, n - 1, p);
    } else {
      i := n - 1;
    }
  }

  lemma FreeIsReleased(items: seq<Item>, k: nat)
    requires k < |items| && FailedUnused(items[k]) && FreeKey(items, PhoneKey(items[k]))
    ensures PhoneKey(items[k]) in KeysOf(ReleasedItems(items))
  {
    forall i | 0 <= i < |items| ensures (IsActive(items[i]) <==> InFlight(items[i])) && (IsConsumed(items[i]) <==> PhoneUsed(items[i])) {
      InFlightIff(items[i]);
    }
    ReleasedFromSpec(items, HeldKeys(items));
  }

  /** The released phone at place `p` goes to the queued item at place `p`, or the queue is used up. */
  lemma ReleasedGoesOn(items: seq<Item>, c: int, key: string)
    requires WellFormed(items) && key in KeysOf(ReleasedItems(items)) && SomeQueued(items)
    ensures var released := ReleasedItems(items);
            var next := PromotedItems(items, released, c);
      && PromotedIds(items, |released|, |items|) != []
      && ((exists i :: 0 <= i < |items| && items[i].status == Queued && IsPromoted(items, i, |released|) && PhoneKey(next[i]) == key)
          || forall i :: 0 <= i < |items| && items[i].status == Queued ==> IsPromoted(items, i, |released|))
  {
    var released := ReleasedItems(items);
    var p :| 0 <= p < |released| && PhoneKey(released[p]) == key;
    var j :| 0 <= j < |items| && items[j].status == Queued;
    QueuedCounts(items, |items|, j);
    PromotedIdsSpec(items, |released|, |items|);
    if p < QueuedBefore(items, |items|) {
      var i := NthQueued(items, |items|, p);
      assert PromotedItems(items, released, c)[i] == Deferred(items[i], released[p], c);
    } else {
      forall i | 0 <= i < |items| && items[i].status == Queued ensures IsPromoted(items, i, |released|) {
        QueuedCounts(items, |items|, i);
      }
    }
  }

  /** Every promoted item is a queued one with the phone of a failed one, in the running round. */
  lemma PromotedFrom(items: seq<Item>, c: int, i: nat)
    requires c >= 1 && i < |items| && IsPromoted(items, i, |ReleasedItems(items)|)
    ensures exists j ::
      && 0 <= j < |items| && FailedUnused(items[j])
      && PromotedItem(items, i, ReleasedItems(items), c)
         == items[i].(phone := items[j].phone, round := c, deferredFrom := items[j].accountId)
  {
    var released := ReleasedItems(items);
    var source := released[QueuedBefore(items, i)];
    ReleasedFromSpec(items, HeldKeys(items));
    assert source in released;
    var j :| 0 <= j < |items| && items[j] == source;
    InFlightIff(items[j]);
  }

  /** The accounts an iteration has just decided to start. */
  ghost predicate JustLaunched(m: World, i: nat) {
    i < |m.task.items| && m.worker.Launching? && !m.worker.heedStop && m.task.items[i].accountId in m.worker.pending
  }

  lemma PromotingDecision(t: Task, answers: map<AccountId, Answer>, now: real)
    requires RestGate(t) && IsTaskActive(t.status) && t.stopMode == NoStop
    requires SomeQueued(Refresh(t, answers).items)
    requires Promote(Refresh(t, answers)).1 != []
    ensures var r := Refresh(t, answers);
            var (u, v) := Decide(t, answers, now);
      && WellFormed(r.items) && r.currentRound >= 1
      && v == LaunchPromoted(PromotedIds(r.items, |ReleasedItems(r.items)|, |r.items|))
      && u.items == PromotedItems(r.items, ReleasedItems(r.items), r.currentRound) && u.currentRound == r.currentRound
  {
    var r := Refresh(t, answers);
    RefreshKeepsRest(t, answers);
    assert !AllTerminal(r.items);
    assert Finalize(r) == r;
    PromoteKeepsInv(r, Launching(Promote(r).1, false));
  }

  lemma PromotionStarts(r: Task)
    requires WellFormed(r.items) && r.stopMode == NoStop
    requires PromotedIds(r.items, |ReleasedItems(r.items)|, |r.items|) != []
    ensures Promote(r).1 != []
  {
  }

  /** The decision hands phones on: what it leaves is the refreshed list after promotion, and the accounts
      it launches are the promoted ones. */
  ghost predicate HandsOn(n: World, answers: map<AccountId, Answer>, now: real) {
    var t, m := Refresh(n.task, answers), Step(n, DecideNow(answers, now));
    && WellFormed(t.items) && t.currentRound >= 1 && m.task.currentRound == t.currentRound
    && PromotedIds(t.items, |ReleasedItems(t.items)|, |t.items|) != []
    && m.task.items == PromotedItems(t.items, ReleasedItems(t.items), t.currentRound)
    && forall i: nat :: JustLaunched(m, i) <==> i < |t.items| && IsPromoted(t.items, i, |ReleasedItems(t.items)|)
  }

  lemma DecisionLaunches(n: World, answers: map<AccountId, Answer>, now: real, u: Task, ids: seq<AccountId>)
    requires n.worker.Awake? && Decide(n.task, answers, now) == (u, LaunchPromoted(ids))
    ensures Step(n, DecideNow(answers, now)).task == u
    ensures Step(n, DecideNow(answers, now)).worker == Launching(ids, false)
  {
  }

  lemma LaunchedIff(m: World, items: seq<Item>, sources: seq<Item>, c: int)
    requires WellFormed(items) && m.task.items == PromotedItems(items, sources, c)
    requires m.worker == Launching(PromotedIds(items, |sources|, |items|), false)
    ensures forall i: nat :: JustLaunched(m, i) <==> i < |items| && IsPromoted(items, i, |sources|)
  {
    PromotedIdsSpec(items, |sources|, |items|);
    assert forall i :: 0 <= i < |items| ==> m.task.items[i].accountId == items[i].accountId;
  }

  lemma DecisionHandsOn(n: World, answers: map<AccountId, Answer>, now: real)
    requires Reachable(n) && n.worker.Awake? && n.task.stopMode == NoStop && SomeQueued(Refresh(n.task, answers).items)
    requires var r := Refresh(n.task, answers).items; PromotedIds(r, |ReleasedItems(r)|, |r|) != []
    ensures HandsOn(n, answers, now)
  {
    ReachableWorld(n);
    RestingWorld(n);
    RefreshKeepsRest(n.task, answers);
    PromotionStarts(Refresh(n.task, answers));
    PromotingDecision(n.task, answers, now);
    var t := Refresh(n.task, answers);
    var ids := PromotedIds(t.items, |ReleasedItems(t.items)|, |t.items|);
    DecisionLaunches(n, answers, now, Decide(n.task, answers, now).0, ids);
    LaunchedIff(Step(n, DecideNow(answers, now)), t.items, ReleasedItems(t.items), t.currentRound);
  }

  lemma SomeoneIsLaunched(n: World, answers: map<AccountId, Answer>, now: real)
    requires HandsOn(n, answers, now)
    ensures exists i: nat :: JustLaunched(Step(n, DecideNow(answers, now)), i)
  {
    var r := Refresh(n.task, answers).items;
    var ids := PromotedIds(r, |ReleasedItems(r)|, |r|);
    PromotedIdsSpec(r, |ReleasedItems(r)|, |r|);
    assert ids[0] in ids;
    var i :| 0 <= i < |r| && r[i].accountId == ids[0] && IsPromoted(r, i, |ReleasedItems(r)|);
    assert JustLaunched(Step(n, DecideNow(answers, now)), i);
  }

  lemma LaunchedHoldReleased(n: World, answers: map<AccountId, Answer>, now: real, i: nat)
    requires HandsOn(n, answers, now) && JustLaunched(Step(n, DecideNow(answers, now)), i)
    ensures var r, m := Refresh(n.task, answers).items, Step(n, DecideNow(answers, now));
      && i < |r| == |m.task.items|
      && exists j ::
           && 0 <= j < |r| && FailedUnused(r[j])
           && m.task.items[i] == r[i].(phone := r[j].phone, round := m.task.currentRound, deferredFrom := r[j].accountId)
  {
    PromotedFrom(Refresh(n.task, answers).items, Refresh(n.task, answers).currentRound, i);
  }

  lemma KeyIsLaunched(n: World, answers: map<AccountId, Answer>, now: real, key: string)
    requires HandsOn(n, answers, now)
    requires var r := Refresh(n.task, answers).items; key in KeysOf(ReleasedItems(r)) && SomeQueued(r)
    ensures var r, m := Refresh(n.task, answers).items, Step(n, DecideNow(answers, now));
      && |m.task.items| == |r|
      && ((exists i: nat :: JustLaunched(m, i) && PhoneKey(m.task.items[i]) == key)
          || forall i: nat :: i < |r| && r[i].status == Queued ==> JustLaunched(m, i))
  {
    var t, m := Refresh(n.task, answers), Step(n, DecideNow(answers, now));
    ReleasedGoesOn(t.items, t.currentRound, key);
    if i :| 0 <= i < |t.items| && IsPromoted(t.items, i, |ReleasedItems(t.items)|) && PhoneKey(m.task.items[i]) == key {
      assert JustLaunched(m, i);
    }
  }

  /** Whenever the worker decides without a stop: if, by the reports just read, a failed item has not used
      its phone, nobody else holds that phone, and an account is queued, then accounts are started on phones
      of failed items, and either one of them on that phone or every queued one. */
  lemma FreePhoneIsHandedOn(n: World, answers: map<AccountId, Answer>, now: real, k: nat)
    requires Reachable(n) && n.worker.Awake? && n.task.stopMode == NoStop
    requires var r := Refresh(n.task, answers).items;
             k < |r| && FailedUnused(r[k]) && FreeKey(r, PhoneKey(r[k])) && SomeQueued(r)
    ensures var r, m := Refresh(n.task, answers).items, Step(n, DecideNow(answers, now));
      && |m.task.items| == |r|
      && (exists i: nat :: JustLaunched(m, i))
      && ((exists i: nat :: JustLaunched(m, i) && PhoneKey(m.task.items[i]) == PhoneKey(r[k]))
          || forall i: nat :: i < |r| && r[i].status == Queued ==> JustLaunched(m, i))
      && (forall i: nat :: JustLaunched(m, i) ==>
            exists j ::
              && 0 <= j < |r| && FailedUnused(r[j])
              && m.task.items[i] == r[i].(phone := r[j].phone, round := m.task.currentRound, deferredFrom := r[j].accountId))
  {
    var t, m := Refresh(n.task, answers), Step(n, DecideNow(answers, now));
    ReachableWorld(n);
    RestingWorld(n);
    RefreshKeepsRest(n.task, answers);
    FreeIsReleased(t.items, k);
    ReleasedGoesOn(t.items, t.currentRound, PhoneKey(t.items[k]));
    DecisionHandsOn(n, answers, now);
    SomeoneIsLaunched(n, answers, now);
    KeyIsLaunched(n, answers, now, PhoneKey(t.items[k]));
    forall i: nat | JustLaunched(m, i)
      ensures exists j ::
        && 0 <= j < |t.items| && FailedUnused(t.items[j])
        && m.task.items[i] == t.items[i].(phone := t.items[j].phone, round := m.task.currentRound, deferredFrom := t.items[j].accountId)
    {
      LaunchedHoldReleased(n, answers, now, i);
    }
  }

  /** A session the service no longer answers for fails its item, and if it had not used its phone the
      same decision hands that phone on. */
  lemma HttpErrorHandsPhoneOn(n: World, answers: map<AccountId, Answer>, now: real, k: nat)
    requires Reachable(n) && n.worker.Awake? && n.task.stopMode == NoStop && k < |n.task.items|
    requires var it := n.task.items[k];
             && InFlight(it) && !PhoneUsed(it) && it.snapshot.sessionId != ""
             && it.accountId in answers && answers[it.accountId] == HttpError
    requires var r := Refresh(n.task, answers).items; FreeKey(r, PhoneKey(n.task.items[k])) && SomeQueued(r)
    ensures var it, r, m := n.task.items[k], Refresh(n.task, answers).items, Step(n, DecideNow(answers, now));
      && k < |m.task.items| && m.task.items[k] == it.(status := Failed)
      && (exists i: nat :: JustLaunched(m, i))
      && ((exists i: nat :: JustLaunched(m, i) && PhoneKey(m.task.items[i]) == PhoneKey(it))
          || forall i: nat :: i < |r| && r[i].status == Queued ==> JustLaunched(m, i))
  {
    ReportLeaves(n, answers, now, k);
    ReachableWorld(n);
    RestingWorld(n);
    InFlightIff(n.task.items[k]);
    RefreshedItem(n.task, answers, k);
    FreePhoneIsHandedOn(n, answers, now, k);
  }

  // ---------------------------------------------------------------- from the failed start to the next account

  lemma {:induction false} TerminalStays(n: World, events: seq<Event>, i: nat)
    requires Reachable(n) && i < |n.task.items| && IsTerminal(n.task.items[i].status)
    ensures |Run(n, events).task.items| == |n.task.items| && Run(n, events).task.items[i] == n.task.items[i]
  {
    if events != [] {
      var front := events[..|events| - 1];
      TerminalStays(n, front, i);
      ReachableAfter(n, front);
      RoundsNeverRise(Run(n, front), events[|events| - 1]);
    }
  }

  /** A start that failed stays failed with its phone unused, whatever else happens. */
  lemma FailedStartStays(n: World, id: AccountId, events: seq<Event>)
    requires Reachable(n) && id in n.threads && n.threads[id] == Created(StartError)
    ensures var k := IndexOf(n.task.items, id);
            var w := Run(Step(n, RecordNow(id)), events);
      && Reachable(w)
      && k < |n.task.items| == |w.task.items| && w.task.items[k] == n.task.items[k].(status := Failed)
      && FailedUnused(w.task.items[k])
  {
    OwnItem(n, id);
    RecordLeaves(n, id);
    ReachableStep(n, RecordNow(id));
    TerminalStays(Step(n, RecordNow(id)), events, IndexOf(n.task.items, id));
    ReachableAfter(Step(n, RecordNow(id)), events);
  }

  lemma FailedIsNotAsked(w: World, answers: map<AccountId, Answer>, k: nat)
    requires Reachable(w) && w.worker.Awake? && k < |w.task.items| && w.task.items[k].status == Failed
    ensures k < |Refresh(w.task, answers).items| && Refresh(w.task, answers).items[k] == w.task.items[k]
  {
    ReachableWorld(w);
    RestingWorld(w);
    RefreshKeepsRest(w.task, answers);
  }

  /** And at every later decision without a stop at which that phone is free and an account is queued, an
      account is started on it, or every queued one on other phones of failed items. */
  lemma FailedStartHandsPhoneOn(n: World, id: AccountId, events: seq<Event>, answers: map<AccountId, Answer>, now: real)
    requires Reachable(n) && id in n.threads && n.threads[id] == Created(StartError)
    requires var w := Run(Step(n, RecordNow(id)), events);
             var r := Refresh(w.task, answers).items;
             && w.worker.Awake? && w.task.stopMode == NoStop && SomeQueued(r)
             && IndexOf(n.task.items, id) < |n.task.items| && FreeKey(r, PhoneKey(n.task.items[IndexOf(n.task.items, id)]))
    ensures var k := IndexOf(n.task.items, id);
            var w := Run(Step(n, RecordNow(id)), events);
            var r, m := Refresh(w.task, answers).items, Step(w, DecideNow(answers, now));
      && (exists i: nat :: JustLaunched(m, i))
      && ((exists i: nat :: JustLaunched(m, i) && PhoneKey(m.task.items[i]) == PhoneKey(n.task.items[k]))
          || forall i: nat :: i < |r| && r[i].status == Queued ==> JustLaunched(m, i))
  {
    var k := IndexOf(n.task.items, id);
    var w := Run(Step(n, RecordNow(id)), events);
    FailedStartStays(n, id, events);
    FailedIsNotAsked(w, answers, k);
    FreePhoneIsHandedOn(w, answers, now, k);
  }

  // ---------------------------------------------------------------- counters

  function Having(items: seq<Item>, s: Status): set<int> {
    set i | 0 <= i < |items| && items[i].status == s
  }

  lemma HavingSnoc(items: seq<Item>, s: Status)
    requires items != []
    ensures var last := |items| - 1;
            Having(items, s) == Having(items[..last], s) + (if items[last].status == s then {last} else {})
  {
    var front := items[..|items| - 1];
    assert forall i :: 0 <= i < |front| ==> front[i] == items[i];
  }

  lemma {:induction false} CountIs(items: seq<Item>, s: Status)
    ensures CountStatus(items, s) == |Having(items, s)|
  {
    if items == [] {
      assert Having(items, s) == {};
    } else {
      CountIs(items[..|items| - 1], s);
      HavingSnoc(items, s);
    }
  }

  /** When the worker has left, each counter is the number of items with that outcome. */
  lemma CountersTell(n: World)
    requires Reachable(n) && n.worker.Exited?
    ensures var t := n.task;
      && t.total == |t.items|
      && t.success == |Having(t.items, Done)|
      && t.failed == |Having(t.items, Failed)|
      && t.cancelled == |Having(t.items, Cancelled)|
      && t.stopped == |Having(t.items, Stopped)|
  {
    ReachableWorld(n);
    CountIs(n.task.items, Done);
    CountIs(n.task.items, Failed);
    CountIs(n.task.items, Cancelled);
    CountIs(n.task.items, Stopped);
  }

  // ---------------------------------------------------------------- opening a round

  /** An opened round starts exactly its queued accounts, each once. */
  lemma RoundStartsAll(n: World)
    requires Reachable(n) && n.worker.Choosing? && n.task.stopMode == NoStop
    ensures var m := Step(n, BeginRound);
      && m.worker.Launching? && m.worker.heedStop && m.task == n.task
      && (forall a, b :: 0 <= a < b < |m.worker.pending| ==> m.worker.pending[a] != m.worker.pending[b])
      && (forall i :: 0 <= i < |n.task.items| ==>
            (n.task.items[i].accountId in m.worker.pending
             <==> n.task.items[i].round == n.worker.round && n.task.items[i].status == Queued))
  {
    ReachableWorld(n);
    RoundIdsSpec(n.task.items, n.worker.round);
  }
}
