/** The stored batch task as the scheduler mutates it: each method updates the task in place and is
    tied to the rule of `GopayBatch` it implements. */
module GopayBatchTask {
  import opened Common
  import opened GopayBatch

  class BatchTask {
    var status: TaskStatus
    var stopMode: StopMode
    var items: seq<Item>
    var currentRound: int
    var nextRoundAt: Option<real>
    var interval: int
    var total: nat
    var success: nat
    var failed: nat
    var cancelled: nat
    var stopped: nat
    /** Every copy written back so far. */
    ghost var saves: seq<Save>

    /** The task as a value. */
    function Value(): Task
      reads this
    {
      Task(status, stopMode, items, currentRound, nextRoundAt, interval, total, success, failed, cancelled, stopped)
    }

    constructor (items: seq<Item>, interval: int)
      ensures Value() == Task(TaskQueued, NoStop, items, 0, None, interval, |items|, 0, 0, 0, 0)
      ensures saves == []
    {
      this.status, this.stopMode, this.items := TaskQueued, NoStop, items;
      this.currentRound, this.nextRoundAt, this.interval := 0, None, interval;
      this.saves := [];
      this.total, this.success, this.failed, this.cancelled, this.stopped := |items|, 0, 0, 0, 0;
    }

    /** Saving, first half: statuses follow terminal snapshots. */
    method FollowSnapshots()
      modifies this
      ensures saves == old(saves)
      ensures Value() == old(Value()).(items := RecalcItems(old(items)))
    {
      var i := 0;
      while i < |items|
        invariant 0 <= i <= |items| == |old(items)|
        invariant forall k :: 0 <= k < |items| ==>
          items[k] == if k < i then RecalcItem(old(items)[k]) else old(items)[k]
        invariant Value() == old(Value()).(items := items) && saves == old(saves)
      {
        if IsTerminalPhase(items[i].snapshot.phase) {
          items := items[i := items[i].(status := StatusOf(items[i].snapshot))];
        }
        i := i + 1;
      }
      assert items == RecalcItems(old(items));
    }

    /** Saving, second half: the counters are taken anew. */
    method Recount()
      modifies this
      ensures Value() == Recalculate(old(Value()))
      ensures saves == old(saves)
    {
      FollowSnapshots();
      ghost var saved := Value();
      total := |items|;
      success, failed, cancelled, stopped := 0, 0, 0, 0;
      var i := 0;
      while i < |items|
        invariant 0 <= i <= |items|
        invariant success == CountStatus(items[..i], Done) && failed == CountStatus(items[..i], Failed)
        invariant cancelled == CountStatus(items[..i], Cancelled) && stopped == CountStatus(items[..i], Stopped)
        invariant Value() == saved.(total := |items|, success := success, failed := failed,
                                    cancelled := cancelled, stopped := stopped)
        invariant saves == old(saves)
      {
        assert items[..i + 1][..i] == items[..i];
        match items[i].status {
          case Done => success := success + 1;
          case Failed => failed := failed + 1;
          case Cancelled => cancelled := cancelled + 1;
          case Stopped => stopped := stopped + 1;
          case _ =>
        }
        i := i + 1;
      }
      assert items[..i] == items;
    }

    /** Writes the copy back. */
    method SaveCopy(ghost stage: Stage)
      modifies this
      ensures Value() == Recalculate(old(Value()))
      ensures saves == old(saves) + [Save(stage, Value())]
    {
      Recount();
      saves := saves + [Save(stage, Value())];
    }

    /** The phones that active or consumed items hold. */
    method ActivePhoneKeys() returns (held: set<string>)
      ensures held == HeldKeys(items)
    {
      held := {};
      var i := 0;
      while i < |items|
        invariant 0 <= i <= |items|
        invariant held == HeldKeys(items[..i])
      {
        assert items[..i + 1] == items[..i] + [items[i]];
        HeldKeysSnoc(items[..i], items[i]);
        if (IsActive(items[i]) || IsConsumed(items[i])) && PhoneKey(items[i]) != "" {
          held := held + {PhoneKey(items[i])};
        }
        i := i + 1;
      }
      assert items[..i] == items;
    }

    /** The failed items whose phone nobody used, one per phone key. */
    method ReleasedPhoneItems() returns (released: seq<Item>)
      ensures released == ReleasedItems(items)
    {
      var held := ActivePhoneKeys();
      var seen: set<string> := {};
      released := [];
      var i := 0;
      while i < |items|
        invariant 0 <= i <= |items|
        invariant released == ReleasedFrom(items[..i], held) && seen == KeysOf(released)
      {
        assert items[..i + 1][..i] == items[..i];
        var key := PhoneKey(items[i]);
        if ReleasesPhone(items[i]) && key != "" && key !in held && key !in seen {
          KeysOfSnoc(released, items[i]);
          released := released + [items[i]];
          seen := seen + {key};
        }
        i := i + 1;
      }
      assert items[..i] == items;
    }

    /** Hands each released phone to the next queued item and returns the accounts to start. */
    method PromoteWithReleasedPhones() returns (promoted: seq<AccountId>)
      modifies this
      ensures (Value(), promoted) == Promote(old(Value()))
      ensures saves == old(saves)
    {
      promoted := [];
      if stopMode != NoStop {
        return;
      }
      var released := ReleasedPhoneItems();
      var next := 0;
      var i := 0;
      while i < |items|
        invariant 0 <= i <= |items| == |old(items)|
        invariant 0 <= next <= |released|
        invariant next == Min(QueuedBefore(old(items), i), |released|)
        invariant forall k :: 0 <= k < |items| ==>
          items[k] == if k < i then PromotedItem(old(items), k, released, old(currentRound)) else old(items)[k]
        invariant promoted == PromotedIds(old(items), |released|, i)
        invariant Value() == old(Value()).(items := items) && saves == old(saves)
      {
        if items[i].status == Queued && next < |released| {
          promoted := promoted + [items[i].accountId];
          items := items[i := Deferred(items[i], released[next], currentRound)];
          next := next + 1;
        }
        i := i + 1;
      }
      if promoted != [] {
        nextRoundAt := None;
        assert items == PromotedItems(old(items), released, old(currentRound));
      } else {
        NothingPromoted(old(items), |released|, |items|);
        assert items == old(items);
      }
    }

    /** Asks the payment service about every active session. */
    method RefreshActiveItems(answers: map<AccountId, Answer>)
      modifies this
      ensures Value() == Refresh(old(Value()), answers)
      ensures saves == old(saves) + RefreshSaves(old(Value()), answers)
    {
      var changed := false;
      var i := 0;
      while i < |items|
        invariant 0 <= i <= |items| == |old(items)|
        invariant forall k :: 0 <= k < |items| ==>
          items[k] == if k < i then RefreshItem(old(items)[k], answers) else old(items)[k]
        invariant changed <==> exists k :: 0 <= k < i && IsActive(old(items)[k]) && old(items)[k].snapshot.sessionId != ""
        invariant !changed ==> items == old(items)
        invariant Value() == old(Value()).(items := items) && saves == old(saves)
      {
        if IsActive(items[i]) && items[i].snapshot.sessionId != "" {
          changed := true;
          if items[i].accountId in answers {
            match answers[items[i].accountId] {
              case Latest(s) => items := items[i := items[i].(snapshot := s, status := StatusOf(s))];
              case HttpError => items := items[i := items[i].(status := Failed)];
              case OtherError =>
            }
          }
        }
        i := i + 1;
      }
      if changed {
        assert items == RefreshItems(old(items), answers);
        SaveCopy(Refreshing);
      }
    }

    /** Closes the task once it may be closed. */
    method FinalizeIfComplete()
      modifies this
      ensures Value() == Finalize(old(Value()))
      ensures saves == old(saves) + ClosingSaves(old(Value()))
    {
      if stopMode == AfterCurrent {
        if AnyActive(items) {
          status, nextRoundAt := TaskRunning, None;
        } else {
          var i := 0;
          while i < |items|
            invariant 0 <= i <= |items| == |old(items)|
            invariant forall k :: 0 <= k < |items| ==>
              items[k] == if k < i then StopItem(old(items)[k]) else old(items)[k]
            invariant Value() == old(Value()).(items := items) && saves == old(saves)
          {
            if !IsTerminal(items[i].status) {
              items := items[i := items[i].(status := Stopped)];
            }
            i := i + 1;
          }
          assert items == StopItems(old(items));
          status, currentRound, nextRoundAt := TaskStopped, 0, None;
        }
        SaveCopy(Closing);
      } else if items != [] && AllTerminal(items) {
        if stopMode == Immediate {
          status, currentRound, nextRoundAt := TaskCancelled, 0, None;
        } else if status != TaskCancelled {
          status, currentRound, nextRoundAt := TaskDone, 0, None;
        }
        SaveCopy(Closing);
      }
    }

    /** Top of the worker's loop: leave a closed task alone, save a queued one as running. */
    method BeginIteration() returns (active: bool)
      modifies this
      ensures active == IsTaskActive(old(status))
      ensures Value() == Awoken(old(Value()))
      ensures saves == old(saves) + WakingSaves(old(Value()))
    {
      active := IsTaskActive(status);
      if status == TaskQueued {
        status := TaskRunning;
        SaveCopy(Waking);
      }
    }

    /** One worker iteration on a running task; the verdict says what the worker does next. */
    method Iterate(answers: map<AccountId, Answer>, now: real) returns (verdict: Verdict)
      modifies this
      ensures (Value(), verdict) == Decide(old(Value()), answers, now)
      ensures saves == old(saves) + IterationSaves(old(Value()), answers, now)
    {
      ghost var loaded := Value();
      RefreshActiveItems(answers);
      FinalizeIfComplete();
      ghost var first := RefreshSaves(loaded, answers) + ClosingSaves(Refresh(loaded, answers));
      AppendTwice(old(saves), RefreshSaves(loaded, answers), ClosingSaves(Refresh(loaded, answers)));
      if !IsTaskActive(status) {
        return Exit;
      }
      ghost var closed := Value();
      verdict := PassGate(now);
      AppendTwice(old(saves), first, DispatchSaves(closed, now));
    }

    /** The dispatch gate: under a stop nothing is started; released phones go before new rounds. */
    method PassGate(now: real) returns (verdict: Verdict)
      modifies this
      ensures (Value(), verdict) == Dispatch(old(Value()), now)
      ensures saves == old(saves) + DispatchSaves(old(Value()), now)
    {
      if stopMode != NoStop {
        return Sleep;
      }
      var promoted := PromoteWithReleasedPhones();
      if promoted != [] {
        SaveCopy(Promoting);
        return LaunchPromoted(promoted);
      }
      verdict := ChooseRound(now);
    }

    /** Opens the lowest pending round, or waits for it. */
    method ChooseRound(now: real) returns (verdict: Verdict)
      modifies this
      ensures (Value(), verdict) == DispatchRound(old(Value()), now)
      ensures saves == old(saves) + RoundSaves(old(Value()), now)
    {
      var pending := LowestPendingRound(items);
      if pending.None? {
        FinalizeIfComplete();
        return if IsTaskActive(status) then Sleep else Exit;
      }
      var round := pending.value;
      if AnyActiveIn(items, round) {
        currentRound := round;
        SaveCopy(Awaiting);
        return Sleep;
      }
      if !AnyQueuedIn(items, round) {
        return Sleep;
      }
      verdict := ArmOrOpen(round, now);
    }

    method ArmOrOpen(round: int, now: real) returns (verdict: Verdict)
      modifies this
      ensures (Value(), verdict) == OpenRound(old(Value()), round, now)
      ensures saves == old(saves) + OpeningSaves(old(Value()), round, now)
    {
      if round > 1 && NextRoundUnset(Value()) {
        currentRound, nextRoundAt := round, Some(now + Interval(Value()));
        SaveCopy(Arming);
      }
      if round > 1 && !NextRoundUnset(Value()) && nextRoundAt.value > now {
        return Sleep;
      }
      currentRound, nextRoundAt := round, None;
      SaveCopy(Opening);
      return LaunchRound(round);
    }

    /** First locked phase of a start: claim the item, or refuse it under a stop. */
    method MarkItemStarting(id: AccountId)
      modifies this
      ensures Value() == MarkStarting(old(Value()), id)
    {
      var k := IndexOf(items, id);
      if k < |items| {
        if items[k].status == Queued {
          items := items[k := items[k].(status := if stopMode != NoStop then StoppedStatus(stopMode) else Starting)];
        }
        assert items == old(items)[k := MarkStartingItem(old(items)[k], stopMode)];
        SaveCopy(Threading);
      }
    }

    /** Second locked phase: create the session, or give the item up because a stop came first. */
    method AdmitItem(id: AccountId) returns (admitted: bool)
      modifies this
      ensures admitted == Admits(old(Value()), id)
      ensures Value() == Admit(old(Value()), id)
    {
      var k := IndexOf(items, id);
      if k == |items| || items[k].status != Starting {
        return false;
      }
      if stopMode != NoStop {
        items := items[k := items[k].(status := StoppedStatus(stopMode))];
        SaveCopy(Threading);
        return false;
      }
      return true;
    }

    /** Third locked phase: record the created session, or its failure. */
    method RecordStart(id: AccountId, result: StartResult)
      modifies this
      ensures Value() == Record(old(Value()), id, result)
    {
      var k := IndexOf(items, id);
      if k < |items| {
        match result {
          case StartError => items := items[k := items[k].(status := Failed)];
          case Session(s) =>
            if status == TaskCancelled {
              items := items[k := items[k].(status := Cancelled)];
            } else {
              items := items[k := items[k].(snapshot := s, status := StatusOf(s))];
            }
        }
        SaveCopy(Threading);
      }
    }
  }

  lemma AppendTwice<T>(a: seq<T>, b: seq<T>, c: seq<T>)
    ensures (a + b) + c == a + (b + c)
  {
  }

  lemma HeldKeysSnoc(items: seq<Item>, it: Item)
    ensures HeldKeys(items + [it])
            == HeldKeys(items)
               + (if (IsActive(it) || IsConsumed(it)) && PhoneKey(it) != "" then {PhoneKey(it)} else {})
  {
    var all := items + [it];
    forall key | key in HeldKeys(items) ensures key in HeldKeys(all) {
      var i :| 0 <= i < |items| && (IsActive(items[i]) || IsConsumed(items[i])) && PhoneKey(items[i]) == key && key != "";
      assert all[i] == items[i];
    }
    assert all[|items|] == it;
  }

  lemma KeysOfSnoc(items: seq<Item>, it: Item)
    ensures KeysOf(items + [it]) == KeysOf(items) + {PhoneKey(it)}
  {
    var all := items + [it];
    forall key | key in KeysOf(items) ensures key in KeysOf(all) {
      var i :| 0 <= i < |items| && PhoneKey(items[i]) == key;
      assert all[i] == items[i];
    }
    assert all[|items|] == it;
  }

  lemma {:induction false} NothingPromoted(items: seq<Item>, n: nat, upTo: nat)
    requires upTo <= |items| && PromotedIds(items, n, upTo) == []
    ensures forall i :: 0 <= i < upTo ==> !IsPromoted(items, i, n)
  {
    if upTo > 0 {
      NothingPromoted(items, n, upTo - 1);
    }
  }
}
