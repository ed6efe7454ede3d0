/** The items and tasks of a GoPay batch, and the rule behind every single update the
    scheduler makes to them: refresh, recount, phone release, promotion, finalisation,
    round dispatch and the three locked phases of starting one item. */
module GopayBatch {
  import opened Common

  type AccountId = x: int | x > 0 witness 1

  /** Session phases. `NoPhase` is an absent phase; `OtherPhase` any name outside both phase tables. */
  datatype Phase =
    | NoPhase
    | CreatedPhase | StartingPhase | WaitingOtp | WaitingLinkPin | WaitingPaymentPin | Verifying
    | SucceededPhase | FailedPhase | CancelledPhase
    | OtherPhase

  /** `evidence` stands for a snap token, reference id, OTP timestamp or charge reference being present. */
  datatype Snapshot = Snapshot(phase: Phase, sessionId: string, evidence: bool)

  const EMPTY_SNAPSHOT := Snapshot(NoPhase, "", false)

  datatype Status = Queued | Starting | Running | Done | Failed | Cancelled | Stopped

  datatype Phone = Phone(countryCode: string, number: string)

  /** `deferredFrom` is the account whose phone the item inherited, 0 when it kept its own. */
  datatype Item = Item(accountId: AccountId, phone: Phone, round: int, status: Status,
                       snapshot: Snapshot, deferredFrom: int)

  datatype StopMode = NoStop | AfterCurrent | Immediate

  datatype TaskStatus = TaskQueued | TaskRunning | TaskDone | TaskFailed | TaskCancelled | TaskStopped

  datatype Task = Task(status: TaskStatus, stopMode: StopMode, items: seq<Item>,
                       currentRound: int, nextRoundAt: Option<real>, interval: int,
                       total: nat, success: nat, failed: nat, cancelled: nat, stopped: nat)

  // ---------------------------------------------------------------- classification

  predicate IsTerminalPhase(p: Phase) {
    p in {SucceededPhase, FailedPhase, CancelledPhase}
  }

  predicate IsActivePhase(p: Phase) {
    p in {CreatedPhase, StartingPhase, WaitingOtp, WaitingLinkPin, WaitingPaymentPin, Verifying}
  }

  predicate IsTaskActive(s: TaskStatus) {
    s in {TaskQueued, TaskRunning}
  }

  predicate IsTerminal(s: Status) {
    s in {Done, Failed, Cancelled, Stopped}
  }

  function StatusOf(s: Snapshot): Status {
    match s.phase
    case SucceededPhase => Done
    case FailedPhase => Failed
    case CancelledPhase => Cancelled
    case _ => Running
  }

  predicate IsActive(it: Item) {
    it.status == Starting
    || (it.status == Running && (it.snapshot.phase == NoPhase || IsActivePhase(it.snapshot.phase)))
  }

  predicate AllTerminal(items: seq<Item>) {
    forall i :: 0 <= i < |items| ==> IsTerminal(items[i].status)
  }

  predicate AnyActive(items: seq<Item>) {
    exists i :: 0 <= i < |items| && IsActive(items[i])
  }

  function DigitsOf(s: string): string {
    if s == [] then []
    else (if '0' <= s[0] <= '9' then [s[0]] else []) + DigitsOf(s[1..])
  }

  /** The resource a session needs exclusively; empty when the phone is incomplete. */
  function PhoneKey(it: Item): string {
    var country := DigitsOf(it.phone.countryCode);
    var number := DigitsOf(it.phone.number);
    if country != [] && number != [] then country + ":" + number else ""
  }

  predicate ConsumedSnapshot(s: Snapshot) {
    s.phase in {WaitingOtp, WaitingLinkPin, WaitingPaymentPin, Verifying, SucceededPhase} || s.evidence
  }

  predicate IsConsumed(it: Item) {
    ConsumedSnapshot(it.snapshot)
  }

  predicate ReleasesPhone(it: Item) {
    it.status == Failed && !IsConsumed(it)
  }

  // ---------------------------------------------------------------- recount

  function RecalcItem(it: Item): Item {
    if IsTerminalPhase(it.snapshot.phase) then it.(status := StatusOf(it.snapshot)) else it
  }

  function RecalcItems(items: seq<Item>): seq<Item> {
    seq(|items|, i requires 0 <= i < |items| => RecalcItem(items[i]))
  }

  function CountStatus(items: seq<Item>, s: Status): nat {
    if items == [] then 0
    else (if items[|items| - 1].status == s then 1 else 0) + CountStatus(items[..|items| - 1], s)
  }

  function Recalculate(t: Task): Task {
    var items := RecalcItems(t.items);
    t.(items := items,
       total := |items|,
       success := CountStatus(items, Done),
       failed := CountStatus(items, Failed),
       cancelled := CountStatus(items, Cancelled),
       stopped := CountStatus(items, Stopped))
  }

  /** When every item is terminal, the four terminal counters add up to the total. */
  lemma {:induction false} TerminalCountsAddUp(items: seq<Item>)
    requires AllTerminal(items)
    ensures CountStatus(items, Done) + CountStatus(items, Failed)
            + CountStatus(items, Cancelled) + CountStatus(items, Stopped) == |items|
  {
    if items != [] {
      TerminalCountsAddUp(items[..|items| - 1]);
    }
  }

  // ---------------------------------------------------------------- phone release and promotion

  function HeldKeys(items: seq<Item>): set<string> {
    set i | 0 <= i < |items| && (IsActive(items[i]) || IsConsumed(items[i])) && PhoneKey(items[i]) != ""
      :: PhoneKey(items[i])
  }

  function ConsumedKeys(items: seq<Item>): set<string> {
    set i | 0 <= i < |items| && IsConsumed(items[i]) && PhoneKey(items[i]) != "" :: PhoneKey(items[i])
  }

  predicate Releasable(it: Item, held: set<string>) {
    ReleasesPhone(it) && PhoneKey(it) != "" && PhoneKey(it) !in held
  }

  function KeysOf(items: seq<Item>): set<string> {
    set i | 0 <= i < |items| :: PhoneKey(items[i])
  }

  /** The failed items whose phone may be handed on: one per key, earliest first. */
  function ReleasedFrom(items: seq<Item>, held: set<string>): seq<Item> {
    if items == [] then []
    else
      var before := ReleasedFrom(items[..|items| - 1], held);
      var last := items[|items| - 1];
      if Releasable(last, held) && PhoneKey(last) !in KeysOf(before) then before + [last] else before
  }

  function ReleasedItems(items: seq<Item>): seq<Item> {
    ReleasedFrom(items, HeldKeys(items))
  }

  predicate DistinctKeys(items: seq<Item>) {
    forall i, j :: 0 <= i < j < |items| ==> PhoneKey(items[i]) != PhoneKey(items[j])
  }

  /** A released item is a failed member of the list that never consumed its key, no active or
      consumed item holds that key, no key is released twice, and no releasable key is forgotten. */
  lemma {:induction false} ReleasedFromSpec(items: seq<Item>, held: set<string>)
    ensures DistinctKeys(ReleasedFrom(items, held))
    ensures forall r :: r in ReleasedFrom(items, held) ==> r in items && Releasable(r, held)
    ensures forall i :: 0 <= i < |items| && Releasable(items[i], held)
                        ==> PhoneKey(items[i]) in KeysOf(ReleasedFrom(items, held))
  {
    if items != [] {
      var front := items[..|items| - 1];
      var last := items[|items| - 1];
      ReleasedFromSpec(front, held);
      var before := ReleasedFrom(front, held);
      var all := ReleasedFrom(items, held);
      forall i | 0 <= i < |items| && Releasable(items[i], held)
        ensures PhoneKey(items[i]) in KeysOf(all)
      {
        if i < |items| - 1 {
          assert items[i] == front[i];
          var k :| 0 <= k < |before| && PhoneKey(before[k]) == PhoneKey(items[i]);
          assert all[k] == before[k];
        } else if PhoneKey(last) in KeysOf(before) {
          var k :| 0 <= k < |before| && PhoneKey(before[k]) == PhoneKey(last);
          assert all[k] == before[k];
        } else {
          assert all[|before|] == last;
        }
      }
    }
  }

  function QueuedBefore(items: seq<Item>, i: nat): nat
    requires i <= |items|
  {
    if i == 0 then 0 else QueuedBefore(items, i - 1) + (if items[i - 1].status == Queued then 1 else 0)
  }

  function FirstNonZero(a: int, b: int, c: int): int {
    if a != 0 then a else if b != 0 then b else if c != 0 then c else 1
  }

  function Deferred(it: Item, source: Item, currentRound: int): Item {
    it.(phone := source.phone,
        round := Max(1, FirstNonZero(currentRound, source.round, it.round)),
        deferredFrom := source.accountId)
  }

  predicate IsPromoted(items: seq<Item>, i: nat, sources: nat)
    requires i < |items|
  {
    items[i].status == Queued && QueuedBefore(items, i) < sources
  }

  function PromotedItem(items: seq<Item>, i: nat, sources: seq<Item>, currentRound: int): Item
    requires i < |items|
  {
    if IsPromoted(items, i, |sources|) then Deferred(items[i], sources[QueuedBefore(items, i)], currentRound)
    else items[i]
  }

  function PromotedItems(items: seq<Item>, sources: seq<Item>, currentRound: int): seq<Item> {
    seq(|items|, i requires 0 <= i < |items| => PromotedItem(items, i, sources, currentRound))
  }

  /** Accounts among the first `n` queued items, in list order. */
  function PromotedIds(items: seq<Item>, n: nat, upTo: nat): seq<AccountId>
    requires upTo <= |items|
  {
    if upTo == 0 then []
    else PromotedIds(items, n, upTo - 1)
         + (if IsPromoted(items, upTo - 1, n) then [items[upTo - 1].accountId] else [])
  }

  function Promote(t: Task): (Task, seq<AccountId>) {
    var released := ReleasedItems(t.items);
    var ids := PromotedIds(t.items, |released|, |t.items|);
    if t.stopMode != NoStop || ids == [] then (t, [])
    else (t.(items := PromotedItems(t.items, released, t.currentRound), nextRoundAt := None), ids)
  }

  // ---------------------------------------------------------------- worker iteration

  /** What asking for a session's state can answer. */
  datatype Answer = Latest(snapshot: Snapshot) | HttpError | OtherError

  function RefreshItem(it: Item, answers: map<AccountId, Answer>): Item {
    if IsActive(it) && it.snapshot.sessionId != "" && it.accountId in answers then
      match answers[it.accountId]
      case Latest(s) => it.(snapshot := s, status := StatusOf(s))
      case HttpError => it.(status := Failed)
      case OtherError => it
    else it
  }

  function RefreshItems(items: seq<Item>, answers: map<AccountId, Answer>): seq<Item> {
    seq(|items|, i requires 0 <= i < |items| => RefreshItem(items[i], answers))
  }

  predicate RefreshAsks(items: seq<Item>) {
    exists i :: 0 <= i < |items| && IsActive(items[i]) && items[i].snapshot.sessionId != ""
  }

  function Refresh(t: Task, answers: map<AccountId, Answer>): Task {
    if RefreshAsks(t.items) then Recalculate(t.(items := RefreshItems(t.items, answers))) else t
  }

  function StopItem(it: Item): Item {
    if IsTerminal(it.status) then it else it.(status := Stopped)
  }

  function StopItems(items: seq<Item>): seq<Item> {
    seq(|items|, i requires 0 <= i < |items| => StopItem(items[i]))
  }

  function FinalizeAfterCurrent(t: Task): Task {
    if AnyActive(t.items) then Recalculate(t.(status := TaskRunning, nextRoundAt := None))
    else Recalculate(t.(items := StopItems(t.items), status := TaskStopped, currentRound := 0, nextRoundAt := None))
  }

  function Finalize(t: Task): Task {
    if t.stopMode == AfterCurrent then FinalizeAfterCurrent(t)
    else if t.items == [] || !AllTerminal(t.items) then t
    else if t.stopMode == Immediate then
      Recalculate(t.(status := TaskCancelled, currentRound := 0, nextRoundAt := None))
    else if t.status == TaskCancelled then Recalculate(t)
    else Recalculate(t.(status := TaskDone, currentRound := 0, nextRoundAt := None))
  }

  /** What the worker does once an iteration has written its copy back. */
  datatype Verdict = Sleep | Exit | LaunchPromoted(ids: seq<AccountId>) | LaunchRound(round: int)

  function LowestPendingRound(items: seq<Item>): Option<int> {
    if items == [] then None
    else
      var before := LowestPendingRound(items[..|items| - 1]);
      var last := items[|items| - 1];
      if IsTerminal(last.status) then before
      else if before.None? then Some(last.round)
      else Some(Min(before.value, last.round))
  }

  predicate NextRoundUnset(t: Task) {
    t.nextRoundAt.None? || t.nextRoundAt.value == 0.0
  }

  function Interval(t: Task): real {
    Max(0, Min(t.interval, 600)) as real
  }

  predicate AnyActiveIn(items: seq<Item>, round: int) {
    exists i :: 0 <= i < |items| && items[i].round == round && IsActive(items[i])
  }

  predicate AnyQueuedIn(items: seq<Item>, round: int) {
    exists i :: 0 <= i < |items| && items[i].round == round && items[i].status == Queued
  }

  function DispatchRound(t: Task, now: real): (Task, Verdict) {
    var lowest := LowestPendingRound(t.items);
    if lowest.None? then
      var f := Finalize(t);
      (f, if IsTaskActive(f.status) then Sleep else Exit)
    else
      var r := lowest.value;
      if AnyActiveIn(t.items, r) then (Recalculate(t.(currentRound := r)), Sleep)
      else if !AnyQueuedIn(t.items, r) then (t, Sleep)
      else OpenRound(t, r, now)
  }

  predicate ArmsTimer(t: Task, round: int) {
    round > 1 && NextRoundUnset(t)
  }

  function Armed(t: Task, round: int, now: real): Task {
    Recalculate(t.(currentRound := round, nextRoundAt := Some(now + Interval(t))))
  }

  /** Arm the round's timer if it needs one, then open the round unless the timer still runs. */
  function OpenRound(t: Task, round: int, now: real): (Task, Verdict) {
    var u := if ArmsTimer(t, round) then Armed(t, round, now) else t;
    if round > 1 && !NextRoundUnset(u) && u.nextRoundAt.value > now then (u, Sleep)
    else (Recalculate(u.(currentRound := round, nextRoundAt := None)), LaunchRound(round))
  }

  function Dispatch(t: Task, now: real): (Task, Verdict) {
    if t.stopMode != NoStop then (t, Sleep)
    else
      var (p, ids) := Promote(t);
      if ids != [] then (Recalculate(p), LaunchPromoted(ids)) else DispatchRound(t, now)
  }

  /** One iteration after the task is known to run: refresh, finalise, then the dispatch gate. */
  function Decide(t: Task, answers: map<AccountId, Answer>, now: real): (Task, Verdict) {
    var f := Finalize(Refresh(t, answers));
    if !IsTaskActive(f.status) then (f, Exit) else Dispatch(f, now)
  }

  // ---------------------------------------------------------------- what an iteration saves

  /** Which save of the worker, or of a start thread, wrote a copy back. */
  datatype Stage = Waking | Refreshing | Closing | Promoting | Awaiting | Arming | Opening | Threading

  datatype Save = Save(stage: Stage, task: Task)

  /** The top of the worker's loop: a queued task is saved as running. */
  function Awoken(t: Task): Task {
    if t.status == TaskQueued then Recalculate(t.(status := TaskRunning)) else t
  }

  function WakingSaves(t: Task): seq<Save> {
    if t.status == TaskQueued then [Save(Waking, Awoken(t))] else []
  }

  predicate FinalizeSaves(t: Task) {
    t.stopMode == AfterCurrent || (t.items != [] && AllTerminal(t.items))
  }

  function RefreshSaves(t: Task, answers: map<AccountId, Answer>): seq<Save> {
    if RefreshAsks(t.items) then [Save(Refreshing, Refresh(t, answers))] else []
  }

  function ClosingSaves(t: Task): seq<Save> {
    if FinalizeSaves(t) then [Save(Closing, Finalize(t))] else []
  }

  function OpeningSaves(t: Task, round: int, now: real): seq<Save> {
    var arming := if ArmsTimer(t, round) then [Save(Arming, Armed(t, round, now))] else [];
    var u := if ArmsTimer(t, round) then Armed(t, round, now) else t;
    arming + (if round > 1 && !NextRoundUnset(u) && u.nextRoundAt.value > now then []
              else [Save(Opening, Recalculate(u.(currentRound := round, nextRoundAt := None)))])
  }

  function RoundSaves(t: Task, now: real): seq<Save> {
    var lowest := LowestPendingRound(t.items);
    if lowest.None? then ClosingSaves(t)
    else if AnyActiveIn(t.items, lowest.value) then
      [Save(Awaiting, Recalculate(t.(currentRound := lowest.value)))]
    else if !AnyQueuedIn(t.items, lowest.value) then []
    else OpeningSaves(t, lowest.value, now)
  }

  function DispatchSaves(t: Task, now: real): seq<Save> {
    if t.stopMode != NoStop then []
    else
      var (p, ids) := Promote(t);
      if ids != [] then [Save(Promoting, Recalculate(p))] else RoundSaves(t, now)
  }

  /** The copies an iteration that loaded `t` writes back, in order. */
  function IterationSaves(t: Task, answers: map<AccountId, Answer>, now: real): seq<Save> {
    var r := Refresh(t, answers);
    var f := Finalize(r);
    RefreshSaves(t, answers) + ClosingSaves(r) + (if IsTaskActive(f.status) then DispatchSaves(f, now) else [])
  }

  /** A stop request on the stored task; a closed or already stopping task refuses it. */
  function RequestedStop(t: Task, mode: StopMode): Task {
    if t.stopMode != NoStop || !IsTaskActive(t.status) then t else Recalculate(t.(stopMode := mode))
  }

  // ---------------------------------------------------------------- starting one item

  datatype StartResult = Session(snapshot: Snapshot) | StartError

  function StoppedStatus(mode: StopMode): Status {
    if mode == AfterCurrent then Stopped else Cancelled
  }

  function MarkStartingItem(it: Item, mode: StopMode): Item {
    if it.status != Queued then it
    else it.(status := if mode != NoStop then StoppedStatus(mode) else Starting)
  }

  function RefuseItem(it: Item, mode: StopMode): Item {
    if it.status == Starting && mode != NoStop then it.(status := StoppedStatus(mode)) else it
  }

  function RecordItem(it: Item, task: TaskStatus, result: StartResult): Item {
    match result
    case StartError => it.(status := Failed)
    case Session(s) =>
      if task == TaskCancelled then it.(status := Cancelled) else it.(snapshot := s, status := StatusOf(s))
  }

  /** Index of the first item of that account, or the length when there is none. */
  function IndexOf(items: seq<Item>, id: AccountId): (k: nat)
    ensures k <= |items|
    ensures k < |items| ==> items[k].accountId == id
    ensures forall i :: 0 <= i < k ==> items[i].accountId != id
  {
    if items == [] then 0
    else if items[0].accountId == id then 0
    else
      var k := IndexOf(items[1..], id);
      assert forall i :: 1 <= i < k + 1 ==> items[i] == items[1..][i - 1];
      k + 1
  }

  function SetItem(t: Task, k: nat, it: Item): Task
    requires k < |t.items|
  {
    Recalculate(t.(items := t.items[k := it]))
  }

  function MarkStarting(t: Task, id: AccountId): Task {
    var k := IndexOf(t.items, id);
    if k == |t.items| then t else SetItem(t, k, MarkStartingItem(t.items[k], t.stopMode))
  }

  /** The second locked phase: whether a session is created now. */
  predicate Admits(t: Task, id: AccountId) {
    var k := IndexOf(t.items, id);
    k < |t.items| && t.items[k].status == Starting && t.stopMode == NoStop
  }

  /** The second locked phase: the task after it. */
  function Admit(t: Task, id: AccountId): Task {
    var k := IndexOf(t.items, id);
    if k < |t.items| && t.items[k].status == Starting && t.stopMode != NoStop
    then SetItem(t, k, RefuseItem(t.items[k], t.stopMode))
    else t
  }

  function Record(t: Task, id: AccountId, result: StartResult): Task {
    var k := IndexOf(t.items, id);
    if k == |t.items| then t else SetItem(t, k, RecordItem(t.items[k], t.status, result))
  }

  /** The queued accounts of a round, in list order. */
  function RoundIds(items: seq<Item>, round: int): seq<AccountId> {
    if items == [] then []
    else RoundIds(items[..|items| - 1], round)
         + (var last := items[|items| - 1];
            if last.round == round && last.status == Queued then [last.accountId] else [])
  }
}
