/** Every run of a batch: one worker, its start threads, and stop requests landing between
    their atomic sections. An event carries all outside choices, so a run is a list of events. */
module GopayBatchRuns {
  import opened Common
  import opened GopayBatch

  /** Where a start thread stands between its locked phases. */
  datatype Launch = Spawned | Marked | Created(result: StartResult) | Finished

  /** Where the worker stands between its atomic sections. */
  datatype Worker =
    | Asleep
    | Awake
    | Choosing(round: int)
    | Launching(pending: seq<AccountId>, heedStop: bool)
    | Exited

  /** `admissions` logs created sessions in order; `spent` collects every key ever consumed. */
  datatype World = World(task: Task, worker: Worker, threads: map<AccountId, Launch>,
                         admissions: seq<AccountId>, spent: set<string>)

  datatype Event =
    | Wake
    | DecideNow(answers: map<AccountId, Answer>, now: real)
    | BeginRound
    | Spawn
    | Join
    | Mark(id: AccountId)
    | AdmitNow(id: AccountId, result: StartResult)
    | RecordNow(id: AccountId)
    | RequestStop(mode: StopMode)

  function AfterVerdict(v: Verdict): Worker {
    match v
    case Sleep => Asleep
    case Exit => Exited
    case LaunchPromoted(ids) => Launching(ids, false)
    case LaunchRound(r) => Choosing(r)
  }

  function WakeStep(w: World): World {
    if !w.worker.Asleep? then w
    else if !IsTaskActive(w.task.status) then w.(worker := Exited)
    else w.(worker := Awake, task := Awoken(w.task))
  }

  function DecideStep(w: World, answers: map<AccountId, Answer>, now: real): World {
    if !w.worker.Awake? then w
    else
      var (t, v) := Decide(w.task, answers, now);
      w.(task := t, worker := AfterVerdict(v))
  }

  function BeginRoundStep(w: World): World {
    if !w.worker.Choosing? then w
    else if w.task.stopMode != NoStop then w.(worker := Asleep)
    else w.(worker := Launching(RoundIds(w.task.items, w.worker.round), true))
  }

  function SpawnStep(w: World): World {
    if !w.worker.Launching? || w.worker.pending == [] then w
    else if w.worker.heedStop && w.task.stopMode != NoStop then w.(worker := Launching([], true))
    else w.(threads := w.threads[w.worker.pending[0] := Spawned],
            worker := w.worker.(pending := w.worker.pending[1..]))
  }

  function JoinStep(w: World): World {
    if w.worker.Launching? && w.worker.pending == [] && (forall id :: id in w.threads ==> w.threads[id].Finished?)
    then w.(worker := Asleep, threads := map[])
    else w
  }

  function MarkStep(w: World, id: AccountId): World {
    if id !in w.threads || !w.threads[id].Spawned? then w
    else w.(task := MarkStarting(w.task, id), threads := w.threads[id := Marked])
  }

  function AdmitStep(w: World, id: AccountId, result: StartResult): World {
    if id !in w.threads || !w.threads[id].Marked? then w
    else if Admits(w.task, id) then
      w.(threads := w.threads[id := Created(result)], admissions := w.admissions + [id])
    else w.(task := Admit(w.task, id), threads := w.threads[id := Finished])
  }

  function RecordStep(w: World, id: AccountId): World {
    if id !in w.threads || !w.threads[id].Created? then w
    else w.(task := Record(w.task, id, w.threads[id].result), threads := w.threads[id := Finished])
  }

  function StopStep(w: World, mode: StopMode): World {
    w.(task := RequestedStop(w.task, mode))
  }

  function Move(w: World, e: Event): World {
    match e
    case Wake => WakeStep(w)
    case DecideNow(answers, now) => DecideStep(w, answers, now)
    case BeginRound => BeginRoundStep(w)
    case Spawn => SpawnStep(w)
    case Join => JoinStep(w)
    case Mark(id) => MarkStep(w, id)
    case AdmitNow(id, result) => AdmitStep(w, id, result)
    case RecordNow(id) => RecordStep(w, id)
    case RequestStop(mode) => StopStep(w, mode)
  }

  function Step(w: World, e: Event): World {
    var n := Move(w, e);
    n.(spent := n.spent + ConsumedKeys(n.task.items))
  }

  function Run(w: World, events: seq<Event>): World {
    if events == [] then w else Step(Run(w, events[..|events| - 1]), events[|events| - 1])
  }

  lemma RunOne(w: World, e: Event)
    ensures Run(w, [e]) == Step(w, e)
  {
    assert [e][..0] == [];
    assert Run(w, []) == w;
  }

  lemma RunTwo(w: World, e: Event, f: Event)
    ensures Run(w, [e, f]) == Step(Step(w, e), f)
  {
    assert [e, f][..1] == [e];
    RunOne(w, e);
  }

  lemma {:induction false} RunAfter(w: World, a: seq<Event>, b: seq<Event>)
    ensures Run(w, a + b) == Run(Run(w, a), b)
  {
    if b == [] {
      assert a + b == a;
    } else {
      var front := b[..|b| - 1];
      assert (a + b)[..|a + b| - 1] == a + front;
      RunAfter(w, a, front);
    }
  }

  lemma RunFour(w: World, a: Event, b: Event, c: Event, d: Event)
    ensures Run(w, [a, b, c, d]) == Step(Step(Step(Step(w, a), b), c), d)
  {
    assert [a, b, c, d] == [a, b] + [c, d];
    RunAfter(w, [a, b], [c, d]);
    RunTwo(w, a, b);
    RunTwo(Step(Step(w, a), b), c, d);
  }
}
