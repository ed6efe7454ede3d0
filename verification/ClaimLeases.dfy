/** Leasing access tokens to outside consumers: the claim table under any interleaving of claim
    requests, expiry sweeps, releases and result reports. */
module ClaimLeases {
  import opened Common
  import opened IsoInstant
  import opened Text

  type ClaimId = string

  /** The states of a claim row; `Rejected` stands for every failed-precheck status. */
  datatype Status = Prechecking | Claimed | Processing | Paid | Failed | Released | LeaseExpired | Rejected | Duplicate

  predicate Active(s: Status) {
    s.Prechecking? || s.Claimed? || s.Processing?
  }

  datatype Row = Row(account: int, status: Status, lease: string)

  /** `held`: reserved rows whose precheck is still running in some request. `issued`: ids that passed
      the precheck, the only ones a consumer can know. `releasing`: ids for which a release request
      has read a status other than paid and has not written yet. */
  datatype Table = Table(rows: map<ClaimId, Row>, held: set<ClaimId>, issued: set<ClaimId>, releasing: set<ClaimId>)

  datatype Event =
    | Reserve(id: ClaimId, account: int)
    | PrecheckRejects(id: ClaimId)
    | PrecheckRepeats(id: ClaimId)
    | PrecheckPasses(id: ClaimId, until: Instant)
    | PrecheckInterrupted(id: ClaimId)
    | Sweep(now: Instant)
    | ReleaseRead(id: ClaimId)
    | ReleaseWrite(id: ClaimId)
    | Report(id: ClaimId, paid: bool)

  const EMPTY := Table(map[], {}, {}, {})

  // ---------------------------------------------------------------- steps

  predicate AccountBusy(rows: map<ClaimId, Row>, account: int) {
    exists id :: id in rows && rows[id].account == account && Active(rows[id].status)
  }

  /** When an event can happen: fresh ids are distinct, a precheck outcome belongs to the request that
      holds the row, and consumers name ids they were given. */
  predicate Enabled(t: Table, e: Event) {
    match e
    case Reserve(id, _) => id !in t.rows
    case PrecheckRejects(id) => id in t.held && id in t.rows
    case PrecheckRepeats(id) => id in t.held && id in t.rows
    case PrecheckPasses(id, until) => id in t.held && id in t.rows && Valid(until)
    case PrecheckInterrupted(id) => id in t.held && id in t.rows
    case Sweep(now) => Valid(now)
    case ReleaseRead(id) => id in t.issued && id in t.rows
    case ReleaseWrite(id) => id in t.releasing && id in t.rows
    case Report(id, _) => id in t.issued && id in t.rows
  }

  function Swept(r: Row, now: Instant): Row
    requires Valid(now)
  {
    if r.status.Claimed? && SweepSelects(r.lease, Iso(now)) then r.(status := LeaseExpired) else r
  }

  function SetStatus(t: Table, id: ClaimId, s: Status): Table
    requires id in t.rows
  {
    t.(rows := t.rows[id := t.rows[id].(status := s)])
  }

  function Step(t: Table, e: Event): Table
    requires Enabled(t, e)
  {
    match e
    case Reserve(id, account) =>
      if AccountBusy(t.rows, account) then t
      else t.(rows := t.rows[id := Row(account, Prechecking, "")], held := t.held + {id})
    case PrecheckRejects(id) => SetStatus(t, id, Rejected).(held := t.held - {id})
    case PrecheckRepeats(id) => SetStatus(t, id, Duplicate).(held := t.held - {id})
    case PrecheckPasses(id, until) =>
      t.(rows := t.rows[id := t.rows[id].(status := Claimed, lease := Iso(until))],
         held := t.held - {id}, issued := t.issued + {id})
    case PrecheckInterrupted(id) => t.(held := t.held - {id})
    case Sweep(now) => t.(rows := map id | id in t.rows :: Swept(t.rows[id], now))
    case ReleaseRead(id) => if t.rows[id].status.Paid? then t else t.(releasing := t.releasing + {id})
    case ReleaseWrite(id) => SetStatus(t, id, Released).(releasing := t.releasing - {id})
    case Report(id, paid) => SetStatus(t, id, if paid then Paid else Failed)
  }

  /** Events whose turn has not come are skipped, so every list of events is a run. */
  function Run(t: Table, es: seq<Event>): Table
    decreases |es|
  {
    if es == [] then t
    else Run(if Enabled(t, es[0]) then Step(t, es[0]) else t, es[1..])
  }

  ghost predicate Reachable(t: Table) {
    exists es: seq<Event> :: t == Run(EMPTY, es)
  }

  // ---------------------------------------------------------------- the invariant

  ghost predicate OneActivePerAccount(rows: map<ClaimId, Row>) {
    forall i, j :: i in rows && j in rows && i != j && Active(rows[i].status) && Active(rows[j].status) ==>
      rows[i].account != rows[j].account
  }

  ghost predicate LeaseWritten(r: Row) {
    r.status.Claimed? ==> exists until :: Valid(until) && r.lease == Iso(until)
  }

  ghost predicate Inv(t: Table) {
    && OneActivePerAccount(t.rows)
    && t.held <= t.rows.Keys && t.issued <= t.rows.Keys && t.releasing <= t.issued
    && t.held !! t.issued
    && (forall id :: id in t.held ==> t.rows[id].status.Prechecking?)
    && (forall id :: id in t.issued ==> !t.rows[id].status.Prechecking?)
    && (forall id :: id in t.rows ==> LeaseWritten(t.rows[id]))
  }

  lemma UpdateKeepsOneActive(rows: map<ClaimId, Row>, id: ClaimId, row: Row)
    requires OneActivePerAccount(rows)
    requires Active(row.status) ==> id in rows && Active(rows[id].status) && rows[id].account == row.account
    ensures OneActivePerAccount(rows[id := row])
  {
  }

  lemma SweepKeepsInv(t: Table, now: Instant)
    requires Inv(t) && Valid(now)
    ensures Inv(Step(t, Sweep(now)))
  {
    var u := Step(t, Sweep(now));
    forall id | id in u.rows
      ensures LeaseWritten(u.rows[id]) && u.rows[id].account == t.rows[id].account
      ensures Active(u.rows[id].status) ==> Active(t.rows[id].status)
      ensures u.rows[id].status.Prechecking? <==> t.rows[id].status.Prechecking?
    {
      assert LeaseWritten(t.rows[id]);
    }
  }

  /** The events that end the precheck of a held row. */
  lemma OutcomeKeepsInv(t: Table, e: Event)
    requires Inv(t) && Enabled(t, e)
    requires e.PrecheckPasses? || e.PrecheckRejects? || e.PrecheckRepeats? || e.PrecheckInterrupted?
    ensures Inv(Step(t, e))
  {
    match e
    case PrecheckPasses(id, until) =>
      UpdateKeepsOneActive(t.rows, id, t.rows[id].(status := Claimed, lease := Iso(until)));
      assert LeaseWritten(Step(t, e).rows[id]);
    case PrecheckRejects(id) => UpdateKeepsOneActive(t.rows, id, t.rows[id].(status := Rejected));
    case PrecheckRepeats(id) => UpdateKeepsOneActive(t.rows, id, t.rows[id].(status := Duplicate));
    case PrecheckInterrupted(id) =>
  }

  /** Every step keeps the invariant; in particular the unique index over active rows, which the
      database enforces, can only ever reject an insertion: no other write would break it. */
  lemma StepKeepsInv(t: Table, e: Event)
    requires Inv(t) && Enabled(t, e)
    ensures Inv(Step(t, e))
  {
    match e
    case Reserve(id, account) =>
    case Sweep(now) => SweepKeepsInv(t, now);
    case ReleaseRead(id) =>
    case ReleaseWrite(id) => UpdateKeepsOneActive(t.rows, id, t.rows[id].(status := Released));
    case Report(id, paid) =>
      UpdateKeepsOneActive(t.rows, id, t.rows[id].(status := if paid then Paid else Failed));
    case _ => OutcomeKeepsInv(t, e);
  }

  lemma {:induction false} RunKeepsInv(t: Table, es: seq<Event>)
    requires Inv(t)
    ensures Inv(Run(t, es))
    decreases |es|
  {
    if es != [] {
      if Enabled(t, es[0]) { StepKeepsInv(t, es[0]); }
      RunKeepsInv(if Enabled(t, es[0]) then Step(t, es[0]) else t, es[1..]);
    }
  }

  lemma ReachableInv(t: Table)
    requires Reachable(t)
    ensures Inv(t)
  {
    var es: seq<Event> :| t == Run(EMPTY, es);
    RunKeepsInv(EMPTY, es);
  }

  /** Lease exclusivity: whatever the interleaving, no account has two active claims. */
  lemma AtMostOneActiveClaim(t: Table, i: ClaimId, j: ClaimId)
    requires Reachable(t) && i in t.rows && j in t.rows
    ensures Active(t.rows[i].status) && Active(t.rows[j].status) && t.rows[i].account == t.rows[j].account ==> i == j
  {
    ReachableInv(t);
  }

  // ---------------------------------------------------------------- how a lease ends

  /** The events that end the lease on row `id`. */
  predicate Ends(t: Table, id: ClaimId, until: Instant, e: Event) {
    match e
    case Sweep(now) => Valid(now) && !Before(now, until)
    case ReleaseWrite(x) => x == id && id in t.releasing
    case Report(x, _) => x == id
    case _ => false
  }

  ghost predicate Leased(t: Table, id: ClaimId, until: Instant) {
    id in t.rows && Valid(until) && t.rows[id] == Row(t.rows[id].account, Claimed, Iso(until))
  }

  /** Exactly the sweep at or after its end, a release of it and a report on it end a lease; every
      other event leaves its row as it is. */
  lemma LeaseEndsIff(t: Table, id: ClaimId, until: Instant, e: Event)
    requires Inv(t) && Leased(t, id, until) && Enabled(t, e)
    ensures id in Step(t, e).rows
    ensures Ends(t, id, until, e) <==> !Step(t, e).rows[id].status.Claimed?
    ensures !Ends(t, id, until, e) ==> Leased(Step(t, e), id, until) && Step(t, e).rows[id] == t.rows[id]
    ensures e.Sweep? && !Before(e.now, until) ==> Step(t, e).rows[id] == t.rows[id].(status := LeaseExpired)
    ensures id in t.issued ==> id in Step(t, e).issued
  {
    if e.Sweep? {
      SweepAgreesWithReader(until, e.now);
      ParseUndoesIso(until);
    }
  }

  /** None of the events, taken in turn from `t`, ends the lease. */
  predicate NoneEnds(t: Table, id: ClaimId, until: Instant, es: seq<Event>)
    decreases |es|
  {
    es == [] ||
    (!(Enabled(t, es[0]) && Ends(t, id, until, es[0])) &&
     NoneEnds(if Enabled(t, es[0]) then Step(t, es[0]) else t, id, until, es[1..]))
  }

  predicate ClaimsOf(t: Table, account: int, id: ClaimId) {
    id in t.rows && t.rows[id].account == account
  }

  lemma {:induction false} BusyAccountGetsNoRow(t: Table, id: ClaimId, until: Instant, es: seq<Event>)
    requires Inv(t) && Leased(t, id, until) && NoneEnds(t, id, until, es)
    ensures Leased(Run(t, es), id, until) && Run(t, es).rows[id] == t.rows[id]
    ensures forall x :: ClaimsOf(Run(t, es), t.rows[id].account, x) <==> ClaimsOf(t, t.rows[id].account, x)
    decreases |es|
  {
    if es != [] {
      var e := es[0];
      var u := if Enabled(t, e) then Step(t, e) else t;
      if Enabled(t, e) {
        StepKeepsInv(t, e);
        LeaseEndsIff(t, id, until, e);
        assert AccountBusy(t.rows, t.rows[id].account);
        assert forall x :: ClaimsOf(u, t.rows[id].account, x) <==> ClaimsOf(t, t.rows[id].account, x);
      }
      BusyAccountGetsNoRow(u, id, until, es[1..]);
    }
  }

  /** A leased account stays with its holder: along every run in which nothing ends the lease, the row
      is unchanged, the account gets no further claim row, and no other row of it is active. */
  lemma LeaseHolds(t: Table, id: ClaimId, until: Instant, es: seq<Event>)
    requires Reachable(t) && Leased(t, id, until) && NoneEnds(t, id, until, es)
    ensures var u := Run(t, es); Leased(u, id, until) && u.rows[id] == t.rows[id]
    ensures forall x :: ClaimsOf(Run(t, es), t.rows[id].account, x) <==> ClaimsOf(t, t.rows[id].account, x)
    ensures forall x :: ClaimsOf(Run(t, es), t.rows[id].account, x) && x != id ==> !Active(Run(t, es).rows[x].status)
  {
    ReachableInv(t);
    BusyAccountGetsNoRow(t, id, until, es);
    RunKeepsInv(t, es);
  }

  // ---------------------------------------------------------------- claims do not come back

  lemma SpentStepStaysSpent(t: Table, id: ClaimId, e: Event)
    requires Inv(t) && Enabled(t, e) && id in t.rows && !Active(t.rows[id].status)
    ensures id in Step(t, e).rows && !Active(Step(t, e).rows[id].status)
    ensures Step(t, e).rows[id].account == t.rows[id].account && Step(t, e).rows[id].lease == t.rows[id].lease
  {
  }

  /** A claim that has left the active states never becomes active again: late releases and reports
      cannot take the account back from its next holder. */
  lemma {:induction false} SpentStaysSpent(t: Table, id: ClaimId, es: seq<Event>)
    requires Inv(t) && id in t.rows && !Active(t.rows[id].status)
    ensures id in Run(t, es).rows && !Active(Run(t, es).rows[id].status)
    ensures Run(t, es).rows[id].account == t.rows[id].account && Run(t, es).rows[id].lease == t.rows[id].lease
    decreases |es|
  {
    if es != [] {
      var e := es[0];
      if Enabled(t, e) {
        SpentStepStaysSpent(t, id, e);
        StepKeepsInv(t, e);
      }
      SpentStaysSpent(if Enabled(t, e) then Step(t, e) else t, id, es[1..]);
    }
  }

  /** Events by which a consumer changes the status of that claim. */
  predicate Speaks(e: Event, id: ClaimId) {
    e == ReleaseWrite(id) || e == Report(id, true) || e == Report(id, false)
  }

  lemma SilentStep(t: Table, id: ClaimId, e: Event)
    requires Inv(t) && Enabled(t, e) && id in t.rows && !Active(t.rows[id].status) && !Speaks(e, id)
    ensures id in Step(t, e).rows && Step(t, e).rows[id] == t.rows[id]
  {
  }

  /** A claim that is no longer active keeps its row until its consumer speaks of it again. */
  lemma {:induction false} SpentRowStays(t: Table, id: ClaimId, es: seq<Event>)
    requires Inv(t) && id in t.rows && !Active(t.rows[id].status)
    requires forall i :: 0 <= i < |es| ==> !Speaks(es[i], id)
    ensures id in Run(t, es).rows && Run(t, es).rows[id] == t.rows[id]
    decreases |es|
  {
    if es != [] {
      var e := es[0];
      if Enabled(t, e) {
        SilentStep(t, id, e);
        StepKeepsInv(t, e);
      }
      SpentRowStays(if Enabled(t, e) then Step(t, e) else t, id, es[1..]);
    }
  }

  /** The last word of a consumer stands: whatever else happens, a claim reported as paid is paid, one
      reported as failed is failed and a released one is released. */
  lemma LastWordStands(t: Table, id: ClaimId, e: Event, es: seq<Event>)
    requires Inv(t) && Enabled(t, e) && Speaks(e, id)
    requires forall i :: 0 <= i < |es| ==> !Speaks(es[i], id)
    ensures id in t.rows && id in Run(Step(t, e), es).rows
    ensures var row := Run(Step(t, e), es).rows[id];
      && row.account == t.rows[id].account && row.lease == t.rows[id].lease
      && (e == Report(id, true) ==> row.status == Paid)
      && (e == Report(id, false) ==> row.status == Failed)
      && (e == ReleaseWrite(id) ==> row.status == Released)
  {
    StepKeepsInv(t, e);
    SpentRowStays(Step(t, e), id, es);
  }

  lemma WithheldStep(t: Table, id: ClaimId, e: Event)
    requires Inv(t) && Enabled(t, e) && id in t.rows && id !in t.issued && id !in t.held && !Active(t.rows[id].status)
    ensures id !in Step(t, e).issued && id !in Step(t, e).held && !Speaks(e, id)
  {
  }

  lemma {:induction false} WithheldStays(t: Table, id: ClaimId, es: seq<Event>)
    requires Inv(t) && id in t.rows && id !in t.issued && id !in t.held && !Active(t.rows[id].status)
    ensures id in Run(t, es).rows && Run(t, es).rows[id] == t.rows[id]
    decreases |es|
  {
    if es != [] {
      var e := es[0];
      if Enabled(t, e) {
        WithheldStep(t, id, e);
        SilentStep(t, id, e);
        StepKeepsInv(t, e);
      }
      WithheldStays(if Enabled(t, e) then Step(t, e) else t, id, es[1..]);
    }
  }

  /** A claim whose precheck did not pass is settled for good: as rejected, or as a repetition; one whose
      precheck passed is claimed until the given time. */
  lemma PrecheckDecides(t: Table, id: ClaimId, until: Instant, es: seq<Event>)
    requires Inv(t) && id in t.held && Valid(until)
    ensures id in t.rows && id in Run(Step(t, PrecheckRejects(id)), es).rows && id in Run(Step(t, PrecheckRepeats(id)), es).rows
    ensures Run(Step(t, PrecheckRejects(id)), es).rows[id] == t.rows[id].(status := Rejected)
    ensures Run(Step(t, PrecheckRepeats(id)), es).rows[id] == t.rows[id].(status := Duplicate)
    ensures Step(t, PrecheckPasses(id, until)).rows[id] == Row(t.rows[id].account, Claimed, Iso(until))
  {
    StepKeepsInv(t, PrecheckRejects(id));
    StepKeepsInv(t, PrecheckRepeats(id));
    WithheldStays(Step(t, PrecheckRejects(id)), id, es);
    WithheldStays(Step(t, PrecheckRepeats(id)), id, es);
  }

  // ---------------------------------------------------------------- two results about what the steps do not do

  /** A row that is still in precheck and that no request holds any more. */
  predicate Orphan(t: Table, id: ClaimId) {
    id in t.rows && t.rows[id].status.Prechecking? && id !in t.held
  }

  lemma OrphanStep(t: Table, id: ClaimId, e: Event)
    requires Inv(t) && Orphan(t, id) && Enabled(t, e)
    ensures Orphan(Step(t, e), id) && Step(t, e).rows[id] == t.rows[id]
    ensures forall x :: ClaimsOf(Step(t, e), t.rows[id].account, x) <==> ClaimsOf(t, t.rows[id].account, x)
  {
    assert AccountBusy(t.rows, t.rows[id].account);
  }

  /** The sweep looks at claimed rows only. A row whose precheck was interrupted therefore blocks its
      account for good: no run of these steps ends it or leases the account again. */
  lemma {:induction false} OrphanBlocksForever(t: Table, id: ClaimId, es: seq<Event>)
    requires Inv(t) && Orphan(t, id)
    ensures Orphan(Run(t, es), id) && Run(t, es).rows[id] == t.rows[id]
    ensures forall x :: ClaimsOf(Run(t, es), t.rows[id].account, x) <==> ClaimsOf(t, t.rows[id].account, x)
    decreases |es|
  {
    if es != [] {
      var e := es[0];
      if Enabled(t, e) {
        OrphanStep(t, id, e);
        StepKeepsInv(t, e);
      }
      OrphanBlocksForever(if Enabled(t, e) then Step(t, e) else t, id, es[1..]);
    }
  }

  lemma OrphanedStep(t: Table, id: ClaimId, e: Event)
    requires Inv(t) && Enabled(t, e) && !Orphan(t, id)
    ensures Orphan(Step(t, e), id) <==> e == PrecheckInterrupted(id)
  {
  }

  /** Somewhere in the run the request holding the row was interrupted in its precheck. */
  predicate Interrupted(t: Table, id: ClaimId, es: seq<Event>)
    decreases |es|
  {
    es != [] &&
    ((es[0] == PrecheckInterrupted(id) && Enabled(t, es[0]))
     || Interrupted(if Enabled(t, es[0]) then Step(t, es[0]) else t, id, es[1..]))
  }

  /** Over whole runs: a row ends up in precheck with nobody to finish it exactly when its precheck was
      interrupted at some point, however long ago. */
  lemma {:induction false} OrphanedIffInterrupted(t: Table, id: ClaimId, es: seq<Event>)
    requires Inv(t) && !Orphan(t, id)
    ensures Orphan(Run(t, es), id) <==> Interrupted(t, id, es)
    decreases |es|
  {
    if es != [] {
      var e := es[0];
      var next := if Enabled(t, e) then Step(t, e) else t;
      if Enabled(t, e) {
        StepKeepsInv(t, e);
        OrphanedStep(t, id, e);
      }
      if Orphan(next, id) {
        OrphanBlocksForever(next, id, es[1..]);
      } else {
        OrphanedIffInterrupted(next, id, es[1..]);
      }
    }
  }

  /** A paid claim is turned into a released one exactly by a release that read the row before the
      payment was reported; one that reads the paid status writes nothing. */
  lemma PaymentOverwrittenIff(t: Table, id: ClaimId, e: Event)
    requires Inv(t) && Enabled(t, e) && id in t.rows && t.rows[id].status.Paid?
    ensures id in Step(t, e).rows
    ensures Step(t, e).rows[id].status.Released? <==> e == ReleaseWrite(id)
    ensures e == ReleaseWrite(id) ==> id in t.releasing
    ensures e == ReleaseRead(id) ==> Step(t, e) == t
  {
  }

  lemma RunStep(t: Table, e: Event, es: seq<Event>)
    requires Enabled(t, e)
    ensures Run(t, [e] + es) == Run(Step(t, e), es)
  {
    assert ([e] + es)[1..] == es;
  }

  /** An interruption does leave an orphan. */
  lemma OrphansExist(id: ClaimId, account: int)
    ensures Orphan(Run(EMPTY, [Reserve(id, account)] + [PrecheckInterrupted(id)]), id)
  {
    RunStep(EMPTY, Reserve(id, account), [PrecheckInterrupted(id)]);
    RunStep(Step(EMPTY, Reserve(id, account)), PrecheckInterrupted(id), []);
  }

  /** A payment reported between the two halves of a release does end as released. */
  lemma LostPaymentsExist(id: ClaimId, account: int, until: Instant)
    requires Valid(until)
    ensures Run(EMPTY, [Reserve(id, account)] + ([PrecheckPasses(id, until)] + ([ReleaseRead(id)]
                  + ([Report(id, true)] + [ReleaseWrite(id)])))).rows == map[id := Row(account, Released, Iso(until))]
  {
    var t1 := Step(EMPTY, Reserve(id, account));
    var t2 := Step(t1, PrecheckPasses(id, until));
    var t3 := Step(t2, ReleaseRead(id));
    var t4 := Step(t3, Report(id, true));
    RunStep(EMPTY, Reserve(id, account), [PrecheckPasses(id, until)] + ([ReleaseRead(id)] + ([Report(id, true)] + [ReleaseWrite(id)])));
    RunStep(t1, PrecheckPasses(id, until), [ReleaseRead(id)] + ([Report(id, true)] + [ReleaseWrite(id)]));
    RunStep(t2, ReleaseRead(id), [Report(id, true)] + [ReleaseWrite(id)]);
    RunStep(t3, Report(id, true), [ReleaseWrite(id)]);
    RunStep(t4, ReleaseWrite(id), []);
  }

  // ---------------------------------------------------------------- the table in place

  datatype Outcome = Rejects | Repeats | Passes(until: Instant) | Interrupts

  function Finished(id: ClaimId, o: Outcome): Event {
    match o
    case Rejects => PrecheckRejects(id)
    case Repeats => PrecheckRepeats(id)
    case Passes(until) => PrecheckPasses(id, until)
    case Interrupts => PrecheckInterrupted(id)
  }

  datatype ReportError = UnknownClaim | UnknownStatus

  /** What a reported status word means: paid, failed, or nothing. */
  function ReportedPaid(word: string): Option<bool> {
    var w := Lower(Strip(word));
    if w in {"success", "succeeded", "paid", "subscribed"} then Some(true)
    else if w in {"failed", "fail", "error", "cancelled", "canceled"} then Some(false)
    else None
  }

  /** The claim table; `held`, `issued` and `releasing` record how far the requests have come. */
  class ClaimTable {
    var rows: map<ClaimId, Row>
    ghost var held: set<ClaimId>
    ghost var issued: set<ClaimId>
    ghost var releasing: set<ClaimId>

    ghost function Value(): Table
      reads this
    {
      Table(rows, held, issued, releasing)
    }

    constructor ()
      ensures Value() == EMPTY
    {
      rows := map[];
      held, issued, releasing := {}, {}, {};
    }

    /** Insert a reservation unless the account already has an active claim. */
    method Reserve(id: ClaimId, account: int) returns (inserted: bool)
      requires id !in rows
      modifies this
      ensures Value() == Step(old(Value()), Event.Reserve(id, account))
      ensures inserted <==> !AccountBusy(old(rows), account)
      ensures inserted <==> id in rows
    {
      inserted := true;
      var todo := rows.Keys;
      while todo != {}
        invariant todo <= rows.Keys
        invariant inserted <==> forall x :: x in rows.Keys - todo ==> !(rows[x].account == account && Active(rows[x].status))
        decreases |todo|
      {
        var x :| x in todo;
        if rows[x].account == account && Active(rows[x].status) {
          inserted := false;
        }
        todo := todo - {x};
      }
      assert rows.Keys - todo == rows.Keys;
      if inserted {
        rows := rows[id := Row(account, Prechecking, "")];
        held := held + {id};
      }
    }

    method FinishPrecheck(id: ClaimId, outcome: Outcome)
      requires id in held && id in rows && (outcome.Passes? ==> Valid(outcome.until))
      modifies this
      ensures Value() == Step(old(Value()), Finished(id, outcome))
    {
      match outcome {
        case Rejects => rows := rows[id := rows[id].(status := Rejected)];
        case Repeats => rows := rows[id := rows[id].(status := Duplicate)];
        case Passes(until) =>
          rows := rows[id := rows[id].(status := Claimed, lease := Iso(until))];
          issued := issued + {id};
        case Interrupts =>
      }
      held := held - {id};
    }

    /** One statement over the whole table; the result is the number of rows it changed. */
    method ExpireStaleClaims(now: Instant) returns (count: nat)
      requires Valid(now)
      modifies this
      ensures Value() == Step(old(Value()), Sweep(now))
      ensures count == |set id | id in rows && rows[id] != old(rows)[id]|
      ensures forall id :: id in rows && rows[id].status.Claimed? ==> !SweepSelects(rows[id].lease, Iso(now))
    {
      var stale := set id | id in rows && rows[id].status.Claimed? && SweepSelects(rows[id].lease, Iso(now));
      ghost var before := rows;
      rows := map id | id in rows :: if id in stale then rows[id].(status := LeaseExpired) else rows[id];
      count := |stale|;
      assert stale == set id | id in rows && rows[id] != before[id];
    }

    /** Release a claim; a paid one is left alone. */
    method Release(id: ClaimId) returns (released: Result<bool, ReportError>)
      modifies this
      ensures id !in old(rows) ==> released == Err(UnknownClaim) && Value() == old(Value())
      ensures id in old(rows) && old(rows)[id].status.Paid? ==> released == Ok(false) && Value() == old(Value())
      ensures id in old(rows) && !old(rows)[id].status.Paid? ==>
        released == Ok(true)
        && Value() == SetStatus(old(Value()), id, Released).(releasing := old(releasing) - {id})
        && (id in issued ==> Value() == Step(Step(old(Value()), ReleaseRead(id)), ReleaseWrite(id)))
    {
      if id !in rows {
        return Err(UnknownClaim);
      }
      if rows[id].status.Paid? {
        return Ok(false);
      }
      rows := rows[id := rows[id].(status := Released)];
      releasing := releasing - {id};
      assert old(releasing) + {id} - {id} == releasing;
      released := Ok(true);
    }

    /** Record a payment result; an unreadable status word changes nothing. */
    method WriteResult(id: ClaimId, word: string) returns (paid: Result<bool, ReportError>)
      modifies this
      ensures id !in old(rows) ==> paid == Err(UnknownClaim)
      ensures id in old(rows) && ReportedPaid(word).None? ==> paid == Err(UnknownStatus)
      ensures id in old(rows) ==>
        paid == match Lower(Strip(word))
                case "success" => Ok(true)
                case "succeeded" => Ok(true)
                case "paid" => Ok(true)
                case "subscribed" => Ok(true)
                case "failed" => Ok(false)
                case "fail" => Ok(false)
                case "error" => Ok(false)
                case "cancelled" => Ok(false)
                case "canceled" => Ok(false)
                case _ => Err(UnknownStatus)
      ensures paid.Err? ==> Value() == old(Value())
      ensures id in old(rows) && ReportedPaid(word).Some? ==>
        var p := ReportedPaid(word).value;
        paid == Ok(p) && Value() == SetStatus(old(Value()), id, if p then Paid else Failed)
        && (id in issued ==> Value() == Step(old(Value()), Report(id, p)))
    {
      if id !in rows {
        return Err(UnknownClaim);
      }
      var meaning := ReportedPaid(word);
      if meaning.None? {
        return Err(UnknownStatus);
      }
      rows := rows[id := rows[id].(status := if meaning.value then Paid else Failed)];
      paid := Ok(meaning.value);
    }
  }
}
