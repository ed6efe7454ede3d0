/** Administrator sessions: tokens with a fixed absolute deadline, server rows with a sliding idle
    deadline, renewal split into a read and a guarded update, and concurrent revocation. */
module AdminSessions {
  import opened Common

  /** Session ids. */
  type Jti = string

  datatype Row = Row(version: int, issuedAt: int, lastSeenAt: int, expiresAt: int, absoluteExpiresAt: int,
                     revokedAt: int, clientIp: string)

  /** The claims a signed token carries. */
  datatype Claims = Claims(jti: Jti, version: int, issuedAt: int, expiresAt: int)

  /** Idle window, renewal interval and absolute lifetime, in seconds. */
  datatype Timeouts = Timeouts(idle: int, renew: int, absolute: int)

  const ACTIVITY_INTERVAL := 300
  const MAX_ABSOLUTE := 2592000

  ghost predicate ValidTimeouts(t: Timeouts) {
    300 <= t.idle <= 604800 && 60 <= t.renew <= t.idle && t.idle <= t.absolute <= MAX_ABSOLUTE
  }

  /** The configured timeouts, each forced into its range; the absolute one never undercuts idleness. */
  function SessionTimeouts(idle: Option<int>, renew: Option<int>, absolute: Option<int>): (t: Timeouts)
    ensures ValidTimeouts(t)
    ensures t.idle == Clamped(idle, 43200, 300, 604800) && t.renew == Clamped(renew, 3600, 60, t.idle)
    ensures t.absolute == Clamped(absolute, 604800, t.idle, 2592000)
  {
    var i := BoundedInteger(idle, 43200, 300, 604800);
    Timeouts(i, BoundedInteger(renew, 3600, 60, i), Max(i, BoundedInteger(absolute, 604800, i, MAX_ABSOLUTE)))
  }

  // ---------------------------------------------------------------- issuing and checking

  function FreshRow(version: int, now: int, t: Timeouts, clientIp: string): Row {
    Row(version, now, now, Min(now + t.idle, now + t.absolute), now + t.absolute, 0, clientIp)
  }

  function FreshClaims(jti: Jti, version: int, now: int, t: Timeouts): Claims {
    Claims(jti, version, now, now + t.absolute)
  }

  predicate ClaimsAcceptable(c: Claims, current: int, now: int) {
    && c.issuedAt <= now + 60
    && c.expiresAt > now
    && c.expiresAt > c.issuedAt
    && c.expiresAt - c.issuedAt <= MAX_ABSOLUTE
    && c.version == current
  }

  predicate RowAcceptable(c: Claims, r: Row, now: int) {
    && r.version == c.version
    && r.issuedAt == c.issuedAt
    && r.absoluteExpiresAt == c.expiresAt
    && r.revokedAt == 0
    && r.expiresAt > now
    && r.absoluteExpiresAt > now
    && r.expiresAt <= r.absoluteExpiresAt
  }

  /** A token just issued passes its own check until its idle deadline. */
  lemma FreshTokenVerifies(jti: Jti, version: int, now: int, later: int, t: Timeouts, clientIp: string)
    requires ValidTimeouts(t) && now - 60 <= later
    ensures var c, r := FreshClaims(jti, version, now, t), FreshRow(version, now, t, clientIp);
            ClaimsAcceptable(c, version, later) && RowAcceptable(c, r, later) <==> later < now + t.idle
  {
  }

  // ---------------------------------------------------------------- the guarded update

  /** What a successful read plans to write: activity, renewal, either or both. */
  datatype Renewal = Renewal(seenGuard: Option<int>, newExpiry: Option<int>, now: int,
                             version: int, absoluteExpiresAt: int, clientIp: string)

  function PlanRenewal(c: Claims, r: Row, now: int, t: Timeouts, clientIp: string): Option<Renewal> {
    var activityDue := r.lastSeenAt <= now - ACTIVITY_INTERVAL;
    var newExpiry := Min(now + t.idle, r.absoluteExpiresAt);
    var extend := r.expiresAt <= now + t.idle - t.renew && newExpiry > r.expiresAt;
    if !activityDue && !extend then None
    else Some(Renewal(if activityDue then Some(r.lastSeenAt) else None,
                      if extend then Some(newExpiry) else None,
                      now, c.version, c.expiresAt, clientIp))
  }

  predicate GuardHolds(p: Renewal, r: Row) {
    && r.version == p.version
    && r.revokedAt == 0
    && r.expiresAt > p.now
    && r.absoluteExpiresAt == p.absoluteExpiresAt
    && r.absoluteExpiresAt > p.now
    && (p.seenGuard.Some? ==> r.lastSeenAt == p.seenGuard.value)
  }

  function Renew(p: Renewal, r: Row): Row {
    if !GuardHolds(p, r) then r
    else
      var seen := if p.seenGuard.Some? then r.(lastSeenAt := p.now, clientIp := p.clientIp) else r;
      if p.newExpiry.Some? && r.expiresAt < p.newExpiry.value then seen.(expiresAt := p.newExpiry.value) else seen
  }

  // ---------------------------------------------------------------- undisturbed use

  /** One undisturbed check: the read and, when one is due, its update. */
  function Check(c: Claims, r: Row, now: int, t: Timeouts, clientIp: string): Option<Row> {
    if !RowAcceptable(c, r, now) then None
    else
      var plan := PlanRenewal(c, r, now, t, clientIp);
      Some(if plan.Some? then Renew(plan.value, r) else r)
  }

  /** Checks at the given times; none once one of them was refused. */
  function Checks(c: Claims, r: Row, times: seq<int>, t: Timeouts, clientIp: string): Option<Row> {
    if times == [] then Some(r)
    else
      var before := Checks(c, r, times[..|times| - 1], t, clientIp);
      if before.None? then None else Check(c, before.value, times[|times| - 1], t, clientIp)
  }

  function LastUse(issued: int, times: seq<int>): int {
    if times == [] then issued else times[|times| - 1]
  }

  ghost predicate Forward(issued: int, times: seq<int>) {
    times != [] ==> Forward(issued, times[..|times| - 1]) && LastUse(issued, times[..|times| - 1]) <= LastUse(issued, times)
  }

  /** No pause between two uses is longer than the idle window less the renewal interval. */
  ghost predicate Regular(issued: int, times: seq<int>, t: Timeouts) {
    times != [] ==>
      && Regular(issued, times[..|times| - 1], t)
      && LastUse(issued, times[..|times| - 1]) <= LastUse(issued, times)
      && LastUse(issued, times) <= LastUse(issued, times[..|times| - 1]) + t.idle - t.renew
  }

  /** The row of a live session whose last use was at `last`. */
  ghost predicate LiveRow(c: Claims, r: Row, last: int, t: Timeouts) {
    && r.version == c.version && r.issuedAt == c.issuedAt && r.absoluteExpiresAt == c.expiresAt && r.revokedAt == 0
    && r.expiresAt <= r.absoluteExpiresAt && r.expiresAt <= last + t.idle
    && (r.expiresAt > last + t.idle - t.renew || r.expiresAt == r.absoluteExpiresAt)
  }

  /** An accepted check never lowers the deadline, keeps it under the absolute one, and leaves at
      least the idle window less the renewal interval, or all that the absolute deadline allows. */
  lemma CheckExtends(c: Claims, r: Row, last: int, now: int, t: Timeouts, clientIp: string)
    requires ValidTimeouts(t) && LiveRow(c, r, last, t) && last <= now
    ensures var n := Check(c, r, now, t, clientIp);
            && (n.Some? <==> now < r.expiresAt)
            && (n.Some? ==> r.expiresAt <= n.value.expiresAt && LiveRow(c, n.value, now, t))
  {
  }

  /** An accepted check notes its time and address when the last note is five minutes old, and only then. */
  lemma ActivityIsNoted(c: Claims, r: Row, now: int, t: Timeouts, clientIp: string)
    requires RowAcceptable(c, r, now)
    ensures var n := Check(c, r, now, t, clientIp);
      && n.Some?
      && (if r.lastSeenAt + 300 <= now then n.value.lastSeenAt == now && n.value.clientIp == clientIp
          else n.value.lastSeenAt == r.lastSeenAt && n.value.clientIp == r.clientIp)
  {
  }

  lemma {:induction false} ChecksKeepLive(c: Claims, r: Row, issued: int, times: seq<int>, t: Timeouts, clientIp: string)
    requires ValidTimeouts(t) && LiveRow(c, r, issued, t) && Forward(issued, times)
    ensures var n := Checks(c, r, times, t, clientIp);
            n.Some? ==> LiveRow(c, n.value, LastUse(issued, times), t)
  {
    if times != [] {
      var front := times[..|times| - 1];
      ChecksKeepLive(c, r, issued, front, t, clientIp);
      var before := Checks(c, r, front, t, clientIp);
      if before.Some? {
        CheckExtends(c, before.value, LastUse(issued, front), LastUse(issued, times), t, clientIp);
      }
    }
  }

  /** A session in regular use is accepted at every check until its absolute deadline. */
  lemma {:induction false} RegularUseKeepsAlive(jti: Jti, version: int, now: int, times: seq<int>, t: Timeouts,
                                                clientIp: string)
    requires ValidTimeouts(t) && Regular(now, times, t) && LastUse(now, times) < now + t.absolute
    ensures Forward(now, times)
    ensures Checks(FreshClaims(jti, version, now, t), FreshRow(version, now, t, clientIp), times, t, clientIp).Some?
  {
    if times != [] {
      var c, r := FreshClaims(jti, version, now, t), FreshRow(version, now, t, clientIp);
      var front := times[..|times| - 1];
      RegularUseKeepsAlive(jti, version, now, front, t, clientIp);
      ChecksKeepLive(c, r, now, front, t, clientIp);
      var row := Checks(c, r, front, t, clientIp).value;
      CheckExtends(c, row, LastUse(now, front), LastUse(now, times), t, clientIp);
      ChecksKeepAbsolute(c, r, front, t, clientIp);
    }
  }

  lemma {:induction false} ChecksKeepAbsolute(c: Claims, r: Row, times: seq<int>, t: Timeouts, clientIp: string)
    ensures var n := Checks(c, r, times, t, clientIp);
            n.Some? ==> n.value.absoluteExpiresAt == r.absoluteExpiresAt
  {
    if times != [] {
      ChecksKeepAbsolute(c, r, times[..|times| - 1], t, clientIp);
    }
  }

  /** However it was used before: after a pause of the idle window, or at the absolute deadline, a
      session is refused. */
  lemma PauseEndsSession(jti: Jti, version: int, now: int, times: seq<int>, next: int, t: Timeouts, clientIp: string)
    requires ValidTimeouts(t) && Forward(now, times)
    requires next >= LastUse(now, times) + t.idle || next >= now + t.absolute
    ensures Checks(FreshClaims(jti, version, now, t), FreshRow(version, now, t, clientIp), times + [next], t, clientIp)
            == None
  {
    var c, r := FreshClaims(jti, version, now, t), FreshRow(version, now, t, clientIp);
    assert (times + [next])[..|times|] == times;
    ChecksKeepLive(c, r, now, times, t, clientIp);
    ChecksKeepAbsolute(c, r, times, t, clientIp);
  }

  // ---------------------------------------------------------------- the store and its interleavings

  /** A request between its steps: the version check, the read, the guarded update. */
  datatype Verifier =
    | Checked(claims: Claims, now: int, timeouts: Timeouts, clientIp: string)
    | Updating(jti: Jti, plan: Renewal)
    | Accepted
    | Rejected

  /** A revocation that has read its row as unrevoked and is about to write. */
  datatype Revoker = Revoker(jti: Jti, at: int)

  /** A login that has read the credential version and is about to insert its session. */
  datatype Issuer = Issuer(jti: Jti, version: int, now: int, timeouts: Timeouts, clientIp: string)

  /** `drawn` are the ids ever handed to an issuer, `stored` those whose row was ever inserted. */
  datatype Store = Store(version: int, rows: map<Jti, Row>, verifiers: map<nat, Verifier>,
                         revokers: map<nat, Revoker>, issuers: map<nat, Issuer>,
                         drawn: set<Jti>, stored: set<Jti>)

  datatype Event =
    | BeginIssue(who: nat, jti: Jti, now: int, timeouts: Timeouts, clientIp: string)
    | EndIssue(who: nat)
    | CheckClaims(who: nat, claims: Claims, now: int, timeouts: Timeouts, clientIp: string)
    | ReadRow(who: nat)
    | WriteBack(who: nat)
    | BeginRevoke(who: nat, jti: Jti, now: int)
    | EndRevoke(who: nat)
    | BumpVersion
    | RevokeAll(now: int)
    | Prune(before: int)

  function RevokeRow(r: Row, now: int): Row {
    if r.revokedAt == 0 then r.(revokedAt := now) else r
  }

  function RevokeRows(rows: map<Jti, Row>, now: int): map<Jti, Row> {
    map jti | jti in rows :: RevokeRow(rows[jti], now)
  }

  function Pruned(rows: map<Jti, Row>, before: int): map<Jti, Row> {
    map jti | jti in rows && rows[jti].expiresAt >= before :: rows[jti]
  }

  function Step(s: Store, e: Event): Store {
    match e
    case BeginIssue(who, jti, now, timeouts, ip) =>
      s.(issuers := s.issuers[who := Issuer(jti, s.version, now, timeouts, ip)], drawn := s.drawn + {jti})
    case EndIssue(who) =>
      if who !in s.issuers then s
      else
        var i := s.issuers[who];
        s.(rows := s.rows[i.jti := FreshRow(i.version, i.now, i.timeouts, i.clientIp)],
           issuers := s.issuers - {who}, stored := s.stored + {i.jti})
    case CheckClaims(who, claims, now, timeouts, ip) =>
      s.(verifiers := s.verifiers[who := if ClaimsAcceptable(claims, s.version, now)
                                         then Checked(claims, now, timeouts, ip) else Rejected])
    case ReadRow(who) =>
      if who !in s.verifiers || !s.verifiers[who].Checked? then s
      else
        var v := s.verifiers[who];
        if v.claims.jti !in s.rows || !RowAcceptable(v.claims, s.rows[v.claims.jti], v.now)
        then s.(verifiers := s.verifiers[who := Rejected])
        else
          var plan := PlanRenewal(v.claims, s.rows[v.claims.jti], v.now, v.timeouts, v.clientIp);
          s.(verifiers := s.verifiers[who := if plan.Some? then Updating(v.claims.jti, plan.value) else Accepted])
    case WriteBack(who) =>
      if who !in s.verifiers || !s.verifiers[who].Updating? then s
      else
        var v := s.verifiers[who];
        s.(rows := if v.jti in s.rows then s.rows[v.jti := Renew(v.plan, s.rows[v.jti])] else s.rows,
           verifiers := s.verifiers[who := Accepted])
    case BeginRevoke(who, jti, now) =>
      if jti in s.rows && s.rows[jti].revokedAt == 0
      then s.(revokers := s.revokers[who := Revoker(jti, now)])
      else s
    case EndRevoke(who) =>
      if who !in s.revokers then s
      else
        var v := s.revokers[who];
        s.(rows := if v.jti in s.rows then s.rows[v.jti := s.rows[v.jti].(revokedAt := v.at)] else s.rows,
           revokers := s.revokers - {who})
    case BumpVersion => s.(version := s.version + 1)
    case RevokeAll(now) => s.(rows := RevokeRows(s.rows, now))
    case Prune(before) => s.(rows := Pruned(s.rows, before))
  }

  function Run(s: Store, events: seq<Event>): Store {
    if events == [] then s else Step(Run(s, events[..|events| - 1]), events[|events| - 1])
  }

  /** Clocks are past the epoch, timeouts are the clamped ones, ids are drawn once, every request has
      its own number, and a signed token exists only once its row has been stored. */
  ghost predicate Legal(s: Store, e: Event) {
    match e
    case BeginIssue(who, jti, now, timeouts, _) =>
      ValidTimeouts(timeouts) && now > 0 && jti !in s.drawn && who !in s.issuers
    case CheckClaims(who, claims, now, timeouts, _) =>
      now > 0 && ValidTimeouts(timeouts) && who !in s.verifiers && claims.jti in s.stored
    case BeginRevoke(who, _, now) => now > 0 && who !in s.revokers
    case RevokeAll(now) => now > 0
    case _ => true
  }

  ghost predicate AllLegal(s: Store, events: seq<Event>) {
    events == [] ||
    (AllLegal(s, events[..|events| - 1]) && Legal(Run(s, events[..|events| - 1]), events[|events| - 1]))
  }

  // ---------------------------------------------------------------- invariant

  ghost predicate PlanSound(p: Renewal) {
    && (p.seenGuard.Some? ==> p.seenGuard.value <= p.now - ACTIVITY_INTERVAL)
    && (p.newExpiry.Some? ==> p.newExpiry.value <= p.absoluteExpiresAt)
  }

  ghost predicate Inv(s: Store) {
    && s.rows.Keys <= s.stored <= s.drawn
    && (forall jti :: jti in s.rows ==> s.rows[jti].expiresAt <= s.rows[jti].absoluteExpiresAt)
    && (forall w :: w in s.issuers ==>
          s.issuers[w].jti in s.drawn && s.issuers[w].jti !in s.stored && ValidTimeouts(s.issuers[w].timeouts))
    && (forall w, x :: w in s.issuers && x in s.issuers && w != x ==> s.issuers[w].jti != s.issuers[x].jti)
    && (forall w :: w in s.verifiers && s.verifiers[w].Updating? ==> PlanSound(s.verifiers[w].plan))
    && (forall w :: w in s.verifiers && s.verifiers[w].Checked? ==> s.verifiers[w].claims.jti in s.stored)
    && (forall w :: w in s.revokers ==> s.revokers[w].at > 0)
  }

  ghost predicate Empty(s: Store) {
    s.rows == map[] && s.verifiers == map[] && s.revokers == map[] && s.issuers == map[]
    && s.drawn == {} == s.stored
  }

  /** What any event may do to a row that stays: deadlines and activity only move forward, the
      absolute deadline and the version are fixed, a revocation is final. */
  ghost predicate RowMoves(a: Row, b: Row) {
    && b.version == a.version && b.issuedAt == a.issuedAt && b.absoluteExpiresAt == a.absoluteExpiresAt
    && a.expiresAt <= b.expiresAt <= Max(a.expiresAt, a.absoluteExpiresAt)
    && (b.lastSeenAt == a.lastSeenAt || b.lastSeenAt >= a.lastSeenAt + ACTIVITY_INTERVAL)
    && (a.revokedAt != 0 ==> b.revokedAt != 0 && b.expiresAt == a.expiresAt && b.lastSeenAt == a.lastSeenAt)
  }

  lemma RenewMoves(p: Renewal, r: Row)
    requires PlanSound(p)
    ensures RowMoves(r, Renew(p, r))
  {
  }

  lemma StepMovesRows(s: Store, e: Event)
    requires Inv(s) && Legal(s, e)
    ensures forall jti :: jti in s.rows && jti in Step(s, e).rows ==> RowMoves(s.rows[jti], Step(s, e).rows[jti])
    ensures forall jti :: jti in s.stored && jti !in s.rows ==> jti !in Step(s, e).rows
  {
    if e.WriteBack? && e.who in s.verifiers && s.verifiers[e.who].Updating? {
      var v := s.verifiers[e.who];
      if v.jti in s.rows {
        RenewMoves(v.plan, s.rows[v.jti]);
      }
    }
  }

  lemma ReadKeepsInv(s: Store, who: nat)
    requires Inv(s)
    ensures Inv(Step(s, ReadRow(who)))
  {
    if who in s.verifiers && s.verifiers[who].Checked? {
      var v := s.verifiers[who];
      if v.claims.jti in s.rows && RowAcceptable(v.claims, s.rows[v.claims.jti], v.now) {
        var plan := PlanRenewal(v.claims, s.rows[v.claims.jti], v.now, v.timeouts, v.clientIp);
        assert plan.Some? ==> PlanSound(plan.value);
      }
    }
  }

  lemma IssueKeepsInv(s: Store, e: Event)
    requires Inv(s) && Legal(s, e) && (e.BeginIssue? || e.EndIssue?)
    ensures Inv(Step(s, e))
  {
  }

  lemma RowsKeepInv(s: Store, e: Event)
    requires Inv(s) && Legal(s, e) && (e.WriteBack? || e.EndRevoke? || e.RevokeAll? || e.Prune?)
    ensures Inv(Step(s, e))
  {
    StepMovesRows(s, e);
  }

  lemma StepKeepsInv(s: Store, e: Event)
    requires Inv(s) && Legal(s, e)
    ensures Inv(Step(s, e))
  {
    match e
    case BeginIssue(_, _, _, _, _) => IssueKeepsInv(s, e);
    case EndIssue(_) => IssueKeepsInv(s, e);
    case ReadRow(who) => ReadKeepsInv(s, who);
    case WriteBack(_) => RowsKeepInv(s, e);
    case EndRevoke(_) => RowsKeepInv(s, e);
    case RevokeAll(_) => RowsKeepInv(s, e);
    case Prune(_) => RowsKeepInv(s, e);
    case _ =>
  }

  lemma {:induction false} RunKeepsInv(s: Store, events: seq<Event>)
    requires Inv(s) && AllLegal(s, events)
    ensures Inv(Run(s, events))
  {
    if events != [] {
      var front := events[..|events| - 1];
      RunKeepsInv(s, front);
      StepKeepsInv(Run(s, front), events[|events| - 1]);
    }
  }

  // ---------------------------------------------------------------- theorems

  /** From an empty store on, through any interleaving: what the statements below ask of a store holds,
      and no session is ever kept past its absolute deadline. */
  lemma {:induction false} StoresStaySound(s: Store, events: seq<Event>)
    requires Empty(s) && AllLegal(s, events)
    ensures Inv(Run(s, events))
    ensures forall jti :: jti in Run(s, events).rows ==>
              Run(s, events).rows[jti].expiresAt <= Run(s, events).rows[jti].absoluteExpiresAt
  {
    RunKeepsInv(s, events);
  }

  /** Over any interleaving: the idle deadline never moves back and never passes the absolute one,
      which never changes; a revoked session stays revoked, and a removed one never returns. */
  lemma {:induction false} SessionsMoveForward(s: Store, events: seq<Event>, jti: Jti)
    requires Inv(s) && AllLegal(s, events) && jti in s.stored
    ensures jti !in s.rows ==> jti !in Run(s, events).rows
    ensures jti in Run(s, events).rows ==>
      var a, b := s.rows[jti], Run(s, events).rows[jti];
      && b.absoluteExpiresAt == a.absoluteExpiresAt && b.version == a.version
      && a.expiresAt <= b.expiresAt <= b.absoluteExpiresAt
      && a.lastSeenAt <= b.lastSeenAt
      && (a.revokedAt != 0 ==> b.revokedAt != 0)
  {
    if events != [] {
      var front := events[..|events| - 1];
      SessionsMoveForward(s, front, jti);
      RunKeepsInv(s, front);
      RunKeepsInv(s, events);
      StepMovesRows(Run(s, front), events[|events| - 1]);
      StoredGrows(s, front);
    }
  }

  lemma StepGrows(s: Store, e: Event)
    ensures s.stored <= Step(s, e).stored && s.version <= Step(s, e).version
  {
  }

  lemma {:induction false} StoredGrows(s: Store, events: seq<Event>)
    ensures s.stored <= Run(s, events).stored && s.version <= Run(s, events).version
  {
    if events != [] {
      StoredGrows(s, events[..|events| - 1]);
      StepGrows(Run(s, events[..|events| - 1]), events[|events| - 1]);
    }
  }

  /** Every write of the activity time raises it by at least five minutes. */
  lemma ActivityWritesAreSparse(s: Store, e: Event, jti: Jti)
    requires Inv(s) && Legal(s, e) && jti in s.rows && jti in Step(s, e).rows
    ensures var a, b := s.rows[jti].lastSeenAt, Step(s, e).rows[jti].lastSeenAt; b == a || b >= a + 300
  {
    StepMovesRows(s, e);
  }

  /** What a request that is let in has behind it: claims that were current when they were checked, not issued
      more than a minute ahead, not run out and not for more than thirty days, and then a row that was
      theirs, live and unrevoked when it was read. */
  ghost predicate LetIn(s: Store, events: seq<Event>, who: nat, i: nat, j: nat)
    requires i < j < |events|
  {
    && events[i].CheckClaims? && events[i].who == who && events[j] == ReadRow(who)
    && (var c, now, rows := events[i].claims, events[i].now, Run(s, events[..j]).rows;
        && c.version == Run(s, events[..i]).version
        && c.issuedAt <= now + 60 && now < c.expiresAt && c.issuedAt < c.expiresAt <= c.issuedAt + 2592000
        && c.jti in rows
        && rows[c.jti].revokedAt == 0 && rows[c.jti].version == c.version && rows[c.jti].issuedAt == c.issuedAt
        && rows[c.jti].absoluteExpiresAt == c.expiresAt && now < rows[c.jti].expiresAt <= c.expiresAt)
  }

  ghost predicate WasChecked(s: Store, events: seq<Event>, v: Verifier, who: nat, i: nat)
    requires i < |events| && v.Checked?
  {
    && events[i] == CheckClaims(who, v.claims, v.now, v.timeouts, v.clientIp)
    && ClaimsAcceptable(v.claims, Run(s, events[..i]).version, v.now)
  }

  lemma PrefixOf(events: seq<Event>, e: Event, i: nat)
    requires i <= |events|
    ensures (events + [e])[..i] == events[..i]
  {
  }

  lemma {:induction false} CheckedWere(s: Store, events: seq<Event>, who: nat)
    requires who !in s.verifiers && who in Run(s, events).verifiers && Run(s, events).verifiers[who].Checked?
    ensures exists i :: 0 <= i < |events| && WasChecked(s, events, Run(s, events).verifiers[who], who, i)
  {
    var front, e := events[..|events| - 1], events[|events| - 1];
    assert events == front + [e];
    var v := Run(s, events).verifiers[who];
    if who in Run(s, front).verifiers && Run(s, front).verifiers[who] == v && !(e.CheckClaims? && e.who == who) {
      CheckedWere(s, front, who);
      var i :| 0 <= i < |front| && WasChecked(s, front, v, who, i);
      PrefixOf(front, e, i);
      assert WasChecked(s, events, v, who, i);
    } else {
      assert WasChecked(s, events, v, who, |events| - 1);
    }
  }

  predicate In(s: Store, who: nat) {
    who in s.verifiers && (s.verifiers[who].Accepted? || s.verifiers[who].Updating?)
  }

  lemma OnlyReadsLetIn(s: Store, e: Event, who: nat)
    requires !In(s, who) && In(Step(s, e), who)
    ensures e == ReadRow(who) && who in s.verifiers && s.verifiers[who].Checked?
    ensures var c := s.verifiers[who].claims; c.jti in s.rows && RowAcceptable(c, s.rows[c.jti], s.verifiers[who].now)
  {
  }

  lemma StillLetIn(s: Store, front: seq<Event>, e: Event, who: nat, i: nat, j: nat)
    requires i < j < |front| && LetIn(s, front, who, i, j)
    ensures LetIn(s, front + [e], who, i, j)
  {
    PrefixOf(front, e, i);
    PrefixOf(front, e, j);
  }

  lemma JustLetIn(s: Store, front: seq<Event>, who: nat, i: nat)
    requires who in Run(s, front).verifiers && Run(s, front).verifiers[who].Checked?
    requires i < |front| && WasChecked(s, front, Run(s, front).verifiers[who], who, i)
    requires var v := Run(s, front).verifiers[who];
             v.claims.jti in Run(s, front).rows && RowAcceptable(v.claims, Run(s, front).rows[v.claims.jti], v.now)
    ensures LetIn(s, front + [ReadRow(who)], who, i, |front|)
  {
    PrefixOf(front, ReadRow(who), i);
    PrefixOf(front, ReadRow(who), |front|);
    assert front[..|front|] == front;
  }

  /** Over any run: whoever is accepted, or about to write its renewal, was let in. */
  lemma {:induction false} AcceptedWereLetIn(s: Store, events: seq<Event>, who: nat)
    requires who !in s.verifiers && In(Run(s, events), who)
    ensures exists i, j :: 0 <= i < j < |events| && LetIn(s, events, who, i, j)
  {
    var front, e := events[..|events| - 1], events[|events| - 1];
    assert events == front + [e];
    if In(Run(s, front), who) {
      AcceptedWereLetIn(s, front, who);
      var i, j :| 0 <= i < j < |front| && LetIn(s, front, who, i, j);
      StillLetIn(s, front, e, who, i, j);
    } else {
      OnlyReadsLetIn(Run(s, front), e, who);
      CheckedWere(s, front, who);
      var i :| 0 <= i < |front| && WasChecked(s, front, Run(s, front).verifiers[who], who, i);
      JustLetIn(s, front, who, i);
    }
  }

  /** And whoever meets all of this is let in. */
  lemma LetInIsAccepted(s: Store, who: nat)
    requires who in s.verifiers && s.verifiers[who].Checked?
    requires var v := s.verifiers[who];
             && v.claims.jti in s.rows
             && (var r := s.rows[v.claims.jti];
                 && r.revokedAt == 0 && r.version == v.claims.version && r.issuedAt == v.claims.issuedAt
                 && r.absoluteExpiresAt == v.claims.expiresAt && v.now < r.expiresAt <= v.claims.expiresAt)
    ensures Step(s, ReadRow(who)).verifiers[who].Accepted? || Step(s, ReadRow(who)).verifiers[who].Updating?
  {
  }

  /** A renewal is written only to a row that is still what was read: alive when it was checked, unrevoked,
      of the same version and deadline, and with its activity unchanged if activity is noted. */
  lemma WriteBackNeeds(p: Renewal, r: Row)
    ensures Renew(p, r) != r ==>
      && p.now < r.expiresAt && p.now < r.absoluteExpiresAt && r.revokedAt == 0
      && r.version == p.version && r.absoluteExpiresAt == p.absoluteExpiresAt
      && (p.seenGuard.Some? ==> r.lastSeenAt == p.seenGuard.value)
  {
  }

  /** Pruning drops exactly the sessions whose deadline lies before the given time. */
  lemma PruneDropsOld(s: Store, before: int, jti: Jti)
    ensures jti in Step(s, Prune(before)).rows <==> jti in s.rows && s.rows[jti].expiresAt >= before
    ensures jti in Step(s, Prune(before)).rows ==> Step(s, Prune(before)).rows[jti] == s.rows[jti]
  {
  }

  /** Once a session is revoked, no read of it, however late, is accepted. */
  lemma RevokedIsRejected(s: Store, events: seq<Event>, who: nat, jti: Jti)
    requires Inv(s) && AllLegal(s, events) && jti in s.rows && s.rows[jti].revokedAt != 0
    ensures var n := Run(s, events);
            who in n.verifiers && n.verifiers[who].Checked? && n.verifiers[who].claims.jti == jti ==>
              Step(n, ReadRow(who)).verifiers[who] == Rejected
  {
    SessionsMoveForward(s, events, jti);
  }

  ghost predicate Uses(e: Event, who: nat) {
    (e.BeginRevoke? && e.who == who) || e == EndRevoke(who)
  }

  lemma {:induction false} RevokerWaits(s: Store, events: seq<Event>, who: nat)
    requires who in s.revokers && forall k :: 0 <= k < |events| ==> !Uses(events[k], who)
    ensures who in Run(s, events).revokers && Run(s, events).revokers[who] == s.revokers[who]
  {
    if events != [] {
      RevokerWaits(s, events[..|events| - 1], who);
    }
  }

  /** A revocation that has found its session live takes effect when it writes, whatever happened in between,
      and no later event undoes it. */
  lemma RevocationTakesEffect(s: Store, who: nat, jti: Jti, now: int, between: seq<Event>, after: seq<Event>)
    requires Inv(s) && jti in s.rows && s.rows[jti].revokedAt == 0 && Legal(s, BeginRevoke(who, jti, now))
    requires forall k :: 0 <= k < |between| ==> !Uses(between[k], who)
    requires AllLegal(Step(s, BeginRevoke(who, jti, now)), between)
    requires AllLegal(Step(Run(Step(s, BeginRevoke(who, jti, now)), between), EndRevoke(who)), after)
    ensures var n := Run(Step(Run(Step(s, BeginRevoke(who, jti, now)), between), EndRevoke(who)), after);
            jti in n.rows ==> n.rows[jti].revokedAt != 0
  {
    var b := Step(s, BeginRevoke(who, jti, now));
    var m := Run(b, between);
    StepKeepsInv(s, BeginRevoke(who, jti, now));
    RunKeepsInv(b, between);
    RevokerWaits(b, between, who);
    StepKeepsInv(m, EndRevoke(who));
    StoredGrows(b, between);
    SessionsMoveForward(Step(m, EndRevoke(who)), after, jti);
  }

  // ---------------------------------------------------------------- credential changes

  /** Nobody past the claims check with an older version can still find a live row. */
  ghost predicate OldVersionsShut(s: Store, v: int) {
    && s.version >= v
    && forall w :: w in s.verifiers && s.verifiers[w].Checked? && s.verifiers[w].claims.version < v ==>
         var jti := s.verifiers[w].claims.jti;
         jti in s.stored && (jti in s.rows ==> s.rows[jti].revokedAt != 0)
  }

  lemma RevokeAllShuts(s: Store, now: int)
    requires Inv(s) && now > 0
    ensures OldVersionsShut(Step(s, RevokeAll(now)), s.version)
  {
  }

  lemma StepKeepsShut(s: Store, e: Event, v: int)
    requires Inv(s) && Legal(s, e) && OldVersionsShut(s, v)
    ensures OldVersionsShut(Step(s, e), v)
  {
    StepMovesRows(s, e);
  }

  lemma {:induction false} RunKeepsShut(s: Store, events: seq<Event>, v: int)
    requires Inv(s) && AllLegal(s, events) && OldVersionsShut(s, v)
    ensures OldVersionsShut(Run(s, events), v)
  {
    if events != [] {
      var front := events[..|events| - 1];
      RunKeepsShut(s, front, v);
      RunKeepsInv(s, front);
      StepKeepsShut(Run(s, front), events[|events| - 1], v);
    }
  }

  lemma ShutReadRejects(s: Store, v: int, who: nat)
    requires OldVersionsShut(s, v)
    ensures who in s.verifiers && s.verifiers[who].Checked? && s.verifiers[who].claims.version < v ==>
      Step(s, ReadRow(who)).verifiers[who] == Rejected
  {
  }

  /** A credential change bumps the version and then revokes everything. From then on no token of an
      older version is accepted by any read: not one checked before the change, and not one whose
      login was still being stored while the change ran. */
  lemma CredentialChangeEndsOldTokens(s: Store, between: seq<Event>, now: int, after: seq<Event>, who: nat)
    requires Inv(s) && now > 0
    requires AllLegal(Step(s, BumpVersion), between)
    requires AllLegal(Step(Run(Step(s, BumpVersion), between), RevokeAll(now)), after)
    ensures var n := Run(Step(Run(Step(s, BumpVersion), between), RevokeAll(now)), after);
            who in n.verifiers && n.verifiers[who].Checked? && n.verifiers[who].claims.version <= s.version ==>
              Step(n, ReadRow(who)).verifiers[who] == Rejected
  {
    var b := Step(s, BumpVersion);
    var m := Run(b, between);
    StepKeepsInv(s, BumpVersion);
    RunKeepsInv(b, between);
    StoredGrows(b, between);
    RevokeAllShuts(m, now);
    StepKeepsInv(m, RevokeAll(now));
    RunKeepsShut(Step(m, RevokeAll(now)), after, m.version);
    ShutReadRejects(Run(Step(m, RevokeAll(now)), after), m.version, who);
  }

  // ---------------------------------------------------------------- the session table

  /** The table the handlers update. */
  class SessionTable {
    var rows: map<Jti, Row>

    method Insert(jti: Jti, version: int, now: int, t: Timeouts, clientIp: string)
      modifies this
      ensures rows == old(rows)[jti := FreshRow(version, now, t, clientIp)]
    {
      rows := rows[jti := Row(version, now, now, Min(now + t.idle, now + t.absolute), now + t.absolute, 0, clientIp)];
    }

    /** The read half of a verification. */
    method Read(c: Claims, now: int, t: Timeouts, clientIp: string) returns (valid: bool, plan: Option<Renewal>)
      ensures valid <==> c.jti in rows && RowAcceptable(c, rows[c.jti], now)
      ensures plan == if valid then PlanRenewal(c, rows[c.jti], now, t, clientIp) else None
    {
      if c.jti !in rows {
        return false, None;
      }
      var r := rows[c.jti];
      valid := RowAcceptable(c, r, now);
      plan := if valid then PlanRenewal(c, r, now, t, clientIp) else None;
    }

    /** The write half: one conditional update. */
    method WriteBack(jti: Jti, p: Renewal)
      modifies this
      ensures rows == if jti in old(rows) then old(rows)[jti := Renew(p, old(rows)[jti])] else old(rows)
    {
      if jti in rows && GuardHolds(p, rows[jti]) {
        var r := rows[jti];
        if p.seenGuard.Some? {
          r := r.(lastSeenAt := p.now, clientIp := p.clientIp);
        }
        if p.newExpiry.Some? && r.expiresAt < p.newExpiry.value {
          r := r.(expiresAt := p.newExpiry.value);
        }
        rows := rows[jti := r];
      }
    }

    method RevokeAllSessions(now: int) returns (changed: nat)
      modifies this
      ensures rows == RevokeRows(old(rows), now)
      ensures changed == |set jti | jti in old(rows) && old(rows)[jti].revokedAt == 0|
    {
      var todo := set jti | jti in rows && rows[jti].revokedAt == 0;
      ghost var all := todo;
      changed := 0;
      while todo != {}
        invariant todo <= all && changed == |all| - |todo|
        invariant rows.Keys == old(rows).Keys
        invariant forall jti :: jti in rows ==>
          rows[jti] == if jti in todo then old(rows)[jti] else RevokeRow(old(rows)[jti], now)
        decreases |todo|
      {
        var jti :| jti in todo;
        rows := rows[jti := rows[jti].(revokedAt := now)];
        todo := todo - {jti};
        changed := changed + 1;
      }
      assert rows == RevokeRows(old(rows), now);
    }
  }
}
