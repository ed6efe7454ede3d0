/** The second login factor: a password stage hands out a challenge that a code may exchange for a
    session once, within five minutes, under the credential version it was issued for. */
module TotpChallenges {
  import opened Common

  type Token = string

  datatype Pending = Pending(version: int, expiresAt: int, failures: nat)

  const LIFETIME := 300
  const MAX_FAILURES := 5

  datatype Outcome = Invalid | Disabled | Accepted | Exhausted | WrongCode

  /** Drops every challenge whose time is up. */
  function Cleaned(pending: map<Token, Pending>, now: int): map<Token, Pending> {
    map t | t in pending && pending[t].expiresAt > now :: pending[t]
  }

  function Issue(pending: map<Token, Pending>, token: Token, version: int, now: int): map<Token, Pending> {
    Cleaned(pending, now)[token := Pending(version, now + LIFETIME, 0)]
  }

  /** One code check; `codeOk` is the code comparison, `secretSet` whether the factor is enabled. */
  function Verify(pending: map<Token, Pending>, token: Token, codeOk: bool, secretSet: bool, version: int, now: int)
    : (map<Token, Pending>, Outcome)
  {
    var live := Cleaned(pending, now);
    if token !in live || live[token].version != version then (live - {token}, Invalid)
    else if !secretSet then (live - {token}, Disabled)
    else if codeOk then (live - {token}, Accepted)
    else
      var failures := live[token].failures + 1;
      if failures >= MAX_FAILURES then (live - {token}, Exhausted)
      else (live[token := live[token].(failures := failures)], WrongCode)
  }

  // ---------------------------------------------------------------- runs

  /** An accepted exchange: which challenge, when, under which version. */
  datatype Exchange = Exchange(token: Token, at: int, version: int)

  /** `issued` remembers every challenge ever handed out, `wrong` the wrong codes each has seen. */
  datatype Desk = Desk(pending: map<Token, Pending>, issued: map<Token, Pending>,
                       accepted: seq<Exchange>, wrong: map<Token, nat>)

  datatype Event =
    | Login(token: Token, version: int, now: int)
    | Check(token: Token, codeOk: bool, secretSet: bool, version: int, now: int)
    | Restart

  function Step(d: Desk, e: Event): Desk {
    match e
    case Login(token, version, now) =>
      d.(pending := Issue(d.pending, token, version, now),
         issued := d.issued[token := Pending(version, now + LIFETIME, 0)],
         wrong := d.wrong[token := 0])
    case Check(token, codeOk, secretSet, version, now) =>
      var (pending, outcome) := Verify(d.pending, token, codeOk, secretSet, version, now);
      d.(pending := pending,
         accepted := if outcome == Accepted then d.accepted + [Exchange(token, now, version)] else d.accepted,
         wrong := if (outcome == WrongCode || outcome == Exhausted) && token in d.wrong
                  then d.wrong[token := d.wrong[token] + 1] else d.wrong)
    case Restart => d.(pending := map[])
  }

  function Run(events: seq<Event>): Desk {
    if events == [] then Desk(map[], map[], [], map[])
    else Step(Run(events[..|events| - 1]), events[|events| - 1])
  }

  /** Challenge tokens are drawn at random and never repeat. */
  ghost predicate FreshTokens(events: seq<Event>) {
    forall i, j :: 0 <= i < j < |events| && events[i].Login? && events[j].Login? ==> events[i].token != events[j].token
  }

  /** The login hands out this challenge: of its version, for five minutes. */
  ghost predicate Issues(e: Event, p: Pending) {
    e.Login? && p.version == e.version && p.expiresAt == e.now + 300
  }

  ghost predicate Spent(d: Desk, token: Token) {
    exists k :: 0 <= k < |d.accepted| && d.accepted[k].token == token
  }

  ghost predicate Inv(d: Desk) {
    && d.pending.Keys <= d.issued.Keys == d.wrong.Keys
    && (forall t :: t in d.pending ==>
          && !Spent(d, t)
          && d.pending[t] == d.issued[t].(failures := d.wrong[t])
          && d.wrong[t] < MAX_FAILURES)
    && (forall t :: t in d.wrong ==> d.wrong[t] <= MAX_FAILURES)
    && (forall k :: 0 <= k < |d.accepted| ==> ExchangeSound(d, d.accepted[k]))
    && (forall i, j :: 0 <= i < j < |d.accepted| ==> d.accepted[i].token != d.accepted[j].token)
  }

  ghost predicate ExchangeSound(d: Desk, x: Exchange) {
    x.token in d.issued && x.version == d.issued[x.token].version && x.at < d.issued[x.token].expiresAt
  }

  /** What a check leaves behind: surviving challenges keep their terms, and only the one checked
      may have counted another wrong code. */
  lemma VerifyKeepsOthers(pending: map<Token, Pending>, e: Event)
    requires e.Check?
    ensures var (after, outcome) := Verify(pending, e.token, e.codeOk, e.secretSet, e.version, e.now);
            && (forall t :: t in after && t != e.token ==> t in pending && after[t] == pending[t])
            && (e.token in after ==>
                  outcome == WrongCode && e.token in pending
                  && after[e.token] == pending[e.token].(failures := pending[e.token].failures + 1)
                  && after[e.token].failures < MAX_FAILURES)
            && (outcome == Accepted ==>
                  e.token in pending && e.now < pending[e.token].expiresAt && e.version == pending[e.token].version)
            && (outcome == Exhausted ==> e.token in pending)
  {
  }

  lemma CheckKeepsInv(d: Desk, e: Event)
    requires Inv(d) && e.Check?
    ensures Inv(Step(d, e))
  {
    var n := Step(d, e);
    VerifyKeepsOthers(d.pending, e);
    assert forall k :: 0 <= k < |d.accepted| ==> n.accepted[k] == d.accepted[k];
    forall k | 0 <= k < |n.accepted| ensures ExchangeSound(n, n.accepted[k]) {
      assert k < |d.accepted| ==> ExchangeSound(d, d.accepted[k]);
    }
  }

  lemma LoginKeepsInv(d: Desk, e: Event)
    requires Inv(d) && e.Login? && e.token !in d.issued
    ensures Inv(Step(d, e))
  {
    var n := Step(d, e);
    assert forall k :: 0 <= k < |d.accepted| ==> ExchangeSound(d, d.accepted[k]);
  }

  lemma {:induction false} RunInv(events: seq<Event>)
    requires FreshTokens(events)
    ensures Inv(Run(events))
    ensures forall t :: t in Run(events).issued ==>
      exists i :: 0 <= i < |events| && events[i].Login? && events[i].token == t && Issues(events[i], Run(events).issued[t])
  {
    if events != [] {
      var front := events[..|events| - 1];
      var e := events[|events| - 1];
      RunInv(front);
      var d := Run(front);
      if e.Login? {
        assert e.token !in d.issued;
        LoginKeepsInv(d, e);
      } else if e.Check? {
        CheckKeepsInv(d, e);
      }
      forall t | t in Run(events).issued
        ensures exists i :: 0 <= i < |events| && events[i].Login? && events[i].token == t && Issues(events[i], Run(events).issued[t])
      {
        if t in d.issued {
          var i :| 0 <= i < |front| && front[i].Login? && front[i].token == t && Issues(front[i], d.issued[t]);
          assert events[i] == front[i];
        } else {
          assert events[|events| - 1].token == t;
        }
      }
    }
  }

  // ---------------------------------------------------------------- theorems

  function TokensOf(xs: seq<Exchange>): set<Token> {
    set k | 0 <= k < |xs| :: xs[k].token
  }

  lemma {:induction false} DistinctCount(xs: seq<Exchange>)
    requires forall i, j :: 0 <= i < j < |xs| ==> xs[i].token != xs[j].token
    ensures |TokensOf(xs)| == |xs|
  {
    if xs != [] {
      var front := xs[..|xs| - 1];
      DistinctCount(front);
      assert TokensOf(xs) == TokensOf(front) + {xs[|xs| - 1].token};
    }
  }

  lemma SubsetCount(a: set<Token>, b: set<Token>)
    requires a <= b
    ensures |a| <= |b|
  {
    assert b == a + (b - a);
  }

  /** Over any interleaving of logins, code checks and restarts, exchanges never outnumber challenges. */
  lemma ExchangesNeverExceedChallenges(events: seq<Event>)
    requires FreshTokens(events)
    ensures |Run(events).accepted| <= |Run(events).issued|
  {
    RunInv(events);
    var d := Run(events);
    DistinctCount(d.accepted);
    forall t | t in TokensOf(d.accepted) ensures t in d.issued.Keys {
      var k :| 0 <= k < |d.accepted| && d.accepted[k].token == t;
      assert ExchangeSound(d, d.accepted[k]);
    }
    SubsetCount(TokensOf(d.accepted), d.issued.Keys);
  }

  /** Every challenge is exchanged at most once, before its deadline, under its own version, and
      after at most five wrong codes, after which it is gone. */
  lemma ChallengesAreConsumedOnce(events: seq<Event>)
    requires FreshTokens(events)
    ensures var d := Run(events);
            && (forall i, j :: 0 <= i < j < |d.accepted| ==> d.accepted[i].token != d.accepted[j].token)
            && (forall k :: 0 <= k < |d.accepted| ==> ExchangeSound(d, d.accepted[k]))
            && (forall t :: t in d.wrong ==> d.wrong[t] <= 5)
            && (forall t :: t in d.wrong && d.wrong[t] == 5 ==> t !in d.pending)
  {
    RunInv(events);
  }

  /** The check that an exchange comes from: a right code under that version, at that time. */
  ghost predicate Exchanges(e: Event, x: Exchange) {
    e.Check? && e.codeOk && e.secretSet && e.token == x.token && e.version == x.version && e.now == x.at
  }

  lemma {:induction false} ExchangesAreChecked(events: seq<Event>, k: nat)
    requires k < |Run(events).accepted|
    ensures exists j :: 0 <= j < |events| && Exchanges(events[j], Run(events).accepted[k])
  {
    var front, e := events[..|events| - 1], events[|events| - 1];
    if k < |Run(front).accepted| {
      ExchangesAreChecked(front, k);
      var j :| 0 <= j < |front| && Exchanges(front[j], Run(front).accepted[k]);
      assert events[j] == front[j];
    } else {
      AcceptedIff(Run(front).pending, e.token, e.codeOk, e.secretSet, e.version, e.now);
      assert Exchanges(events[|events| - 1], Run(events).accepted[k]);
    }
  }

  /** Every exchange answers a right code, sent under the version of the login that handed out its challenge
      and less than 300 seconds after it. */
  lemma ExchangesFollowLogins(events: seq<Event>, k: nat)
    requires FreshTokens(events) && k < |Run(events).accepted|
    ensures exists i, j ::
      && 0 <= i < |events| && 0 <= j < |events| && events[i].Login? && Exchanges(events[j], Run(events).accepted[k])
      && events[i].token == events[j].token && events[i].version == events[j].version && events[j].now < events[i].now + 300
  {
    RunInv(events);
    ExchangesAreChecked(events, k);
    var x := Run(events).accepted[k];
    assert ExchangeSound(Run(events), x);
    var i :| 0 <= i < |events| && events[i].Login? && events[i].token == x.token && Issues(events[i], Run(events).issued[x.token]);
    var j :| 0 <= j < |events| && Exchanges(events[j], x);
  }

  /** What each answer means, and what is left of the challenge: only a wrong code that is not the fifth
      leaves it, with one failure more. */
  lemma AnswersTell(pending: map<Token, Pending>, token: Token, codeOk: bool, secretSet: bool, version: int, now: int)
    ensures var (after, outcome) := Verify(pending, token, codeOk, secretSet, version, now);
            var live := token in pending && now < pending[token].expiresAt && pending[token].version == version;
      && (outcome == Invalid <==> !live)
      && (outcome == Disabled <==> live && !secretSet)
      && (outcome == Exhausted <==> live && secretSet && !codeOk && pending[token].failures >= 4)
      && (outcome == WrongCode <==> live && secretSet && !codeOk && pending[token].failures < 4)
      && (token in after <==> outcome == WrongCode)
      && (token in after ==> after[token] == pending[token].(failures := pending[token].failures + 1))
      && (forall t :: t in after && t != token ==> t in pending && after[t] == pending[t] && now < pending[t].expiresAt)
  {
  }

  /** A check is accepted exactly for a live challenge of the current version and a right code; what
      any check answers about one challenge leaves every other live challenge alone. */
  lemma AcceptedIff(pending: map<Token, Pending>, token: Token, codeOk: bool, secretSet: bool, version: int, now: int)
    ensures Verify(pending, token, codeOk, secretSet, version, now).1 == Accepted
            <==> token in pending && pending[token].expiresAt > now && pending[token].version == version
                 && secretSet && codeOk
    ensures forall t :: t != token && t in pending && pending[t].expiresAt > now ==>
      t in Verify(pending, token, codeOk, secretSet, version, now).0
      && Verify(pending, token, codeOk, secretSet, version, now).0[t] == pending[t]
  {
  }

  // ---------------------------------------------------------------- the table

  class ChallengeTable {
    var pending: map<Token, Pending>

    constructor ()
      ensures pending == map[]
    {
      pending := map[];
    }

    method Clean(now: int)
      modifies this
      ensures pending == Cleaned(old(pending), now)
    {
      var todo := pending.Keys;
      while todo != {}
        invariant todo <= old(pending).Keys
        invariant forall t :: t in pending ==> t in old(pending) && pending[t] == old(pending)[t]
        invariant forall t :: t in old(pending) ==>
          (t in pending <==> t in todo || old(pending)[t].expiresAt > now)
        decreases |todo|
      {
        var t :| t in todo;
        if pending[t].expiresAt <= now {
          pending := pending - {t};
        }
        todo := todo - {t};
      }
    }

    method IssueChallenge(token: Token, version: int, now: int)
      modifies this
      ensures pending == Issue(old(pending), token, version, now)
    {
      Clean(now);
      pending := pending[token := Pending(version, now + LIFETIME, 0)];
    }

    method VerifyCode(token: Token, codeOk: bool, secretSet: bool, version: int, now: int) returns (outcome: Outcome)
      modifies this
      ensures (pending, outcome) == Verify(old(pending), token, codeOk, secretSet, version, now)
    {
      Clean(now);
      outcome := Invalid;
      if token in pending && pending[token].version == version {
        if !secretSet {
          pending := pending - {token};
          outcome := Disabled;
        } else if codeOk {
          pending := pending - {token};
          outcome := Accepted;
        } else {
          var failures := pending[token].failures + 1;
          if failures >= MAX_FAILURES {
            pending := pending - {token};
            outcome := Exhausted;
          } else {
            pending := pending[token := pending[token].(failures := failures)];
            outcome := WrongCode;
          }
        }
      } else {
        pending := pending - {token};
      }
    }
  }
}
