/** What a claim request hands out and what it leaves behind, said field by field of the accounts it
    started from. */
module ClaimOutcome {
  import opened Common
  import opened ClaimScan
  import opened IsoInstant
  import opened Text

  // ---------------------------------------------------------------- which accounts may be sent

  /** The text is a readable time after `now`. */
  predicate Later(text: string, now: Instant) {
    Parse(text).Read? && Before(now, Parse(text).instant)
  }

  /** A claim word that lets no second claim start: paid, still being worked on, or claimed with a lease
      that is not a readable time up to now. */
  predicate Held(claimStatus: string, lease: string, now: Instant) {
    match Lower(Strip(claimStatus))
    case "paid" => true
    case "prechecking" => true
    case "processing" => true
    case "claimed" => Parse(lease).Read? ==> Later(lease, now)
    case _ => false
  }

  predicate Finished(status: string) {
    match Lower(Strip(status))
    case "subscribed" => true
    case "invalid" => true
    case "banned" => true
    case "account_deactivated" => true
    case _ => false
  }

  /** Nothing stored on the account speaks against sending its token. */
  predicate Sendable(a: Account, busy: set<int>, now: Instant) {
    && a.platform == "chatgpt" && a.id > 0 && a.id !in busy && a.credential
    && !Finished(a.status) && !Held(a.claimStatus, a.lease, now) && !Later(a.retryAfter, now)
  }

  predicate PlainWord(w: string) {
    w != [] && forall i :: 0 <= i < |w| ==> 'a' <= w[i] <= 'z' || w[i] == '_'
  }

  lemma PlainWordStays(w: string)
    requires PlainWord(w)
    ensures Lower(Strip(w)) == w
  {
    StripFixed(w);
    assert forall i :: 0 <= i < |w| ==> Lower(w)[i] == w[i];
  }

  lemma ClosedArePlain()
    ensures PlainWord("subscribed") && PlainWord("invalid") && PlainWord("banned") && PlainWord("account_deactivated")
  {
  }

  lemma FinishedIff(status: string)
    ensures Finished(status) <==> Lower(Strip(status)) in CLOSED
    ensures status in CLOSED ==> Finished(status)
  {
    ClosedArePlain();
    if status in CLOSED { PlainWordStays(status); }
  }

  lemma HeldIff(a: Account, now: Instant)
    ensures Held(a.claimStatus, a.lease, now) <==> ClaimBlocks(a, now)
  {
  }

  /** The two ways to say which accounts may be sent agree. */
  lemma SendableIff(a: Account, q: Request, busy: set<int>)
    ensures Sendable(a, busy, q.now) <==> Due(a) && LocallySendable(a, q.now) && a.id !in busy
  {
    FinishedIff(a.status);
    HeldIff(a, q.now);
  }

  // ---------------------------------------------------------------- what the walk leaves

  predicate ClaimedId(id: int, items: seq<Item>) {
    exists i :: 0 <= i < |items| && items[i].id == id
  }

  /** How an account that was due is left: with the rejection of its precheck, as a repetition of a token
      sent before, or claimed until the end of the lease. */
  ghost predicate LeftAs(a: Account, b: Account, q: Request, claims: seq<Item>)
    requires Valid(q.until)
  {
    if a.id !in q.verdicts then
      b == a.(claimStatus := "missing_token", lease := "", retryAfter := "", status := "") && !ClaimedId(a.id, claims)
    else match q.verdicts[a.id]
      case Rejected(claimStatus, retryAfter, status) =>
        && b == a.(claimStatus := claimStatus, lease := "", retryAfter := retryAfter, status := status)
        && !ClaimedId(a.id, claims)
      case Passed(fingerprint) =>
        if ClaimedId(a.id, claims) then
          && b == a.(claimStatus := "claimed", lease := Iso(q.until), retryAfter := "")
          && Item(a.id, fingerprint) in claims
        else
          && b == a.(claimStatus := "duplicate_in_claim_round", lease := "", retryAfter := "")
          && fingerprint != "" && SentIn(fingerprint, claims)
  }

  /** The claims made so far belong to accounts before `p`, and `sent` are their fingerprints. */
  ghost predicate ClaimsBefore(s: State, p: nat) {
    && s.sent == Fingerprints(s.claimed)
    && forall i, x :: 0 <= i < |s.claimed| && p <= x < |s.accounts| ==> s.claimed[i].id < s.accounts[x].id
  }

  /** Each of these items is what an account from `p` up to `r` was ready to send, and passed with. */
  ghost predicate EachWasReady(items: seq<Item>, accounts: seq<Account>, busy: set<int>, q: Request, p: nat, r: nat) {
    forall i :: i in items ==>
      exists x :: p <= x < r && x < |accounts| && accounts[x].id == i.id && Sendable(accounts[x], busy, q.now)
                  && i.id in q.verdicts && q.verdicts[i.id] == Passed(i.fingerprint)
  }

  /** From `p` up to `r` every account that was due is left as it should be; all others are untouched. */
  ghost predicate Walked(s: State, t: State, q: Request, p: nat, r: nat)
    requires Valid(q.until)
  {
    && |t.accounts| == |s.accounts| && p <= r <= |s.accounts|
    && (forall x :: 0 <= x < |s.accounts| ==>
          if p <= x < r && Sendable(s.accounts[x], s.busy, q.now)
          then LeftAs(s.accounts[x], t.accounts[x], q, t.claimed) else t.accounts[x] == s.accounts[x])
    && s.claimed <= t.claimed
    && EachWasReady(t.claimed[|s.claimed|..], s.accounts, s.busy, q, p, r)
    && (|t.claimed| < q.limit ==> r == |s.accounts|)
    && (forall id :: id in t.busy <==> id in s.busy || ClaimedId(id, t.claimed[|s.claimed|..]))
  }

  lemma NotYetClaimed(s: State, p: nat)
    requires p < |s.accounts| && ClaimsBefore(s, p)
    ensures !ClaimedId(s.accounts[p].id, s.claimed)
  {
  }

  lemma VisitLeaves(s: State, q: Request, p: nat)
    requires p < |s.accounts| && Valid(q.until) && ClaimsBefore(s, p) && Sendable(s.accounts[p], s.busy, q.now)
    ensures LeftAs(s.accounts[p], Visit(s, q, p).accounts[p], q, Visit(s, q, p).claimed)
  {
    var a, t := s.accounts[p], Visit(s, q, p);
    SendableIff(a, q, s.busy);
    NotYetClaimed(s, p);
    if a.id in q.verdicts && q.verdicts[a.id].Passed? {
      var fingerprint := q.verdicts[a.id].fingerprint;
      if Repeated(s, fingerprint) {
        var y :| y in s.claimed && y.fingerprint == fingerprint;
        assert SentIn(fingerprint, s.claimed);
      } else {
        assert t.claimed[|s.claimed|] == Item(a.id, fingerprint);
      }
    }
  }

  lemma VisitClaims(s: State, q: Request, p: nat)
    requires p < |s.accounts| && Valid(q.until) && Due(s.accounts[p])
    ensures var t := Visit(s, q, p);
      && (t == s || (Sendable(s.accounts[p], s.busy, q.now) && t.claimed == s.claimed && t.busy == s.busy && t.sent == s.sent)
          || (&& Sendable(s.accounts[p], s.busy, q.now)
              && s.accounts[p].id in q.verdicts && q.verdicts[s.accounts[p].id].Passed?
              && (var x := Item(s.accounts[p].id, q.verdicts[s.accounts[p].id].fingerprint);
                  t.claimed == s.claimed + [x] && t.busy == s.busy + {x.id} && t.sent == s.sent + {x.fingerprint})))
      && (t == s || Sendable(s.accounts[p], s.busy, q.now))
  {
    SendableIff(s.accounts[p], q, s.busy);
  }

  lemma SentSnoc(claims: seq<Item>, x: Item)
    ensures Fingerprints(claims + [x]) == Fingerprints(claims) + {x.fingerprint}
  {
  }

  lemma VisitMoves(s: State, q: Request, p: nat)
    requires p < |s.accounts| && Valid(q.until) && Sorted(s.accounts) && ClaimsBefore(s, p) && Due(s.accounts[p])
    ensures var t := Visit(s, q, p);
      && ClaimsBefore(t, p + 1) && Sorted(t.accounts) && |t.accounts| == |s.accounts| && s.claimed <= t.claimed
      && (forall x :: 0 <= x < |s.accounts| && x != p ==> t.accounts[x] == s.accounts[x])
  {
    var t := Visit(s, q, p);
    VisitIsLocal(s, q, p);
    VisitClaims(s, q, p);
    if t.claimed != s.claimed {
      var x := t.claimed[|s.claimed|];
      assert t.claimed == s.claimed + [x];
      SentSnoc(s.claimed, x);
    }
  }

  lemma VisitAdds(s: State, q: Request, p: nat)
    requires p < |s.accounts| && Valid(q.until) && Due(s.accounts[p])
    ensures var t := Visit(s, q, p);
      && |s.claimed| <= |t.claimed|
      && (forall id :: id in t.busy <==> id in s.busy || ClaimedId(id, t.claimed[|s.claimed|..]))
      && EachWasReady(t.claimed[|s.claimed|..], s.accounts, s.busy, q, p, p + 1)
  {
    var t := Visit(s, q, p);
    VisitClaims(s, q, p);
    if t.claimed == s.claimed {
      assert t.claimed[|s.claimed|..] == [];
    } else {
      var x := Item(s.accounts[p].id, q.verdicts[s.accounts[p].id].fingerprint);
      assert t.claimed[|s.claimed|..] == [x];
      assert [x][0] == x;
    }
  }

  /** One account further: it is left as it should be if it was due, and nothing else changes. */
  ghost predicate Stepped(s: State, t: State, q: Request, p: nat)
    requires p < |s.accounts| && Valid(q.until)
  {
    && |t.accounts| == |s.accounts| && s.claimed <= t.claimed
    && (if Sendable(s.accounts[p], s.busy, q.now) then LeftAs(s.accounts[p], t.accounts[p], q, t.claimed)
        else t.accounts[p] == s.accounts[p])
    && (forall x :: 0 <= x < |s.accounts| && x != p ==> t.accounts[x] == s.accounts[x])
    && (forall id :: id in t.busy <==> id in s.busy || ClaimedId(id, t.claimed[|s.claimed|..]))
    && EachWasReady(t.claimed[|s.claimed|..], s.accounts, s.busy, q, p, p + 1)
    && ClaimsBefore(t, p + 1) && Sorted(t.accounts)
  }

  lemma VisitStepped(s: State, q: Request, p: nat)
    requires p < |s.accounts| && Valid(q.until) && Sorted(s.accounts) && ClaimsBefore(s, p) && Due(s.accounts[p])
    ensures Stepped(s, Visit(s, q, p), q, p)
  {
    VisitMoves(s, q, p);
    VisitAdds(s, q, p);
    if Sendable(s.accounts[p], s.busy, q.now) { VisitLeaves(s, q, p); } else { VisitClaims(s, q, p); }
  }

  lemma PassedBy(s: State, q: Request, p: nat)
    requires p < |s.accounts| && Valid(q.until) && Sorted(s.accounts) && ClaimsBefore(s, p) && !Due(s.accounts[p])
    ensures Stepped(s, s, q, p)
  {
    SendableIff(s.accounts[p], q, s.busy);
    assert s.claimed[|s.claimed|..] == [];
  }

  lemma ClaimedAppend(id: int, a: seq<Item>, b: seq<Item>)
    ensures ClaimedId(id, a + b) <==> ClaimedId(id, a) || ClaimedId(id, b)
  {
    if i :| 0 <= i < |a| && a[i].id == id { assert (a + b)[i].id == id; }
    if i :| 0 <= i < |b| && b[i].id == id { assert (a + b)[|a| + i].id == id; }
  }

  /** An account is left alone by claims that come later and are not its own. */
  lemma LeftStays(a: Account, b: Account, q: Request, claims: seq<Item>, more: seq<Item>)
    requires Valid(q.until) && LeftAs(a, b, q, claims) && !ClaimedId(a.id, more)
    ensures LeftAs(a, b, q, claims + more)
  {
    ClaimedAppend(a.id, claims, more);
  }

  /** Claims of later accounts are not those of an earlier one. */
  lemma NotAmongLater(s: State, p: nat, items: seq<Item>, busy: set<int>, q: Request, from: nat, r: nat)
    requires Sorted(s.accounts) && p < |s.accounts| && p < from && EachWasReady(items, s.accounts, busy, q, from, r)
    ensures !ClaimedId(s.accounts[p].id, items)
  {
    forall i | 0 <= i < |items| ensures items[i].id != s.accounts[p].id {
      assert items[i] in items;
    }
  }

  lemma SameReady(s: State, t: State, q: Request, p: nat, x: nat)
    requires p < x < |s.accounts| && Sorted(s.accounts) && Valid(q.until) && Stepped(s, t, q, p)
    ensures t.accounts[x] == s.accounts[x]
    ensures Sendable(t.accounts[x], t.busy, q.now) <==> Sendable(s.accounts[x], s.busy, q.now)
  {
    var own := t.claimed[|s.claimed|..];
    forall i | 0 <= i < |own| ensures own[i].id != s.accounts[x].id {
      assert own[i] in own;
    }
  }

  lemma StillReady(s: State, t: State, items: seq<Item>, q: Request, p: nat, r: nat)
    requires p < |s.accounts| && Sorted(s.accounts) && Valid(q.until) && Stepped(s, t, q, p)
    requires EachWasReady(items, t.accounts, t.busy, q, p + 1, r)
    ensures EachWasReady(items, s.accounts, s.busy, q, p + 1, r)
  {
    forall i | i in items
      ensures exists x :: p + 1 <= x < r && x < |s.accounts| && s.accounts[x].id == i.id && Sendable(s.accounts[x], s.busy, q.now)
                          && i.id in q.verdicts && q.verdicts[i.id] == Passed(i.fingerprint)
    {
      var x :| p + 1 <= x < r && x < |t.accounts| && t.accounts[x].id == i.id && Sendable(t.accounts[x], t.busy, q.now)
               && i.id in q.verdicts && q.verdicts[i.id] == Passed(i.fingerprint);
      SameReady(s, t, q, p, x);
    }
  }

  lemma ReadyAppend(a: seq<Item>, b: seq<Item>, accounts: seq<Account>, busy: set<int>, q: Request, p: nat, r: nat)
    requires p < r && EachWasReady(a, accounts, busy, q, p, p + 1) && EachWasReady(b, accounts, busy, q, p + 1, r)
    ensures EachWasReady(a + b, accounts, busy, q, p, r)
  {
    forall i | i in a + b
      ensures exists x :: p <= x < r && x < |accounts| && accounts[x].id == i.id && Sendable(accounts[x], busy, q.now)
                          && i.id in q.verdicts && q.verdicts[i.id] == Passed(i.fingerprint)
    {
      if i in a {
        var x :| p <= x < p + 1 && x < |accounts| && accounts[x].id == i.id && Sendable(accounts[x], busy, q.now)
                 && i.id in q.verdicts && q.verdicts[i.id] == Passed(i.fingerprint);
      } else {
        var x :| p + 1 <= x < r && x < |accounts| && accounts[x].id == i.id && Sendable(accounts[x], busy, q.now)
                 && i.id in q.verdicts && q.verdicts[i.id] == Passed(i.fingerprint);
      }
    }
  }

  /** Walking on from `p + 1` completes what happened at `p`. */
  lemma WalkedOn(s: State, t: State, u: State, q: Request, p: nat, r: nat)
    requires p < |s.accounts| && Sorted(s.accounts) && Valid(q.until)
    requires Stepped(s, t, q, p) && Walked(t, u, q, p + 1, r)
    ensures Walked(s, u, q, p, r)
  {
    var own, later := t.claimed[|s.claimed|..], u.claimed[|t.claimed|..];
    assert u.claimed == t.claimed + later && u.claimed[|s.claimed|..] == own + later;
    StillReady(s, t, later, q, p, r);
    ReadyAppend(own, later, s.accounts, s.busy, q, p, r);
    NotAmongLater(s, p, later, s.busy, q, p + 1, r);
    if Sendable(s.accounts[p], s.busy, q.now) {
      LeftStays(s.accounts[p], t.accounts[p], q, t.claimed, later);
    }
    forall x: nat | p < x < |s.accounts|
      ensures t.accounts[x] == s.accounts[x]
      ensures Sendable(t.accounts[x], t.busy, q.now) <==> Sendable(s.accounts[x], s.busy, q.now)
    {
      SameReady(s, t, q, p, x);
    }
    forall id: int ensures ClaimedId(id, own + later) <==> ClaimedId(id, own) || ClaimedId(id, later) {
      ClaimedAppend(id, own, later);
    }
  }

  /** The walk, from wherever it stands: how far it comes, and what it leaves. */
  lemma {:induction false} ScanLeaves(s: State, q: Request, p: nat) returns (r: nat)
    requires p <= |s.accounts| && Valid(q.until) && Sorted(s.accounts) && ClaimsBefore(s, p)
    ensures Walked(s, Scan(s, q, p), q, p, r)
    decreases |s.accounts| - p
  {
    if p >= |s.accounts| || |s.claimed| >= q.limit {
      r := p;
      assert s.claimed[|s.claimed|..] == [];
    } else if Due(s.accounts[p]) {
      VisitStepped(s, q, p);
      r := ScanLeaves(Visit(s, q, p), q, p + 1);
      WalkedOn(s, Visit(s, q, p), Scan(s, q, p), q, p, r);
    } else {
      PassedBy(s, q, p);
      r := ScanLeaves(s, q, p + 1);
      WalkedOn(s, s, Scan(s, q, p), q, p, r);
    }
  }

  /** The whole request: up to some account every one that was ready is left as rejected, repeated or
      claimed, every other is untouched, and so are all after it; fewer claims than the limit mean that the
      walk came to the end. Every claim comes from an account that was ready and passed its precheck,
      and exactly the claimed accounts become busy. */
  lemma RequestLeaves(accounts: seq<Account>, busy: set<int>, q: Request) returns (r: nat)
    requires Valid(q.until) && Sorted(accounts)
    ensures var t := Scan(State(accounts, busy, {}, []), q, 0);
      && |t.accounts| == |accounts| && r <= |accounts| && (|t.claimed| < q.limit ==> r == |accounts|)
      && (forall x :: 0 <= x < |accounts| ==>
            if x < r && Sendable(accounts[x], busy, q.now) then LeftAs(accounts[x], t.accounts[x], q, t.claimed)
            else t.accounts[x] == accounts[x])
      && EachWasReady(t.claimed, accounts, busy, q, 0, r)
      && (forall id :: id in t.busy <==> id in busy || ClaimedId(id, t.claimed))
  {
    var s := State(accounts, busy, {}, []);
    r := ScanLeaves(s, q, 0);
    var t := Scan(s, q, 0);
    assert t.claimed[0..] == t.claimed;
  }

  /** In words: no token is handed out of an account whose claim word is paid or still being worked on,
      or claimed under a lease that has not run out, nor of one that is cooling down, finished, without a
      credential, of another platform or already claimed; each one handed out is claimed until the end of
      the lease. And below the limit each account that is none of these has its token sent, or its
      precheck rejected it. */
  lemma ClaimsInWords(accounts: seq<Account>, busy: set<int>, q: Request, x: nat)
    requires Valid(q.until) && Sorted(accounts) && x < |accounts|
    ensures var t := Scan(State(accounts, busy, {}, []), q, 0);
            var a := accounts[x];
            var word, status := Lower(Strip(a.claimStatus)), Lower(Strip(a.status));
      && |t.accounts| == |accounts|
      && (ClaimedId(a.id, t.claimed) ==>
            && word != "paid" && word != "prechecking" && word != "processing"
            && (word == "claimed" ==> Parse(a.lease).Read? && !Before(q.now, Parse(a.lease).instant))
            && !(Parse(a.retryAfter).Read? && Before(q.now, Parse(a.retryAfter).instant))
            && status != "subscribed" && status != "invalid" && status != "banned" && status != "account_deactivated"
            && a.credential && a.platform == "chatgpt" && a.id !in busy
            && a.id in q.verdicts && q.verdicts[a.id].Passed? && Item(a.id, q.verdicts[a.id].fingerprint) in t.claimed
            && t.accounts[x].claimStatus == "claimed" && t.accounts[x].lease == Iso(q.until) && a.id in t.busy)
      && (|t.claimed| < q.limit && Sendable(a, busy, q.now) && a.id in q.verdicts && q.verdicts[a.id].Passed? ==>
            SentIn(q.verdicts[a.id].fingerprint, t.claimed))
  {
    var r := RequestLeaves(accounts, busy, q);
    var t := Scan(State(accounts, busy, {}, []), q, 0);
    if ClaimedId(accounts[x].id, t.claimed) {
      var i :| 0 <= i < |t.claimed| && t.claimed[i].id == accounts[x].id;
      assert t.claimed[i] in t.claimed;
      var y :| 0 <= y < r && y < |accounts| && accounts[y].id == t.claimed[i].id && Sendable(accounts[y], busy, q.now);
      assert y == x;
    }
  }
}
