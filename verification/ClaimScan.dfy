/** Handing out access tokens: the paged walk over the account table, and why it gives what one pass
    over all accounts in id order gives. */
module ClaimScan {
  import opened Common
  import opened IsoInstant
  import opened Text

  /** What a claim request reads and writes of an account: its status, its last claim, the end of its
      precheck cooldown, and whether any credential is stored. */
  datatype Account = Account(
    id: int, platform: string, status: string, claimStatus: string, lease: string, retryAfter: string, credential: bool)

  /** The live precheck of an account, fixed per account for the length of a request. A pass carries
      the fingerprint of the token; a rejection the claim status, the cooldown and the account status
      it leaves behind. */
  datatype Verdict = Passed(fingerprint: string) | Rejected(claimStatus: string, retryAfter: string, status: string)

  datatype Item = Item(id: int, fingerprint: string)

  datatype Request = Request(now: Instant, until: Instant, limit: nat, verdicts: map<int, Verdict>)

  const PAGE_SIZE := 50
  const CLOSED := {"subscribed", "invalid", "banned", "account_deactivated"}
  const ACTIVE := {"prechecking", "claimed", "processing"}

  // ---------------------------------------------------------------- which accounts qualify

  /** The filter of the page query. */
  predicate Listed(a: Account) {
    a.platform == "chatgpt" && a.status !in CLOSED
  }

  predicate Reached(text: string, now: Instant) {
    Parse(text).Read? && !Before(now, Parse(text).instant)
  }

  /** A claim recorded on the account blocks it while it is active and not past its lease; a paid one always. */
  predicate ClaimBlocks(a: Account, now: Instant) {
    var status := Lower(Strip(a.claimStatus));
    status == "paid" || (status in ACTIVE && !(status == "claimed" && Reached(a.lease, now)))
  }

  predicate CoolingDown(a: Account, now: Instant) {
    Parse(a.retryAfter).Read? && !Reached(a.retryAfter, now)
  }

  predicate LocallySendable(a: Account, now: Instant) {
    Lower(Strip(a.status)) !in CLOSED && !ClaimBlocks(a, now) && !CoolingDown(a, now) && a.credential
  }

  // ---------------------------------------------------------------- one account

  /** The table, the accounts with an active claim row, the fingerprints sent so far, the claims made. */
  datatype State = State(accounts: seq<Account>, busy: set<int>, sent: set<string>, claimed: seq<Item>)

  function VerdictOf(q: Request, id: int): Verdict {
    if id in q.verdicts then q.verdicts[id] else Rejected("missing_token", "", "")
  }

  predicate Repeated(s: State, fingerprint: string) {
    fingerprint != "" && fingerprint in s.sent
  }

  /** Reserve, precheck and settle the account at position `p`. */
  function Visit(s: State, q: Request, p: nat): State
    requires p < |s.accounts| && Valid(q.until)
  {
    var a := s.accounts[p];
    if !LocallySendable(a, q.now) || a.id in s.busy then s
    else match VerdictOf(q, a.id)
      case Rejected(claimStatus, retryAfter, status) =>
        s.(accounts := s.accounts[p := a.(claimStatus := claimStatus, lease := "", retryAfter := retryAfter, status := status)])
      case Passed(fingerprint) =>
        if Repeated(s, fingerprint) then
          s.(accounts := s.accounts[p := a.(claimStatus := "duplicate_in_claim_round", lease := "", retryAfter := "")])
        else
          s.(accounts := s.accounts[p := a.(claimStatus := "claimed", lease := Iso(q.until), retryAfter := "")],
             busy := s.busy + {a.id}, sent := s.sent + {fingerprint},
             claimed := s.claimed + [Item(a.id, fingerprint)])
  }

  /** A visit touches no other account, moves no account and adds at most one claim, its own. */
  lemma VisitIsLocal(s: State, q: Request, p: nat)
    requires p < |s.accounts| && Valid(q.until)
    ensures var t := Visit(s, q, p);
            && |t.accounts| == |s.accounts| && t.accounts[p].id == s.accounts[p].id
            && (forall x :: 0 <= x < |s.accounts| && x != p ==> t.accounts[x] == s.accounts[x])
            && s.busy <= t.busy <= s.busy + {s.accounts[p].id}
            && |s.claimed| <= |t.claimed| <= |s.claimed| + 1
  {
  }

  // ---------------------------------------------------------------- the simple scan

  predicate Due(a: Account) {
    Listed(a) && a.id > 0
  }

  /** One pass over the accounts in id order, stopping when enough are claimed. */
  function Scan(s: State, q: Request, p: nat): State
    requires Valid(q.until)
    decreases |s.accounts| - p
  {
    if p >= |s.accounts| || |s.claimed| >= q.limit then s
    else if Due(s.accounts[p]) then
      VisitIsLocal(s, q, p);
      Scan(Visit(s, q, p), q, p + 1)
    else Scan(s, q, p + 1)
  }

  ghost predicate Sorted(accounts: seq<Account>) {
    forall i, j :: 0 <= i < j < |accounts| ==> accounts[i].id < accounts[j].id
  }

  lemma {:induction false} NothingDueNothingDone(s: State, q: Request, p: nat, r: nat)
    requires Valid(q.until) && p <= r <= |s.accounts|
    requires forall x :: p <= x < r ==> !Due(s.accounts[x])
    ensures Scan(s, q, p) == Scan(s, q, r)
    decreases r - p
  {
    if p < r { NothingDueNothingDone(s, q, p + 1, r); }
  }

  // ---------------------------------------------------------------- what the simple scan hands out

  /** What the account offers before anything is handed out: its token, when it may be sent and passes. */
  predicate Offers(a: Account, q: Request, busy: set<int>) {
    Due(a) && LocallySendable(a, q.now) && a.id !in busy && VerdictOf(q, a.id).Passed?
  }

  function OfferOf(a: Account, q: Request, busy: set<int>): (r: seq<Item>)
    ensures |r| <= 1
  {
    if Offers(a, q, busy) then [Item(a.id, VerdictOf(q, a.id).fingerprint)] else []
  }

  function OffersFrom(accounts: seq<Account>, q: Request, busy: set<int>, p: nat): seq<Item>
    decreases |accounts| - p
  {
    if p >= |accounts| then [] else OfferOf(accounts[p], q, busy) + OffersFrom(accounts, q, busy, p + 1)
  }

  /** The offers whose fingerprint is not among `sent` and did not come earlier. */
  function FirstOffers(items: seq<Item>, sent: set<string>): seq<Item> {
    if items == [] then []
    else if items[0].fingerprint != "" && items[0].fingerprint in sent then FirstOffers(items[1..], sent)
    else [items[0]] + FirstOffers(items[1..], sent + {items[0].fingerprint})
  }

  function Take<T>(xs: seq<T>, n: int): seq<T> {
    if n <= 0 then [] else if |xs| <= n then xs else xs[..n]
  }

  lemma {:induction false} OffersUntouched(a: seq<Account>, b: seq<Account>, q: Request, busyA: set<int>, busyB: set<int>, p: nat)
    requires |a| == |b| && forall x :: p <= x < |a| ==> a[x] == b[x]
    requires forall x :: p <= x < |a| ==> (a[x].id in busyA <==> a[x].id in busyB)
    ensures OffersFrom(a, q, busyA, p) == OffersFrom(b, q, busyB, p)
    decreases |a| - p
  {
    if p < |a| { OffersUntouched(a, b, q, busyA, busyB, p + 1); }
  }

  lemma TakeAppend<T>(done: seq<T>, first: seq<T>, after: seq<T>, limit: nat)
    requires |done| < limit && |first| <= 1
    ensures done + Take(first + after, limit - |done|) == done + first + Take(after, limit - |done + first|)
  {
  }

  function Fingerprints(items: seq<Item>): set<string> {
    set i | i in items :: i.fingerprint
  }

  /** What a visit adds to the claims, in terms of the offer. */
  lemma VisitSettlesOffer(s: State, q: Request, p: nat)
    requires Valid(q.until) && p < |s.accounts| && Due(s.accounts[p])
    ensures var t := Visit(s, q, p);
            var first := FirstOffers(OfferOf(s.accounts[p], q, s.busy), s.sent);
            t.claimed == s.claimed + first && t.sent == s.sent + Fingerprints(first)
  {
  }

  lemma FirstOffersStep(head: seq<Item>, items: seq<Item>, sent: set<string>)
    requires |head| <= 1
    ensures |FirstOffers(head, sent)| <= 1
    ensures FirstOffers(head + items, sent)
         == FirstOffers(head, sent) + FirstOffers(items, sent + Fingerprints(FirstOffers(head, sent)))
  {
    if head == [] {
      assert head + items == items && sent + Fingerprints([]) == sent;
    } else {
      var x := head[0];
      assert head == [x] && (head + items)[1..] == items;
      if x.fingerprint != "" && x.fingerprint in sent {
        assert sent + Fingerprints([]) == sent;
      } else {
        assert FirstOffers([x], sent) == [x] && Fingerprints([x]) == {x.fingerprint};
      }
    }
  }

  lemma VisitKeepsLaterOffers(s: State, q: Request, p: nat)
    requires Valid(q.until) && Sorted(s.accounts) && p < |s.accounts|
    ensures var t := Visit(s, q, p);
            && |t.accounts| == |s.accounts| && Sorted(t.accounts)
            && OffersFrom(t.accounts, q, t.busy, p + 1) == OffersFrom(s.accounts, q, s.busy, p + 1)
  {
    var t := Visit(s, q, p);
    VisitIsLocal(s, q, p);
    OffersUntouched(s.accounts, t.accounts, q, s.busy, t.busy, p + 1);
  }

  /** The claims of the simple scan, said without scanning: the first `limit` offers that do not
      repeat a fingerprint. */
  lemma {:induction false} ScanTakesFirstOffers(s: State, q: Request, p: nat)
    requires Valid(q.until) && Sorted(s.accounts)
    ensures Scan(s, q, p).claimed
         == s.claimed + Take(FirstOffers(OffersFrom(s.accounts, q, s.busy, p), s.sent), q.limit - |s.claimed|)
    decreases |s.accounts| - p
  {
    if p < |s.accounts| && |s.claimed| < q.limit {
      var head, rest := OfferOf(s.accounts[p], q, s.busy), OffersFrom(s.accounts, q, s.busy, p + 1);
      if Due(s.accounts[p]) {
        var t := Visit(s, q, p);
        VisitKeepsLaterOffers(s, q, p);
        VisitSettlesOffer(s, q, p);
        ScanTakesFirstOffers(t, q, p + 1);
        FirstOffersStep(head, rest, s.sent);
        TakeAppend(s.claimed, FirstOffers(head, s.sent), FirstOffers(rest, t.sent), q.limit);
      } else {
        ScanTakesFirstOffers(s, q, p + 1);
        assert head + rest == rest;
      }
    }
  }

  ghost predicate Ascending(items: seq<Item>) {
    forall i, j :: 0 <= i < j < |items| ==> items[i].id < items[j].id
  }

  ghost predicate Unrepeated(items: seq<Item>) {
    forall i, j :: 0 <= i < j < |items| && items[i].fingerprint != "" ==> items[i].fingerprint != items[j].fingerprint
  }

  /** The item is what some account from position `p` on offered. */
  ghost predicate Offered(item: Item, accounts: seq<Account>, q: Request, busy: set<int>, p: nat) {
    exists x :: p <= x < |accounts| && Offers(accounts[x], q, busy)
      && item == Item(accounts[x].id, VerdictOf(q, accounts[x].id).fingerprint)
  }

  ghost predicate SentIn(fingerprint: string, items: seq<Item>) {
    exists y :: y in items && y.fingerprint == fingerprint
  }

  lemma AscendingCons(x: Item, items: seq<Item>)
    requires Ascending(items) && forall i :: i in items ==> x.id < i.id
    ensures Ascending([x] + items)
  {
    assert forall j :: 0 <= j < |items| ==> items[j] in items;
  }

  lemma {:induction false} OffersSpec(accounts: seq<Account>, q: Request, busy: set<int>, p: nat)
    requires Sorted(accounts)
    ensures Ascending(OffersFrom(accounts, q, busy, p))
    ensures forall i :: i in OffersFrom(accounts, q, busy, p) <==> Offered(i, accounts, q, busy, p)
    decreases |accounts| - p
  {
    if p < |accounts| {
      OffersSpec(accounts, q, busy, p + 1);
      var rest := OffersFrom(accounts, q, busy, p + 1);
      if Offers(accounts[p], q, busy) {
        AscendingCons(Item(accounts[p].id, VerdictOf(q, accounts[p].id).fingerprint), rest);
      }
    }
  }

  lemma {:induction false} FirstOffersAreOffers(items: seq<Item>, sent: set<string>)
    ensures forall x :: x in FirstOffers(items, sent) ==> x in items && (x.fingerprint != "" ==> x.fingerprint !in sent)
  {
    if items != [] {
      FirstOffersAreOffers(items[1..], sent);
      FirstOffersAreOffers(items[1..], sent + {items[0].fingerprint});
    }
  }

  lemma {:induction false} FirstOffersSpec(items: seq<Item>, sent: set<string>)
    requires Ascending(items)
    ensures Ascending(FirstOffers(items, sent)) && Unrepeated(FirstOffers(items, sent))
  {
    if items != [] {
      var x, rest := items[0], items[1..];
      FirstOffersSpec(rest, sent);
      FirstOffersSpec(rest, sent + {x.fingerprint});
      FirstOffersAreOffers(rest, sent + {x.fingerprint});
      AscendingCons(x, FirstOffers(rest, sent + {x.fingerprint}));
    }
  }

  lemma {:induction false} NoFingerprintLost(items: seq<Item>, sent: set<string>, x: Item)
    requires x in items
    ensures x.fingerprint in sent || SentIn(x.fingerprint, FirstOffers(items, sent))
  {
    var first, rest := items[0], items[1..];
    if first.fingerprint != "" && first.fingerprint in sent {
      if x != first { NoFingerprintLost(rest, sent, x); }
    } else {
      var tail := FirstOffers(rest, sent + {first.fingerprint});
      assert FirstOffers(items, sent)[0] == first;
      if x.fingerprint != first.fingerprint {
        NoFingerprintLost(rest, sent + {first.fingerprint}, x);
        if SentIn(x.fingerprint, tail) {
          var y :| y in tail && y.fingerprint == x.fingerprint;
          assert y in FirstOffers(items, sent);
        }
      }
    }
  }

  /** The claims of one request: ids strictly ascend, no fingerprint is sent twice, there are at most
      `limit` of them, each is what an account offered at the start, and when fewer than `limit` come
      back, every token on offer was sent. */
  lemma ClaimsAreSound(accounts: seq<Account>, busy: set<int>, q: Request)
    requires Valid(q.until) && Sorted(accounts)
    ensures var claims := Scan(State(accounts, busy, {}, []), q, 0).claimed;
      && |claims| <= q.limit && Ascending(claims) && Unrepeated(claims)
      && (forall i :: i in claims ==> Offered(i, accounts, q, busy, 0))
      && (|claims| < q.limit ==> forall i :: Offered(i, accounts, q, busy, 0) ==> SentIn(i.fingerprint, claims))
  {
    ScanTakesFirstOffers(State(accounts, busy, {}, []), q, 0);
    var offers := OffersFrom(accounts, q, busy, 0);
    OffersSpec(accounts, q, busy, 0);
    FirstOffersSpec(offers, {});
    FirstOffersAreOffers(offers, {});
    forall i | Offered(i, accounts, q, busy, 0) ensures SentIn(i.fingerprint, FirstOffers(offers, {})) {
      NoFingerprintLost(offers, {}, i);
    }
    TakeKeeps(FirstOffers(offers, {}), q.limit);
  }

  lemma TakeKeeps(items: seq<Item>, n: nat)
    requires Ascending(items) && Unrepeated(items)
    ensures var r := Take(items, n);
            && |r| <= n && Ascending(r) && Unrepeated(r) && (forall x :: x in r ==> x in items) && (|r| < n ==> r == items)
  {
  }

  // ---------------------------------------------------------------- pages

  predicate Selected(a: Account, last: int) {
    Listed(a) && a.id > last
  }

  /** The page query: at most `room` listed accounts with an id above `last`, in id order. */
  function Page(accounts: seq<Account>, last: int, p: nat, room: nat): seq<nat>
    decreases |accounts| - p
  {
    if p >= |accounts| || room == 0 then []
    else if Selected(accounts[p], last) then [p] + Page(accounts, last, p + 1, room - 1)
    else Page(accounts, last, p + 1, room)
  }

  /** The positions ascend from `p`, all are selected, and nothing selected is passed over. */
  ghost predicate IsPage(r: seq<nat>, accounts: seq<Account>, last: int, p: nat) {
    && (forall i :: 0 <= i < |r| ==> p <= r[i] < |accounts| && Selected(accounts[r[i]], last))
    && (forall i, j :: 0 <= i < j < |r| ==> r[i] < r[j])
    && (r != [] ==> NoneSelected(accounts, last, p, r[0]))
    && (forall i :: 0 <= i < |r| - 1 ==> NoneSelected(accounts, last, r[i] + 1, r[i + 1]))
  }

  ghost predicate NoneSelected(accounts: seq<Account>, last: int, p: int, r: int) {
    forall x :: p <= x < r && 0 <= x < |accounts| ==> !Selected(accounts[x], last)
  }

  lemma PageCons(rest: seq<nat>, accounts: seq<Account>, last: int, p: nat)
    requires p < |accounts| && Selected(accounts[p], last) && IsPage(rest, accounts, last, p + 1)
    ensures IsPage([p] + rest, accounts, last, p)
  {
    var r := [p] + rest;
    forall i | 0 <= i < |r| - 1 ensures NoneSelected(accounts, last, r[i] + 1, r[i + 1]) {
      if i > 0 { assert r[i] == rest[i - 1] && r[i + 1] == rest[i]; }
    }
  }

  lemma {:induction false} PageSpec(accounts: seq<Account>, last: int, p: nat, room: nat)
    ensures IsPage(Page(accounts, last, p, room), accounts, last, p) && |Page(accounts, last, p, room)| <= room
    ensures Page(accounts, last, p, room) == [] && room > 0 ==> NoneSelected(accounts, last, p, |accounts|)
    decreases |accounts| - p
  {
    if p < |accounts| && room > 0 {
      if Selected(accounts[p], last) {
        PageSpec(accounts, last, p + 1, room - 1);
        PageCons(Page(accounts, last, p + 1, room - 1), accounts, last, p);
      } else {
        PageSpec(accounts, last, p + 1, room);
      }
    }
  }

  /** Positions below `done` hold ids up to `last`, the others higher ids. */
  ghost predicate Splits(accounts: seq<Account>, last: int, done: nat) {
    && done <= |accounts| && last >= 0
    && (forall x :: 0 <= x < done ==> accounts[x].id <= last)
    && (forall x :: done <= x < |accounts| ==> accounts[x].id > last)
  }

  lemma {:induction false} SplitExists(accounts: seq<Account>) returns (done: nat)
    requires Sorted(accounts)
    ensures Splits(accounts, 0, done) && forall x :: 0 <= x < done ==> !Due(accounts[x])
  {
    done := 0;
    while done < |accounts| && accounts[done].id <= 0
      invariant done <= |accounts|
      invariant forall x :: 0 <= x < done ==> accounts[x].id <= 0
    {
      done := done + 1;
    }
  }

  /** Moving past unselected positions, and past everything once the limit is reached, changes nothing. */
  lemma SkipTo(s: State, q: Request, last: int, done: nat, r: nat)
    requires Valid(q.until) && Splits(s.accounts, last, done) && done <= r <= |s.accounts|
    requires NoneSelected(s.accounts, last, done, r)
    ensures Scan(s, q, done) == Scan(s, q, r)
  {
    NothingDueNothingDone(s, q, done, r);
  }

  /** Row `k` of page `rows`, taken from `from` above id `bound`, is next: what lies before it is done,
      what lies after it is as it was, and the rest of the walk leads to `final`. */
  ghost predicate AtRow(q: Request, from: seq<Account>, bound: int, rows: seq<nat>, k: nat,
                        s: State, last: int, done: nat, final: State)
    requires Valid(q.until)
  {
    && k <= |rows| && |s.accounts| == |from| && last >= bound
    && Sorted(s.accounts) && Splits(s.accounts, last, done)
    && (forall x :: done <= x < |from| ==> s.accounts[x] == from[x])
    && (k < |rows| ==> done <= rows[k] && NoneSelected(from, bound, done, rows[k]))
    && Scan(s, q, done) == final
  }

  lemma NextRow(q: Request, from: seq<Account>, bound: int, rows: seq<nat>, k: nat,
                s: State, last: int, done: nat, final: State)
    requires Valid(q.until) && AtRow(q, from, bound, rows, k, s, last, done, final)
    requires IsPage(rows, from, bound, 0) && k < |rows| && bound >= 0
    ensures rows[k] < |s.accounts| && done <= rows[k]
    ensures var t := if |s.claimed| >= q.limit then s else Visit(s, q, rows[k]);
            AtRow(q, from, bound, rows, k + 1, t, Max(last, s.accounts[rows[k]].id), rows[k] + 1, final)
  {
    var p := rows[k];
    assert Selected(from[p], bound) && from[p] == s.accounts[p];
    assert NoneSelected(s.accounts, last, done, p);
    SkipTo(s, q, last, done, p);
    VisitIsLocal(s, q, p);
    if k + 1 < |rows| { assert NoneSelected(from, bound, p + 1, rows[k + 1]); }
  }

  /** The account table and the claim request that walks it. */
  class ClaimDesk {
    var accounts: seq<Account>
    var busy: set<int>

    constructor (table: seq<Account>, active: set<int>)
      ensures accounts == table && busy == active
    {
      accounts, busy := table, active;
    }

    /** Reserve, precheck and settle one account. */
    method ClaimOne(q: Request, p: nat, sent: set<string>, claimed: seq<Item>)
      returns (sent': set<string>, claimed': seq<Item>)
      requires p < |accounts| && Valid(q.until)
      modifies this
      ensures State(accounts, busy, sent', claimed') == Visit(State(old(accounts), old(busy), sent, claimed), q, p)
    {
      sent', claimed' := sent, claimed;
      var a := accounts[p];
      if !LocallySendable(a, q.now) || a.id in busy {
        return;
      }
      match VerdictOf(q, a.id) {
        case Rejected(claimStatus, retryAfter, status) =>
          accounts := accounts[p := a.(claimStatus := claimStatus, lease := "", retryAfter := retryAfter, status := status)];
        case Passed(fingerprint) =>
          if fingerprint != "" && fingerprint in sent {
            accounts := accounts[p := a.(claimStatus := "duplicate_in_claim_round", lease := "", retryAfter := "")];
          } else {
            accounts := accounts[p := a.(claimStatus := "claimed", lease := Iso(q.until), retryAfter := "")];
            busy := busy + {a.id};
            sent' := sent + {fingerprint};
            claimed' := claimed + [Item(a.id, fingerprint)];
          }
      }
    }

    /** Settle the accounts of one page in turn, stopping when enough are claimed. `done` says how far
        the walk has come, for the proof only. */
    method WalkPage(q: Request, rows: seq<nat>, last: int, sent: set<string>, claimed: seq<Item>, ghost done: nat)
      returns (last': int, sent': set<string>, claimed': seq<Item>, ghost done': nat)
      requires Valid(q.until) && Sorted(accounts) && Splits(accounts, last, done)
      requires rows != [] && IsPage(rows, accounts, last, 0)
      modifies this
      ensures |accounts| == old(|accounts|) && done' > done
      ensures Sorted(accounts) && Splits(accounts, last', done')
      ensures Scan(State(accounts, busy, sent', claimed'), q, done')
           == Scan(State(old(accounts), old(busy), sent, claimed), q, done)
    {
      ghost var from := accounts;
      ghost var final := Scan(State(accounts, busy, sent, claimed), q, done);
      last', sent', claimed', done' := last, sent, claimed, done;
      assert Selected(accounts[rows[0]], last);
      var k := 0;
      while k < |rows|
        invariant AtRow(q, from, last, rows, k, State(accounts, busy, sent', claimed'), last', done', final)
        invariant if k == 0 then done' == done else done' > done
      {
        NextRow(q, from, last, rows, k, State(accounts, busy, sent', claimed'), last', done', final);
        last' := Max(last', accounts[rows[k]].id);
        done' := rows[k] + 1;
        if |claimed'| >= q.limit {
          break;
        }
        sent', claimed' := ClaimOne(q, rows[k], sent', claimed');
        k := k + 1;
      }
    }

    /** Claim tokens page by page. The table and the claims end as the simple scan leaves them. */
    method ClaimAccessTokens(q: Request) returns (claimed: seq<Item>)
      requires Sorted(accounts) && Valid(q.until)
      modifies this
      ensures var s := Scan(State(old(accounts), old(busy), {}, []), q, 0);
              accounts == s.accounts && busy == s.busy && claimed == s.claimed
    {
      claimed := [];
      var sent: set<string> := {};
      var last := 0;
      ghost var final := Scan(State(accounts, busy, {}, []), q, 0);
      ghost var done: nat := SplitExists(accounts);
      NothingDueNothingDone(State(accounts, busy, {}, []), q, 0, done);
      while |claimed| < q.limit
        invariant Sorted(accounts) && Splits(accounts, last, done)
        invariant Scan(State(accounts, busy, sent, claimed), q, done) == final
        decreases |accounts| - done
      {
        var rows := Page(accounts, last, 0, PAGE_SIZE);
        PageSpec(accounts, last, 0, PAGE_SIZE);
        if rows == [] {
          SkipTo(State(accounts, busy, sent, claimed), q, last, done, |accounts|);
          return;
        }
        last, sent, claimed, done := WalkPage(q, rows, last, sent, claimed, done);
      }
    }
  }
}
