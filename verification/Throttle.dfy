/** The persistent failure throttle: a windowed counter with a cooldown, one row per bucket. */
module Throttle {
  import opened Common

  /** A row's failure count, window start and end of block; times are whole seconds. */
  datatype Row = Row(count: nat, start: int, blockedUntil: int)

  datatype Limits = Limits(maximum: int, window: int, cooldown: int)

  ghost predicate ValidLimits(l: Limits) {
    2 <= l.maximum <= 100 && 60 <= l.window <= 86400 && 60 <= l.cooldown <= 86400
  }

  /** Each limit is what is configured for it, or its default, cut off at the ends of its range. */
  function ThrottleLimits(maximum: Option<int>, window: Option<int>, cooldown: Option<int>): (l: Limits)
    ensures ValidLimits(l)
    ensures l.maximum == Clamped(maximum, 5, 2, 100)
    ensures l.window == Clamped(window, 600, 60, 86400)
    ensures l.cooldown == Clamped(cooldown, 900, 60, 86400)
  {
    Limits(BoundedInteger(maximum, 5, 2, 100),
           BoundedInteger(window, 600, 60, 86400),
           BoundedInteger(cooldown, 900, 60, 86400))
  }

  function BlockedUntil(row: Option<Row>): int {
    if row.Some? then row.value.blockedUntil else 0
  }

  predicate Blocks(row: Option<Row>, now: int) {
    BlockedUntil(row) > now
  }

  /** One failure, as the atomic upsert writes it. */
  function Register(row: Option<Row>, now: int, l: Limits): Row {
    match row
    case None => Row(1, now, if l.maximum <= 1 then now + l.cooldown else 0)
    case Some(r) =>
      var reset := r.start <= now - l.window;
      var count := if reset then 1 else r.count + 1;
      var latest := if r.blockedUntil > now + l.cooldown then r.blockedUntil else now + l.cooldown;
      Row(count,
          if reset then now else r.start,
          if count >= l.maximum then latest else if reset then 0 else r.blockedUntil)
  }

  /** One failure, as the row-locking path writes it. */
  function RegisterLocked(row: Option<Row>, now: int, l: Limits): Row {
    var r := if row.Some? then row.value else Row(0, now, 0);
    var current := if r.start == 0 || now - r.start >= l.window then Row(0, now, 0) else r;
    var counted := current.(count := current.count + 1);
    if counted.count >= l.maximum
    then counted.(blockedUntil := Max(counted.blockedUntil, now + l.cooldown))
    else counted
  }

  /** The two database paths write the same row exactly when a window that starts at the epoch, if
      there is one, is already over. Stored rows count at least one failure. */
  lemma PathsAgreeIff(row: Option<Row>, now: int, l: Limits)
    requires ValidLimits(l) && (row.Some? ==> row.value.count >= 1)
    ensures Register(row, now, l) == RegisterLocked(row, now, l)
            <==> (row.Some? && row.value.start == 0 ==> now >= l.window)
  {
  }

  /** A failure registered without having passed the gate shortens a live block exactly when it
      opens a new window. */
  lemma UngatedFailureShortensIff(row: Row, now: int, l: Limits)
    requires ValidLimits(l) && row.blockedUntil > now >= 0
    ensures Register(Some(row), now, l).blockedUntil < row.blockedUntil <==> row.start <= now - l.window
  {
  }

  // ---------------------------------------------------------------- serialised attempts

  /** The bucket after a list of failing attempts, each gated first, and the times of those admitted. */
  function Attempts(times: seq<int>, l: Limits): (Option<Row>, seq<int>) {
    if times == [] then (None, [])
    else
      var (row, admitted) := Attempts(times[..|times| - 1], l);
      var now := times[|times| - 1];
      if Blocks(row, now) then (row, admitted) else (Some(Register(row, now, l)), admitted + [now])
  }

  ghost predicate Clock(times: seq<int>) {
    (forall i :: 0 <= i < |times| ==> times[i] >= 0) && (forall i, j :: 0 <= i < j < |times| ==> times[i] <= times[j])
  }

  function PerWindow(l: Limits): int
    requires l.cooldown > 0
  {
    l.maximum + (l.window - 1) / l.cooldown
  }

  function CountIn(ts: seq<int>, lo: int, hi: int): nat {
    if ts == [] then 0
    else CountIn(ts[..|ts| - 1], lo, hi) + if lo <= ts[|ts| - 1] < hi then 1 else 0
  }

  lemma {:induction false} NoneBefore(ts: seq<int>, lo: int, hi: int)
    requires Clock(ts) && (ts == [] || ts[|ts| - 1] < lo)
    ensures CountIn(ts, lo, hi) == 0
  {
    if ts != [] {
      var front := ts[..|ts| - 1];
      assert front != [] ==> front[|front| - 1] <= ts[|ts| - 1];
      NoneBefore(front, lo, hi);
    }
  }

  /** What the row remembers of the admitted failures. */
  ghost predicate Remembers(row: Option<Row>, admitted: seq<int>, l: Limits) {
    match row
    case None => admitted == []
    case Some(r) =>
      && |admitted| > 0
      && (var last := admitted[|admitted| - 1];
          && 0 <= r.start <= last < r.start + l.window
          && r.count == CountIn(admitted, r.start, r.start + l.window) >= 1
          && (r.count < l.maximum ==> r.blockedUntil == 0)
          && (r.count >= l.maximum ==>
                r.blockedUntil == last + l.cooldown && (r.count - l.maximum) * l.cooldown <= last - r.start))
  }

  lemma FirstRemembers(now: int, l: Limits)
    requires ValidLimits(l) && now >= 0
    ensures Remembers(Some(Register(None, now, l)), [now], l)
  {
    assert [now][..0] == [];
    assert CountIn([now], now, now + l.window) == 1;
  }

  /** One attempt keeps what the row remembers. */
  lemma AttemptRemembers(row: Option<Row>, admitted: seq<int>, now: int, l: Limits)
    requires ValidLimits(l) && now >= 0 && Remembers(row, admitted, l) && Clock(admitted)
    requires admitted != [] ==> admitted[|admitted| - 1] <= now
    requires !Blocks(row, now)
    ensures Remembers(Some(Register(row, now, l)), admitted + [now], l) && Clock(admitted + [now])
  {
    if row.Some? {
      StepRemembers(row.value, admitted, now, l);
    } else {
      FirstRemembers(now, l);
      assert admitted + [now] == [now];
    }
  }

  lemma {:induction false} AttemptsRemember(times: seq<int>, l: Limits)
    requires Clock(times) && ValidLimits(l)
    ensures Remembers(Attempts(times, l).0, Attempts(times, l).1, l)
    ensures Clock(Attempts(times, l).1)
    ensures Attempts(times, l).1 != [] ==> Attempts(times, l).1[|Attempts(times, l).1| - 1] <= times[|times| - 1]
  {
    if times != [] {
      var front := times[..|times| - 1];
      var now := times[|times| - 1];
      AttemptsRemember(front, l);
      var (row, admitted) := Attempts(front, l);
      assert front != [] ==> front[|front| - 1] <= now;
      if !Blocks(row, now) { AttemptRemembers(row, admitted, now, l); }
    }
  }

  lemma StepRemembers(r: Row, admitted: seq<int>, now: int, l: Limits)
    requires ValidLimits(l) && Remembers(Some(r), admitted, l) && !Blocks(Some(r), now)
    requires admitted[|admitted| - 1] <= now
    requires Clock(admitted)
    ensures Remembers(Some(Register(Some(r), now, l)), admitted + [now], l)
  {
    var last := admitted[|admitted| - 1];
    assert (admitted + [now])[..|admitted|] == admitted;
    if r.start <= now - l.window {
      NoneBefore(admitted, now, now + l.window);
    }
    if r.start > now - l.window && r.count >= l.maximum {
      assert (r.count + 1 - l.maximum) * l.cooldown == (r.count - l.maximum) * l.cooldown + l.cooldown;
    }
  }

  lemma DivisionBound(k: int, d: int, n: int)
    requires d > 0 && k * d <= n
    ensures k <= n / d
  {
    assert n == d * (n / d) + n % d;
    if k > n / d {
      MoreWindows(n / d + 1, k, d);
      assert false;
    }
  }

  lemma MoreWindows(a: int, b: int, c: int)
    requires a <= b && c >= 0
    ensures a * c <= b * c
  {
  }

  lemma CountFitsWindow(r: Row, last: int, l: Limits)
    requires ValidLimits(l) && last < r.start + l.window
    requires r.count >= l.maximum ==> (r.count - l.maximum) * l.cooldown <= last - r.start
    ensures r.count <= PerWindow(l)
  {
    if r.count >= l.maximum {
      DivisionBound(r.count - l.maximum, l.cooldown, l.window - 1);
    } else {
      DivisionBound(0, l.cooldown, l.window - 1);
    }
  }

  /** One window admits at most maximum + (window - 1) / cooldown failures. */
  lemma WindowBound(times: seq<int>, l: Limits)
    requires Clock(times) && ValidLimits(l)
    ensures Attempts(times, l).0.Some? ==>
      var start := Attempts(times, l).0.value.start;
      Attempts(times, l).0.value.count == CountIn(Attempts(times, l).1, start, start + l.window) <= PerWindow(l)
  {
    AttemptsRemember(times, l);
    var (row, admitted) := Attempts(times, l);
    if row.Some? {
      CountFitsWindow(row.value, admitted[|admitted| - 1], l);
    }
  }

  /** Until its end, a block stands whatever is attempted: no failure is admitted and the row stays. */
  lemma {:induction false} LiveBlockStands(times: seq<int>, more: seq<int>, l: Limits)
    requires forall i :: 0 <= i < |more| ==> Blocks(Attempts(times, l).0, more[i])
    ensures Attempts(times + more, l) == Attempts(times, l)
  {
    if more == [] {
      assert times + more == times;
    } else {
      var front := more[..|more| - 1];
      assert (times + more)[..|times + more| - 1] == times + front;
      LiveBlockStands(times, front, l);
    }
  }

  // ---------------------------------------------------------------- any interval

  /** Admitted failures from `lo` on, accounted for by whole windows: `windows` finished ones, each
      at most full, and `open` failures of a window that started inside the interval. */
  ghost predicate Accounted(n: nat, windows: nat, open: nat, start: int, lo: int, hi: int, l: Limits)
    requires l.cooldown > 0
  {
    && n <= open + windows * PerWindow(l)
    && open <= PerWindow(l)
    && (windows >= 1 ==> lo + (windows - 1) * l.window <= start < hi)
  }

  /** One more admitted failure inside the interval joins the open window or opens a new one. */
  lemma AccountOneMore(n: nat, windows: nat, row: Row, now: int, lo: int, hi: int, l: Limits)
      returns (next: nat)
    requires ValidLimits(l) && lo <= now < hi && row.start <= now
    requires Accounted(n, windows, row.count, row.start, lo, hi, l)
    requires Register(Some(row), now, l).count <= PerWindow(l)
    ensures var r := Register(Some(row), now, l);
            Accounted(n + 1, next, r.count, r.start, lo, hi, l)
  {
    if row.start <= now - l.window {
      next := windows + 1;
      assert (windows + 1) * PerWindow(l) == windows * PerWindow(l) + PerWindow(l);
      if windows >= 1 {
        assert windows * l.window == (windows - 1) * l.window + l.window;
      }
    } else {
      next := windows;
    }
  }

  lemma {:induction false} AccountFor(times: seq<int>, l: Limits, lo: int, hi: int)
      returns (windows: nat, open: nat, start: int)
    requires Clock(times) && ValidLimits(l) && lo <= hi
    ensures Accounted(CountIn(Attempts(times, l).1, lo, hi), windows, open, start, lo, hi, l)
    ensures var (row, admitted) := Attempts(times, l);
            CountIn(admitted, lo, hi) > 0 && row.Some? && admitted != [] && admitted[|admitted| - 1] < hi ==>
              open == row.value.count && start == row.value.start
  {
    windows, open, start := 0, 0, lo;
    assert Accounted(0, 0, 0, lo, lo, hi, l) by {
      assert (l.window - 1) / l.cooldown >= 0;
    }
    if times != [] {
      var front := times[..|times| - 1];
      var now := times[|times| - 1];
      windows, open, start := AccountFor(front, l, lo, hi);
      AttemptsRemember(front, l);
      AttemptsRemember(times, l);
      WindowBound(times, l);
      var (row, admitted) := Attempts(front, l);
      var after := Attempts(times, l).1;
      if !Blocks(row, now) {
        assert after[..|after| - 1] == admitted;
        if now < lo {
          NoneBefore(after, lo, hi);
          windows, open, start := 0, 0, lo;
        } else if now < hi {
          var r := Attempts(times, l).0.value;
          if CountIn(admitted, lo, hi) == 0 {
            windows, open, start := 0, r.count, r.start;
          } else {
            windows := AccountOneMore(CountIn(admitted, lo, hi), windows, row.value, now, lo, hi, l);
            open, start := r.count, r.start;
          }
        }
      }
    }
  }

  /** Any interval of `length` seconds admits at most (length / window + 2) windows' worth of
      failures, wherever it lies relative to the windows. */
  lemma IntervalBound(times: seq<int>, l: Limits, lo: int, length: nat)
    requires Clock(times) && ValidLimits(l)
    ensures CountIn(Attempts(times, l).1, lo, lo + length) <= (length / l.window + 2) * PerWindow(l)
  {
    var windows, open, start := AccountFor(times, l, lo, lo + length);
    AccountedBound(CountIn(Attempts(times, l).1, lo, lo + length), windows, open, start, lo, length, l);
  }

  lemma AccountedBound(n: nat, windows: nat, open: nat, start: int, lo: int, length: nat, l: Limits)
    requires ValidLimits(l) && Accounted(n, windows, open, start, lo, lo + length, l)
    ensures n <= (length / l.window + 2) * PerWindow(l)
  {
    DivisionBound(if windows >= 1 then windows - 1 else 0, l.window, length);
    MoreWindows(windows + 1, length / l.window + 2, PerWindow(l));
    assert (windows + 1) * PerWindow(l) == windows * PerWindow(l) + PerWindow(l);
  }

  // ---------------------------------------------------------------- many buckets

  /** What requests do to the table: a gated failure, or a success that clears its bucket. */
  datatype Visit = Fail(key: string, now: int) | Clear(key: string)

  function RowOf(rows: map<string, Row>, key: string): Option<Row> {
    if key in rows then Some(rows[key]) else None
  }

  function VisitRows(rows: map<string, Row>, v: Visit, l: Limits): map<string, Row> {
    match v
    case Clear(key) => rows - {key}
    case Fail(key, now) =>
      if Blocks(RowOf(rows, key), now) then rows else rows[key := Register(RowOf(rows, key), now, l)]
  }

  function Table(visits: seq<Visit>, l: Limits): map<string, Row> {
    if visits == [] then map[]
    else VisitRows(Table(visits[..|visits| - 1], l), visits[|visits| - 1], l)
  }

  /** The failing attempts on a bucket since it was last cleared. */
  function Since(visits: seq<Visit>, key: string): seq<int> {
    if visits == [] then []
    else
      var before := Since(visits[..|visits| - 1], key);
      var last := visits[|visits| - 1];
      if last.key != key then before else if last.Fail? then before + [last.now] else []
  }

  /** A bucket is what its own attempts since its last reset make it: no other bucket matters, and a
      reset makes it as new. */
  lemma {:induction false} BucketsAreIndependent(visits: seq<Visit>, key: string, l: Limits)
    ensures RowOf(Table(visits, l), key) == Attempts(Since(visits, key), l).0
  {
    if visits != [] {
      var front := visits[..|visits| - 1];
      var last := visits[|visits| - 1];
      BucketsAreIndependent(front, key, l);
      if last.Fail? && last.key == key {
        assert Since(visits, key)[..|Since(front, key)|] == Since(front, key);
      }
    }
  }

  function FailTimes(visits: seq<Visit>): seq<int> {
    if visits == [] then []
    else
      var last := visits[|visits| - 1];
      FailTimes(visits[..|visits| - 1]) + if last.Fail? then [last.now] else []
  }

  lemma {:induction false} SinceIsTimed(visits: seq<Visit>, key: string)
    requires Clock(FailTimes(visits))
    ensures Clock(Since(visits, key))
    ensures forall t :: t in Since(visits, key) ==> t in FailTimes(visits)
  {
    if visits != [] {
      var front := visits[..|visits| - 1];
      var last := visits[|visits| - 1];
      var times := FailTimes(visits);
      assert forall i :: 0 <= i < |FailTimes(front)| ==> times[i] == FailTimes(front)[i];
      SinceIsTimed(front, key);
      if last.Fail? && last.key == key {
        var before := Since(front, key);
        assert Since(visits, key) == before + [last.now];
        assert times[|times| - 1] == last.now;
        forall k | 0 <= k < |before| ensures 0 <= before[k] <= last.now {
          assert before[k] in before;
          var i :| 0 <= i < |FailTimes(front)| && FailTimes(front)[i] == before[k];
        }
      }
    }
  }

  /** In any mix of failures and resets over any buckets: each bucket's counter is the number of
      failures admitted in its window since its last reset, and keeps the bound of one window. */
  lemma EveryBucketBounded(visits: seq<Visit>, key: string, l: Limits)
    requires Clock(FailTimes(visits)) && ValidLimits(l) && key in Table(visits, l)
    ensures var row, admitted := Table(visits, l)[key], Attempts(Since(visits, key), l).1;
            row.count == CountIn(admitted, row.start, row.start + l.window) <= PerWindow(l)
  {
    BucketsAreIndependent(visits, key, l);
    SinceIsTimed(visits, key);
    WindowBound(Since(visits, key), l);
  }

  // ---------------------------------------------------------------- the table

  /** All buckets; other buckets are never touched. */
  class ThrottleTable {
    var rows: map<string, Row>

    function Find(key: string): Option<Row>
      reads this
    {
      if key in rows then Some(rows[key]) else None
    }

    /** Refuses an attempt under a live block and says how long it lasts. */
    method Enforce(key: string, now: int) returns (retryAfter: Option<int>)
      ensures retryAfter.Some? <==> Blocks(Find(key), now)
      ensures retryAfter.Some? ==> retryAfter.value == BlockedUntil(Find(key)) - now >= 1
    {
      var blockedUntil := if key in rows then rows[key].blockedUntil else 0;
      if blockedUntil > now {
        return Some(Max(1, blockedUntil - now));
      }
      return None;
    }

    method RegisterFailure(key: string, now: int, l: Limits) returns (blockedUntil: int)
      modifies this
      ensures rows == old(rows)[key := Register(old(Find(key)), now, l)]
      ensures !Blocks(old(Find(key)), now) ==> rows == VisitRows(old(rows), Fail(key, now), l)
      ensures blockedUntil == rows[key].blockedUntil
    {
      if key !in rows {
        rows := rows[key := Row(1, now, if l.maximum <= 1 then now + l.cooldown else 0)];
      } else {
        var r := rows[key];
        var reset := r.start <= now - l.window;
        var count := if reset then 1 else r.count + 1;
        var blocked := r.blockedUntil;
        if count >= l.maximum {
          blocked := Max(blocked, now + l.cooldown);
        } else if reset {
          blocked := 0;
        }
        rows := rows[key := Row(count, if reset then now else r.start, blocked)];
      }
      return rows[key].blockedUntil;
    }

    method Reset(key: string)
      modifies this
      ensures forall l :: rows == VisitRows(old(rows), Clear(key), l)
    {
      rows := rows - {key};
    }
  }
}
