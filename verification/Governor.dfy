/**
 The call ceiling many processes share: one row holding a window start, a count and a kill epoch.

 The window is fixed, not sliding: it restarts at the first call at least 24 hours after it began. A
 run is any sequence of reservations and stops, from any processes, in the order their transactions
 commit; every process may bring its own ceiling.
 */
module Governor {
  import opened Results

  const WINDOW_MS: nat := 86_400_000

  datatype Row = Row(windowStartedAt: int, calls: nat, killEpoch: nat)

  datatype Event = Reserve(now: int, maxCalls: nat) | Stop

  predicate Expired(r: Row, now: int) {
    now - r.windowStartedAt >= WINDOW_MS
  }

  function Renewed(r: Row, now: int): Row {
    if Expired(r, now) then r.(windowStartedAt := now, calls := 0) else r
  }

  predicate Succeeds(r: Row, e: Event) {
    e.Reserve? && Renewed(r, e.now).calls < e.maxCalls
  }

  /** A refused reservation rolls its whole transaction back, the new window included. */
  function Step(r: Row, e: Event): Row {
    match e
    case Reserve(now, _) =>
      if Succeeds(r, e) then Renewed(r, now).(calls := Renewed(r, now).calls + 1) else r
    case Stop => r.(killEpoch := r.killEpoch + 1)
  }

  function Run(created: int, es: seq<Event>): Row {
    if es == [] then Row(created, 0, 0) else Step(Run(created, es[..|es| - 1]), es[|es| - 1])
  }

  /** What `status` shows of the count. */
  function ShownCalls(r: Row, now: int): nat {
    if Expired(r, now) then 0 else r.calls
  }

  /** Whether a poll aborts a call of the given epoch. */
  predicate PollAborts(r: Row, epoch: nat, readFails: bool) {
    readFails || r.killEpoch != epoch
  }

  // ----- the database row and the governors over it -----

  class Database {
    var row: Row

    constructor (now: int)
      ensures row == Row(now, 0, 0)
    {
      row := Row(now, 0, 0);
    }
  }

  type CallId = nat
  type Ceiling = n: nat | n > 0 witness 1

  class Governor {
    const db: Database
    const maxCalls: Ceiling
    var active: map<CallId, nat>
    var aborted: set<CallId>

    constructor (db: Database, maxCalls: Ceiling)
      ensures this.db == db && this.maxCalls == maxCalls && active == map[] && aborted == {}
    {
      this.db, this.maxCalls, active, aborted := db, maxCalls, map[], {};
    }

    /** Counts one call and hands out the epoch it belongs to. */
    method ReserveCall(now: int) returns (epoch: Option<nat>)
      modifies db
      ensures db.row == Step(old(db.row), Reserve(now, maxCalls))
      ensures epoch == if Succeeds(old(db.row), Reserve(now, maxCalls)) then Some(old(db.row.killEpoch)) else None
      ensures var renewed := now - old(db.row.windowStartedAt) >= 86_400_000;
              var before := if renewed then 0 else old(db.row.calls);
              && (epoch.Some? <==> before < maxCalls)
              && db.row == if epoch.None? then old(db.row)
                           else Row(if renewed then now else old(db.row.windowStartedAt), before + 1, old(db.row.killEpoch))
    {
      var row := db.row;
      if now - row.windowStartedAt >= WINDOW_MS { row := row.(windowStartedAt := now, calls := 0); }
      if row.calls >= maxCalls { return None; }
      db.row := row.(calls := row.calls + 1);
      return Some(row.killEpoch);
    }

    /** The start of `invoke`: the call is watched from here on. */
    method Begin(id: CallId, now: int) returns (ok: bool)
      requires id !in active
      modifies this, db
      ensures db.row == Step(old(db.row), Reserve(now, maxCalls))
      ensures ok <==> Succeeds(old(db.row), Reserve(now, maxCalls))
      ensures active == if ok then old(active)[id := old(db.row.killEpoch)] else old(active)
      ensures aborted == old(aborted)
    {
      var epoch := ReserveCall(now);
      if epoch.None? { return false; }
      active := active[id := epoch.value];
      return true;
    }

    /** One tick of the poll timer of one call; a row that cannot be read aborts the call as well. */
    method Poll(id: CallId, readFails: bool)
      requires id in active
      modifies this
      ensures active == old(active)
      ensures aborted == old(aborted) + if PollAborts(db.row, active[id], readFails) then {id} else {}
    {
      if readFails || db.row.killEpoch != active[id] { aborted := aborted + {id}; }
    }

    method Finish(id: CallId)
      modifies this
      ensures active == old(active) - {id} && aborted == old(aborted)
    {
      active := active - {id};
    }

    /** Aborts what runs here at once, and tells every other process through the epoch. */
    method StopAll() returns (local: nat, epoch: nat)
      modifies this, db
      ensures db.row == Step(old(db.row), Stop) && epoch == db.row.killEpoch == old(db.row.killEpoch) + 1
      ensures aborted == old(aborted) + active.Keys && active == old(active) && local == |active|
    {
      aborted := aborted + active.Keys;
      db.row := db.row.(killEpoch := db.row.killEpoch + 1);
      return |active|, db.row.killEpoch;
    }

    method Status(now: int) returns (calls: nat)
      ensures calls == ShownCalls(db.row, now)
      ensures calls == if now - db.row.windowStartedAt >= 86_400_000 then 0 else db.row.calls
      ensures calls < maxCalls <==> Succeeds(db.row, Reserve(now, maxCalls))
    {
      return if now - db.row.windowStartedAt >= WINDOW_MS then 0 else db.row.calls;
    }
  }

  // ----- the bound -----

  /** Successful reservations at or after `y`. */
  function CountFrom(created: int, es: seq<Event>, y: int): nat {
    if es == [] then 0
    else
      var rest, last := es[..|es| - 1], es[|es| - 1];
      CountFrom(created, rest, y) + if Succeeds(Run(created, rest), last) && y <= last.now then 1 else 0
  }

  /** Successful reservations in the half-open day that starts at `x`. */
  function CountIn(created: int, es: seq<Event>, x: int): nat {
    if es == [] then 0
    else
      var rest, last := es[..|es| - 1], es[|es| - 1];
      CountIn(created, rest, x)
      + if Succeeds(Run(created, rest), last) && x <= last.now < x + WINDOW_MS then 1 else 0
  }

  predicate Monotone(created: int, es: seq<Event>) {
    && (forall i | 0 <= i < |es| && es[i].Reserve? :: created <= es[i].now)
    && (forall i, j | 0 <= i < j < |es| && es[i].Reserve? && es[j].Reserve? :: es[i].now <= es[j].now)
  }

  predicate Capped(es: seq<Event>, cap: nat) {
    forall i | 0 <= i < |es| && es[i].Reserve? :: es[i].maxCalls <= cap
  }

  lemma {:induction false} CountStaysWithinCap(created: int, es: seq<Event>, cap: nat)
    requires Capped(es, cap)
    ensures Run(created, es).calls <= cap
  {
    if es != [] { CountStaysWithinCap(created, es[..|es| - 1], cap); }
  }

  lemma {:induction false} InIsFrom(created: int, es: seq<Event>, x: int)
    ensures CountIn(created, es, x) <= CountFrom(created, es, x)
  {
    if es != [] { InIsFrom(created, es[..|es| - 1], x); }
  }

  /** Where the successes lie relative to the current window. */
  lemma {:induction false} SuccessesAreLocated(created: int, es: seq<Event>, cap: nat, y: int)
    requires Capped(es, cap)
    ensures var r := Run(created, es);
            && (r.windowStartedAt + WINDOW_MS <= y ==> CountFrom(created, es, y) == 0)
            && (r.windowStartedAt <= y ==> CountFrom(created, es, y) <= r.calls)
            && (r.windowStartedAt - WINDOW_MS < y ==> CountFrom(created, es, y) <= cap + r.calls)
  {
    if es != [] {
      SuccessesAreLocated(created, es[..|es| - 1], cap, y);
      CountStaysWithinCap(created, es[..|es| - 1], cap);
    }
  }

  lemma {:induction false} WindowStartedInThePast(created: int, es: seq<Event>, now: int)
    requires created <= now && forall i | 0 <= i < |es| && es[i].Reserve? :: es[i].now <= now
    ensures Run(created, es).windowStartedAt <= now
  {
    if es != [] { WindowStartedInThePast(created, es[..|es| - 1], now); }
  }

  /** Under a clock that does not go back, no day sees more than twice the ceiling. */
  lemma {:induction false} AtMostTwicePerDay(created: int, es: seq<Event>, cap: nat, x: int)
    requires Monotone(created, es) && Capped(es, cap)
    ensures CountIn(created, es, x) <= 2 * cap
  {
    if es != [] {
      var rest, last := es[..|es| - 1], es[|es| - 1];
      AtMostTwicePerDay(created, rest, cap, x);
      if Succeeds(Run(created, rest), last) && x <= last.now < x + WINDOW_MS {
        WindowStartedInThePast(created, rest, last.now);
        SuccessesAreLocated(created, es, cap, x);
        CountStaysWithinCap(created, es, cap);
        InIsFrom(created, es, x);
        assert Run(created, es).windowStartedAt <= last.now;
      }
    }
  }

  /** Nothing succeeded a day or more after the current window began. */
  lemma {:induction false} NothingLater(created: int, es: seq<Event>, y: int)
    requires Run(created, es).windowStartedAt + WINDOW_MS <= y
    ensures CountFrom(created, es, y) == 0
  {
    if es != [] { NothingLater(created, es[..|es| - 1], y); }
  }

  lemma MonotonePrefix(created: int, es: seq<Event>)
    requires es != [] && Monotone(created, es)
    ensures Monotone(created, es[..|es| - 1])
    ensures es[|es| - 1].Reserve? ==> Run(created, es[..|es| - 1]).windowStartedAt <= es[|es| - 1].now
  {
    if es[|es| - 1].Reserve? { WindowStartedInThePast(created, es[..|es| - 1], es[|es| - 1].now); }
  }

  /** The stored count is the number of calls since the window began. */
  lemma {:induction false} CountedSinceTheWindow(created: int, es: seq<Event>)
    requires Monotone(created, es)
    ensures Run(created, es).calls == CountFrom(created, es, Run(created, es).windowStartedAt)
  {
    if es != [] {
      var rest, last := es[..|es| - 1], es[|es| - 1];
      MonotonePrefix(created, es);
      CountedSinceTheWindow(created, rest);
      if Succeeds(Run(created, rest), last) && Expired(Run(created, rest), last.now) {
        NothingLater(created, rest, last.now);
      }
    }
  }

  /** The window began when the log was created, or with the first call a day or more after the one before. */
  lemma {:induction false} WindowBegan(created: int, es: seq<Event>) returns (k: nat)
    ensures k <= |es|
    ensures k == |es| ==> Run(created, es).windowStartedAt == created
    ensures k < |es| ==>
      && es[k].Reserve? && Succeeds(Run(created, es[..k]), es[k]) && Run(created, es).windowStartedAt == es[k].now
      && es[k].now >= Run(created, es[..k]).windowStartedAt + 86_400_000
  {
    k := |es|;
    if es != [] {
      var rest, last := es[..|es| - 1], es[|es| - 1];
      if last.Reserve? && Succeeds(Run(created, rest), last) && Expired(Run(created, rest), last.now) {
        k := |rest|;
      } else {
        var j := WindowBegan(created, rest);
        if j < |rest| {
          k := j;
          assert rest[..j] == es[..j];
        }
      }
    }
  }

  /**
   Under a clock that does not go back, a call is let through exactly if fewer than its ceiling were since
   the window began, or that was a day or more ago.
   */
  lemma ReservesIff(created: int, es: seq<Event>, now: int, cap: nat)
    requires Monotone(created, es)
    ensures var start := Run(created, es).windowStartedAt;
            Succeeds(Run(created, es), Reserve(now, cap)) <==>
            (if now >= start + 86_400_000 then 0 else CountFrom(created, es, start)) < cap
  {
    CountedSinceTheWindow(created, es);
  }

  /** Two different windows start at least a day apart, whatever the clock does. */
  lemma {:induction false} WindowsAreADayApart(created: int, es: seq<Event>, k: nat)
    requires k <= |es|
    ensures var first, second := Run(created, es[..k]).windowStartedAt, Run(created, es).windowStartedAt;
            first == second || second >= first + WINDOW_MS
  {
    if k < |es| {
      assert es[..|es| - 1][..k] == es[..k];
      WindowsAreADayApart(created, es[..|es| - 1], k);
    } else {
      assert es[..k] == es;
    }
  }

  // ----- the bound is reached -----

  /** `n` reservations at one instant. */
  function Burst(now: int, cap: nat, n: nat): seq<Event> {
    if n == 0 then [] else Burst(now, cap, n - 1) + [Reserve(now, cap)]
  }

  lemma OneMore(created: int, es: seq<Event>, e: Event, x: int)
    ensures Run(created, es + [e]) == Step(Run(created, es), e)
    ensures CountIn(created, es + [e], x)
            == CountIn(created, es, x) + if Succeeds(Run(created, es), e) && x <= e.now < x + WINDOW_MS then 1 else 0
  {
    assert (es + [e])[..|es|] == es;
  }

  lemma ReserveAgain(r: Row, now: int, cap: nat)
    requires Renewed(r, now).calls < cap
    ensures Succeeds(r, Reserve(now, cap))
    ensures Renewed(Step(r, Reserve(now, cap)), now) == Renewed(r, now).(calls := Renewed(r, now).calls + 1)
  {
  }

  lemma {:induction false} BurstSucceeds(created: int, es: seq<Event>, now: int, cap: nat, n: nat, x: int)
    requires n <= cap && x <= now < x + WINDOW_MS
    requires Renewed(Run(created, es), now).calls == 0
    ensures var all := es + Burst(now, cap, n);
            && CountIn(created, all, x) == CountIn(created, es, x) + n
            && Renewed(Run(created, all), now) == Renewed(Run(created, es), now).(calls := n)
  {
    if n == 0 {
      assert es + Burst(now, cap, 0) == es;
    } else {
      BurstSucceeds(created, es, now, cap, n - 1, x);
      var before := es + Burst(now, cap, n - 1);
      ReserveAgain(Run(created, before), now, cap);
      OneMore(created, before, Reserve(now, cap), x);
      assert es + Burst(now, cap, n) == before + [Reserve(now, cap)];
    }
  }

  lemma {:induction false} BurstIsMonotone(now: int, cap: nat, n: nat)
    ensures |Burst(now, cap, n)| == n && forall i | 0 <= i < n :: Burst(now, cap, n)[i] == Reserve(now, cap)
  {
    if n > 0 { BurstIsMonotone(now, cap, n - 1); }
  }

  lemma TwoBursts(a: int, b: int, cap: nat)
    requires 0 <= a <= b
    ensures var es := Burst(a, cap, cap) + Burst(b, cap, cap); Monotone(0, es) && Capped(es, cap)
  {
    BurstIsMonotone(a, cap, cap);
    BurstIsMonotone(b, cap, cap);
    var es := Burst(a, cap, cap) + Burst(b, cap, cap);
    assert forall i | 0 <= i < |es| :: es[i] == if i < cap then Reserve(a, cap) else Reserve(b, cap);
  }

  /** Twice the ceiling within two milliseconds: at the end of one window and the start of the next. */
  lemma TwiceIsReached(cap: nat)
    requires cap > 0
    ensures exists es, x :: Monotone(0, es) && Capped(es, cap) && CountIn(0, es, x) == 2 * cap
  {
    var x := WINDOW_MS - 1;
    var first, second := Burst(x, cap, cap), Burst(WINDOW_MS, cap, cap);
    TwoBursts(x, WINDOW_MS, cap);
    BurstSucceeds(0, [], x, cap, cap, x);
    assert [] + first == first;
    BurstSucceeds(0, first, WINDOW_MS, cap, cap, x);
    assert CountIn(0, first + second, x) == 2 * cap;
  }

  // ----- the kill epoch -----

  lemma {:induction false} EpochCountsStops(created: int, es: seq<Event>, k: nat)
    requires k <= |es|
    ensures Run(created, es).killEpoch >= Run(created, es[..k]).killEpoch
    ensures Run(created, es).killEpoch == Run(created, es[..k]).killEpoch <==> forall j | k <= j < |es| :: !es[j].Stop?
  {
    if k < |es| {
      assert es[..|es| - 1][..k] == es[..k];
      EpochCountsStops(created, es[..|es| - 1], k);
      assert forall j | 0 <= j < |es| - 1 :: es[..|es| - 1][j] == es[j];
    } else {
      assert es[..k] == es;
    }
  }

  /** A poll after `es` aborts the call reserved at `k` exactly when it cannot read the row or a stop committed since. */
  lemma PollAbortsIffStopped(created: int, es: seq<Event>, k: nat)
    requires k < |es| && Succeeds(Run(created, es[..k]), es[k])
    ensures forall readFails :: PollAborts(Run(created, es), Run(created, es[..k]).killEpoch, readFails) <==>
      readFails || exists j :: k < j < |es| && es[j].Stop?
  {
    EpochCountsStops(created, es, k);
  }
}
