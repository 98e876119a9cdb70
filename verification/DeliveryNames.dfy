/**
 Deliveries are addressed to a seat by its id, but carry the display name it had when they were
 written. Reconciliation fails a delivery whose seat is gone or no longer has that name.

 Every event is one synchronous service call, or one store transition the calls do not control.
 */
module DeliveryNames {
  import opened Results

  type SeatId = nat
  type DeliveryId = nat
  type RoomId = nat

  datatype Seat = Seat(room: Option<RoomId>, name: string, standby: bool)

  /** `replying`: the reply is being committed, and nothing may fail the delivery any more. */
  datatype Progress =
    | Queued | Delivered | Read | Working(replying: bool)
    | Replied | Failed(uncertain: bool) | Cancelled | Expired

  datatype Delivery = Delivery(room: RoomId, target: SeatId, name: string, progress: Progress)

  datatype State = State(seats: map<SeatId, Seat>, deliveries: map<DeliveryId, Delivery>, managed: map<RoomId, set<string>>)

  datatype Event =
    | Join(p: SeatId, room: RoomId, name: string)
    | Approve(p: SeatId, room: RoomId, standby: bool)
    | Rename(p: SeatId, room: RoomId, name: string)
    | Post(p: SeatId, room: RoomId, d: DeliveryId)
    | Send(source: SeatId, p: SeatId, room: RoomId, d: DeliveryId)
    | Move(d: DeliveryId, to: Progress)
    | Remove(p: SeatId, room: RoomId)
    | Reconcile(room: RoomId)
    | Register(p: SeatId)
    | Retry(d: DeliveryId)
    | Vanish(p: SeatId)
    | Unregister(p: SeatId)
    | InterruptedRemove(p: SeatId, room: RoomId)

  predicate Open(p: Progress) {
    p.Queued? || p.Delivered? || p.Read? || p.Working?
  }

  /** Open, and still allowed to fail. */
  predicate Failable(p: Progress) {
    Open(p) && !(p.Working? && p.replying)
  }

  predicate Joined(s: State, p: SeatId, room: RoomId) {
    p in s.seats && s.seats[p].room == Some(room)
  }

  predicate HasName(s: State, p: SeatId, name: string) {
    p in s.seats && s.seats[p].name == name
  }

  predicate NameFree(s: State, p: SeatId, room: RoomId, name: string) {
    && (forall q | q in s.seats && q != p && s.seats[q].room == Some(room) :: s.seats[q].name != name)
    && (room in s.managed ==> name !in s.managed[room])
  }

  /** Open work of a seat in a room. */
  predicate Busy(s: State, p: SeatId, room: RoomId) {
    exists d :: d in s.deliveries && s.deliveries[d].room == room && s.deliveries[d].target == p && Open(s.deliveries[d].progress)
  }

  /** Work a seat has taken on, which keeps it from being removed. */
  predicate Engaged(s: State, p: SeatId, room: RoomId) {
    exists d :: d in s.deliveries && s.deliveries[d].room == room && s.deliveries[d].target == p
                && Open(s.deliveries[d].progress) && !s.deliveries[d].progress.Queued?
  }

  function WithSeat(s: State, p: SeatId, seat: Seat): State {
    s.(seats := s.seats[p := seat])
  }

  function WithProgress(s: State, d: DeliveryId, to: Progress): State
    requires d in s.deliveries
  {
    s.(deliveries := s.deliveries[d := s.deliveries[d].(progress := to)])
  }

  /** Fails a set of deliveries, where they may still fail. */
  function FailAll(s: State, ds: set<DeliveryId>): State {
    s.(deliveries := map d | d in s.deliveries ::
         if d in ds && Failable(s.deliveries[d].progress) then s.deliveries[d].(progress := Failed(false)) else s.deliveries[d])
  }

  function Addressed(s: State, p: SeatId, room: RoomId): set<DeliveryId> {
    set d | d in s.deliveries && s.deliveries[d].room == room && s.deliveries[d].target == p
  }

  function ToSeat(s: State, p: SeatId): set<DeliveryId> {
    set d | d in s.deliveries && s.deliveries[d].target == p
  }

  /** Deliveries of a room whose seat is gone or renamed. */
  function Unavailable(s: State, room: RoomId): set<DeliveryId> {
    set d | d in s.deliveries && s.deliveries[d].room == room && Open(s.deliveries[d].progress)
            && !(Joined(s, s.deliveries[d].target, room) && HasName(s, s.deliveries[d].target, s.deliveries[d].name))
  }

  function Left(seat: Seat): Seat {
    Seat(None, "", false)
  }

  predicate Retryable(p: Progress) {
    p.Cancelled? || p.Expired? || (p.Failed? && !p.uncertain)
  }

  function Step(s: State, e: Event): State {
    match e
    case Join(p, room, name) =>
      if p in s.seats && s.seats[p].room.None? && NameFree(s, p, room, name)
      then WithSeat(s, p, Seat(Some(room), name, false)) else s
    case Approve(p, room, standby) =>
      if Joined(s, p, room) then WithSeat(s, p, s.seats[p].(standby := standby)) else s
    case Rename(p, room, name) =>
      if !Joined(s, p, room) || !NameFree(s, p, room, name) || s.seats[p].name == name || Busy(s, p, room) then s
      else WithSeat(s, p, s.seats[p].(name := name))
    case Post(p, room, d) =>
      if !Joined(s, p, room) || !s.seats[p].standby || d in s.deliveries then s
      else s.(deliveries := s.deliveries[d := Delivery(room, p, s.seats[p].name, Queued)])
    case Send(source, p, room, d) =>
      if !Joined(s, source, room) || !Joined(s, p, room) || source == p || !s.seats[p].standby || d in s.deliveries then s
      else s.(deliveries := s.deliveries[d := Delivery(room, p, s.seats[p].name, Queued)])
    case Move(d, to) =>
      if d in s.deliveries && Open(s.deliveries[d].progress) then WithProgress(s, d, to) else s
    case Remove(p, room) =>
      if !Joined(s, p, room) || Engaged(s, p, room) then s
      else FailAll(WithSeat(s, p, Left(s.seats[p])), Addressed(s, p, room))
    case Reconcile(room) => FailAll(s, Unavailable(s, room))
    case Register(p) => if p in s.seats then s else WithSeat(s, p, Seat(None, "", false))
    case Retry(d) =>
      if d in s.deliveries && Retryable(s.deliveries[d].progress) then WithProgress(s, d, Queued) else s
    case Vanish(p) => s.(seats := s.seats - {p})
    case Unregister(p) => FailAll(s.(seats := s.seats - {p}), ToSeat(s, p))
    case InterruptedRemove(p, room) =>
      if !Joined(s, p, room) || Engaged(s, p, room) then s else WithSeat(s, p, Left(s.seats[p]))
  }

  function Run(managed: map<RoomId, set<string>>, es: seq<Event>): State {
    if es == [] then State(map[], map[], managed) else Step(Run(managed, es[..|es| - 1]), es[|es| - 1])
  }

  // ----- the property -----

  /** Every open delivery to a seat that is still joined carries that seat's current name. */
  predicate Named(s: State) {
    forall d | d in s.deliveries && Open(s.deliveries[d].progress) && Joined(s, s.deliveries[d].target, s.deliveries[d].room) ::
      HasName(s, s.deliveries[d].target, s.deliveries[d].name)
  }

  /** Open deliveries are addressed to seats that are joined. */
  predicate OpenMeansJoined(s: State) {
    forall d | d in s.deliveries && Open(s.deliveries[d].progress) :: Joined(s, s.deliveries[d].target, s.deliveries[d].room)
  }

  /** What a caller can check before the two calls that can break the property. */
  predicate Safe(s: State, e: Event) {
    match e
    case Join(p, room, name) =>
      p in s.seats && s.seats[p].room.None? && NameFree(s, p, room, name) ==>
      forall d | d in Addressed(s, p, room) && Open(s.deliveries[d].progress) :: s.deliveries[d].name == name
    case Retry(d) =>
      d in s.deliveries && Retryable(s.deliveries[d].progress) && Joined(s, s.deliveries[d].target, s.deliveries[d].room) ==>
      HasName(s, s.deliveries[d].target, s.deliveries[d].name)
    case _ => true
  }

  lemma JoinKeepsNames(s: State, p: SeatId, room: RoomId, name: string)
    requires Named(s)
    ensures Named(Step(s, Join(p, room, name))) <==> Safe(s, Join(p, room, name))
  {
    if p in s.seats && s.seats[p].room.None? && NameFree(s, p, room, name) {
      var u := Step(s, Join(p, room, name));
      if Named(u) {
        forall d | d in Addressed(s, p, room) && Open(s.deliveries[d].progress)
          ensures s.deliveries[d].name == name
        {
          assert Joined(u, u.deliveries[d].target, u.deliveries[d].room);
        }
      }
    }
  }

  lemma RetryKeepsNames(s: State, d: DeliveryId)
    requires Named(s)
    ensures Named(Step(s, Retry(d))) <==> Safe(s, Retry(d))
  {
    if d in s.deliveries && Retryable(s.deliveries[d].progress) {
      var u := Step(s, Retry(d));
      assert u.deliveries[d].progress.Queued? && u.seats == s.seats;
    }
  }

  /** One call keeps the property exactly when it is safe; only joining and retrying can be unsafe. */
  lemma StepKeepsNamesIff(s: State, e: Event)
    requires Named(s)
    ensures Named(Step(s, e)) <==> Safe(s, e)
  {
    match e
    case Join(p, room, name) => JoinKeepsNames(s, p, room, name);
    case Retry(d) => RetryKeepsNames(s, d);
    case _ =>
  }

  ghost predicate NamedThroughout(managed: map<RoomId, set<string>>, es: seq<Event>) {
    Named(Run(managed, es)) && (es == [] || NamedThroughout(managed, es[..|es| - 1]))
  }

  ghost predicate SafeThroughout(managed: map<RoomId, set<string>>, es: seq<Event>) {
    es == [] || (SafeThroughout(managed, es[..|es| - 1]) && Safe(Run(managed, es[..|es| - 1]), es[|es| - 1]))
  }

  /** Over a whole run: the property held all along exactly when every call was safe. */
  lemma {:induction false} NamesHoldIff(managed: map<RoomId, set<string>>, es: seq<Event>)
    ensures NamedThroughout(managed, es) <==> SafeThroughout(managed, es)
  {
    if es != [] {
      var rest := Run(managed, es[..|es| - 1]);
      NamesHoldIff(managed, es[..|es| - 1]);
      if Named(rest) { StepKeepsNamesIff(rest, es[|es| - 1]); }
    }
  }

  /** The calls of the room itself: everything but retries, silent expiry and broken-off removals. */
  predicate Plain(e: Event) {
    !e.Retry? && !e.Vanish? && !e.Unregister? && !e.InterruptedRemove?
  }

  lemma RemoveLeavesNoneOpen(s: State, p: SeatId, room: RoomId)
    requires OpenMeansJoined(s)
    ensures OpenMeansJoined(Step(s, Remove(p, room)))
  {
    if Joined(s, p, room) && !Engaged(s, p, room) {
      var u := Step(s, Remove(p, room));
      forall d | d in s.deliveries && Open(u.deliveries[d].progress)
        ensures s.deliveries[d].target != p
      {
        assert Open(s.deliveries[d].progress);
      }
    }
  }

  lemma PlainStep(s: State, e: Event)
    requires Plain(e) && OpenMeansJoined(s) && Named(s)
    ensures OpenMeansJoined(Step(s, e)) && Safe(s, e)
  {
    match e
    case Remove(p, room) => RemoveLeavesNoneOpen(s, p, room);
    case _ =>
  }

  /** In every run of joins, renames, posts, peer sends and removals, names are current. */
  lemma {:induction false} PlainRunsKeepNames(managed: map<RoomId, set<string>>, es: seq<Event>)
    requires forall k | 0 <= k < |es| :: Plain(es[k])
    ensures OpenMeansJoined(Run(managed, es)) && Named(Run(managed, es))
  {
    if es != [] {
      var rest, last := es[..|es| - 1], es[|es| - 1];
      assert forall k | 0 <= k < |rest| :: rest[k] == es[k];
      PlainRunsKeepNames(managed, rest);
      PlainStep(Run(managed, rest), last);
      StepKeepsNamesIff(Run(managed, rest), last);
    }
  }

  // ----- reconciliation -----

  /** While names are current, reconciliation fails only deliveries whose seat has left. */
  lemma ReconcileFailsOnlyTheDeparted(s: State, room: RoomId, d: DeliveryId)
    requires Named(s) && d in s.deliveries
    ensures Step(s, Reconcile(room)).deliveries[d] != s.deliveries[d] <==>
            s.deliveries[d].room == room && Failable(s.deliveries[d].progress) && !Joined(s, s.deliveries[d].target, room)
  {
  }

  /** Whatever came before: afterwards every open delivery that may still fail has its seat and its name. */
  lemma ReconcileRepairs(s: State, room: RoomId, d: DeliveryId)
    requires d in s.deliveries && s.deliveries[d].room == room
    ensures var u := Step(s, Reconcile(room));
            Failable(u.deliveries[d].progress) ==>
            Joined(u, u.deliveries[d].target, room) && HasName(u, u.deliveries[d].target, u.deliveries[d].name)
  {
  }

  // ----- the other calls -----

  /** A seat joins under a name that no other seat of the room and no managed agent has. */
  lemma JoinedIff(s: State, p: SeatId, room: RoomId, name: string)
    requires p in s.seats && s.seats[p].room.None?
    ensures Joined(Step(s, Join(p, room, name)), p, room) <==>
      && (forall q | q in s.seats && s.seats[q].room == Some(room) :: s.seats[q].name != name)
      && (room in s.managed ==> name !in s.managed[room])
    ensures Joined(Step(s, Join(p, room, name)), p, room) ==> HasName(Step(s, Join(p, room, name)), p, name)
  {
  }

  /** Exactly cancelled, expired and certainly failed deliveries can be retried; they are queued again. */
  lemma RetriedIff(s: State, d: DeliveryId)
    requires d in s.deliveries
    ensures var u := Step(s, Retry(d));
            && u.deliveries == s.deliveries[d := u.deliveries[d]] && u.seats == s.seats
            && u.deliveries[d] == if s.deliveries[d].progress in {Cancelled, Expired, Failed(false)}
                                  then s.deliveries[d].(progress := Queued) else s.deliveries[d]
  {
  }

  /** A peer send enqueues for another joined seat on standby, under the name that seat has. */
  lemma SentIff(s: State, source: SeatId, p: SeatId, room: RoomId, d: DeliveryId)
    requires d !in s.deliveries
    ensures var u := Step(s, Send(source, p, room, d));
            && (d in u.deliveries <==>
                  source != p && Joined(s, source, room) && Joined(s, p, room) && s.seats[p].standby)
            && (d in u.deliveries ==> u.deliveries == s.deliveries[d := Delivery(room, p, s.seats[p].name, Queued)])
  {
  }

  // ----- a retry after a rename -----

  /** A delivery that was cancelled, a rename the seat was then free for, and a retry. */
  lemma RetryAfterRename(s: State, p: SeatId, room: RoomId, d: DeliveryId, name: string)
    requires Named(s) && Joined(s, p, room) && NameFree(s, p, room, name) && s.seats[p].name != name
    requires d in s.deliveries && s.deliveries[d].target == p && s.deliveries[d].room == room
    requires s.deliveries[d].name == s.seats[p].name && s.deliveries[d].progress.Queued?
    requires forall k | k in Addressed(s, p, room) && k != d :: !Open(s.deliveries[k].progress)
    ensures !Named(Step(Step(Step(s, Move(d, Cancelled)), Rename(p, room, name)), Retry(d)))
  {
    var a := Step(s, Move(d, Cancelled));
    assert forall k | k in a.deliveries && a.deliveries[k].room == room && a.deliveries[k].target == p ::
        k in Addressed(s, p, room);
    assert !Busy(a, p, room);
    var b := Step(a, Rename(p, room, name));
    assert b.seats[p].name == name && Retryable(b.deliveries[d].progress);
    RetryKeepsNames(b, d);
  }

  // ----- the calls with loops -----

  class Rooms {
    var seats: map<SeatId, Seat>
    var deliveries: map<DeliveryId, Delivery>
    const managed: map<RoomId, set<string>>

    ghost function Now(): State
      reads this
    {
      State(seats, deliveries, managed)
    }

    constructor (managed: map<RoomId, set<string>>)
      ensures Now() == Run(managed, []) && Named(Now())
    {
      seats, deliveries, this.managed := map[], map[], managed;
    }

    method FailDelivery(d: DeliveryId)
      requires d in deliveries
      modifies this`deliveries
      ensures Now() == FailAll(old(Now()), {d})
    {
      if Failable(deliveries[d].progress) {
        deliveries := deliveries[d := deliveries[d].(progress := Failed(false))];
      }
      assert deliveries == FailAll(old(Now()), {d}).deliveries;
    }

    /** Fails the deliveries of a set, one transaction each. */
    method FailEach(ds: set<DeliveryId>)
      requires ds <= deliveries.Keys
      modifies this`deliveries
      ensures Now() == FailAll(old(Now()), ds)
    {
      var left := ds;
      ghost var done: set<DeliveryId> := {};
      FailNone(Now());
      while left != {}
        invariant left + done == ds <= deliveries.Keys
        invariant Now() == FailAll(old(Now()), done)
      {
        var d :| d in left;
        FailMore(old(Now()), done, d);
        FailDelivery(d);
        left, done := left - {d}, done + {d};
      }
    }

    method RemoveExternal(p: SeatId, room: RoomId) returns (ok: bool)
      modifies this
      ensures ok <==> Joined(old(Now()), p, room) && !Engaged(old(Now()), p, room)
      ensures ok <==>
        && p in old(seats) && old(seats)[p].room == Some(room)
        && forall d | d in old(deliveries) && old(deliveries)[d].room == room && old(deliveries)[d].target == p ::
             var progress := old(deliveries)[d].progress; !progress.Delivered? && !progress.Read? && !progress.Working?
      ensures ok ==>
        && seats == old(seats)[p := Seat(None, "", false)] && deliveries.Keys == old(deliveries).Keys
        && forall d | d in deliveries :: deliveries[d] ==
             if old(deliveries)[d].room == room && old(deliveries)[d].target == p && old(deliveries)[d].progress.Queued?
             then old(deliveries)[d].(progress := Failed(false)) else old(deliveries)[d]
      ensures !ok ==> Now() == old(Now())
      ensures Now() == Step(old(Now()), Remove(p, room))
    {
      if p !in seats || seats[p].room != Some(room) { return false; }
      if exists d :: d in deliveries && deliveries[d].room == room && deliveries[d].target == p
                     && Open(deliveries[d].progress) && !deliveries[d].progress.Queued? {
        return false;
      }
      var pending := set d | d in deliveries && deliveries[d].room == room && deliveries[d].target == p;
      assert pending == Addressed(old(Now()), p, room);
      seats := seats[p := Left(seats[p])];
      FailEach(pending);
      return true;
    }

    method ReconcileUnavailable(room: RoomId)
      modifies this
      ensures Now() == Step(old(Now()), Reconcile(room))
      ensures seats == old(seats) && deliveries.Keys == old(deliveries).Keys
      ensures forall d | d in deliveries ::
        var was := old(deliveries)[d];
        var there := was.target in seats && seats[was.target].room == Some(room) && seats[was.target].name == was.name;
        deliveries[d] == if was.room == room && was.progress in {Queued, Delivered, Read, Working(false)} && !there
                         then was.(progress := Failed(false)) else was
    {
      var gone := set d | d in deliveries && deliveries[d].room == room && Open(deliveries[d].progress)
                          && !(deliveries[d].target in seats && seats[deliveries[d].target].room == Some(room)
                               && seats[deliveries[d].target].name == deliveries[d].name);
      assert gone == Unavailable(old(Now()), room);
      FailEach(gone);
    }

    method RenameExternal(p: SeatId, room: RoomId, name: string) returns (ok: bool)
      modifies this
      ensures Now() == Step(old(Now()), Rename(p, room, name))
      ensures ok ==> HasName(Now(), p, name)
      ensures deliveries == old(deliveries) && seats == if ok then old(seats)[p := old(seats)[p].(name := name)] else old(seats)
      ensures ok <==>
        && p in old(seats) && old(seats)[p].room == Some(room)
        && (|| old(seats)[p].name == name
            || (&& (forall q | q in old(seats) && q != p && old(seats)[q].room == Some(room) :: old(seats)[q].name != name)
                && (room in managed ==> name !in managed[room])
                && forall d | d in old(deliveries) && old(deliveries)[d].room == room && old(deliveries)[d].target == p ::
                     var progress := old(deliveries)[d].progress;
                     !progress.Queued? && !progress.Delivered? && !progress.Read? && !progress.Working?))
      ensures Named(old(Now())) ==> Named(Now())
    {
      if Named(Now()) { StepKeepsNamesIff(Now(), Rename(p, room, name)); }
      if p !in seats || seats[p].room != Some(room) { return false; }
      if seats[p].name == name { return true; }
      if exists q :: q in seats && q != p && seats[q].room == Some(room) && seats[q].name == name { return false; }
      if room in managed && name in managed[room] { return false; }
      if exists d :: d in deliveries && deliveries[d].room == room && deliveries[d].target == p && Open(deliveries[d].progress) {
        return false;
      }
      seats := seats[p := seats[p].(name := name)];
      return true;
    }

    method PostToExternal(p: SeatId, room: RoomId, d: DeliveryId) returns (ok: bool)
      requires d !in deliveries
      modifies this
      ensures ok <==> Joined(old(Now()), p, room) && old(Now()).seats[p].standby
      ensures Now() == Step(old(Now()), Post(p, room, d))
      ensures seats == old(seats)
      ensures deliveries ==
        if ok then old(deliveries)[d := Delivery(room, p, old(seats)[p].name, Queued)] else old(deliveries)
    {
      if p !in seats || seats[p].room != Some(room) || !seats[p].standby { return false; }
      deliveries := deliveries[d := Delivery(room, p, seats[p].name, Queued)];
      return true;
    }
  }

  lemma FailNone(s: State)
    ensures FailAll(s, {}) == s
  {
    assert FailAll(s, {}).deliveries == s.deliveries;
  }

  lemma FailMore(s: State, ds: set<DeliveryId>, d: DeliveryId)
    ensures FailAll(FailAll(s, ds), {d}) == FailAll(s, ds + {d})
  {
  }
}
