/**
 The same rooms when calls of different processes interleave: presence and inbox are two databases, so
 a send reads a name in one and enqueues under it in the other, and a rename looks for open work
 before it writes.

 A peer send looks at its target again after enqueueing, an owner post does not. While a peer send is
 under way its delivery is its own concern; the property is about all others.
 */
module DeliveryRaces {
  import opened Results
  import opened DeliveryNames

  type CallId = nat

  /** `name` is what the call read; `sent` is its delivery, once enqueued. */
  datatype SendCall = SendCall(p: SeatId, room: RoomId, name: string, peer: bool, sent: Option<DeliveryId>)

  datatype RenameCall = RenameCall(p: SeatId, room: RoomId, name: string)

  datatype Shared = Shared(s: State, sends: map<CallId, SendCall>, renames: map<CallId, RenameCall>)

  /** `Whole` is a call or transition that is atomic by itself; the rest are steps of sends and renames. */
  datatype Part =
    | Whole(e: Event)
    | ReadTarget(c: CallId, p: SeatId, room: RoomId, peer: bool)
    | Precheck(c: CallId)
    | Enqueue(c: CallId, d: DeliveryId)
    | Recheck(c: CallId)
    | Abandon(c: CallId)
    | CheckRename(c: CallId, p: SeatId, room: RoomId, name: string)
    | WriteRename(c: CallId)

  predicate Available(s: State, call: SendCall) {
    Joined(s, call.p, call.room) && HasName(s, call.p, call.name) && s.seats[call.p].standby
  }

  predicate InFlight(r: Shared, d: DeliveryId) {
    exists c :: c in r.sends && r.sends[c].sent == Some(d)
  }

  function Advance(r: Shared, e: Part): Shared {
    match e
    case Whole(w) => r.(s := Step(r.s, w))
    case ReadTarget(c, p, room, peer) =>
      if c in r.sends || !Joined(r.s, p, room) || !r.s.seats[p].standby then r
      else r.(sends := r.sends[c := SendCall(p, room, r.s.seats[p].name, peer, None)])
    case Precheck(c) =>
      if c in r.sends && r.sends[c].peer && r.sends[c].sent.None? && !Available(r.s, r.sends[c])
      then r.(sends := r.sends - {c}) else r
    case Enqueue(c, d) =>
      if c !in r.sends || r.sends[c].sent.Some? || d in r.s.deliveries then r
      else
        var call := r.sends[c];
        var s := r.s.(deliveries := r.s.deliveries[d := Delivery(call.room, call.p, call.name, Queued)]);
        r.(s := s, sends := if call.peer then r.sends[c := call.(sent := Some(d))] else r.sends - {c})
    case Recheck(c) =>
      if c !in r.sends || r.sends[c].sent.None? then r
      else
        var call := r.sends[c];
        r.(s := if Available(r.s, call) then r.s else FailAll(r.s, {call.sent.value}), sends := r.sends - {c})
    case Abandon(c) => r.(sends := r.sends - {c}, renames := r.renames - {c})
    case CheckRename(c, p, room, name) =>
      if c in r.renames || !Joined(r.s, p, room) || !NameFree(r.s, p, room, name) || Busy(r.s, p, room) then r
      else r.(renames := r.renames[c := RenameCall(p, room, name)])
    case WriteRename(c) =>
      if c !in r.renames then r
      else
        var call := r.renames[c];
        var u := r.(renames := r.renames - {c});
        if !Joined(r.s, call.p, call.room) || !NameFree(r.s, call.p, call.room, call.name) then u
        else u.(s := WithSeat(r.s, call.p, r.s.seats[call.p].(name := call.name)))
  }

  function Result(managed: map<RoomId, set<string>>, es: seq<Part>): Shared {
    if es == [] then Shared(Run(managed, []), map[], map[])
    else Advance(Result(managed, es[..|es| - 1]), es[|es| - 1])
  }

  // ----- the property -----

  /** An open delivery that may still fail, to a joined seat, under a name the seat does not have. */
  predicate Misnamed(s: State, d: DeliveryId) {
    && d in s.deliveries && Failable(s.deliveries[d].progress)
    && Joined(s, s.deliveries[d].target, s.deliveries[d].room)
    && !HasName(s, s.deliveries[d].target, s.deliveries[d].name)
  }

  /** No delivery is misnamed, those of peer sends under way excepted. */
  ghost predicate Settled(r: Shared) {
    forall d | d in r.s.deliveries && !InFlight(r, d) :: !Misnamed(r.s, d)
  }

  /** A failable delivery of a seat in a room, by a send that is over. */
  predicate Waiting(r: Shared, d: DeliveryId, p: SeatId, room: RoomId) {
    && d in r.s.deliveries && r.s.deliveries[d].target == p && r.s.deliveries[d].room == room
    && Failable(r.s.deliveries[d].progress) && !InFlight(r, d)
  }

  /** What can be checked before each step; reading, pre-checking, enqueueing and re-checking of peers are always safe. */
  ghost predicate SafePart(r: Shared, e: Part) {
    match e
    case Whole(Join(p, room, name)) =>
      p in r.s.seats && r.s.seats[p].room.None? && NameFree(r.s, p, room, name) ==>
      forall d | d in r.s.deliveries && Waiting(r, d, p, room) :: r.s.deliveries[d].name == name
    case Whole(Retry(d)) =>
      d in r.s.deliveries && Retryable(r.s.deliveries[d].progress) && !InFlight(r, d)
      && Joined(r.s, r.s.deliveries[d].target, r.s.deliveries[d].room) ==>
      HasName(r.s, r.s.deliveries[d].target, r.s.deliveries[d].name)
    case Whole(Move(d, to)) =>
      d in r.s.deliveries && r.s.deliveries[d].progress == Working(true) && Failable(to) && !InFlight(r, d)
      && Joined(r.s, r.s.deliveries[d].target, r.s.deliveries[d].room) ==>
      HasName(r.s, r.s.deliveries[d].target, r.s.deliveries[d].name)
    case Enqueue(c, d) =>
      c in r.sends && r.sends[c].sent.None? && d !in r.s.deliveries && !r.sends[c].peer
      && Joined(r.s, r.sends[c].p, r.sends[c].room) ==>
      HasName(r.s, r.sends[c].p, r.sends[c].name)
    case Abandon(c) =>
      c in r.sends && r.sends[c].sent.Some? && !InFlight(Advance(r, e), r.sends[c].sent.value) ==>
      !Misnamed(r.s, r.sends[c].sent.value)
    case WriteRename(c) =>
      c in r.renames && Joined(r.s, r.renames[c].p, r.renames[c].room)
      && NameFree(r.s, r.renames[c].p, r.renames[c].room, r.renames[c].name) ==>
      forall d | d in r.s.deliveries && Waiting(r, d, r.renames[c].p, r.renames[c].room) ::
        r.s.deliveries[d].name == r.renames[c].name
    case _ => true
  }

  lemma SameCalls(r: Shared, s: State)
    ensures forall d :: InFlight(r.(s := s), d) <==> InFlight(r, d)
  {
  }

  /** Atomic steps other than joins, retries and moves leave no delivery misnamed that was not. */
  lemma WholeStepKeeps(s: State, e: Event, d: DeliveryId)
    requires !e.Join? && !e.Retry? && !e.Move?
    ensures Misnamed(Step(s, e), d) ==> Misnamed(s, d)
  {
  }

  lemma JoinMisnames(s: State, p: SeatId, room: RoomId, name: string, d: DeliveryId)
    requires p in s.seats && s.seats[p].room.None? && NameFree(s, p, room, name)
    ensures Misnamed(Step(s, Join(p, room, name)), d) <==>
      || (Misnamed(s, d) && s.deliveries[d].target != p)
      || (d in s.deliveries && s.deliveries[d].target == p && s.deliveries[d].room == room
          && Failable(s.deliveries[d].progress) && s.deliveries[d].name != name)
  {
  }

  lemma JoinSettles(r: Shared, p: SeatId, room: RoomId, name: string)
    requires Settled(r)
    ensures Settled(Advance(r, Whole(Join(p, room, name)))) <==> SafePart(r, Whole(Join(p, room, name)))
  {
    var u := Advance(r, Whole(Join(p, room, name)));
    SameCalls(r, u.s);
    if p in r.s.seats && r.s.seats[p].room.None? && NameFree(r.s, p, room, name) {
      forall d | d in r.s.deliveries && !InFlight(r, d)
        ensures Misnamed(u.s, d) <==> Waiting(r, d, p, room) && r.s.deliveries[d].name != name
      {
        JoinMisnames(r.s, p, room, name, d);
      }
    }
  }

  lemma WriteMisnames(s: State, p: SeatId, room: RoomId, name: string, d: DeliveryId)
    requires Joined(s, p, room)
    ensures var u := WithSeat(s, p, s.seats[p].(name := name));
            Misnamed(u, d) <==>
            || (Misnamed(s, d) && s.deliveries[d].target != p)
            || (d in s.deliveries && s.deliveries[d].target == p && s.deliveries[d].room == room
                && Failable(s.deliveries[d].progress) && s.deliveries[d].name != name)
  {
  }

  lemma WriteSettles(r: Shared, c: CallId)
    requires Settled(r)
    ensures Settled(Advance(r, WriteRename(c))) <==> SafePart(r, WriteRename(c))
  {
    if c in r.renames {
      var call, u := r.renames[c], Advance(r, WriteRename(c));
      assert forall d :: InFlight(u, d) <==> InFlight(r, d);
      if Joined(r.s, call.p, call.room) && NameFree(r.s, call.p, call.room, call.name) {
        forall d | d in r.s.deliveries && !InFlight(r, d)
          ensures Misnamed(u.s, d) <==> Waiting(r, d, call.p, call.room) && r.s.deliveries[d].name != call.name
        {
          WriteMisnames(r.s, call.p, call.room, call.name, d);
        }
      }
    }
  }

  lemma ProgressSettles(r: Shared, d: DeliveryId, to: Progress)
    requires Settled(r) && d in r.s.deliveries
    ensures var u := r.(s := WithProgress(r.s, d, to));
            Settled(u) <==>
            (!InFlight(r, d) && Failable(to) && Joined(r.s, r.s.deliveries[d].target, r.s.deliveries[d].room) ==>
               HasName(r.s, r.s.deliveries[d].target, r.s.deliveries[d].name))
  {
    var u := r.(s := WithProgress(r.s, d, to));
    SameCalls(r, u.s);
    assert forall k | k in r.s.deliveries && k != d :: Misnamed(u.s, k) <==> Misnamed(r.s, k);
    assert d in u.s.deliveries;
  }

  lemma WholeSettles(r: Shared, e: Event)
    requires Settled(r)
    ensures Settled(Advance(r, Whole(e))) <==> SafePart(r, Whole(e))
  {
    SameCalls(r, Step(r.s, e));
    match e
    case Join(p, room, name) => JoinSettles(r, p, room, name);
    case Retry(d) => if d in r.s.deliveries && Retryable(r.s.deliveries[d].progress) { ProgressSettles(r, d, Queued); }
    case Move(d, to) =>
      if d in r.s.deliveries && Open(r.s.deliveries[d].progress) {
        ProgressSettles(r, d, to);
        assert !InFlight(r, d) ==> !Misnamed(r.s, d);
      }
    case _ =>
      forall d | d in Step(r.s, e).deliveries && !InFlight(r, d) ensures !Misnamed(Step(r.s, e), d) {
        WholeStepKeeps(r.s, e, d);
      }
  }

  lemma EnqueueSettles(r: Shared, c: CallId, d: DeliveryId)
    requires Settled(r) && SentAsRead(r)
    ensures Settled(Advance(r, Enqueue(c, d))) <==> SafePart(r, Enqueue(c, d))
  {
    if c in r.sends && r.sends[c].sent.None? && d !in r.s.deliveries {
      var u := Advance(r, Enqueue(c, d));
      forall k: DeliveryId | k != d ensures InFlight(u, k) <==> InFlight(r, k) {
        if InFlight(r, k) {
          var b :| b in r.sends && r.sends[b].sent == Some(k);
          assert b in u.sends && u.sends[b].sent == Some(k);
        }
      }
      assert forall k | k in r.s.deliveries :: Misnamed(u.s, k) <==> Misnamed(r.s, k);
      if r.sends[c].peer {
        assert c in u.sends && u.sends[c].sent == Some(d);
      } else {
        StillInFlight(r, u, c);
        assert !InFlight(r, d);
      }
    }
  }

  /** When a send is over, only its own delivery is looked at anew. */
  lemma OverSettles(r: Shared, c: CallId, s: State)
    requires Settled(r) && c in r.sends && r.sends[c].sent.Some?
    requires s.deliveries.Keys == r.s.deliveries.Keys
    requires forall d :: Misnamed(s, d) ==> Misnamed(r.s, d)
    ensures var u, d := r.(s := s, sends := r.sends - {c}), r.sends[c].sent.value;
            Settled(u) <==> (d in s.deliveries && !InFlight(u, d) ==> !Misnamed(s, d))
  {
    var u, d := r.(s := s, sends := r.sends - {c}), r.sends[c].sent.value;
    forall k: DeliveryId | k != d && InFlight(r, k) ensures InFlight(u, k) {
      var b :| b in r.sends && r.sends[b].sent == Some(k);
      assert b in u.sends;
    }
  }

  lemma RecheckSettles(r: Shared, c: CallId)
    requires Settled(r) && SentAsRead(r)
    ensures Settled(Advance(r, Recheck(c)))
  {
    if c in r.sends && r.sends[c].sent.Some? {
      var s := Advance(r, Recheck(c)).s;
      OverSettles(r, c, s);
      assert !Misnamed(s, r.sends[c].sent.value);
    }
  }

  lemma AbandonSettles(r: Shared, c: CallId)
    requires Settled(r)
    ensures Settled(Advance(r, Abandon(c))) <==> SafePart(r, Abandon(c))
  {
    var u := Advance(r, Abandon(c));
    if c in r.sends && r.sends[c].sent.Some? {
      OverSettles(r, c, r.s);
      var v := r.(sends := r.sends - {c});
      assert forall d :: InFlight(u, d) <==> InFlight(v, d);
    } else {
      StillInFlight(r, u, c);
    }
  }

  lemma StillInFlight(r: Shared, u: Shared, c: CallId)
    requires c in r.sends ==> r.sends[c].sent.None?
    requires u.sends == r.sends - {c}
    ensures forall d: DeliveryId :: InFlight(u, d) <==> InFlight(r, d)
  {
    forall d: DeliveryId | InFlight(r, d) ensures InFlight(u, d) {
      var b :| b in r.sends && r.sends[b].sent == Some(d);
      assert b in u.sends;
    }
  }

  lemma ReadSettles(r: Shared, c: CallId, p: SeatId, room: RoomId, peer: bool)
    requires Settled(r)
    ensures Settled(Advance(r, ReadTarget(c, p, room, peer)))
  {
    var u := Advance(r, ReadTarget(c, p, room, peer));
    forall d: DeliveryId | InFlight(r, d) ensures InFlight(u, d) {
      var b :| b in r.sends && r.sends[b].sent == Some(d);
      assert b in u.sends && u.sends[b] == r.sends[b];
    }
  }

  // ----- every step, every run -----

  /** A delivery in flight is what its call enqueued, but for its progress. */
  predicate SentAsRead(r: Shared) {
    forall c | c in r.sends && r.sends[c].sent.Some? ::
      var call := r.sends[c];
      call.sent.value in r.s.deliveries && Addressee(r.s, call.sent.value) == (call.p, call.room, call.name)
  }

  function Addressee(s: State, d: DeliveryId): (SeatId, RoomId, string)
    requires d in s.deliveries
  {
    (s.deliveries[d].target, s.deliveries[d].room, s.deliveries[d].name)
  }

  lemma StepKeepsAddressee(s: State, e: Event, d: DeliveryId)
    requires d in s.deliveries
    ensures d in Step(s, e).deliveries && Addressee(Step(s, e), d) == Addressee(s, d)
  {
  }

  lemma AdvanceKeepsSent(r: Shared, e: Part)
    requires SentAsRead(r)
    ensures SentAsRead(Advance(r, e))
  {
    if e.Whole? {
      forall c | c in r.sends && r.sends[c].sent.Some? {
        StepKeepsAddressee(r.s, e.e, r.sends[c].sent.value);
      }
    }
  }

  lemma {:induction false} SentHolds(managed: map<RoomId, set<string>>, es: seq<Part>)
    ensures SentAsRead(Result(managed, es))
  {
    if es != [] {
      SentHolds(managed, es[..|es| - 1]);
      AdvanceKeepsSent(Result(managed, es[..|es| - 1]), es[|es| - 1]);
    }
  }

  /** One step keeps every delivery but those under way well named if and only if it is safe. */
  lemma PartSettlesIff(r: Shared, e: Part)
    requires Settled(r) && SentAsRead(r)
    ensures Settled(Advance(r, e)) <==> SafePart(r, e)
  {
    match e
    case Whole(w) => WholeSettles(r, w);
    case ReadTarget(c, p, room, peer) => ReadSettles(r, c, p, room, peer);
    case Precheck(c) =>
      if c in r.sends && r.sends[c].sent.None? && Advance(r, e) != r { StillInFlight(r, Advance(r, e), c); }
    case Enqueue(c, d) => EnqueueSettles(r, c, d);
    case Recheck(c) => RecheckSettles(r, c);
    case Abandon(c) => AbandonSettles(r, c);
    case CheckRename(c, p, room, name) => assert forall d: DeliveryId :: InFlight(Advance(r, e), d) <==> InFlight(r, d);
    case WriteRename(c) => WriteSettles(r, c);
  }

  ghost predicate SettledThroughout(managed: map<RoomId, set<string>>, es: seq<Part>) {
    Settled(Result(managed, es)) && (es == [] || SettledThroughout(managed, es[..|es| - 1]))
  }

  ghost predicate SafePartsThroughout(managed: map<RoomId, set<string>>, es: seq<Part>) {
    es == []
    || (SafePartsThroughout(managed, es[..|es| - 1]) && SafePart(Result(managed, es[..|es| - 1]), es[|es| - 1]))
  }

  /**
   Over every interleaving of the processes: no delivery that may still fail is ever open under a wrong
   name, except while its peer send is under way, if and only if every step was safe. No step of a peer
   send can be unsafe, short of the send being broken off before it looked again.
   */
  lemma {:induction false} SettledIff(managed: map<RoomId, set<string>>, es: seq<Part>)
    ensures SettledThroughout(managed, es) <==> SafePartsThroughout(managed, es)
  {
    if es != [] {
      var rest := Result(managed, es[..|es| - 1]);
      SettledIff(managed, es[..|es| - 1]);
      SentHolds(managed, es[..|es| - 1]);
      if Settled(rest) { PartSettlesIff(rest, es[|es| - 1]); }
    }
  }

  // ----- names stay unique -----

  /** No two seats of a room share a name, and none has the name of a managed agent of the room. */
  predicate UniqueNames(s: State) {
    && (forall p, q | p in s.seats && q in s.seats && p != q && s.seats[p].room.Some? && s.seats[p].room == s.seats[q].room ::
          s.seats[p].name != s.seats[q].name)
    && (forall p | p in s.seats && s.seats[p].room.Some? && s.seats[p].room.value in s.managed ::
          s.seats[p].name !in s.managed[s.seats[p].room.value])
  }

  lemma SeatKeepsUnique(s: State, p: SeatId, seat: Seat)
    requires UniqueNames(s) && (seat.room.Some? ==> NameFree(s, p, seat.room.value, seat.name))
    ensures UniqueNames(WithSeat(s, p, seat))
  {
  }

  lemma CallKeepsUnique(s: State, e: Event)
    requires UniqueNames(s)
    ensures UniqueNames(Step(s, e))
  {
    match e
    case Join(p, room, name) =>
      if p in s.seats && s.seats[p].room.None? && NameFree(s, p, room, name) {
        SeatKeepsUnique(s, p, Seat(Some(room), name, false));
      }
    case Rename(p, room, name) =>
      if Joined(s, p, room) && NameFree(s, p, room, name) { SeatKeepsUnique(s, p, s.seats[p].(name := name)); }
    case _ =>
  }

  lemma PartKeepsUnique(r: Shared, e: Part)
    requires UniqueNames(r.s)
    ensures UniqueNames(Advance(r, e).s)
  {
    match e
    case Whole(w) => CallKeepsUnique(r.s, w);
    case WriteRename(c) =>
      if c in r.renames {
        var call := r.renames[c];
        if Joined(r.s, call.p, call.room) && NameFree(r.s, call.p, call.room, call.name) {
          SeatKeepsUnique(r.s, call.p, r.s.seats[call.p].(name := call.name));
        }
      }
    case _ =>
  }

  /** Over every interleaving of the processes names stay unique within a room. */
  lemma {:induction false} NamesStayUnique(managed: map<RoomId, set<string>>, es: seq<Part>)
    ensures UniqueNames(Result(managed, es).s)
  {
    if es != [] {
      NamesStayUnique(managed, es[..|es| - 1]);
      PartKeepsUnique(Result(managed, es[..|es| - 1]), es[|es| - 1]);
    }
  }

  // ----- three races -----

  /** A seat that reads and writes can meet: joined, on standby, nothing open, and another name free. */
  predicate Quiet(r: Shared, p: SeatId, room: RoomId, name: string) {
    && Joined(r.s, p, room) && r.s.seats[p].standby && r.s.seats[p].name != name
    && NameFree(r.s, p, room, name) && !Busy(r.s, p, room)
  }

  lemma RenameNow(r: Shared, p: SeatId, room: RoomId, name: string)
    requires Quiet(r, p, room, name)
    ensures var u := Advance(r, Whole(Rename(p, room, name)));
            u.s == r.s.(seats := r.s.seats[p := Seat(Some(room), name, true)]) && u.sends == r.sends
  {
  }

  /** A send reads the name, and the seat is renamed before it goes on. */
  lemma RenamedMeanwhile(r: Shared, c: CallId, p: SeatId, room: RoomId, name: string, peer: bool)
    requires Settled(r) && SentAsRead(r) && Quiet(r, p, room, name) && c !in r.sends
    ensures var u := Advance(Advance(r, ReadTarget(c, p, room, peer)), Whole(Rename(p, room, name)));
            && Settled(u) && SentAsRead(u)
            && u.s == r.s.(seats := r.s.seats[p := Seat(Some(room), name, true)])
            && u.sends == r.sends[c := SendCall(p, room, r.s.seats[p].name, peer, None)]
  {
    var read := Advance(r, ReadTarget(c, p, room, peer));
    ReadSettles(r, c, p, room, peer);
    AdvanceKeepsSent(r, ReadTarget(c, p, room, peer));
    RenameNow(read, p, room, name);
    WholeSettles(read, Rename(p, room, name));
    AdvanceKeepsSent(read, Whole(Rename(p, room, name)));
  }

  /** An owner post that read the name before a rename enqueues under the old one, and it stays open. */
  lemma OwnerPostMisses(r: Shared, c: CallId, p: SeatId, room: RoomId, name: string, d: DeliveryId)
    requires Settled(r) && SentAsRead(r) && Quiet(r, p, room, name) && c !in r.sends && d !in r.s.deliveries
    ensures var read := Advance(r, ReadTarget(c, p, room, false));
            var renamed := Advance(read, Whole(Rename(p, room, name)));
            !Settled(Advance(renamed, Enqueue(c, d)))
  {
    var read := Advance(r, ReadTarget(c, p, room, false));
    RenamedMeanwhile(r, c, p, room, name, false);
    EnqueueSettles(Advance(read, Whole(Rename(p, room, name))), c, d);
  }

  /** A delivery under a name its seat no longer has is failed by the second look of its send. */
  lemma SecondLookFails(r: Shared, c: CallId, p: SeatId, d: DeliveryId)
    requires c in r.sends && r.sends[c].peer && r.sends[c].sent.None? && d !in r.s.deliveries
    requires p == r.sends[c].p && !HasName(r.s, p, r.sends[c].name)
    ensures var after := Advance(Advance(r, Enqueue(c, d)), Recheck(c));
            d in after.s.deliveries && after.s.deliveries[d].progress == Failed(false)
  {
  }

  /** The second look fails exactly the delivery whose seat left, was renamed, or is not on standby any more. */
  lemma SecondLookFailsIff(r: Shared, c: CallId)
    requires c in r.sends && r.sends[c].sent.Some? && r.sends[c].sent.value in r.s.deliveries
    requires r.s.deliveries[r.sends[c].sent.value].progress in {Queued, Delivered, Read, Working(false)}
    ensures var call, d, u := r.sends[c], r.sends[c].sent.value, Advance(r, Recheck(c)).s;
            var there := call.p in r.s.seats && r.s.seats[call.p] == Seat(Some(call.room), call.name, true);
            && d in u.deliveries && u.deliveries[d] == (if there then r.s.deliveries[d] else r.s.deliveries[d].(progress := Failed(false)))
            && forall k | k in r.s.deliveries && k != d :: k in u.deliveries && u.deliveries[k] == r.s.deliveries[k]
  {
  }

  /** The look before enqueueing gives a peer send up for the same reasons, and only then. */
  lemma FirstLookGivesUpIff(r: Shared, c: CallId)
    requires c in r.sends && r.sends[c].peer && r.sends[c].sent.None?
    ensures var call, u := r.sends[c], Advance(r, Precheck(c));
            var there := call.p in r.s.seats && r.s.seats[call.p] == Seat(Some(call.room), call.name, true);
            u == if there then r else r.(sends := r.sends - {c})
  {
  }

  /** A peer send in the same race looks again, and its delivery fails. */
  lemma PeerSendRepairs(r: Shared, c: CallId, p: SeatId, room: RoomId, name: string, d: DeliveryId)
    requires Settled(r) && SentAsRead(r) && Quiet(r, p, room, name) && c !in r.sends && d !in r.s.deliveries
    ensures var read := Advance(r, ReadTarget(c, p, room, true));
            var renamed := Advance(read, Whole(Rename(p, room, name)));
            var after := Advance(Advance(renamed, Enqueue(c, d)), Recheck(c));
            Settled(after) && d in after.s.deliveries && after.s.deliveries[d].progress == Failed(false)
  {
    var renamed := Advance(Advance(r, ReadTarget(c, p, room, true)), Whole(Rename(p, room, name)));
    RenamedMeanwhile(r, c, p, room, name, true);
    SecondLookFails(renamed, c, p, d);
    EnqueueSettles(renamed, c, d);
    AdvanceKeepsSent(renamed, Enqueue(c, d));
    RecheckSettles(Advance(renamed, Enqueue(c, d)), c);
  }

  /** A rename that looked for open work before a whole peer send, and writes after it, misnames it. */
  lemma SplitRenameMisnames(r: Shared, c: CallId, p: SeatId, room: RoomId, name: string, d: DeliveryId, source: SeatId)
    requires Settled(r) && Quiet(r, p, room, name) && c !in r.renames && d !in r.s.deliveries && !InFlight(r, d)
    requires Joined(r.s, source, room) && source != p
    ensures var checked := Advance(r, CheckRename(c, p, room, name));
            var sent := Advance(checked, Whole(Send(source, p, room, d)));
            Settled(sent) && !Settled(Advance(sent, WriteRename(c)))
  {
    var checked := Advance(r, CheckRename(c, p, room, name));
    assert forall k: DeliveryId :: InFlight(checked, k) <==> InFlight(r, k);
    var sent := Advance(checked, Whole(Send(source, p, room, d)));
    WholeSettles(checked, Send(source, p, room, d));
    SameCalls(checked, sent.s);
    WriteSettles(sent, c);
    assert Waiting(sent, d, p, room);
  }
}
