/**
 The bounded in-memory table behind both previews: dirty snapshots (capacity 8) and apply-backs
 (capacity 4).

 A `prepare` suspends between taking its slot and storing its result, an `apply` between reading
 its entry and committing it, so calls interleave. Every event below is one stretch of code between
 two suspension points, and a run is any sequence of them; the clock may even go backwards.
 */
module PendingTable {
  import opened Results
  import opened Collections

  type Id = nat
  type Token = nat
  type Call = nat

  const APPLY_BACK_CAPACITY: nat := 4
  const SNAPSHOT_CAPACITY: nat := 8

  datatype Config = Config(capacity: nat, ttl: nat, approvalTtl: nat)

  datatype Approval = Approval(scope: Id, expiresAt: int)

  datatype Table = Table(
    pending: map<Id, int>,
    preparing: nat,
    approvals: map<Token, Approval>,
    applying: map<Call, Id>)

  /** `Finish(None, _)` is a prepare that threw. */
  datatype Event =
    | Begin(now: int)
    | Finish(made: Option<Id>, now: int)
    | Get(id: Id, now: int)
    | Take(id: Id, now: int)
    | Status(now: int)
    | Clear
    | Issue(id: Id, token: Token, now: int)
    | Start(call: Call, id: Id, now: int)
    | Commit(call: Call, token: Token, now: int)
    | Abort(call: Call)

  const EMPTY := Table(map[], 0, map[], map[])

  function Unexpired(pending: map<Id, int>, now: int): map<Id, int> {
    map id | id in pending && now <= pending[id] :: pending[id]
  }

  predicate Authorizes(t: Table, token: Token, id: Id, now: int) {
    token in t.approvals && t.approvals[token].scope == id && now <= t.approvals[token].expiresAt
  }

  /** A consume that finds an expired approval removes it as well; a wrong scope leaves it. */
  function AfterConsume(t: Table, token: Token, id: Id, now: int): map<Token, Approval> {
    if token in t.approvals && (now > t.approvals[token].expiresAt || t.approvals[token].scope == id)
    then t.approvals - {token}
    else t.approvals
  }

  /** The table after one event, and whether the event succeeded. */
  function Step(c: Config, t: Table, e: Event): (Table, bool) {
    match e
    case Begin(now) =>
      var u := t.(pending := Unexpired(t.pending, now));
      if |u.pending| + u.preparing >= c.capacity then (u, false) else (u.(preparing := u.preparing + 1), true)
    case Finish(made, now) =>
      var pending := if made.Some? then t.pending[made.value := now + c.ttl] else t.pending;
      (t.(pending := pending, preparing := if t.preparing > 0 then t.preparing - 1 else 0), made.Some?)
    case Get(id, now) =>
      var pending := Unexpired(t.pending, now);
      (t.(pending := pending), id in pending)
    case Take(id, now) =>
      var pending := Unexpired(t.pending, now);
      (t.(pending := pending - {id}), id in pending)
    case Status(now) => (t.(pending := Unexpired(t.pending, now)), true)
    case Clear => (t.(pending := map[]), true)
    case Issue(id, token, now) =>
      var pending := Unexpired(t.pending, now);
      if id !in pending then (t.(pending := pending), false)
      else
        var kept := map k | k in t.approvals && now <= t.approvals[k].expiresAt :: t.approvals[k];
        (t.(pending := pending, approvals := kept[token := Approval(id, now + c.approvalTtl)]), true)
    case Start(call, id, now) =>
      var pending := Unexpired(t.pending, now);
      if id !in pending then (t.(pending := pending), false)
      else (t.(pending := pending, applying := t.applying[call := id]), true)
    case Commit(call, token, now) =>
      if call !in t.applying then (t, false)
      else
        var id := t.applying[call];
        var u := t.(applying := t.applying - {call}, approvals := AfterConsume(t, token, id, now));
        if Authorizes(t, token, id, now) then (u.(pending := u.pending - {id}), true) else (u, false)
    case Abort(call) => (t.(applying := t.applying - {call}), true)
  }

  function Run(c: Config, es: seq<Event>): Table {
    if es == [] then EMPTY else Step(c, Run(c, es[..|es| - 1]), es[|es| - 1]).0
  }

  /** The names the environment draws are new, and only a started prepare finishes. */
  ghost predicate Possible(c: Config, es: seq<Event>, e: Event) {
    match e
    case Finish(made, _) =>
      Run(c, es).preparing > 0 && (made.Some? ==> forall i | 0 <= i < |es| && es[i].Finish? :: es[i].made != made)
    case Issue(_, token, _) => forall i | 0 <= i < |es| && es[i].Issue? :: es[i].token != token
    case Start(call, _, _) => forall i | 0 <= i < |es| && es[i].Start? :: es[i].call != call
    case _ => true
  }

  ghost predicate IsRun(c: Config, es: seq<Event>) {
    es == [] || (IsRun(c, es[..|es| - 1]) && Possible(c, es[..|es| - 1], es[|es| - 1]))
  }

  // ----- the table as the services keep it -----

  class Service {
    const config: Config
    var table: Table

    constructor (config: Config)
      ensures this.config == config && table == EMPTY
    {
      this.config := config;
      table := EMPTY;
    }

    method DiscardExpired(now: int)
      modifies this
      ensures table == old(table).(pending := Unexpired(old(table.pending), now))
    {
      var left := table.pending.Keys;
      var was := table.pending;
      while left != {}
        invariant left <= was.Keys
        invariant table == old(table).(pending := table.pending)
        invariant forall id :: id in table.pending <==> id in was && (id in left || now <= was[id])
        invariant forall id | id in table.pending :: table.pending[id] == was[id]
      {
        var id :| id in left;
        if now > was[id] { table := table.(pending := table.pending - {id}); }
        left := left - {id};
      }
    }

    /** The part of `prepare` before its first suspension: the slot is taken. */
    method BeginPrepare(now: int) returns (ok: bool)
      modifies this
      ensures (table, ok) == Step(config, old(table), Begin(now))
      ensures ok <==> |Unexpired(old(table.pending), now)| + old(table.preparing) < config.capacity
    {
      DiscardExpired(now);
      if |table.pending| + table.preparing >= config.capacity { return false; }
      table := table.(preparing := table.preparing + 1);
      return true;
    }

    /** The part after its last suspension: the result is stored and, in any case, the slot released. */
    method FinishPrepare(made: Option<Id>, now: int)
      requires table.preparing > 0
      modifies this
      ensures table == Step(config, old(table), Finish(made, now)).0
      ensures table.preparing == old(table.preparing) - 1
    {
      if made.Some? { table := table.(pending := table.pending[made.value := now + config.ttl]); }
      table := table.(preparing := table.preparing - 1);
    }

    method Lookup(id: Id, now: int) returns (found: bool)
      modifies this
      ensures (table, found) == Step(config, old(table), Get(id, now))
    {
      DiscardExpired(now);
      return id in table.pending;
    }

    method TakeOut(id: Id, now: int) returns (found: bool)
      modifies this
      ensures (table, found) == Step(config, old(table), Take(id, now))
    {
      found := Lookup(id, now);
      table := table.(pending := table.pending - {id});
    }

    /** The synchronous end of the checks of `apply`: the approval is consumed, then the entry dropped. */
    method CommitApply(call: Call, token: Token, now: int) returns (ok: bool)
      requires call in table.applying
      modifies this
      ensures (table, ok) == Step(config, old(table), Commit(call, token, now))
    {
      var id := table.applying[call];
      ok := Authorizes(table, token, id, now);
      table := table.(approvals := AfterConsume(table, token, id, now), applying := table.applying - {call});
      if ok { table := table.(pending := table.pending - {id}); }
    }
  }

  // ----- capacity and slots -----

  function Began(c: Config, es: seq<Event>): nat {
    if es == [] then 0
    else
      var rest, last := es[..|es| - 1], es[|es| - 1];
      Began(c, rest) + if last.Begin? && Step(c, Run(c, rest), last).1 then 1 else 0
  }

  function Finished(es: seq<Event>): nat {
    if es == [] then 0 else Finished(es[..|es| - 1]) + if es[|es| - 1].Finish? then 1 else 0
  }

  lemma UnexpiredIsSmaller(pending: map<Id, int>, now: int)
    ensures |Unexpired(pending, now)| <= |pending|
  {
    Smaller(Unexpired(pending, now).Keys, pending.Keys);
  }

  lemma OneMorePending(pending: map<Id, int>, id: Id, expiresAt: int)
    ensures |pending[id := expiresAt]| <= |pending| + 1
  {
    Smaller(pending[id := expiresAt].Keys, pending.Keys + {id});
  }

  lemma OneLessPending(pending: map<Id, int>, id: Id)
    ensures |pending - {id}| <= |pending|
  {
    Smaller((pending - {id}).Keys, pending.Keys);
  }

  predicate WithinCapacity(c: Config, t: Table) {
    |t.pending| + t.preparing <= c.capacity
  }

  lemma BeginKeepsCapacity(c: Config, t: Table, now: int)
    requires WithinCapacity(c, t)
    ensures WithinCapacity(c, Step(c, t, Begin(now)).0)
  {
    UnexpiredIsSmaller(t.pending, now);
  }

  lemma FinishKeepsCapacity(c: Config, t: Table, made: Option<Id>, now: int)
    requires WithinCapacity(c, t) && t.preparing > 0
    ensures WithinCapacity(c, Step(c, t, Finish(made, now)).0)
  {
    if made.Some? { OneMorePending(t.pending, made.value, now + c.ttl); }
  }

  lemma TakeKeepsCapacity(c: Config, t: Table, id: Id, now: int)
    requires WithinCapacity(c, t)
    ensures WithinCapacity(c, Step(c, t, Take(id, now)).0)
  {
    UnexpiredIsSmaller(t.pending, now);
    OneLessPending(Unexpired(t.pending, now), id);
  }

  lemma CommitKeepsCapacity(c: Config, t: Table, call: Call, token: Token, now: int)
    requires WithinCapacity(c, t)
    ensures WithinCapacity(c, Step(c, t, Commit(call, token, now)).0)
  {
    if call in t.applying { OneLessPending(t.pending, t.applying[call]); }
  }

  lemma IssueKeepsCapacity(c: Config, t: Table, id: Id, token: Token, now: int)
    requires WithinCapacity(c, t)
    ensures WithinCapacity(c, Step(c, t, Issue(id, token, now)).0)
  {
    UnexpiredIsSmaller(t.pending, now);
  }

  lemma StartKeepsCapacity(c: Config, t: Table, call: Call, id: Id, now: int)
    requires WithinCapacity(c, t)
    ensures WithinCapacity(c, Step(c, t, Start(call, id, now)).0)
  {
    UnexpiredIsSmaller(t.pending, now);
  }

  lemma StepKeepsCapacity(c: Config, t: Table, e: Event)
    requires WithinCapacity(c, t) && (e.Finish? ==> t.preparing > 0)
    ensures WithinCapacity(c, Step(c, t, e).0)
  {
    match e
    case Begin(now) => BeginKeepsCapacity(c, t, now);
    case Finish(made, now) => FinishKeepsCapacity(c, t, made, now);
    case Get(_, now) => UnexpiredIsSmaller(t.pending, now);
    case Take(id, now) => TakeKeepsCapacity(c, t, id, now);
    case Status(now) => UnexpiredIsSmaller(t.pending, now);
    case Clear =>
    case Issue(id, token, now) => IssueKeepsCapacity(c, t, id, token, now);
    case Start(call, id, now) => StartKeepsCapacity(c, t, call, id, now);
    case Commit(call, token, now) => CommitKeepsCapacity(c, t, call, token, now);
    case Abort(_) =>
  }

  /** In every run: entries and running prepares stay within the capacity, and every slot is released. */
  lemma {:induction false} CapacityHolds(c: Config, es: seq<Event>)
    requires IsRun(c, es)
    ensures WithinCapacity(c, Run(c, es))
    ensures Run(c, es).preparing == Began(c, es) - Finished(es)
  {
    if es != [] {
      var rest, last := es[..|es| - 1], es[|es| - 1];
      CapacityHolds(c, rest);
      StepKeepsCapacity(c, Run(c, rest), last);
    }
  }

  // ----- what the table remembers -----

  function Clock(e: Event): Option<int> {
    match e
    case Begin(now) => Some(now)
    case Get(_, now) => Some(now)
    case Take(_, now) => Some(now)
    case Status(now) => Some(now)
    case Issue(_, _, now) => Some(now)
    case Start(_, _, now) => Some(now)
    case _ => None
  }

  predicate Commits(c: Config, t: Table, e: Event, id: Id) {
    e.Commit? && e.call in t.applying && t.applying[e.call] == id && Step(c, t, e).1
  }

  /** An event after which an entry of that expiry is gone. */
  predicate Ends(c: Config, t: Table, e: Event, id: Id, expiresAt: int) {
    || (Clock(e).Some? && Clock(e).value > expiresAt)
    || (e.Take? && e.id == id)
    || e.Clear?
    || Commits(c, t, e, id)
  }

  predicate Made(es: seq<Event>, i: nat, id: Id) {
    i < |es| && es[i].Finish? && es[i].made == Some(id)
  }

  /** The history as an outsider reads it: prepared at `i`, and nothing ended it since. */
  ghost predicate LiveSince(c: Config, es: seq<Event>, i: nat, id: Id) {
    Made(es, i, id) && forall j | i < j < |es| :: !Ends(c, Run(c, es[..j]), es[j], id, es[i].now + c.ttl)
  }

  lemma StepRemembers(c: Config, t: Table, e: Event, id: Id)
    requires !(e.Finish? && e.made == Some(id))
    ensures id in Step(c, t, e).0.pending <==> id in t.pending && !Ends(c, t, e, id, t.pending[id])
    ensures id in Step(c, t, e).0.pending ==> Step(c, t, e).0.pending[id] == t.pending[id]
  {
  }

  lemma LiveOneMore(c: Config, es: seq<Event>, e: Event, i: nat, id: Id)
    requires Made(es, i, id)
    ensures LiveSince(c, es + [e], i, id) <==> LiveSince(c, es, i, id) && !Ends(c, Run(c, es), e, id, es[i].now + c.ttl)
  {
    var all := es + [e];
    assert forall j | 0 <= j < |es| :: all[..j] == es[..j] && all[j] == es[j];
    assert all[..|es|] == es && all[|es|] == e;
  }

  /** Every name is given to one entry only. */
  lemma MadeOnce(c: Config, es: seq<Event>, e: Event, i: nat, id: Id)
    requires Possible(c, es, e) && Made(es, i, id)
    ensures !(e.Finish? && e.made == Some(id))
  {
  }

  ghost predicate Live(c: Config, es: seq<Event>, id: Id) {
    exists i: nat :: LiveSince(c, es, i, id)
  }

  lemma RemembersOneMore(c: Config, es: seq<Event>, e: Event, id: Id)
    requires IsRun(c, es + [e]) && Possible(c, es, e)
    requires id in Run(c, es).pending <==> Live(c, es, id)
    requires forall i: nat | LiveSince(c, es, i, id) :: Run(c, es).pending[id] == es[i].now + c.ttl
    ensures id in Step(c, Run(c, es), e).0.pending <==> Live(c, es + [e], id)
    ensures forall i: nat | LiveSince(c, es + [e], i, id) ::
      Step(c, Run(c, es), e).0.pending[id] == (es + [e])[i].now + c.ttl
  {
    var all := es + [e];
    forall i: nat | Made(es, i, id)
      ensures LiveSince(c, all, i, id) <==> LiveSince(c, es, i, id) && !Ends(c, Run(c, es), e, id, es[i].now + c.ttl)
      ensures !(e.Finish? && e.made == Some(id))
    {
      LiveOneMore(c, es, e, i, id);
      MadeOnce(c, es, e, i, id);
    }
    assert forall i: nat | Made(all, i, id) && i < |es| :: Made(es, i, id);
    if e.Finish? && e.made == Some(id) {
      assert LiveSince(c, all, |es|, id);
    } else {
      StepRemembers(c, Run(c, es), e, id);
      if Live(c, es, id) {
        var i: nat :| LiveSince(c, es, i, id);
        assert all[i] == es[i];
      }
    }
  }

  /** An entry is in the table exactly while its history says so, with the expiry it was given. */
  lemma {:induction false} PendingIffLive(c: Config, es: seq<Event>, id: Id)
    requires IsRun(c, es)
    ensures id in Run(c, es).pending <==> Live(c, es, id)
    ensures forall i: nat | LiveSince(c, es, i, id) :: Run(c, es).pending[id] == es[i].now + c.ttl
  {
    if es != [] {
      var rest, last := es[..|es| - 1], es[|es| - 1];
      PendingIffLive(c, rest, id);
      assert es == rest + [last];
      RemembersOneMore(c, rest, last, id);
    }
  }

  // ----- taken at most once, never late -----

  predicate Taken(c: Config, es: seq<Event>, k: nat, id: Id) {
    k < |es| && es[k].Take? && es[k].id == id && Step(c, Run(c, es[..k]), es[k]).1
  }

  lemma {:induction false} PrefixIsRun(c: Config, es: seq<Event>, k: nat)
    requires IsRun(c, es) && k <= |es|
    ensures IsRun(c, es[..k])
  {
    if k < |es| {
      PrefixIsRun(c, es[..|es| - 1], k);
      assert es[..|es| - 1][..k] == es[..k];
    } else {
      assert es[..k] == es;
    }
  }

  /** A take succeeds exactly on a live entry that has not expired. */
  lemma TakenIffLive(c: Config, es: seq<Event>, k: nat, id: Id)
    requires IsRun(c, es) && k < |es| && es[k].Take? && es[k].id == id
    ensures Taken(c, es, k, id)
            <==> exists i: nat :: LiveSince(c, es[..k], i, id) && es[k].now <= es[i].now + c.ttl
  {
    PrefixIsRun(c, es, k);
    PendingIffLive(c, es[..k], id);
    if Live(c, es[..k], id) {
      var i: nat :| LiveSince(c, es[..k], i, id);
      assert es[..k][i] == es[i];
      if Taken(c, es, k, id) {
        assert es[k].now <= es[i].now + c.ttl;
      }
    }
  }

  lemma MadeTwice(c: Config, es: seq<Event>, i: nat, j: nat, id: Id)
    requires IsRun(c, es) && Made(es, i, id) && Made(es, j, id)
    ensures i == j
  {
    var first, second := if i < j then i else j, if i < j then j else i;
    PrefixIsRun(c, es, second + 1);
    assert es[..second + 1][..second] == es[..second];
    if first < second { MadeOnce(c, es[..second], es[second], first, id); }
  }

  /** In every run a snapshot is taken at most once. */
  lemma TakenOnce(c: Config, es: seq<Event>, j: nat, k: nat, id: Id)
    requires IsRun(c, es) && Taken(c, es, j, id) && Taken(c, es, k, id)
    ensures j == k
  {
    var first, second := if j < k then j else k, if j < k then k else j;
    if first < second {
      TakenIffLive(c, es, first, id);
      TakenIffLive(c, es, second, id);
      var a: nat :| LiveSince(c, es[..first], a, id);
      var b: nat :| LiveSince(c, es[..second], b, id);
      assert es[..second][first] == es[first] && es[..second][..first] == es[..first];
      assert Ends(c, Run(c, es[..first]), es[first], id, es[b].now + c.ttl);
      assert a < b;
      MadeTwice(c, es, a, b, id);
    }
  }

  // ----- commits and approvals -----

  function Issued(c: Config, es: seq<Event>, id: Id): nat {
    if es == [] then 0
    else
      var rest, last := es[..|es| - 1], es[|es| - 1];
      Issued(c, rest, id) + if last.Issue? && last.id == id && Step(c, Run(c, rest), last).1 then 1 else 0
  }

  function Committed(c: Config, es: seq<Event>, id: Id): nat {
    if es == [] then 0
    else
      var rest, last := es[..|es| - 1], es[|es| - 1];
      Committed(c, rest, id) + if Commits(c, Run(c, rest), last, id) then 1 else 0
  }

  function Open(t: Table, id: Id): set<Token> {
    set k | k in t.approvals && t.approvals[k].scope == id
  }

  lemma StepSpendsApprovals(c: Config, t: Table, e: Event, id: Id)
    ensures var gain, spend := if e.Issue? && e.id == id && Step(c, t, e).1 then 1 else 0, if Commits(c, t, e, id) then 1 else 0;
            |Open(Step(c, t, e).0, id)| + spend <= |Open(t, id)| + gain
  {
    var u := Step(c, t, e).0;
    match e
    case Issue(scope, token, _) =>
      if scope == id {
        Smaller(Open(u, id), Open(t, id) + {token});
      } else {
        Smaller(Open(u, id), Open(t, id));
      }
    case Commit(call, token, now) =>
      if Commits(c, t, e, id) {
        assert token in Open(t, id);
        Smaller(Open(u, id), Open(t, id) - {token});
      } else {
        Smaller(Open(u, id), Open(t, id));
      }
    case _ =>
  }

  /** In every run a preview is committed at most as often as an approval was issued for it. */
  lemma {:induction false} CommitsNeedApprovals(c: Config, es: seq<Event>, id: Id)
    ensures Committed(c, es, id) + |Open(Run(c, es), id)| <= Issued(c, es, id)
  {
    if es != [] {
      CommitsNeedApprovals(c, es[..|es| - 1], id);
      StepSpendsApprovals(c, Run(c, es[..|es| - 1]), es[|es| - 1], id);
    }
  }

  // ----- what is looked up, and what authorizes -----

  /** A lookup, a take, an approval and an apply find an entry exactly while it is live and in time. */
  lemma FoundIffLive(c: Config, es: seq<Event>, e: Event, id: Id)
    requires IsRun(c, es) && (e.Get? || e.Take? || e.Issue? || e.Start?) && e.id == id
    ensures Step(c, Run(c, es), e).1 <==> exists m: nat :: LiveSince(c, es, m, id) && e.now <= es[m].now + c.ttl
  {
    PendingIffLive(c, es, id);
    if Live(c, es, id) {
      var m: nat :| LiveSince(c, es, m, id);
      assert Run(c, es).pending[id] == es[m].now + c.ttl;
    }
  }

  /** Event `i` approved the entry with this token. */
  predicate IssuedAt(c: Config, es: seq<Event>, i: nat, token: Token, id: Id) {
    i < |es| && es[i].Issue? && es[i].token == token && es[i].id == id && Step(c, Run(c, es[..i]), es[i]).1
  }

  /** An event that spends or discards an approval of that expiry: an apply of its own scope, or anyone late. */
  predicate Voids(c: Config, t: Table, e: Event, token: Token, id: Id, expiresAt: int) {
    || (e.Issue? && Step(c, t, e).1 && e.now > expiresAt)
    || (e.Commit? && e.call in t.applying && e.token == token && (e.now > expiresAt || t.applying[e.call] == id))
  }

  ghost predicate OpenSince(c: Config, es: seq<Event>, i: nat, token: Token, id: Id) {
    && IssuedAt(c, es, i, token, id)
    && forall j | i < j < |es| :: !Voids(c, Run(c, es[..j]), es[j], token, id, es[i].now + c.approvalTtl)
  }

  /** The approval is held for this scope with that expiry. */
  predicate Holds(t: Table, token: Token, id: Id, expiresAt: int) {
    token in t.approvals && t.approvals[token] == Approval(id, expiresAt)
  }

  lemma StepHolds(c: Config, t: Table, e: Event, token: Token, id: Id, expiresAt: int)
    requires !(e.Issue? && e.token == token && Step(c, t, e).1)
    ensures Holds(Step(c, t, e).0, token, id, expiresAt) <==>
      Holds(t, token, id, expiresAt) && !Voids(c, t, e, token, id, expiresAt)
  {
  }

  lemma IssueHolds(c: Config, t: Table, e: Event, id: Id, expiresAt: int)
    requires e.Issue? && Step(c, t, e).1
    ensures Holds(Step(c, t, e).0, e.token, id, expiresAt) <==> e.id == id && expiresAt == e.now + c.approvalTtl
  {
  }

  lemma OpenInPrefix(c: Config, es: seq<Event>, e: Event, i: nat, token: Token, id: Id)
    requires i < |es|
    ensures OpenSince(c, es + [e], i, token, id) <==>
      OpenSince(c, es, i, token, id) && !Voids(c, Run(c, es), e, token, id, es[i].now + c.approvalTtl)
  {
    var all := es + [e];
    assert forall j | 0 <= j < |es| :: all[..j] == es[..j] && all[j] == es[j];
    assert all[..|es|] == es && all[|es|] == e;
    assert IssuedAt(c, all, i, token, id) <==> IssuedAt(c, es, i, token, id);
  }

  lemma OpenAtLast(c: Config, es: seq<Event>, e: Event, token: Token, id: Id)
    ensures OpenSince(c, es + [e], |es|, token, id) <==>
      e.Issue? && e.token == token && e.id == id && Step(c, Run(c, es), e).1
  {
    assert (es + [e])[..|es|] == es && (es + [e])[|es|] == e;
  }

  lemma OpenOneMore(c: Config, es: seq<Event>, e: Event, i: nat, token: Token, id: Id)
    ensures i < |es| ==>
      (OpenSince(c, es + [e], i, token, id) <==>
         OpenSince(c, es, i, token, id) && !Voids(c, Run(c, es), e, token, id, es[i].now + c.approvalTtl))
    ensures OpenSince(c, es + [e], |es|, token, id) <==>
      e.Issue? && e.token == token && e.id == id && Step(c, Run(c, es), e).1
    ensures OpenSince(c, es + [e], i, token, id) ==> i <= |es|
  {
    if i < |es| { OpenInPrefix(c, es, e, i, token, id); }
    OpenAtLast(c, es, e, token, id);
  }

  ghost predicate OpenWith(c: Config, es: seq<Event>, token: Token, id: Id, expiresAt: int) {
    exists i: nat :: OpenSince(c, es, i, token, id) && es[i].now + c.approvalTtl == expiresAt
  }

  lemma OpenWithOneMore(c: Config, es: seq<Event>, e: Event, token: Token, id: Id, expiresAt: int)
    requires !(e.Issue? && e.token == token && Step(c, Run(c, es), e).1)
    ensures OpenWith(c, es + [e], token, id, expiresAt) <==>
      OpenWith(c, es, token, id, expiresAt) && !Voids(c, Run(c, es), e, token, id, expiresAt)
  {
    var all := es + [e];
    if OpenWith(c, all, token, id, expiresAt) {
      var i: nat :| OpenSince(c, all, i, token, id) && all[i].now + c.approvalTtl == expiresAt;
      OpenOneMore(c, es, e, i, token, id);
    }
    if OpenWith(c, es, token, id, expiresAt) && !Voids(c, Run(c, es), e, token, id, expiresAt) {
      var i: nat :| OpenSince(c, es, i, token, id) && es[i].now + c.approvalTtl == expiresAt;
      OpenOneMore(c, es, e, i, token, id);
      assert all[i] == es[i];
    }
  }

  lemma OpenWithIssued(c: Config, es: seq<Event>, e: Event, id: Id, expiresAt: int)
    requires Possible(c, es, e) && e.Issue? && Step(c, Run(c, es), e).1
    ensures OpenWith(c, es + [e], e.token, id, expiresAt) <==> e.id == id && expiresAt == e.now + c.approvalTtl
  {
    var all := es + [e];
    OpenOneMore(c, es, e, |es|, e.token, id);
    assert all[|es|] == e;
    if OpenWith(c, all, e.token, id, expiresAt) {
      var i: nat :| OpenSince(c, all, i, e.token, id) && all[i].now + c.approvalTtl == expiresAt;
      OpenOneMore(c, es, e, i, e.token, id);
    }
  }

  /** An approval is held exactly while its history says so: issued for a live entry, and neither spent nor discarded. */
  lemma {:induction false} HeldIffOpen(c: Config, es: seq<Event>, token: Token, id: Id, expiresAt: int)
    requires IsRun(c, es)
    ensures Holds(Run(c, es), token, id, expiresAt) <==> OpenWith(c, es, token, id, expiresAt)
  {
    if es != [] {
      var rest, e := es[..|es| - 1], es[|es| - 1];
      HeldIffOpen(c, rest, token, id, expiresAt);
      assert es == rest + [e];
      if e.Issue? && e.token == token && Step(c, Run(c, rest), e).1 {
        OpenWithIssued(c, rest, e, id, expiresAt);
        IssueHolds(c, Run(c, rest), e, id, expiresAt);
      } else {
        OpenWithOneMore(c, rest, e, token, id, expiresAt);
        StepHolds(c, Run(c, rest), e, token, id, expiresAt);
      }
    }
  }

  /**
   A token authorizes exactly within the lifetime of its approval: issued for that entry while it was
   live, not spent by an apply of it and not discarded as expired since, and not older than its lifetime.
   */
  lemma AuthorizesIffOpen(c: Config, es: seq<Event>, token: Token, id: Id, now: int)
    requires IsRun(c, es)
    ensures Authorizes(Run(c, es), token, id, now) <==>
      exists i: nat :: OpenSince(c, es, i, token, id) && now <= es[i].now + c.approvalTtl
  {
    if Authorizes(Run(c, es), token, id, now) {
      HeldIffOpen(c, es, token, id, Run(c, es).approvals[token].expiresAt);
    }
    forall i: nat | OpenSince(c, es, i, token, id) && now <= es[i].now + c.approvalTtl
      ensures Authorizes(Run(c, es), token, id, now)
    {
      HeldIffOpen(c, es, token, id, es[i].now + c.approvalTtl);
    }
  }

  // ----- when a preview is committed again -----

  /** Event `i` is an apply that read the entry. */
  predicate StartsOn(c: Config, es: seq<Event>, i: nat, call: Call, id: Id) {
    i < |es| && es[i].Start? && es[i].call == call && es[i].id == id && Step(c, Run(c, es[..i]), es[i]).1
  }

  predicate IsOver(e: Event, call: Call) {
    (e.Commit? && e.call == call) || (e.Abort? && e.call == call)
  }

  /** An apply that read the entry at `i` and has neither committed nor given up since. */
  ghost predicate StartedSince(c: Config, es: seq<Event>, i: nat, call: Call, id: Id) {
    StartsOn(c, es, i, call, id) && forall j | i < j < |es| :: !IsOver(es[j], call)
  }

  lemma StartedOneMore(c: Config, es: seq<Event>, e: Event, call: Call, id: Id)
    ensures forall i: nat | i < |es| ::
      StartedSince(c, es + [e], i, call, id) <==> StartedSince(c, es, i, call, id) && !IsOver(e, call)
    ensures StartedSince(c, es + [e], |es|, call, id) <==>
      e.Start? && e.call == call && e.id == id && Step(c, Run(c, es), e).1
  {
    var all := es + [e];
    assert forall j | 0 <= j < |es| :: all[..j] == es[..j] && all[j] == es[j];
    assert all[..|es|] == es && all[|es|] == e;
  }

  lemma StepApplies(c: Config, t: Table, e: Event, call: Call)
    ensures e.Start? && e.call == call && Step(c, t, e).1 ==>
      call in Step(c, t, e).0.applying && Step(c, t, e).0.applying[call] == e.id
    ensures !(e.Start? && e.call == call && Step(c, t, e).1) ==>
      && (call in Step(c, t, e).0.applying <==> call in t.applying && !IsOver(e, call))
      && (call in Step(c, t, e).0.applying ==> Step(c, t, e).0.applying[call] == t.applying[call])
  {
  }

  predicate Applies(t: Table, call: Call, id: Id) {
    call in t.applying && t.applying[call] == id
  }

  lemma AppliesOneMore(c: Config, es: seq<Event>, e: Event, call: Call, id: Id)
    requires Possible(c, es, e)
    requires Applies(Run(c, es), call, id) <==> exists i: nat :: StartedSince(c, es, i, call, id)
    ensures Applies(Run(c, es + [e]), call, id) <==> exists i: nat :: StartedSince(c, es + [e], i, call, id)
  {
    assert (es + [e])[..|es|] == es;
    StartedOneMore(c, es, e, call, id);
    StepApplies(c, Run(c, es), e, call);
    if e.Start? && e.call == call && Step(c, Run(c, es), e).1 {
      StartedOnce(c, es, e, call, id);
      assert forall i: nat | StartedSince(c, es + [e], i, call, id) :: i == |es|;
      assert e.id == id ==> StartedSince(c, es + [e], |es|, call, id);
    } else if Applies(Step(c, Run(c, es), e).0, call, id) {
      var i: nat :| StartedSince(c, es, i, call, id);
      assert StartedSince(c, es + [e], i, call, id);
    }
  }

  lemma LastApart(es: seq<Event>)
    requires es != []
    ensures es == es[..|es| - 1] + [es[|es| - 1]]
  {
  }

  /** A call is applying an entry exactly while its history says so. */
  lemma {:induction false} AppliesIffStarted(c: Config, es: seq<Event>, call: Call, id: Id)
    requires IsRun(c, es)
    ensures Applies(Run(c, es), call, id) <==> exists i: nat :: StartedSince(c, es, i, call, id)
  {
    if es != [] {
      AppliesIffStarted(c, es[..|es| - 1], call, id);
      AppliesOneMore(c, es[..|es| - 1], es[|es| - 1], call, id);
      LastApart(es);
    }
  }

  lemma StartedOnce(c: Config, es: seq<Event>, e: Event, call: Call, id: Id)
    requires Possible(c, es, e) && e.Start? && e.call == call
    ensures forall i: nat :: !StartedSince(c, es, i, call, id)
  {
  }

  /** Whoever reads an entry finds it prepared before. */
  lemma StartNeedsMade(c: Config, es: seq<Event>, i: nat, call: Call, id: Id) returns (m: nat)
    requires IsRun(c, es) && StartsOn(c, es, i, call, id)
    ensures m < i && Made(es, m, id) && LiveSince(c, es[..i], m, id)
  {
    PrefixIsRun(c, es, i);
    PendingIffLive(c, es[..i], id);
    m :| LiveSince(c, es[..i], m, id);
    assert es[..i][m] == es[m];
  }

  /** What is committed was prepared before. */
  lemma CommitNeedsMade(c: Config, es: seq<Event>, j: nat, id: Id) returns (m: nat)
    requires IsRun(c, es) && j < |es| && Commits(c, Run(c, es[..j]), es[j], id)
    ensures m < j && Made(es, m, id)
  {
    PrefixIsRun(c, es, j);
    AppliesIffStarted(c, es[..j], es[j].call, id);
    var first: nat :| StartedSince(c, es[..j], first, es[j].call, id);
    PrefixStart(c, es, j, first, es[j].call, id);
    m := StartNeedsMade(c, es, first, es[j].call, id);
  }

  lemma PrefixStart(c: Config, es: seq<Event>, n: nat, i: nat, call: Call, id: Id)
    requires n <= |es| && StartsOn(c, es[..n], i, call, id)
    ensures StartsOn(c, es, i, call, id)
  {
    assert es[..n][i] == es[i] && es[..n][..i] == es[..i];
  }

  /** While an entry lives, no commit of it lies since its preparation. */
  lemma LiveMeansUncommitted(c: Config, es: seq<Event>, m: nat, j: nat, i: nat, id: Id)
    requires m < j < |es| && i <= |es| && Commits(c, Run(c, es[..j]), es[j], id)
    requires LiveSince(c, es[..i], m, id)
    ensures i <= j
  {
    assert forall x | 0 <= x < i :: es[..i][x] == es[x] && es[..i][..x] == es[..x];
  }

  /** Nobody reads an entry that was committed. */
  lemma NoStartAfterCommit(c: Config, es: seq<Event>, j: nat, i: nat, call: Call, id: Id)
    requires IsRun(c, es) && j < |es| && Commits(c, Run(c, es[..j]), es[j], id)
    requires StartsOn(c, es, i, call, id)
    ensures i < j
  {
    var m := CommitNeedsMade(c, es, j, id);
    var n := StartNeedsMade(c, es, i, call, id);
    MadeTwice(c, es, m, n, id);
    LiveMeansUncommitted(c, es, n, j, i, id);
    assert es[i].Start? && es[j].Commit?;
  }

  /**
   A preview that was committed is committed again if and only if the approval is one for it, still open
   and in time, and the apply had read the preview before the first commit and was under way since.
   */
  lemma CommittedAgainIff(c: Config, es: seq<Event>, j: nat, k: nat, id: Id)
    requires IsRun(c, es) && j < k < |es| && es[k].Commit?
    requires Commits(c, Run(c, es[..j]), es[j], id)
    ensures Commits(c, Run(c, es[..k]), es[k], id) <==>
      && Authorizes(Run(c, es[..k]), es[k].token, id, es[k].now)
      && exists i: nat :: i < j && StartedSince(c, es[..k], i, es[k].call, id)
  {
    PrefixIsRun(c, es, k);
    AppliesIffStarted(c, es[..k], es[k].call, id);
    forall i: nat | StartedSince(c, es[..k], i, es[k].call, id)
      ensures i < j
    {
      PrefixStart(c, es, k, i, es[k].call, id);
      NoStartAfterCommit(c, es, j, i, es[k].call, id);
    }
  }

  // ----- the two services -----

  /** The capacities of the snapshot and apply-back services, in every run of either. */
  lemma ServicesHoldTheirCapacity(ttl: nat, approvalTtl: nat, snapshots: seq<Event>, applyBacks: seq<Event>)
    requires IsRun(Config(SNAPSHOT_CAPACITY, ttl, approvalTtl), snapshots)
    requires IsRun(Config(APPLY_BACK_CAPACITY, ttl, approvalTtl), applyBacks)
    ensures var t := Run(Config(SNAPSHOT_CAPACITY, ttl, approvalTtl), snapshots); |t.pending| + t.preparing <= 8
    ensures var t := Run(Config(APPLY_BACK_CAPACITY, ttl, approvalTtl), applyBacks); |t.pending| + t.preparing <= 4
  {
    CapacityHolds(Config(SNAPSHOT_CAPACITY, ttl, approvalTtl), snapshots);
    CapacityHolds(Config(APPLY_BACK_CAPACITY, ttl, approvalTtl), applyBacks);
  }

  // ----- the bound is reached -----

  lemma OneMore(c: Config, es: seq<Event>, e: Event, id: Id)
    requires IsRun(c, es) && Possible(c, es, e)
    ensures IsRun(c, es + [e]) && Run(c, es + [e]) == Step(c, Run(c, es), e).0
    ensures Committed(c, es + [e], id) == Committed(c, es, id) + if Commits(c, Run(c, es), e, id) then 1 else 0
  {
    assert (es + [e])[..|es|] == es;
  }

  predicate NewToken(es: seq<Event>, token: Token) {
    forall i | 0 <= i < |es| && es[i].Issue? :: es[i].token != token
  }

  predicate NewCall(es: seq<Event>, call: Call) {
    forall i | 0 <= i < |es| && es[i].Start? :: es[i].call != call
  }

  lemma IssueStep(c: Config, t: Table, id: Id, token: Token, now: int)
    requires id in t.pending && now <= t.pending[id]
    ensures var u := Step(c, t, Issue(id, token, now)).0;
            && id in u.pending && u.pending[id] == t.pending[id] && Authorizes(u, token, id, now)
            && (forall k | k != token && Authorizes(t, k, id, now) :: Authorizes(u, k, id, now))
  {
  }

  lemma StartStep(c: Config, t: Table, call: Call, id: Id, now: int)
    requires id in t.pending && now <= t.pending[id]
    ensures var u := Step(c, t, Start(call, id, now)).0;
            && id in u.pending && u.pending[id] == t.pending[id]
            && u.applying == t.applying[call := id] && u.approvals == t.approvals
  {
  }

  lemma CommitTwice(c: Config, t: Table, a: Call, b: Call, x: Token, y: Token, id: Id, now: int)
    requires a in t.applying && b in t.applying && t.applying[a] == t.applying[b] == id && a != b
    requires Authorizes(t, x, id, now) && Authorizes(t, y, id, now) && x != y
    ensures Commits(c, t, Commit(a, x, now), id)
    ensures Commits(c, Step(c, t, Commit(a, x, now)).0, Commit(b, y, now), id)
  {
  }

  /**
   Any live preview can be committed twice: approve it twice, and let two applies read it before either
   commits. The entry is not looked up again once an approval is consumed.
   */
  lemma TwoApprovalsCommitTwice(c: Config, es: seq<Event>, id: Id, x: Token, y: Token, a: Call, b: Call, now: int)
    returns (all: seq<Event>)
    requires IsRun(c, es) && id in Run(c, es).pending && now <= Run(c, es).pending[id]
    requires NewToken(es, x) && NewToken(es, y) && x != y && NewCall(es, a) && NewCall(es, b) && a != b
    ensures all == es + [Issue(id, x, now)] + [Issue(id, y, now)] + [Start(a, id, now)] + [Start(b, id, now)]
                   + [Commit(a, x, now)] + [Commit(b, y, now)]
    ensures IsRun(c, all) && Committed(c, all, id) == Committed(c, es, id) + 2
  {
    all := es;
    var approved := ApprovedTwice(c, es, id, x, y, now);
    OneMore(c, approved, Start(a, id, now), id);
    StartStep(c, Run(c, approved), a, id, now);
    var one := approved + [Start(a, id, now)];
    OneMore(c, one, Start(b, id, now), id);
    StartStep(c, Run(c, one), b, id, now);
    var two := one + [Start(b, id, now)];
    CommitTwice(c, Run(c, two), a, b, x, y, id, now);
    OneMore(c, two, Commit(a, x, now), id);
    OneMore(c, two + [Commit(a, x, now)], Commit(b, y, now), id);
    all := two + [Commit(a, x, now)] + [Commit(b, y, now)];
  }

  lemma ApprovedTwice(c: Config, es: seq<Event>, id: Id, x: Token, y: Token, now: int) returns (all: seq<Event>)
    requires IsRun(c, es) && id in Run(c, es).pending && now <= Run(c, es).pending[id]
    requires NewToken(es, x) && NewToken(es, y) && x != y
    ensures all == es + [Issue(id, x, now)] + [Issue(id, y, now)]
    ensures IsRun(c, all) && Committed(c, all, id) == Committed(c, es, id)
    ensures id in Run(c, all).pending && now <= Run(c, all).pending[id]
    ensures Authorizes(Run(c, all), x, id, now) && Authorizes(Run(c, all), y, id, now)
    ensures forall call | NewCall(es, call) :: NewCall(all, call)
  {
    var one := es + [Issue(id, x, now)];
    OneMore(c, es, Issue(id, x, now), id);
    IssueStep(c, Run(c, es), id, x, now);
    OneMore(c, one, Issue(id, y, now), id);
    IssueStep(c, Run(c, one), id, y, now);
    all := one + [Issue(id, y, now)];
  }
}
