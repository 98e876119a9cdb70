/**
 Who may write a task: one Writer lease per task, and the children a Writer delegates to.

 Leases and delegations live in two databases, so no transaction spans them: a service call ends a
 lease first and sweeps its children afterwards. Both stores are values here; a method of `Service`
 runs one call, and `failAt` is the sweep at which its bookkeeping throws (a full ledger, a busy
 database), if any. A crash at that point leaves the same state.
 */
module WriterAuthority {
  import opened Results
  import opened Collections

  type TaskId = nat
  type LeaseId = nat
  type ChildId = nat
  type Actor = nat

  datatype Provider = Codex | Claude | Grok
  datatype LeaseState = Active | Revoked | Completed

  datatype Task = Task(nextEpoch: nat, active: Option<LeaseId>, applying: bool, applied: bool)

  datatype Writer = Writer(actor: Actor, provider: Provider, external: bool)

  datatype Lease = Lease(task: TaskId, epoch: nat, state: LeaseState, writer: Writer)

  /** `access` to write is given to a child of the parent's own provider only. */
  datatype Child = Child(
    parent: LeaseId, task: TaskId, epoch: nat, provider: Provider, write: bool, active: bool)

  datatype Stores = Stores(tasks: map<TaskId, Task>, leases: map<LeaseId, Lease>, children: map<ChildId, Child>)

  const MAX_CHILDREN := 8

  const EMPTY := Stores(map[], map[], map[])

  // ----- the store transactions -----

  predicate IsActive(s: Stores, l: LeaseId) {
    l in s.leases && s.leases[l].state == Active
  }

  /** The lease a task's writer must hold. */
  function Current(s: Stores, t: TaskId): Option<LeaseId> {
    if t in s.tasks then s.tasks[t].active else None
  }

  predicate Grantable(s: Stores, t: TaskId) {
    t in s.tasks ==> s.tasks[t].active.None? && !s.tasks[t].applied && !s.tasks[t].applying
  }

  function NextTask(s: Stores, t: TaskId): Task {
    if t in s.tasks then s.tasks[t] else Task(1, None, false, false)
  }

  function GrantLease(s: Stores, t: TaskId, l: LeaseId, w: Writer): Stores
    requires l !in s.leases
  {
    var task := NextTask(s, t);
    s.(tasks := s.tasks[t := task.(nextEpoch := task.nextEpoch + 1, active := Some(l))],
       leases := s.leases[l := Lease(t, task.nextEpoch, Active, w)])
  }

  /** Ends a set of leases in one transaction. */
  function EndLeases(s: Stores, ls: set<LeaseId>, how: LeaseState): Stores {
    s.(tasks := map t | t in s.tasks ::
         if s.tasks[t].active.Some? && s.tasks[t].active.value in ls then s.tasks[t].(active := None) else s.tasks[t],
       leases := map l | l in s.leases :: if l in ls then s.leases[l].(state := how) else s.leases[l])
  }

  function Children(s: Stores, l: LeaseId): set<ChildId> {
    set c | c in s.children && s.children[c].active && s.children[c].parent == l
  }

  function Sweep(s: Stores, ls: set<LeaseId>): Stores {
    s.(children := map c | c in s.children ::
         if s.children[c].parent in ls then s.children[c].(active := false) else s.children[c])
  }

  /** `parent` as it was read, perhaps before another process ended it. */
  function AddChild(s: Stores, c: ChildId, l: LeaseId, parent: Lease, provider: Provider): Option<Stores> {
    if c in s.children || parent.state != Active || |Children(s, l)| >= MAX_CHILDREN then None
    else
      Some(s.(children := s.children[c := Child(l, parent.task, parent.epoch, provider, parent.writer.provider == provider, true)]))
  }

  function StartApply(s: Stores, t: TaskId): Stores
    requires t in s.tasks
  {
    s.(tasks := s.tasks[t := s.tasks[t].(applying := true)])
  }

  function FinishApply(s: Stores, t: TaskId, done: bool): Stores
    requires t in s.tasks
  {
    s.(tasks := s.tasks[t := s.tasks[t].(applying := false, applied := done)])
  }

  /** What a delegated write is checked against; the capability token names its child. */
  predicate AcceptsWrite(s: Stores, t: TaskId, c: ChildId, token: ChildId) {
    && Current(s, t).Some?
    && (var l := Current(s, t).value;
        && IsActive(s, l) && !s.leases[l].writer.external
        && c in s.children && s.children[c].active && s.children[c].write && token == c
        && s.children[c].parent == l && s.children[c].epoch == s.leases[l].epoch && s.children[c].task == t
        && s.children[c].provider == s.leases[l].writer.provider)
  }

  // ----- what the stores keep -----

  predicate LeasesAgree(s: Stores) {
    && (forall t | t in s.tasks && s.tasks[t].active.Some? ::
          IsActive(s, s.tasks[t].active.value) && s.leases[s.tasks[t].active.value].task == t)
    && (forall l | l in s.leases && s.leases[l].state == Active :: Current(s, s.leases[l].task) == Some(l))
    && (forall l | l in s.leases :: s.leases[l].task in s.tasks && s.leases[l].epoch < s.tasks[s.leases[l].task].nextEpoch)
  }

  ghost predicate ChildrenAgree(s: Stores) {
    && (forall c | c in s.children ::
          var k := s.children[c];
          && k.parent in s.leases && s.leases[k.parent].task == k.task && s.leases[k.parent].epoch == k.epoch
          && (k.write <==> k.provider == s.leases[k.parent].writer.provider))
    && (forall l: LeaseId :: |Children(s, l)| <= MAX_CHILDREN)
  }

  ghost predicate Inv(s: Stores) {
    LeasesAgree(s) && ChildrenAgree(s)
  }

  /** Every child that is marked active has an active parent. */
  predicate NoOrphans(s: Stores) {
    forall c | c in s.children && s.children[c].active :: IsActive(s, s.children[c].parent)
  }

  lemma GrantKeepsInv(s: Stores, t: TaskId, l: LeaseId, w: Writer)
    requires Inv(s) && l !in s.leases && Current(s, t).None?
    ensures Inv(GrantLease(s, t, l, w))
    ensures NoOrphans(s) ==> NoOrphans(GrantLease(s, t, l, w))
  {
    var u := GrantLease(s, t, l, w);
    forall k: LeaseId ensures Children(u, k) == Children(s, k) {
    }
  }

  lemma EndKeepsLeases(s: Stores, ls: set<LeaseId>, how: LeaseState)
    requires LeasesAgree(s) && how != Active
    ensures LeasesAgree(EndLeases(s, ls, how))
    ensures forall l | l in s.leases :: IsActive(EndLeases(s, ls, how), l) <==> IsActive(s, l) && l !in ls
  {
  }

  lemma EndKeepsInv(s: Stores, ls: set<LeaseId>, how: LeaseState)
    requires Inv(s) && how != Active
    ensures Inv(EndLeases(s, ls, how))
    ensures forall l | l in s.leases :: IsActive(EndLeases(s, ls, how), l) <==> IsActive(s, l) && l !in ls
  {
    EndKeepsLeases(s, ls, how);
    var u := EndLeases(s, ls, how);
    forall k: LeaseId ensures Children(u, k) == Children(s, k) {
    }
  }

  lemma SweepKeepsInv(s: Stores, ls: set<LeaseId>)
    requires Inv(s)
    ensures Inv(Sweep(s, ls))
    ensures forall c | c in s.children :: Sweep(s, ls).children[c].active <==> s.children[c].active && s.children[c].parent !in ls
  {
    var u := Sweep(s, ls);
    forall k: LeaseId ensures |Children(u, k)| <= MAX_CHILDREN {
      Smaller(Children(u, k), Children(s, k));
    }
  }

  lemma AddKeepsCount(s: Stores, c: ChildId, l: LeaseId, parent: Lease, provider: Provider, k: LeaseId)
    requires AddChild(s, c, l, parent, provider).Some? && |Children(s, k)| <= MAX_CHILDREN
    ensures |Children(AddChild(s, c, l, parent, provider).value, k)| <= MAX_CHILDREN
  {
    var u := AddChild(s, c, l, parent, provider).value;
    assert Children(u, k) == if k == l then Children(s, k) + {c} else Children(s, k);
  }

  lemma AddKeepsInv(s: Stores, c: ChildId, l: LeaseId, parent: Lease, provider: Provider)
    requires Inv(s) && AddChild(s, c, l, parent, provider).Some?
    requires l in s.leases && s.leases[l].(state := Active) == parent
    ensures Inv(AddChild(s, c, l, parent, provider).value)
  {
    var u := AddChild(s, c, l, parent, provider).value;
    assert u.tasks == s.tasks && u.leases == s.leases;
    assert LeasesAgree(u);
    forall k: LeaseId ensures |Children(u, k)| <= MAX_CHILDREN { AddKeepsCount(s, c, l, parent, provider, k); }
  }

  /** A delegation is an orphan from the start exactly when its parent was ended in between. */
  lemma AddOrphansIff(s: Stores, c: ChildId, l: LeaseId, parent: Lease, provider: Provider)
    requires NoOrphans(s) && AddChild(s, c, l, parent, provider).Some?
    ensures NoOrphans(AddChild(s, c, l, parent, provider).value) <==> IsActive(s, l)
  {
    var u := AddChild(s, c, l, parent, provider).value;
    assert u.children[c].active && u.children[c].parent == l;
  }

  // ----- the fence -----

  /** A delegated write is accepted only under the lease its task has right now. */
  lemma WritesAreFenced(s: Stores, t: TaskId, c: ChildId, token: ChildId)
    requires Inv(s)
    ensures AcceptsWrite(s, t, c, token) <==>
      && c in s.children && s.children[c].active && s.children[c].write && token == c
      && Current(s, t) == Some(s.children[c].parent) && !s.leases[s.children[c].parent].writer.external
  {
  }

  function ActiveIn(s: Stores, ls: set<LeaseId>): set<LeaseId> {
    set l | l in ls && IsActive(s, l)
  }

  datatype Event =
    | Grant(t: TaskId, l: LeaseId, w: Writer)
    | Switch(t: TaskId, l: LeaseId, w: Writer)
    | End(ls: set<LeaseId>, how: LeaseState)
    | Swept(ls: set<LeaseId>)
    | Delegate(c: ChildId, parent: LeaseId, provider: Provider, readActive: bool)
    | Apply(t: TaskId, start: bool, done: bool)

  /**
   One transaction of either store. Transactions of different calls, processes and crashed calls come
   in any order: a delegation may carry a parent it read before that lease was ended (`readActive`).
   */
  function Step(s: Stores, e: Event): Stores {
    match e
    case Grant(t, l, w) => if l in s.leases || !Grantable(s, t) then s else GrantLease(s, t, l, w)
    case Switch(t, l, w) =>
      if l in s.leases || Current(s, t).None? then s
      else GrantLease(EndLeases(s, {Current(s, t).value}, Revoked), t, l, w)
    case End(ls, how) => if how == Active then s else EndLeases(s, ActiveIn(s, ls), how)
    case Swept(ls) => Sweep(s, ls)
    case Delegate(c, l, provider, readActive) =>
      if l !in s.leases then s
      else AddChild(s, c, l, if readActive then s.leases[l].(state := Active) else s.leases[l], provider).GetOr(s)
    case Apply(t, start, done) =>
      if t !in s.tasks || s.tasks[t].active.Some? then s
      else if start then StartApply(s, t) else FinishApply(s, t, done)
  }

  function Run(es: seq<Event>): Stores {
    if es == [] then EMPTY else Step(Run(es[..|es| - 1]), es[|es| - 1])
  }

  lemma ApplyKeepsInv(s: Stores, t: TaskId, task: Task)
    requires Inv(s) && t in s.tasks && s.tasks[t].active == task.active && s.tasks[t].nextEpoch == task.nextEpoch
    ensures Inv(s.(tasks := s.tasks[t := task]))
  {
    var u := s.(tasks := s.tasks[t := task]);
    forall k: LeaseId ensures Children(u, k) == Children(s, k) {
    }
  }

  lemma StepKeepsInv(s: Stores, e: Event)
    requires Inv(s)
    ensures Inv(Step(s, e))
  {
    match e
    case Grant(t, l, w) => if l !in s.leases && Grantable(s, t) { GrantKeepsInv(s, t, l, w); }
    case Switch(t, l, w) =>
      if l !in s.leases && Current(s, t).Some? {
        EndKeepsInv(s, {Current(s, t).value}, Revoked);
        GrantKeepsInv(EndLeases(s, {Current(s, t).value}, Revoked), t, l, w);
      }
    case End(ls, how) => if how != Active { EndKeepsInv(s, ActiveIn(s, ls), how); }
    case Swept(ls) => SweepKeepsInv(s, ls);
    case Delegate(c, l, provider, readActive) =>
      if l in s.leases {
        var parent := if readActive then s.leases[l].(state := Active) else s.leases[l];
        if AddChild(s, c, l, parent, provider).Some? { AddKeepsInv(s, c, l, parent, provider); }
      }
    case Apply(t, start, done) =>
      if t in s.tasks && s.tasks[t].active.None? {
        ApplyKeepsInv(s, t, if start then s.tasks[t].(applying := true) else s.tasks[t].(applying := false, applied := done));
      }
  }

  lemma {:induction false} InvHolds(es: seq<Event>)
    ensures Inv(Run(es))
  {
    if es == [] {
      assert forall l: LeaseId :: Children(EMPTY, l) == {};
    } else {
      InvHolds(es[..|es| - 1]);
      StepKeepsInv(Run(es[..|es| - 1]), es[|es| - 1]);
    }
  }

  /** Once a lease has ended it is never active again, and none of its children writes again. */
  lemma {:induction false} EndedStaysEnded(es: seq<Event>, k: nat, l: LeaseId)
    requires k <= |es| && l in Run(es[..k]).leases && !IsActive(Run(es[..k]), l)
    ensures l in Run(es).leases && !IsActive(Run(es), l)
    ensures forall c, t, token | c in Run(es).children && Run(es).children[c].parent == l ::
      !AcceptsWrite(Run(es), t, c, token)
  {
    if k < |es| {
      assert es[..|es| - 1][..k] == es[..k];
      EndedStaysEnded(es[..|es| - 1], k, l);
      StepLeavesEnded(Run(es[..|es| - 1]), es[|es| - 1], l);
    } else {
      assert es[..k] == es;
    }
    InvHolds(es);
  }

  lemma StepLeavesEnded(s: Stores, e: Event, l: LeaseId)
    requires l in s.leases && !IsActive(s, l)
    ensures l in Step(s, e).leases && !IsActive(Step(s, e), l)
  {
  }

  // ----- the service calls -----

  class Service {
    var s: Stores

    constructor ()
      ensures s == EMPTY && Inv(s) && NoOrphans(s)
    {
      s := EMPTY;
      assert forall l: LeaseId :: Children(EMPTY, l) == {};
    }

    method GrantWriter(t: TaskId, l: LeaseId, w: Writer) returns (ok: bool)
      requires l !in s.leases && Inv(s)
      modifies this
      ensures ok <==> Grantable(old(s), t)
      ensures s == CallStep(old(s), GrantCall(t, l, w)) && s == (if ok then GrantLease(old(s), t, l, w) else old(s))
      ensures Inv(s) && (NoOrphans(old(s)) ==> NoOrphans(s))
    {
      if !Grantable(s, t) { return false; }
      GrantKeepsInv(s, t, l, w);
      s := GrantLease(s, t, l, w);
      return true;
    }

    /** Hands a task over. The new lease is committed before the old one's children are swept. */
    method SwitchWriter(t: TaskId, expected: nat, l: LeaseId, w: Writer, running: bool, sweepFails: bool) returns (ok: bool)
      requires l !in s.leases && Inv(s)
      modifies this
      ensures ok <==> Holds(old(s), t, expected) && !running && !sweepFails
      ensures s == CallStep(old(s), SwitchCall(t, expected, l, w, running, sweepFails))
      ensures s == if Holds(old(s), t, expected) && !running then HandedOver(old(s), t, l, w, !sweepFails) else old(s)
      ensures Inv(s)
    {
      if !Holds(s, t, expected) || running { return false; }
      var previous := s.tasks[t].active.value;
      HandoverKeepsInv(s, t, l, w);
      s := GrantLease(EndLeases(s, {previous}, Revoked), t, l, w);
      if sweepFails { return false; }
      s := Sweep(s, {previous});
      return true;
    }

    method CompleteWriter(t: TaskId, epoch: nat, running: bool, sweepFails: bool) returns (ok: bool)
      requires Inv(s)
      modifies this
      ensures ok <==> Holds(old(s), t, epoch) && !running && !sweepFails
      ensures s == CallStep(old(s), CompleteCall(t, epoch, running, sweepFails))
      ensures !Holds(old(s), t, epoch) || running ==> s == old(s)
      ensures Holds(old(s), t, epoch) && !running ==>
        var current := {old(s).tasks[t].active.value};
        s == EndedAndSwept(old(s), current, Completed, if sweepFails then {} else current)
      ensures Inv(s)
    {
      if !Holds(s, t, epoch) || running { return false; }
      var current := s.tasks[t].active.value;
      EndKeepsInv(s, {current}, Completed);
      s := EndLeases(s, {current}, Completed);
      if sweepFails {
        SweepNothing(s);
        return false;
      }
      SweepKeepsInv(s, {current});
      s := Sweep(s, {current});
      return true;
    }

    /** The lease is read and its child stored without a suspension in between. */
    method DelegateChild(t: TaskId, epoch: nat, c: ChildId, provider: Provider) returns (ok: bool)
      requires c !in s.children && Inv(s)
      modifies this
      ensures Inv(s) && (NoOrphans(old(s)) ==> NoOrphans(s))
      ensures ok <==> && Holds(old(s), t, epoch)
                      && (var l := old(s).tasks[t].active.value;
                          !old(s).leases[l].writer.external && |Children(old(s), l)| < 8)
      ensures ok ==>
        && c in s.children && s.children == old(s).children[c := s.children[c]] && s.children[c].active
        && s.children[c].parent == old(s).tasks[t].active.value
        && (s.children[c].write <==> provider == old(s).leases[old(s).tasks[t].active.value].writer.provider)
      ensures s.leases == old(s).leases && s.tasks == old(s).tasks && (!ok ==> s == old(s))
      ensures s == CallStep(old(s), DelegateCall(t, epoch, c, provider))
    {
      if !Holds(s, t, epoch) { return false; }
      var l := s.tasks[t].active.value;
      if s.leases[l].writer.external { return false; }
      var next := AddChild(s, c, l, s.leases[l], provider);
      if next.None? { return false; }
      AddKeepsInv(s, c, l, s.leases[l], provider);
      if NoOrphans(s) { AddOrphansIff(s, c, l, s.leases[l], provider); }
      s := next.value;
      return true;
    }

    /**
     Removes an identity: all its leases end in one transaction, then their children are swept one
     lease after the other. `leases` lists those leases; a throw after `failAt` sweeps leaves the rest.
     */
    method RevokeIdentity(actor: Actor, leases: seq<LeaseId>, failAt: nat) returns (ok: bool)
      requires Inv(s)
      requires ListsActor(s, actor, leases)
      modifies this
      ensures Inv(s) && (ok <==> failAt >= |leases|)
      ensures s == CallStep(old(s), RevokeCall(actor, leases, failAt))
      ensures s == EndedAndSwept(old(s), Elements(leases), Revoked, Elements(leases[..if ok then |leases| else failAt]))
      ensures forall l :: IsActive(s, l) <==> IsActive(old(s), l) && old(s).leases[l].writer.actor != actor
    {
      ghost var before := s;
      var stop := if failAt < |leases| then failAt else |leases|;
      EndKeepsInv(s, Elements(leases), Revoked);
      s := EndLeases(s, Elements(leases), Revoked);
      SweepEach(leases, stop);
      WholePrefix(leases);
      RevokeCallIs(before, actor, leases, failAt);
      return failAt >= |leases|;
    }

    /** Sweeps the first `n` leases of a list, one after the other. */
    method SweepEach(leases: seq<LeaseId>, n: nat)
      requires n <= |leases| && Inv(s)
      modifies this
      ensures s == Sweep(old(s), Elements(leases[..n])) && Inv(s)
    {
      SweepNothing(s);
      for i := 0 to n
        invariant s == Sweep(old(s), Elements(leases[..i])) && Inv(s)
      {
        SweepKeepsInv(s, {leases[i]});
        SweepTwice(old(s), leases, i);
        s := Sweep(s, {leases[i]});
      }
    }

    /**
     After a restart: every lease without a live run ends and its children are swept, one by one. A
     throw at lease `failAt` stops the loop there, with that lease ended and its children not swept.
     */
    method RevokeUnrecoverable(all: seq<LeaseId>, running: set<TaskId>, failAt: nat) returns (ok: bool)
      requires Inv(s)
      modifies this
      ensures ok <==> !RecoveryStops(old(s), all, running, failAt)
      ensures ok ==> forall l :: IsActive(s, l) <==>
        IsActive(old(s), l) && (l in all ==> !old(s).leases[l].writer.external && old(s).leases[l].task in running)
      ensures !ok <==> failAt < |all| && all[failAt] !in all[..failAt] && IsActive(old(s), all[failAt])
                       && (old(s).leases[all[failAt]].writer.external || old(s).leases[all[failAt]].task !in running)
      ensures s == CallStep(old(s), RecoverCall(all, running, failAt))
      ensures Inv(s)
    {
      RecoverCallIs(s, all, running, failAt);
      RecoveryIsComplete(s, all, running);
      RecoveryStopsIff(s, all, running, failAt);
      for i := 0 to |all|
        invariant Inv(s) && s == Recovered(old(s), all[..i], running)
        invariant failAt < i ==> !RecoveryStops(old(s), all, running, failAt)
      {
        RecoverNext(old(s), all, running, i);
        if Stale(s, all[i], running) {
          ok := EndAndSweep(all[i], i == failAt);
          if !ok { return; }
        }
      }
      WholePrefix(all);
      return true;
    }

    /** Ends one lease and, unless that is where it throws, sweeps its children. */
    method EndAndSweep(l: LeaseId, fails: bool) returns (ok: bool)
      requires Inv(s)
      modifies this
      ensures ok == !fails && Inv(s)
      ensures s == if fails then EndLeases(old(s), {l}, Revoked) else EndedAndSwept(old(s), {l}, Revoked, {l})
    {
      EndKeepsInv(s, {l}, Revoked);
      s := EndLeases(s, {l}, Revoked);
      if fails { return false; }
      SweepKeepsInv(s, {l});
      s := Sweep(s, {l});
      return true;
    }

    /** Starting to apply a task's worktree, or the end of that: only while it has no Writer. */
    method MarkApply(t: TaskId, start: bool, done: bool)
      requires Inv(s)
      modifies this
      ensures s == CallStep(old(s), ApplyCall(t, start, done)) && Inv(s)
      ensures s.leases == old(s).leases && s.children == old(s).children
      ensures var free := t in old(s).tasks && old(s).tasks[t].active.None?;
              s.tasks == if free
                         then old(s).tasks[t := old(s).tasks[t].(applying := start, applied := if start then old(s).tasks[t].applied else done)]
                         else old(s).tasks
    {
      if t !in s.tasks || s.tasks[t].active.Some? { return; }
      ApplyKeepsInv(s, t, if start then s.tasks[t].(applying := true) else s.tasks[t].(applying := false, applied := done));
      s := if start then StartApply(s, t) else FinishApply(s, t, done);
    }
  }

  // ----- whole calls -----

  /** One service call. A throw after a sweep leaves the state of a call that stopped there. */
  datatype Call =
    | GrantCall(t: TaskId, l: LeaseId, w: Writer)
    | SwitchCall(t: TaskId, expected: nat, l: LeaseId, w: Writer, running: bool, sweepFails: bool)
    | CompleteCall(t: TaskId, epoch: nat, running: bool, sweepFails: bool)
    | DelegateCall(t: TaskId, epoch: nat, c: ChildId, provider: Provider)
    | RevokeCall(actor: Actor, leases: seq<LeaseId>, failAt: nat)
    | RecoverCall(all: seq<LeaseId>, alive: set<TaskId>, failAt: nat)
    | ApplyCall(t: TaskId, start: bool, done: bool)

  /** The active leases of an identity. */
  predicate ListsActor(s: Stores, actor: Actor, leases: seq<LeaseId>) {
    && (forall l | l in leases :: IsActive(s, l) && s.leases[l].writer.actor == actor)
    && (forall l | l in s.leases && IsActive(s, l) && s.leases[l].writer.actor == actor :: l in leases)
  }

  /** The recovery throws at lease `failAt`: it was due there. */
  predicate RecoveryStops(s: Stores, all: seq<LeaseId>, running: set<TaskId>, failAt: nat) {
    failAt < |all| && Stale(Recovered(s, all[..failAt], running), all[failAt], running)
  }

  function CallStep(s: Stores, call: Call): Stores {
    match call
    case GrantCall(t, l, w) => if l in s.leases || !Grantable(s, t) then s else GrantLease(s, t, l, w)
    case SwitchCall(t, expected, l, w, running, sweepFails) =>
      if l in s.leases || !Holds(s, t, expected) || running then s else HandedOver(s, t, l, w, !sweepFails)
    case CompleteCall(t, epoch, running, sweepFails) =>
      if !Holds(s, t, epoch) || running then s
      else
        var current := {s.tasks[t].active.value};
        EndedAndSwept(s, current, Completed, if sweepFails then {} else current)
    case DelegateCall(t, epoch, c, provider) =>
      if !Holds(s, t, epoch) || s.leases[s.tasks[t].active.value].writer.external then s
      else
        var l := s.tasks[t].active.value;
        AddChild(s, c, l, s.leases[l], provider).GetOr(s)
    case RevokeCall(actor, leases, failAt) =>
      if !ListsActor(s, actor, leases) then s
      else
        var swept := if failAt < |leases| then leases[..failAt] else leases;
        EndedAndSwept(s, Elements(leases), Revoked, Elements(swept))
    case RecoverCall(all, running, failAt) =>
      if RecoveryStops(s, all, running, failAt)
      then EndLeases(Recovered(s, all[..failAt], running), {all[failAt]}, Revoked)
      else Recovered(s, all, running)
    case ApplyCall(t, start, done) =>
      if t !in s.tasks || s.tasks[t].active.Some? then s
      else if start then StartApply(s, t) else FinishApply(s, t, done)
  }

  lemma RevokeCallIs(s: Stores, actor: Actor, leases: seq<LeaseId>, failAt: nat)
    requires ListsActor(s, actor, leases)
    ensures var stop := if failAt < |leases| then failAt else |leases|;
            CallStep(s, RevokeCall(actor, leases, failAt))
            == Sweep(EndLeases(s, Elements(leases), Revoked), Elements(leases[..stop]))
  {
    WholePrefix(leases);
  }

  lemma RecoverCallIs(s: Stores, all: seq<LeaseId>, running: set<TaskId>, failAt: nat)
    ensures RecoveryStops(s, all, running, failAt) ==>
      CallStep(s, RecoverCall(all, running, failAt)) == EndLeases(Recovered(s, all[..failAt], running), {all[failAt]}, Revoked)
    ensures !RecoveryStops(s, all, running, failAt) ==>
      CallStep(s, RecoverCall(all, running, failAt)) == Recovered(s, all, running)
  {
  }

  /** A throw stops a recovery where it first comes to a lease that is due. */
  lemma RecoveryStopsIff(s: Stores, all: seq<LeaseId>, running: set<TaskId>, failAt: nat)
    ensures RecoveryStops(s, all, running, failAt) <==>
      && failAt < |all| && all[failAt] !in all[..failAt] && IsActive(s, all[failAt])
      && (s.leases[all[failAt]].writer.external || s.leases[all[failAt]].task !in running)
  {
    if failAt < |all| { RecoveredLeases(s, all[..failAt], running); }
  }

  lemma RecoverNext(s: Stores, all: seq<LeaseId>, running: set<TaskId>, i: nat)
    requires i < |all|
    ensures var u := Recovered(s, all[..i], running);
            Recovered(s, all[..i + 1], running)
            == if Stale(u, all[i], running) then EndedAndSwept(u, {all[i]}, Revoked, {all[i]}) else u
  {
    PrefixGrows(all, i);
  }

  function After(calls: seq<Call>): Stores {
    if calls == [] then EMPTY else CallStep(After(calls[..|calls| - 1]), calls[|calls| - 1])
  }

  /** No active child has its parent in `ls`. */
  predicate Childless(s: Stores, ls: set<LeaseId>) {
    forall c | c in s.children && s.children[c].active :: s.children[c].parent !in ls
  }

  /** Whether a call sweeps whatever there is to sweep; only a throw between a lease and its sweep can fail that. */
  predicate Safe(s: Stores, call: Call) {
    match call
    case SwitchCall(t, expected, l, w, running, sweepFails) =>
      l !in s.leases && Holds(s, t, expected) && !running && sweepFails ==> Childless(s, {s.tasks[t].active.value})
    case CompleteCall(t, epoch, running, sweepFails) =>
      Holds(s, t, epoch) && !running && sweepFails ==> Childless(s, {s.tasks[t].active.value})
    case RevokeCall(actor, leases, failAt) =>
      ListsActor(s, actor, leases) && failAt < |leases| ==> Childless(s, Elements(leases) - Elements(leases[..failAt]))
    case RecoverCall(all, running, failAt) =>
      RecoveryStops(s, all, running, failAt) ==> Childless(Recovered(s, all[..failAt], running), {all[failAt]})
    case _ => true
  }

  lemma RecoveryKeepsInv(s: Stores, all: seq<LeaseId>, running: set<TaskId>, failAt: nat)
    requires Inv(s)
    ensures Inv(CallStep(s, RecoverCall(all, running, failAt)))
  {
    RecoveryIsComplete(s, all, running);
    if RecoveryStops(s, all, running, failAt) {
      RecoveryIsComplete(s, all[..failAt], running);
      EndKeepsInv(Recovered(s, all[..failAt], running), {all[failAt]}, Revoked);
    }
  }

  lemma EndedAndSweptKeepsInv(s: Stores, ended: set<LeaseId>, how: LeaseState, swept: set<LeaseId>)
    requires Inv(s) && how != Active
    ensures Inv(EndedAndSwept(s, ended, how, swept))
  {
    EndKeepsInv(s, ended, how);
    SweepKeepsInv(EndLeases(s, ended, how), swept);
  }

  lemma CallKeepsInv(s: Stores, call: Call)
    requires Inv(s)
    ensures Inv(CallStep(s, call))
  {
    match call
    case GrantCall(t, l, w) => if l !in s.leases && Grantable(s, t) { GrantKeepsInv(s, t, l, w); }
    case SwitchCall(t, expected, l, w, _, _) => if l !in s.leases && Holds(s, t, expected) { HandoverKeepsInv(s, t, l, w); }
    case CompleteCall(t, epoch, _, sweepFails) =>
      if Holds(s, t, epoch) {
        var current := {s.tasks[t].active.value};
        EndedAndSweptKeepsInv(s, current, Completed, if sweepFails then {} else current);
      }
    case DelegateCall(t, epoch, c, provider) =>
      if Holds(s, t, epoch) {
        var l := s.tasks[t].active.value;
        if AddChild(s, c, l, s.leases[l], provider).Some? { AddKeepsInv(s, c, l, s.leases[l], provider); }
      }
    case RevokeCall(_, leases, failAt) =>
      EndedAndSweptKeepsInv(s, Elements(leases), Revoked, Elements(if failAt < |leases| then leases[..failAt] else leases));
    case RecoverCall(all, running, failAt) => RecoveryKeepsInv(s, all, running, failAt);
    case ApplyCall(t, start, done) =>
      if t in s.tasks && s.tasks[t].active.None? {
        ApplyKeepsInv(s, t, if start then s.tasks[t].(applying := true) else s.tasks[t].(applying := false, applied := done));
      }
  }

  lemma EndedOrphansIff(s: Stores, ended: set<LeaseId>, how: LeaseState, swept: set<LeaseId>)
    requires Inv(s) && NoOrphans(s) && how != Active
    ensures NoOrphans(EndedAndSwept(s, ended, how, swept)) <==> Childless(s, ended - swept)
  {
    OrphansIff(s, ended, how, swept);
  }

  lemma RecoveryOrphansIff(s: Stores, all: seq<LeaseId>, running: set<TaskId>, failAt: nat)
    requires Inv(s) && NoOrphans(s)
    ensures NoOrphans(CallStep(s, RecoverCall(all, running, failAt))) <==> Safe(s, RecoverCall(all, running, failAt))
  {
    RecoveryIsComplete(s, all, running);
    if RecoveryStops(s, all, running, failAt) {
      var u, l := Recovered(s, all[..failAt], running), all[failAt];
      RecoveryIsComplete(s, all[..failAt], running);
      EndedOrphansIff(u, {l}, Revoked, {});
      SweepNothing(EndLeases(u, {l}, Revoked));
      assert {l} - {} == {l};
    }
  }

  /** One call leaves no orphan if and only if it is safe. */
  lemma CallOrphansIff(s: Stores, call: Call)
    requires Inv(s) && NoOrphans(s)
    ensures NoOrphans(CallStep(s, call)) <==> Safe(s, call)
  {
    match call
    case GrantCall(t, l, w) => if l !in s.leases && Grantable(s, t) { GrantKeepsInv(s, t, l, w); }
    case SwitchCall(t, expected, l, w, running, sweepFails) =>
      if l !in s.leases && Holds(s, t, expected) { HandoverOrphansIff(s, t, l, w, !sweepFails); }
    case CompleteCall(t, epoch, running, sweepFails) =>
      if Holds(s, t, epoch) {
        var current := {s.tasks[t].active.value};
        EndedOrphansIff(s, current, Completed, if sweepFails then {} else current);
        assert current - {} == current && current - current == {};
      }
    case DelegateCall(t, epoch, c, provider) =>
      if Holds(s, t, epoch) {
        var l := s.tasks[t].active.value;
        if AddChild(s, c, l, s.leases[l], provider).Some? { AddOrphansIff(s, c, l, s.leases[l], provider); }
      }
    case RevokeCall(actor, leases, failAt) =>
      EndedOrphansIff(s, Elements(leases), Revoked, Elements(if failAt < |leases| then leases[..failAt] else leases));
      assert Elements(leases) - Elements(leases) == {};
    case RecoverCall(all, running, failAt) => RecoveryOrphansIff(s, all, running, failAt);
    case ApplyCall(_, _, _) =>
  }

  ghost predicate NoOrphansThroughout(calls: seq<Call>) {
    NoOrphans(After(calls)) && (calls == [] || NoOrphansThroughout(calls[..|calls| - 1]))
  }

  ghost predicate SafeThroughout(calls: seq<Call>) {
    calls == [] || (SafeThroughout(calls[..|calls| - 1]) && Safe(After(calls[..|calls| - 1]), calls[|calls| - 1]))
  }

  lemma {:induction false} CallsKeepInv(calls: seq<Call>)
    ensures Inv(After(calls))
  {
    if calls == [] {
      assert forall l: LeaseId :: Children(EMPTY, l) == {};
    } else {
      CallsKeepInv(calls[..|calls| - 1]);
      CallKeepsInv(After(calls[..|calls| - 1]), calls[|calls| - 1]);
    }
  }

  /**
   Over every run of grants, handovers, completions, delegations, removals, recoveries and applies:
   every active child has had an active parent throughout if and only if every call was safe.
   */
  lemma {:induction false} NoOrphansIff(calls: seq<Call>)
    ensures NoOrphansThroughout(calls) <==> SafeThroughout(calls)
  {
    if calls != [] {
      var rest, last := calls[..|calls| - 1], calls[|calls| - 1];
      NoOrphansIff(rest);
      CallsKeepInv(rest);
      if NoOrphans(After(rest)) { CallOrphansIff(After(rest), last); }
    }
  }

  /** A call in which nothing throws between a lease and its sweep. */
  predicate Uninterrupted(call: Call) {
    match call
    case SwitchCall(_, _, _, _, _, sweepFails) => !sweepFails
    case CompleteCall(_, _, _, sweepFails) => !sweepFails
    case RevokeCall(_, leases, failAt) => failAt >= |leases|
    case RecoverCall(all, _, failAt) => failAt >= |all|
    case _ => true
  }

  /** So runs without such a throw leave no child without its Writer. */
  lemma {:induction false} UninterruptedRunsAreSafe(calls: seq<Call>)
    requires forall call | call in calls :: Uninterrupted(call)
    ensures NoOrphansThroughout(calls)
  {
    NoOrphansIff(calls);
    if calls != [] {
      assert forall call | call in calls[..|calls| - 1] :: call in calls;
      UninterruptedRunsAreSafe(calls[..|calls| - 1]);
      NoOrphansIff(calls[..|calls| - 1]);
      assert calls[|calls| - 1] in calls;
    }
  }

  // ----- orphans over interleaved transactions -----

  /** A child that is marked active without an active parent. */
  predicate OrphanChild(s: Stores, c: ChildId) {
    c in s.children && s.children[c].active && !IsActive(s, s.children[c].parent)
  }

  /** Transaction `j` stored child `c`, and no later one swept its parent. */
  ghost predicate UnsweptSince(es: seq<Event>, j: nat, c: ChildId, l: LeaseId) {
    && j < |es| && es[j].Delegate? && es[j].c == c && es[j].parent == l
    && c !in Run(es[..j]).children && c in Step(Run(es[..j]), es[j]).children
    && (forall k | j < k < |es| && es[k].Swept? :: l !in es[k].ls)
  }

  ghost predicate EndedSometime(es: seq<Event>, l: LeaseId) {
    exists i :: 0 <= i < |es| && IsActive(Run(es[..i]), l) && !IsActive(Step(Run(es[..i]), es[i]), l)
  }

  lemma UnsweptOneMore(es: seq<Event>, e: Event, c: ChildId, l: LeaseId)
    ensures forall j: nat | j < |es| :: UnsweptSince(es + [e], j, c, l) <==> UnsweptSince(es, j, c, l) && !(e.Swept? && l in e.ls)
    ensures UnsweptSince(es + [e], |es|, c, l) <==>
      e.Delegate? && e.c == c && e.parent == l && c !in Run(es).children && c in Step(Run(es), e).children
  {
    var all := es + [e];
    assert forall k | 0 <= k < |es| :: all[..k] == es[..k] && all[k] == es[k];
    assert all[..|es|] == es && all[|es|] == e;
  }

  lemma EndedOneMore(es: seq<Event>, e: Event, l: LeaseId)
    ensures EndedSometime(es + [e], l) <==> EndedSometime(es, l) || (IsActive(Run(es), l) && !IsActive(Step(Run(es), e), l))
  {
    var all := es + [e];
    assert forall k | 0 <= k < |es| :: all[..k] == es[..k] && all[k] == es[k];
    assert all[..|es|] == es && all[|es|] == e;
  }

  lemma StepChild(s: Stores, e: Event, c: ChildId)
    ensures c in Step(s, e).children && c in s.children ==>
      && Step(s, e).children[c].parent == s.children[c].parent
      && (Step(s, e).children[c].active <==> s.children[c].active && !(e.Swept? && s.children[c].parent in e.ls))
    ensures c in s.children ==> c in Step(s, e).children
    ensures c in Step(s, e).children && c !in s.children ==>
      e.Delegate? && e.c == c && Step(s, e).children[c].active && Step(s, e).children[c].parent == e.parent && e.parent in s.leases
  {
  }

  /** A child is marked active exactly while no sweep of its parent follows its delegation. */
  lemma {:induction false} ActiveIffUnswept(es: seq<Event>, c: ChildId)
    requires c in Run(es).children
    ensures Run(es).children[c].active <==> exists j: nat :: UnsweptSince(es, j, c, Run(es).children[c].parent)
  {
    var rest, last := es[..|es| - 1], es[|es| - 1];
    var l := Run(es).children[c].parent;
    assert es == rest + [last];
    StepChild(Run(rest), last, c);
    UnsweptOneMore(rest, last, c, l);
    if c in Run(rest).children {
      ActiveIffUnswept(rest, c);
      if Run(es).children[c].active {
        var j: nat :| UnsweptSince(rest, j, c, l);
        assert UnsweptSince(es, j, c, l);
      }
    } else {
      assert UnsweptSince(es, |rest|, c, l);
    }
  }

  /** A lease that exists has ended exactly when it is not active now. */
  lemma {:induction false} InactiveIffEnded(es: seq<Event>, l: LeaseId)
    ensures l in Run(es).leases && !IsActive(Run(es), l) <==> EndedSometime(es, l)
  {
    if es != [] {
      var rest, last := es[..|es| - 1], es[|es| - 1];
      assert es == rest + [last];
      InactiveIffEnded(rest, l);
      EndedOneMore(rest, last, l);
      StepLease(Run(rest), last, l);
    }
  }

  lemma StepLease(s: Stores, e: Event, l: LeaseId)
    ensures l in s.leases ==> l in Step(s, e).leases && (IsActive(Step(s, e), l) ==> IsActive(s, l))
    ensures l !in s.leases && l in Step(s, e).leases ==> IsActive(Step(s, e), l)
  {
  }

  /**
   Over every order of transactions, of all calls, processes and crashes: an active child is an orphan
   exactly when its parent's lease was ended at some point and no sweep of it follows the delegation.
   */
  lemma OrphanIffUnswept(es: seq<Event>, c: ChildId)
    requires c in Run(es).children
    ensures var l := Run(es).children[c].parent;
            OrphanChild(Run(es), c) <==> EndedSometime(es, l) && exists j: nat :: UnsweptSince(es, j, c, l)
  {
    InvHolds(es);
    ActiveIffUnswept(es, c);
    InactiveIffEnded(es, Run(es).children[c].parent);
  }

  // ----- what the calls leave behind -----

  /** The caller names the epoch of the lease in force. */
  predicate Holds(s: Stores, t: TaskId, epoch: nat) {
    t in s.tasks && s.tasks[t].active.Some? && s.tasks[t].active.value in s.leases
    && s.leases[s.tasks[t].active.value].epoch == epoch
  }

  function HandedOver(s: Stores, t: TaskId, l: LeaseId, w: Writer, swept: bool): Stores
    requires l !in s.leases && t in s.tasks && s.tasks[t].active.Some?
  {
    var previous := s.tasks[t].active.value;
    var u := GrantLease(EndLeases(s, {previous}, Revoked), t, l, w);
    if swept then Sweep(u, {previous}) else u
  }

  function EndedAndSwept(s: Stores, ended: set<LeaseId>, how: LeaseState, swept: set<LeaseId>): Stores {
    Sweep(EndLeases(s, ended, how), swept)
  }

  predicate Stale(s: Stores, l: LeaseId, running: set<TaskId>) {
    IsActive(s, l) && (s.leases[l].writer.external || s.leases[l].task !in running)
  }

  function Recovered(s: Stores, all: seq<LeaseId>, running: set<TaskId>): Stores {
    if all == [] then s
    else
      var u, l := Recovered(s, all[..|all| - 1], running), all[|all| - 1];
      if Stale(u, l, running) then EndedAndSwept(u, {l}, Revoked, {l}) else u
  }

  lemma HandoverKeepsInv(s: Stores, t: TaskId, l: LeaseId, w: Writer)
    requires Inv(s) && l !in s.leases && t in s.tasks && s.tasks[t].active.Some?
    ensures Inv(HandedOver(s, t, l, w, false)) && Inv(HandedOver(s, t, l, w, true))
    ensures forall swept :: Current(HandedOver(s, t, l, w, swept), t) == Some(l) && IsActive(HandedOver(s, t, l, w, swept), l)
  {
    var previous := s.tasks[t].active.value;
    EndKeepsInv(s, {previous}, Revoked);
    GrantKeepsInv(EndLeases(s, {previous}, Revoked), t, l, w);
    SweepKeepsInv(HandedOver(s, t, l, w, false), {previous});
  }

  function Elements(ls: seq<LeaseId>): set<LeaseId> {
    set l | l in ls
  }

  lemma SweepNothing(s: Stores)
    ensures Sweep(s, {}) == s && Elements([]) == {}
  {
    assert Sweep(s, {}).children == s.children;
  }

  lemma SweepTwice(s: Stores, leases: seq<LeaseId>, i: nat)
    requires i < |leases|
    ensures Sweep(Sweep(s, Elements(leases[..i])), {leases[i]}) == Sweep(s, Elements(leases[..i + 1]))
  {
    assert Elements(leases[..i + 1]) == Elements(leases[..i]) + {leases[i]};
  }

  /** After a call, orphans are exactly the children of the leases it ended and did not sweep. */
  lemma OrphansIff(s: Stores, ended: set<LeaseId>, how: LeaseState, swept: set<LeaseId>)
    requires Inv(s) && NoOrphans(s) && how != Active
    ensures NoOrphans(EndedAndSwept(s, ended, how, swept))
            <==> forall c | c in s.children && s.children[c].active :: s.children[c].parent in ended ==> s.children[c].parent in swept
    ensures forall c :: OrphanChild(EndedAndSwept(s, ended, how, swept), c) <==>
      c in s.children && s.children[c].active && s.children[c].parent in ended && s.children[c].parent !in swept
  {
    var e := EndLeases(s, ended, how);
    var u := Sweep(e, swept);
    assert u.leases == e.leases && u.children.Keys == s.children.Keys;
    forall c | c in s.children
      ensures u.children[c].active <==> s.children[c].active && s.children[c].parent !in swept
      ensures u.children[c].parent == s.children[c].parent
      ensures s.children[c].active ==> (IsActive(u, s.children[c].parent) <==> s.children[c].parent !in ended)
    {
    }
  }

  /** A handover leaves no orphan exactly when it swept, or there was nothing to sweep. */
  lemma HandoverOrphansIff(s: Stores, t: TaskId, l: LeaseId, w: Writer, swept: bool)
    requires Inv(s) && NoOrphans(s) && l !in s.leases && t in s.tasks && s.tasks[t].active.Some?
    ensures NoOrphans(HandedOver(s, t, l, w, swept))
            <==> swept || forall c | c in s.children && s.children[c].active :: s.children[c].parent != s.tasks[t].active.value
  {
    var previous := s.tasks[t].active.value;
    OrphansIff(s, {previous}, Revoked, if swept then {previous} else {});
    var u := EndedAndSwept(s, {previous}, Revoked, if swept then {previous} else {});
    var v := HandedOver(s, t, l, w, swept);
    assert v.children == u.children by {
      if !swept { SweepNothing(EndLeases(s, {previous}, Revoked)); }
    }
    assert forall k | k != l :: IsActive(v, k) <==> IsActive(u, k);
    assert forall c | c in s.children :: s.children[c].parent != l;
  }

  lemma RecoverOne(u: Stores, l: LeaseId, running: set<TaskId>)
    requires Inv(u) && Stale(u, l, running)
    ensures var v := EndedAndSwept(u, {l}, Revoked, {l});
            && Inv(v) && (NoOrphans(u) ==> NoOrphans(v))
            && v.leases.Keys == u.leases.Keys
            && (forall k | k in u.leases :: v.leases[k].task == u.leases[k].task && v.leases[k].writer == u.leases[k].writer)
            && (forall k :: IsActive(v, k) <==> IsActive(u, k) && k != l)
  {
    EndKeepsInv(u, {l}, Revoked);
    SweepKeepsInv(EndLeases(u, {l}, Revoked), {l});
    if NoOrphans(u) { OrphansIff(u, {l}, Revoked, {l}); }
  }

  /** The leases a recovery revokes: listed, in force, and of an external writer or of a task without a live run. */
  predicate Due(s: Stores, l: LeaseId, all: seq<LeaseId>, running: set<TaskId>) {
    l in all && IsActive(s, l) && (s.leases[l].writer.external || s.leases[l].task !in running)
  }

  lemma {:induction false} RecoveredLeases(s: Stores, all: seq<LeaseId>, running: set<TaskId>)
    ensures var u := Recovered(s, all, running);
            && u.leases.Keys == s.leases.Keys
            && forall l | l in s.leases ::
                 u.leases[l] == if Due(s, l, all, running) then s.leases[l].(state := Revoked) else s.leases[l]
  {
    if all != [] {
      var rest, last := all[..|all| - 1], all[|all| - 1];
      RecoveredLeases(s, rest, running);
      assert forall k :: k in all <==> k in rest || k == last;
    }
  }

  lemma {:induction false} RecoveredChildren(s: Stores, all: seq<LeaseId>, running: set<TaskId>)
    ensures var u := Recovered(s, all, running);
            && u.children.Keys == s.children.Keys
            && forall c | c in s.children ::
                 u.children[c] == if Due(s, s.children[c].parent, all, running) then s.children[c].(active := false) else s.children[c]
  {
    if all != [] {
      var rest, last := all[..|all| - 1], all[|all| - 1];
      RecoveredChildren(s, rest, running);
      RecoveredLeases(s, rest, running);
      assert forall k :: k in all <==> k in rest || k == last;
    }
  }

  lemma {:induction false} RecoveredTasks(s: Stores, all: seq<LeaseId>, running: set<TaskId>)
    requires LeasesAgree(s)
    ensures var u := Recovered(s, all, running);
            && u.tasks.Keys == s.tasks.Keys
            && forall t | t in s.tasks ::
                 u.tasks[t] == if s.tasks[t].active.Some? && Due(s, s.tasks[t].active.value, all, running)
                               then s.tasks[t].(active := None) else s.tasks[t]
  {
    if all != [] {
      var rest, last := all[..|all| - 1], all[|all| - 1];
      RecoveredTasks(s, rest, running);
      RecoveredLeases(s, rest, running);
      assert forall k :: k in all <==> k in rest || k == last;
    }
  }

  /**
   A complete recovery: the leases left in force are those with a live run of a native writer, and those
   it was not given; the others end as revoked, and exactly their active children lose authority.
   */
  lemma {:induction false} RecoveryIsComplete(s: Stores, all: seq<LeaseId>, running: set<TaskId>)
    requires Inv(s)
    ensures var u := Recovered(s, all, running);
            && Inv(u) && (NoOrphans(s) ==> NoOrphans(u))
            && (forall l :: IsActive(u, l) <==>
                  IsActive(s, l) && (l in all ==> !s.leases[l].writer.external && s.leases[l].task in running))
            && (forall l | IsActive(s, l) && !IsActive(u, l) :: l in u.leases && u.leases[l].state == Revoked)
            && (forall c | c in s.children && s.children[c].active ::
                  c in u.children && (u.children[c].active <==> IsActive(u, s.children[c].parent) || !IsActive(s, s.children[c].parent)))
  {
    RecoveryKeeps(s, all, running);
    RecoveredLeases(s, all, running);
    RecoveredChildren(s, all, running);
  }

  lemma {:induction false} RecoveryKeeps(s: Stores, all: seq<LeaseId>, running: set<TaskId>)
    requires Inv(s)
    ensures Inv(Recovered(s, all, running))
    ensures NoOrphans(s) ==> NoOrphans(Recovered(s, all, running))
  {
    if all != [] {
      var rest, l := all[..|all| - 1], all[|all| - 1];
      RecoveryKeeps(s, rest, running);
      var u := Recovered(s, rest, running);
      if Stale(u, l, running) { RecoverOne(u, l, running); }
    }
  }

  // ----- what the other calls do, without their own steps -----

  /** Ending some leases and sweeping some: exactly their state, their tasks and their active children. */
  lemma EndedAndSweptIs(s: Stores, ended: set<LeaseId>, how: LeaseState, swept: set<LeaseId>)
    ensures var u := EndedAndSwept(s, ended, how, swept);
            && u.leases.Keys == s.leases.Keys && u.tasks.Keys == s.tasks.Keys && u.children.Keys == s.children.Keys
            && (forall l | l in s.leases :: u.leases[l] == if l in ended then s.leases[l].(state := how) else s.leases[l])
            && (forall t | t in s.tasks ::
                  u.tasks[t].applying == s.tasks[t].applying && u.tasks[t].applied == s.tasks[t].applied
                  && u.tasks[t].nextEpoch == s.tasks[t].nextEpoch
                  && Current(u, t) == if Current(s, t).Some? && Current(s, t).value in ended then None else Current(s, t))
            && (forall c | c in s.children ::
                  u.children[c] == if s.children[c].parent in swept then s.children[c].(active := false) else s.children[c])
  {
  }

  lemma HandoverLeases(s: Stores, t: TaskId, l: LeaseId, w: Writer, swept: bool)
    requires Inv(s) && l !in s.leases && t in s.tasks && s.tasks[t].active.Some?
    ensures var u, previous := HandedOver(s, t, l, w, swept), s.tasks[t].active.value;
            && u.leases.Keys == s.leases.Keys + {l}
            && u.leases[l] == Lease(t, s.tasks[t].nextEpoch, Active, w)
            && forall k | k in s.leases ::
                 u.leases[k] == if k == previous then s.leases[k].(state := Revoked) else s.leases[k]
  {
  }

  lemma HandoverTasks(s: Stores, t: TaskId, l: LeaseId, w: Writer, swept: bool)
    requires Inv(s) && l !in s.leases && t in s.tasks && s.tasks[t].active.Some?
    ensures var u := HandedOver(s, t, l, w, swept);
            && u.tasks.Keys == s.tasks.Keys && Current(u, t) == Some(l)
            && forall k | k in s.tasks && k != t :: u.tasks[k] == s.tasks[k]
  {
    var previous := s.tasks[t].active.value;
    forall k | k in s.tasks && k != t ensures s.tasks[k].active != Some(previous) {
      assert s.tasks[k].active.Some? ==> s.leases[s.tasks[k].active.value].task == k;
    }
  }

  lemma HandoverChildren(s: Stores, t: TaskId, l: LeaseId, w: Writer, swept: bool)
    requires l !in s.leases && t in s.tasks && s.tasks[t].active.Some?
    ensures var u, previous := HandedOver(s, t, l, w, swept), s.tasks[t].active.value;
            && u.children.Keys == s.children.Keys
            && forall c | c in s.children ::
                 u.children[c] == if swept && s.children[c].parent == previous then s.children[c].(active := false) else s.children[c]
  {
  }

  /**
   A handover: the old lease is revoked, the new one is in force for its writer under an epoch no earlier
   lease of the task had, and everything else stays, the swept children excepted.
   */
  lemma HandoverIs(s: Stores, t: TaskId, l: LeaseId, w: Writer, swept: bool)
    requires Inv(s) && l !in s.leases && t in s.tasks && s.tasks[t].active.Some?
    ensures var u, previous := HandedOver(s, t, l, w, swept), s.tasks[t].active.value;
            && u.leases.Keys == s.leases.Keys + {l}
            && IsActive(u, l) && u.leases[l].task == t && u.leases[l].writer == w && Current(u, t) == Some(l)
            && (forall k | k in s.leases ::
                  u.leases[k] == if k == previous then s.leases[k].(state := Revoked) else s.leases[k])
            && (forall k | k in s.leases && s.leases[k].task == t :: s.leases[k].epoch < u.leases[l].epoch)
            && u.tasks.Keys == s.tasks.Keys && (forall k | k in s.tasks && k != t :: u.tasks[k] == s.tasks[k])
            && u.children.Keys == s.children.Keys
            && (forall c | c in s.children ::
                  u.children[c] == if swept && s.children[c].parent == previous then s.children[c].(active := false) else s.children[c])
  {
    HandoverLeases(s, t, l, w, swept);
    HandoverTasks(s, t, l, w, swept);
    HandoverChildren(s, t, l, w, swept);
  }

  /** A grant: one lease more, in force for its writer under an epoch no earlier lease of the task had. */
  lemma GrantIs(s: Stores, t: TaskId, l: LeaseId, w: Writer)
    requires Inv(s) && l !in s.leases
    ensures var u := GrantLease(s, t, l, w);
            && u.leases == s.leases[l := u.leases[l]] && u.children == s.children
            && IsActive(u, l) && u.leases[l].task == t && u.leases[l].writer == w && Current(u, t) == Some(l)
            && (forall k | k in s.leases && s.leases[k].task == t :: s.leases[k].epoch < u.leases[l].epoch)
            && (forall k | k in s.tasks && k != t :: k in u.tasks && u.tasks[k] == s.tasks[k])
  {
  }

  /** The named epoch is in force: some active lease of the task has it. */
  lemma HoldsIff(s: Stores, t: TaskId, epoch: nat)
    requires Inv(s)
    ensures Holds(s, t, epoch) <==> exists l :: IsActive(s, l) && s.leases[l].task == t && s.leases[l].epoch == epoch
  {
  }

  /** A task can be granted when it has no active lease and is neither applied nor being applied. */
  lemma GrantableIff(s: Stores, t: TaskId)
    requires Inv(s)
    ensures Grantable(s, t) <==>
      && (forall l | IsActive(s, l) :: s.leases[l].task != t)
      && (t in s.tasks ==> !s.tasks[t].applied && !s.tasks[t].applying)
  {
  }

  /** An orphan that exists is never swept by a recovery: it sweeps the leases it ends itself. */
  lemma {:induction false} RecoveryKeepsOldOrphans(s: Stores, all: seq<LeaseId>, running: set<TaskId>, c: ChildId)
    requires c in s.children && s.children[c].active && !IsActive(s, s.children[c].parent)
    ensures var u := Recovered(s, all, running);
            c in u.children && u.children[c] == s.children[c] && !IsActive(u, u.children[c].parent)
  {
    if all != [] { RecoveryKeepsOldOrphans(s, all[..|all| - 1], running, c); }
  }

  const NATIVE := Writer(0, Codex, false)

  lemma OneMore(es: seq<Event>, e: Event)
    ensures Run(es + [e]) == Step(Run(es), e)
  {
    assert (es + [e])[..|es|] == es;
  }

  /** One grant, one delegation, and a handover whose sweep never came. */
  lemma InterruptedHandoverLeavesAnOrphan()
    ensures !NoOrphans(Run([Grant(0, 0, NATIVE)] + [Delegate(0, 0, Codex, false)] + [Switch(0, 1, NATIVE)]))
  {
    var granted, delegated := [Grant(0, 0, NATIVE)], [Grant(0, 0, NATIVE)] + [Delegate(0, 0, Codex, false)];
    OneMore([], Grant(0, 0, NATIVE));
    assert [] + granted == granted;
    var s := Run(granted);
    assert s == GrantLease(EMPTY, 0, 0, NATIVE);
    OneMore(granted, Delegate(0, 0, Codex, false));
    assert Children(s, 0) == {};
    var u := Run(delegated);
    assert u.children[0] == Child(0, 0, 1, Codex, true, true) && u.leases == s.leases && u.tasks == s.tasks;
    OneMore(delegated, Switch(0, 1, NATIVE));
  }
}
