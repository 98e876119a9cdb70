/**
 The owner's one action on an approval: grant it, record the intent, spend it, run one merge.

 Any number of processes run owner calls and history listings over one shared registry. Every event
 is one atomic step of one call, a crash of one process, or a change somebody else makes to a row, so
 a run is any interleaving with any retries. All state is keyed by the approval, so one approval is
 modelled; whatever other approvals can do to it is a step that fails.

 `granter`, `crashed` and `used` are bookkeeping for the statements; no step reads them to decide.
 */
module Promotion {
  import opened Results
  import opened Collections

  type Process = nat
  type CallId = nat

  datatype ApprovalState = Requested | Approved | Consumed | Rejected | Expired | Invalidated

  /** The raw token is known only to the call that granted it, so it is named by that call. */
  datatype Row = Row(state: ApprovalState, token: Option<CallId>)

  datatype Observation = Applying | Applied | RolledBack | NeedsReview

  /** `id` names the one record; readers may refine what was observed about it. */
  datatype Record = Record(id: CallId, observed: Observation)

  /** Where a call stands: its next step. Rows carried along are what it read before. */
  datatype Pc =
    | ReadRecord | Inspect | GrantRead | GrantWrite(read: Row)
    | GrantAudit | Authorize | InsertIntent(read: Row) | Announce(read: Row) | Consume(read: Row)
    | StartMerge | SettleMerge
    | Recover | RejectRead | RejectWrite(read: Row)
    | ListRecords | ListApproval(started: bool) | ListCheck(started: bool, read: Row)
    | ListRejectRead | ListRejectWrite(read: Row) | ListRejectAudit | ListAgain

  datatype Call = Call(process: Process, pc: Pc)

  datatype Outcome = Promoted(id: CallId) | Replayed(id: CallId) | Threw | Listed

  datatype State = State(
    row: Row,
    record: Option<Record>,
    merges: nat,
    inFlight: set<Process>,
    calls: map<CallId, Call>,
    outcomes: map<CallId, Outcome>,
    used: set<CallId>,
    granter: Option<CallId>,
    crashed: set<CallId>)

  datatype Event =
    | StartOwner(p: Process, c: CallId)
    | StartList(p: Process, c: CallId)
    | Advance(c: CallId, ok: bool)
    | Crash(p: Process)
    | Retire(to: ApprovalState)
    | Observe(observed: Observation)

  const INITIAL := State(Row(Requested, None), None, 0, {}, map[], map[], {}, None, {})

  predicate Terminal(s: ApprovalState) {
    s != Requested && s != Approved
  }

  predicate OwnerPc(pc: Pc) {
    && !pc.ListRecords? && !pc.ListApproval? && !pc.ListCheck?
    && !pc.ListRejectRead? && !pc.ListRejectWrite? && !pc.ListRejectAudit? && !pc.ListAgain?
  }

  // ----- the registry's atomic transitions -----

  /** The compare-and-set every change of an approval goes through: a terminal row never moves. */
  function CompareAndSet(s: State, read: Row, next: Row): Option<State> {
    if Terminal(read.state) || s.row != read then None else Some(s.(row := next))
  }

  /** The approval id is unique among records, so a second intent is refused. */
  function Insert(s: State, c: CallId): Option<State> {
    if s.record.Some? then None else Some(s.(record := Some(Record(c, Applying))))
  }

  // ----- one step of a call -----

  function Goto(s: State, c: CallId, pc: Pc): State
    requires c in s.calls
  {
    s.(calls := s.calls[c := s.calls[c].(pc := pc)])
  }

  /** The end of a call; an owner call's `finally` clears its mark. */
  function End(s: State, c: CallId, o: Outcome): State
    requires c in s.calls
  {
    var call := s.calls[c];
    s.(calls := s.calls - {c},
       outcomes := s.outcomes[c := o],
       inFlight := if OwnerPc(call.pc) then s.inFlight - {call.process} else s.inFlight)
  }

  /** The steps before authority exists: a failure here ends the call. */
  function GrantStep(s: State, c: CallId, ok: bool): State
    requires c in s.calls
  {
    match s.calls[c].pc
    case ReadRecord =>
      if !ok then End(s, c, Threw)
      else if s.record.Some? then End(s, c, Replayed(s.record.value.id))
      else Goto(s, c, Inspect)
    case Inspect =>
      if !ok then End(s, c, Threw)
      else if s.row.state == Approved then Goto(s, c, RejectRead)
      else Goto(s, c, GrantRead)
    case GrantRead =>
      if !ok || s.row.state != Requested then End(s, c, Threw) else Goto(s, c, GrantWrite(s.row))
    case GrantWrite(read) =>
      (match CompareAndSet(s, read, Row(Approved, Some(c)))
       case None => End(s, c, Threw)
       case Some(t) => if ok then Goto(t.(granter := Some(c)), c, GrantAudit) else End(s, c, Threw))
    case _ => s
  }

  /**
   The steps under the grant. Its audit entry and ledger line are written before the `try`, so their
   failure ends the call; inside the `try` a failure leads to `Recover`.
   */
  function PromoteStep(s: State, c: CallId, ok: bool): State
    requires c in s.calls
  {
    match s.calls[c].pc
    case GrantAudit => if ok then Goto(s, c, Authorize) else End(s, c, Threw)
    case Authorize =>
      if !ok || s.row.state != Approved || s.row.token != Some(c) then Goto(s, c, Recover)
      else Goto(s, c, InsertIntent(s.row))
    case InsertIntent(read) =>
      (match Insert(s, c)
       case None => Goto(s, c, Recover)
       case Some(t) => if ok then Goto(t, c, Announce(read)) else Goto(s, c, Recover))
    case Announce(read) => if ok then Goto(s, c, Consume(read)) else Goto(s, c, Recover)
    case Consume(read) =>
      (match CompareAndSet(s, read, Row(Consumed, None))
       case None => Goto(s.(record := Some(Record(c, RolledBack))), c, Recover)
       case Some(t) => if ok then Goto(t, c, StartMerge) else Goto(s.(record := Some(Record(c, RolledBack))), c, Recover))
    case StartMerge => Goto(s.(merges := s.merges + 1), c, SettleMerge)
    case SettleMerge => if ok then End(s, c, Promoted(c)) else Goto(s, c, Recover)
    case _ => s
  }

  /**
   The steps of the `catch` and of an orphan met by a retry: retire the grant, then throw. A failing
   step throws as well, with nothing retired; what fails after the row was written changes no more.
   */
  function RetireStep(s: State, c: CallId, ok: bool): State
    requires c in s.calls
  {
    if !ok then End(s, c, Threw)
    else match s.calls[c].pc
      case Recover => if s.record.Some? then End(s, c, Threw) else Goto(s, c, RejectRead)
      case RejectRead => if Terminal(s.row.state) then End(s, c, Threw) else Goto(s, c, RejectWrite(s.row))
      case RejectWrite(read) =>
        (match CompareAndSet(s, read, Row(Rejected, None))
         case None => End(s, c, Threw)
         case Some(t) => End(t, c, Threw))
      case _ => s
  }

  /** A listing: any failing step throws. A row that is no longer pending is not a failure. */
  function ListStep(s: State, c: CallId, ok: bool): State
    requires c in s.calls
  {
    if !ok then End(s, c, Threw)
    else match s.calls[c].pc
      case ListRecords => Goto(s, c, ListApproval(s.record.Some?))
      case ListApproval(started) => Goto(s, c, ListCheck(started, s.row))
      case ListCheck(started, read) =>
        if read.state != Approved || started || s.calls[c].process in s.inFlight then Goto(s, c, ListAgain)
        else Goto(s, c, ListRejectRead)
      case ListRejectRead =>
        if Terminal(s.row.state) then Goto(s, c, ListAgain) else Goto(s, c, ListRejectWrite(s.row))
      case ListRejectWrite(read) =>
        (match CompareAndSet(s, read, Row(Rejected, None))
         case None => End(s, c, Threw)
         case Some(t) => Goto(t, c, ListRejectAudit))
      case ListRejectAudit => Goto(s, c, ListAgain)
      case ListAgain => End(s, c, Listed)
      case _ => s
  }

  predicate RetirePc(pc: Pc) {
    pc.Recover? || pc.RejectRead? || pc.RejectWrite?
  }

  predicate GrantPc(pc: Pc) {
    pc.ReadRecord? || pc.Inspect? || pc.GrantRead? || pc.GrantWrite?
  }

  function Step(s: State, e: Event): State {
    match e
    case StartOwner(p, c) =>
      if p in s.inFlight || c in s.used then s
      else s.(calls := s.calls[c := Call(p, ReadRecord)], used := s.used + {c}, inFlight := s.inFlight + {p})
    case StartList(p, c) =>
      if c in s.used then s
      else s.(calls := s.calls[c := Call(p, ListRecords)], used := s.used + {c})
    case Advance(c, ok) =>
      if c !in s.calls then s
      else
        var pc := s.calls[c].pc;
        if GrantPc(pc) then GrantStep(s, c, ok)
        else if RetirePc(pc) then RetireStep(s, c, ok)
        else if OwnerPc(pc) then PromoteStep(s, c, ok)
        else ListStep(s, c, ok)
    case Crash(p) =>
      var dead := set c | c in s.calls && s.calls[c].process == p;
      s.(calls := s.calls - dead, inFlight := s.inFlight - {p}, crashed := s.crashed + dead)
    case Retire(to) =>
      if Terminal(to) && to != Consumed && !Terminal(s.row.state) then s.(row := Row(to, None)) else s
    case Observe(observed) =>
      if s.record.Some? then s.(record := Some(s.record.value.(observed := observed))) else s
  }

  function Run(es: seq<Event>): State {
    if es == [] then INITIAL else Step(Run(es[..|es| - 1]), es[|es| - 1])
  }

  // ----- the invariant -----

  /** Steps that only the call whose grant was written can reach. */
  predicate HoldsGrant(pc: Pc) {
    || pc.GrantAudit? || pc.Authorize? || pc.InsertIntent? || pc.Announce? || pc.Consume?
    || pc.StartMerge? || pc.SettleMerge? || pc.Recover?
  }

  /** What a call that read `read` may still find: the row only moves forward. */
  predicate Since(read: Row, row: Row) {
    || read == row
    || read.state == Requested
    || (read.state == Approved && Terminal(row.state))
  }

  predicate CallInv(s: State, c: CallId)
    requires c in s.calls
  {
    var pc := s.calls[c].pc;
    && c in s.used && c !in s.crashed
    && (HoldsGrant(pc) ==> s.granter == Some(c))
    && (GrantPc(pc) ==> s.granter != Some(c))
    && (!OwnerPc(pc) ==> s.granter != Some(c))
    && (OwnerPc(pc) ==> s.calls[c].process in s.inFlight)
    && match pc
       case GrantWrite(read) => read == Row(Requested, None)
       case GrantAudit => s.record.None?
       case Authorize => s.record.None?
       case InsertIntent(read) => s.record.None? && read == Row(Approved, Some(c))
       case Announce(read) => s.record.Some? && s.merges == 0 && read == Row(Approved, Some(c))
       case Consume(read) => s.record.Some? && s.merges == 0 && read == Row(Approved, Some(c))
       case StartMerge => s.record.Some? && s.merges == 0 && s.row.state == Consumed
       case SettleMerge => s.record.Some? && s.merges == 1
       case RejectRead => s.row.state != Requested
       case RejectWrite(read) => read.state == Approved && Since(read, s.row)
       case ListCheck(_, read) => Since(read, s.row) && (read.state == Approved ==> read.token == s.granter)
       case ListRejectRead => s.row.state != Requested && RetirableBy(s, s.calls[c].process)
       case ListRejectWrite(read) => read.state == Approved && Since(read, s.row) && RetirableBy(s, s.calls[c].process)
       case _ => true
  }

  /** The grant, if any, is not held by a call of this process. */
  predicate RetirableBy(s: State, p: Process) {
    s.granter.Some? ==> !(s.granter.value in s.calls && s.calls[s.granter.value].process == p)
  }

  predicate Globals(s: State) {
    && (forall c, d | c in s.calls && d in s.calls && c != d && OwnerPc(s.calls[c].pc) && OwnerPc(s.calls[d].pc) ::
          s.calls[c].process != s.calls[d].process)
    && (s.row.state == Requested ==> s.row.token == None && s.granter.None? && s.record.None?)
    && (s.row.state == Approved ==> s.granter.Some? && s.row.token == s.granter)
    && (s.row.state == Consumed ==> s.record.Some?)
    && (s.record.Some? ==> s.granter == Some(s.record.value.id))
    && s.merges <= 1
    && (s.merges == 1 ==> s.row.state == Consumed)
    && (s.granter.Some? ==> s.granter.value in s.used)
    && s.crashed <= s.used
  }

  predicate Inv(s: State) {
    Globals(s) && forall c | c in s.calls :: CallInv(s, c)
  }

  /** The invariant with one call left open. */
  predicate InvExcept(s: State, c: CallId) {
    Globals(s) && forall d | d in s.calls && d != c :: CallInv(s, d)
  }

  /** Authority without a record: approved, and no promotion was ever recorded. */
  predicate Orphan(s: State) {
    s.row.state == Approved && s.record.None?
  }

  lemma GotoKeeps(s: State, c: CallId, pc: Pc)
    requires InvExcept(s, c) && c in s.calls
    requires OwnerPc(pc) <==> OwnerPc(s.calls[c].pc)
    requires CallInv(Goto(s, c, pc), c)
    ensures Inv(Goto(s, c, pc))
  {
    forall d | d in s.calls && d != c ensures CallInv(Goto(s, c, pc), d) { GotoKeepsOther(s, c, pc, d); }
  }

  lemma GotoKeepsOther(s: State, c: CallId, pc: Pc, d: CallId)
    requires c in s.calls && d in s.calls && d != c && CallInv(s, d)
    ensures CallInv(Goto(s, c, pc), d)
  {
  }

  lemma EndKeeps(s: State, c: CallId, o: Outcome)
    requires InvExcept(s, c) && c in s.calls
    requires OwnerPc(s.calls[c].pc) ==> s.calls[c].process in s.inFlight
    ensures Inv(End(s, c, o))
  {
    forall d | d in s.calls && d != c ensures CallInv(End(s, c, o), d) { EndKeepsOther(s, c, o, d); }
  }

  lemma EndKeepsOther(s: State, c: CallId, o: Outcome, d: CallId)
    requires c in s.calls && d in s.calls && d != c && CallInv(s, d)
    requires OwnerPc(s.calls[c].pc) && OwnerPc(s.calls[d].pc) ==> s.calls[c].process != s.calls[d].process
    ensures CallInv(End(s, c, o), d)
  {
  }

  lemma TerminalRowKeeps(s: State, c: CallId, to: ApprovalState)
    requires InvExcept(s, c) && !Terminal(s.row.state) && Terminal(to) && (to == Consumed ==> s.record.Some?)
    ensures InvExcept(s.(row := Row(to, None)), c)
  {
  }

  lemma GrantKeeps(s: State, c: CallId)
    requires InvExcept(s, c) && s.row == Row(Requested, None) && c in s.calls && c in s.used
    ensures InvExcept(s.(row := Row(Approved, Some(c)), granter := Some(c)), c)
  {
  }

  lemma RecordKeeps(s: State, c: CallId, r: Record)
    requires InvExcept(s, c) && s.granter == Some(r.id) && (r.id == c || s.record.Some?) && s.row.state != Requested
    ensures InvExcept(s.(record := Some(r)), c)
  {
  }

  lemma MergeKeeps(s: State, c: CallId)
    requires InvExcept(s, c) && s.granter == Some(c) && s.row.state == Consumed && s.merges == 0
    ensures InvExcept(s.(merges := s.merges + 1), c)
  {
  }

  function Granted(s: State, c: CallId): State {
    s.(row := Row(Approved, Some(c)), granter := Some(c))
  }

  lemma GrantWriteIs(s: State, c: CallId)
    requires c in s.calls && s.calls[c].pc == GrantWrite(s.row) && !Terminal(s.row.state)
    ensures GrantStep(s, c, true) == Goto(Granted(s, c), c, GrantAudit)
  {
  }

  lemma GrantWriteIsFirst(s: State, c: CallId)
    requires Inv(s) && c in s.calls && s.calls[c].pc == GrantWrite(s.row)
    ensures s.row == Row(Requested, None) && c in s.used && CallInv(Goto(Granted(s, c), c, GrantAudit), c)
  {
    assert CallInv(s, c);
  }

  lemma GrantWriteKeepsInv(s: State, c: CallId)
    requires Inv(s) && c in s.calls && s.calls[c].pc == GrantWrite(s.row)
    ensures Inv(GrantStep(s, c, true))
  {
    GrantWriteIsFirst(s, c);
    GrantWriteIs(s, c);
    GrantKeeps(s, c);
    GotoKeeps(Granted(s, c), c, GrantAudit);
  }

  lemma GrantStepKeepsInv(s: State, c: CallId, ok: bool)
    requires Inv(s) && c in s.calls && GrantPc(s.calls[c].pc)
    ensures Inv(GrantStep(s, c, ok))
  {
    var t := GrantStep(s, c, ok);
    if c !in t.calls {
      EndKeeps(s, c, t.outcomes[c]);
    } else if s.calls[c].pc.GrantWrite? {
      GrantWriteKeepsInv(s, c);
    } else {
      GotoKeeps(s, c, t.calls[c].pc);
    }
  }

  lemma InsertKeepsInv(s: State, c: CallId, ok: bool)
    requires Inv(s) && c in s.calls && s.calls[c].pc.InsertIntent?
    ensures Inv(PromoteStep(s, c, ok))
  {
    assert CallInv(s, c);
    var read := s.calls[c].pc.read;
    if ok {
      RecordKeeps(s, c, Record(c, Applying));
      GotoKeeps(s.(record := Some(Record(c, Applying))), c, Announce(read));
    } else {
      GotoKeeps(s, c, Recover);
    }
  }

  lemma ConsumeKeepsInv(s: State, c: CallId, ok: bool)
    requires Inv(s) && c in s.calls && s.calls[c].pc.Consume?
    ensures Inv(PromoteStep(s, c, ok))
  {
    assert CallInv(s, c);
    if s.row == s.calls[c].pc.read && ok {
      TerminalRowKeeps(s, c, Consumed);
      GotoKeeps(s.(row := Row(Consumed, None)), c, StartMerge);
    } else {
      RecordKeeps(s, c, Record(c, RolledBack));
      GotoKeeps(s.(record := Some(Record(c, RolledBack))), c, Recover);
    }
  }

  lemma AuthorizeKeepsInv(s: State, c: CallId, ok: bool)
    requires Inv(s) && c in s.calls && s.calls[c].pc.Authorize?
    ensures Inv(PromoteStep(s, c, ok))
  {
    assert CallInv(s, c);
    GotoKeeps(s, c, PromoteStep(s, c, ok).calls[c].pc);
  }

  lemma StartMergeKeepsInv(s: State, c: CallId, ok: bool)
    requires Inv(s) && c in s.calls && s.calls[c].pc.StartMerge?
    ensures Inv(PromoteStep(s, c, ok))
  {
    assert CallInv(s, c);
    MergeKeeps(s, c);
    GotoKeeps(s.(merges := s.merges + 1), c, SettleMerge);
  }

  lemma PromoteStepKeepsInv(s: State, c: CallId, ok: bool)
    requires Inv(s) && c in s.calls && HoldsGrant(s.calls[c].pc) && !s.calls[c].pc.Recover?
    ensures Inv(PromoteStep(s, c, ok))
  {
    assert CallInv(s, c);
    match s.calls[c].pc
    case GrantAudit => if ok { GotoKeeps(s, c, Authorize); } else { EndKeeps(s, c, Threw); }
    case Authorize => AuthorizeKeepsInv(s, c, ok);
    case InsertIntent(_) => InsertKeepsInv(s, c, ok);
    case Announce(read) => GotoKeeps(s, c, if ok then Consume(read) else Recover);
    case Consume(_) => ConsumeKeepsInv(s, c, ok);
    case StartMerge => StartMergeKeepsInv(s, c, ok);
    case SettleMerge => if ok { EndKeeps(s, c, Promoted(c)); } else { GotoKeeps(s, c, Recover); }
  }

  lemma RetireStepKeepsInv(s: State, c: CallId, ok: bool)
    requires Inv(s) && c in s.calls && RetirePc(s.calls[c].pc)
    ensures Inv(RetireStep(s, c, ok))
  {
    var t := RetireStep(s, c, ok);
    if t.row != s.row {
      TerminalRowKeeps(s, c, Rejected);
      EndKeeps(s.(row := t.row), c, Threw);
    } else if c in t.calls {
      GotoKeeps(s, c, t.calls[c].pc);
    } else {
      EndKeeps(s, c, Threw);
    }
  }

  lemma ListRejectKeepsInv(s: State, c: CallId)
    requires Inv(s) && c in s.calls && s.calls[c].pc.ListRejectWrite?
    ensures Inv(ListStep(s, c, true))
  {
    assert CallInv(s, c);
    if s.row == s.calls[c].pc.read {
      TerminalRowKeeps(s, c, Rejected);
      GotoKeeps(s.(row := Row(Rejected, None)), c, ListRejectAudit);
    } else {
      EndKeeps(s, c, Threw);
    }
  }

  lemma ListGoesOn(s: State, c: CallId) returns (pc: Pc)
    requires Inv(s) && c in s.calls && !OwnerPc(s.calls[c].pc)
    requires !s.calls[c].pc.ListRejectWrite? && !s.calls[c].pc.ListAgain?
    ensures !OwnerPc(pc) && ListStep(s, c, true) == Goto(s, c, pc) && CallInv(Goto(s, c, pc), c)
  {
    assert CallInv(s, c);
    pc := ListStep(s, c, true).calls[c].pc;
  }

  lemma ListStepKeepsInv(s: State, c: CallId, ok: bool)
    requires Inv(s) && c in s.calls && !OwnerPc(s.calls[c].pc)
    ensures Inv(ListStep(s, c, ok))
  {
    assert CallInv(s, c);
    if !ok {
      EndKeeps(s, c, Threw);
    } else if s.calls[c].pc.ListRejectWrite? {
      ListRejectKeepsInv(s, c);
    } else if s.calls[c].pc.ListAgain? {
      EndKeeps(s, c, Listed);
    } else {
      var pc := ListGoesOn(s, c);
      GotoKeeps(s, c, pc);
    }
  }

  lemma StartKeepsInv(s: State, c: CallId, call: Call)
    requires Inv(s) && c !in s.used && (call.pc.ReadRecord? || call.pc.ListRecords?)
    requires call.pc.ReadRecord? ==> call.process !in s.inFlight
    ensures var owners := if call.pc.ReadRecord? then {call.process} else {};
            Inv(s.(calls := s.calls[c := call], used := s.used + {c}, inFlight := s.inFlight + owners))
  {
  }

  lemma CrashKeepsInv(s: State, p: Process)
    requires Inv(s)
    ensures Inv(Step(s, Crash(p)))
  {
  }

  lemma StepKeepsInv(s: State, e: Event)
    requires Inv(s)
    ensures Inv(Step(s, e))
  {
    match e
    case StartOwner(p, c) => if p !in s.inFlight && c !in s.used { StartKeepsInv(s, c, Call(p, ReadRecord)); }
    case StartList(p, c) =>
      if c !in s.used {
        StartKeepsInv(s, c, Call(p, ListRecords));
        assert s.inFlight + {} == s.inFlight;
      }
    case Advance(c, ok) =>
      if c in s.calls {
        if GrantPc(s.calls[c].pc) { GrantStepKeepsInv(s, c, ok); }
        else if RetirePc(s.calls[c].pc) { RetireStepKeepsInv(s, c, ok); }
        else if OwnerPc(s.calls[c].pc) { PromoteStepKeepsInv(s, c, ok); }
        else { ListStepKeepsInv(s, c, ok); }
      }
    case Crash(p) => CrashKeepsInv(s, p);
    case Retire(to) =>
      if Terminal(to) && to != Consumed && !Terminal(s.row.state) {
        AnyRowKeeps(s, to);
      }
    case Observe(observed) =>
  }

  lemma AnyRowKeeps(s: State, to: ApprovalState)
    requires Inv(s) && !Terminal(s.row.state) && Terminal(to) && to != Consumed
    ensures Inv(s.(row := Row(to, None)))
  {
  }

  lemma {:induction false} InvHolds(es: seq<Event>)
    ensures Inv(Run(es))
  {
    if es != [] {
      InvHolds(es[..|es| - 1]);
      StepKeepsInv(Run(es[..|es| - 1]), es[|es| - 1]);
    }
  }

  // ----- what the calls answer -----

  /** Every answer given so far: ended for good, and one record named by all. */
  predicate OutcomeInv(s: State) {
    forall c | c in s.outcomes ::
      && c in s.used && c !in s.calls && c !in s.crashed
      && match s.outcomes[c]
         case Promoted(id) => id == c && s.record.Some? && s.record.value.id == id && s.merges == 1
         case Replayed(id) => s.record.Some? && s.record.value.id == id
         case _ => true
  }

  lemma GrantStepOutcomes(s: State, c: CallId, ok: bool)
    requires Inv(s) && OutcomeInv(s) && c in s.calls && GrantPc(s.calls[c].pc)
    ensures OutcomeInv(GrantStep(s, c, ok))
  {
    assert CallInv(s, c);
  }

  lemma PromoteStepOutcomes(s: State, c: CallId, ok: bool)
    requires Inv(s) && OutcomeInv(s) && c in s.calls && HoldsGrant(s.calls[c].pc)
    ensures OutcomeInv(PromoteStep(s, c, ok))
  {
    assert CallInv(s, c);
  }

  lemma RetireStepOutcomes(s: State, c: CallId, ok: bool)
    requires Inv(s) && OutcomeInv(s) && c in s.calls && RetirePc(s.calls[c].pc)
    ensures OutcomeInv(RetireStep(s, c, ok))
  {
    assert CallInv(s, c);
  }

  lemma ListStepOutcomes(s: State, c: CallId, ok: bool)
    requires Inv(s) && OutcomeInv(s) && c in s.calls && !OwnerPc(s.calls[c].pc)
    ensures OutcomeInv(ListStep(s, c, ok))
  {
    assert CallInv(s, c);
  }

  lemma StepKeepsOutcomes(s: State, e: Event)
    requires Inv(s) && OutcomeInv(s)
    ensures OutcomeInv(Step(s, e))
  {
    match e
    case Advance(c, ok) =>
      if c in s.calls {
        if GrantPc(s.calls[c].pc) { GrantStepOutcomes(s, c, ok); }
        else if RetirePc(s.calls[c].pc) { RetireStepOutcomes(s, c, ok); }
        else if OwnerPc(s.calls[c].pc) { PromoteStepOutcomes(s, c, ok); }
        else { ListStepOutcomes(s, c, ok); }
      }
    case _ =>
  }

  lemma {:induction false} OutcomesHold(es: seq<Event>)
    ensures OutcomeInv(Run(es))
  {
    if es != [] {
      OutcomesHold(es[..|es| - 1]);
      InvHolds(es[..|es| - 1]);
      StepKeepsOutcomes(Run(es[..|es| - 1]), es[|es| - 1]);
    }
  }

  /** In every run: at most one merge, and then on a spent approval with its one record. */
  lemma AtMostOneMerge(es: seq<Event>)
    ensures Run(es).merges <= 1
    ensures Run(es).merges == 1 ==> Run(es).row.state == Consumed && Run(es).record.Some?
  {
    InvHolds(es);
  }

  /** All answers that name a promotion name the same one, whoever asked and however often. */
  lemma AnswersAgree(es: seq<Event>, c: CallId, d: CallId)
    requires c in Run(es).outcomes && d in Run(es).outcomes
    requires (Run(es).outcomes[c].Promoted? || Run(es).outcomes[c].Replayed?)
    requires (Run(es).outcomes[d].Promoted? || Run(es).outcomes[d].Replayed?)
    ensures Run(es).outcomes[c].id == Run(es).outcomes[d].id
  {
    OutcomesHold(es);
  }

  // ----- what never changes again -----

  /** Rows in a final state, records, names and the grant outlive every step. */
  predicate Outlives(s: State, t: State) {
    && (Terminal(s.row.state) ==> t.row == s.row)
    && (s.record.Some? ==> t.record.Some? && t.record.value.id == s.record.value.id)
    && s.used <= t.used && s.crashed <= t.crashed
    && (s.granter.Some? ==> t.granter == s.granter)
  }

  lemma OwnerStepOutlives(s: State, c: CallId, ok: bool)
    requires c in s.calls && CallInv(s, c) && Globals(s)
    ensures GrantPc(s.calls[c].pc) ==> Outlives(s, GrantStep(s, c, ok))
    ensures Outlives(s, PromoteStep(s, c, ok))
  {
  }

  lemma StepIsMonotone(s: State, e: Event)
    requires Inv(s)
    ensures Outlives(s, Step(s, e))
  {
    if e.Advance? && e.c in s.calls {
      assert CallInv(s, e.c);
      OwnerStepOutlives(s, e.c, e.ok);
    }
  }

  /** A spent, refused, expired or invalidated approval stays what it is: no stale read can undo it. */
  lemma {:induction false} TerminalIsFinal(es: seq<Event>, k: nat)
    requires k <= |es| && Terminal(Run(es[..k]).row.state)
    ensures Run(es).row == Run(es[..k]).row
  {
    if k < |es| {
      assert es[..|es| - 1][..k] == es[..k];
      TerminalIsFinal(es[..|es| - 1], k);
      InvHolds(es[..|es| - 1]);
      StepIsMonotone(Run(es[..|es| - 1]), es[|es| - 1]);
    } else {
      assert es[..k] == es;
    }
  }

  // ----- authority left behind -----

  /** The steps whose failure ends a call that holds the grant without retiring it. */
  predicate LeavesGrant(pc: Pc) {
    pc.GrantAudit? || pc.Recover? || pc.RejectRead? || pc.RejectWrite?
  }

  predicate FailsToRetire(s: State, e: Event, c: CallId) {
    c in s.calls && e == Advance(c, false) && LeavesGrant(s.calls[c].pc)
  }

  predicate CrashesIn(s: State, e: Event, c: CallId) {
    c in s.calls && e == Crash(s.calls[c].process)
  }

  /** Call `c` holds an orphaned grant, and this event ends it without retiring that grant. */
  predicate Abandons(s: State, e: Event, c: CallId) {
    Orphan(s) && s.granter == Some(c) && (FailsToRetire(s, e, c) || CrashesIn(s, e, c))
  }

  ghost predicate LeftBehind(es: seq<Event>, c: CallId) {
    exists k :: 0 <= k < |es| && Abandons(Run(es[..k]), es[k], c)
  }

  /** A step that ends the granting call leaves an orphan exactly when it abandons one. */
  lemma EndsOrphanedIff(s: State, e: Event, c: CallId)
    requires Inv(s) && s.granter == Some(c) && c in s.calls && c !in Step(s, e).calls
    ensures Orphan(Step(s, e)) <==> Abandons(s, e, c)
  {
    match e
    case Advance(d, ok) =>
      if d != c { OtherCallsStand(s, d, ok, c); } else { OwnEndOrphanedIff(s, c, ok); }
    case _ =>
  }

  lemma OwnEndOrphanedIff(s: State, c: CallId, ok: bool)
    requires Inv(s) && s.granter == Some(c) && c in s.calls && c !in Step(s, Advance(c, ok)).calls
    ensures Orphan(Step(s, Advance(c, ok))) <==> Orphan(s) && !ok && LeavesGrant(s.calls[c].pc)
  {
    assert CallInv(s, c);
  }

  /** Without its granting call, an approved row without a record stays one until it is retired. */
  lemma StaysUnrecorded(s: State, e: Event, c: CallId)
    requires Inv(s) && s.granter == Some(c) && c !in s.calls
    ensures c !in Step(s, e).calls && Step(s, e).granter == Some(c) && Step(s, e).record.Some? == s.record.Some?
    ensures Step(s, e).row.state == Approved ==> s.row.state == Approved
  {
    if e.Advance? && e.c in s.calls { assert CallInv(s, e.c); }
  }

  lemma StepLeavesBehind(s: State, e: Event, c: CallId)
    requires Inv(s) && Step(s, e).granter == Some(c)
    ensures (Orphan(Step(s, e)) && c !in Step(s, e).calls) <==>
      && ((s.granter == Some(c) && Orphan(s) && c !in s.calls) || Abandons(s, e, c))
      && Step(s, e).row.state == Approved
  {
    StepIsMonotone(s, e);
    if s.granter == Some(c) {
      if c !in s.calls {
        StaysUnrecorded(s, e, c);
      } else if c !in Step(s, e).calls {
        EndsOrphanedIff(s, e, c);
      } else {
        assert CallInv(s, c);
      }
    } else {
      GrantedNow(s, e, c);
    }
  }

  lemma RowIsMonotone(s: State, e: Event)
    requires Inv(s) && s.granter.Some? && Step(s, e).row.state == Approved
    ensures s.row.state == Approved
  {
    if e.Advance? && e.c in s.calls { assert CallInv(s, e.c); }
  }

  lemma GrantedNow(s: State, e: Event, c: CallId)
    requires Inv(s) && s.granter != Some(c) && Step(s, e).granter == Some(c)
    ensures c in Step(s, e).calls
  {
    if e.Advance? && e.c in s.calls && !GrantPc(s.calls[e.c].pc) { OtherStepsDoNotGrant(s, e.c, e.ok); }
  }

  lemma OtherStepsDoNotGrant(s: State, c: CallId, ok: bool)
    requires c in s.calls
    ensures PromoteStep(s, c, ok).granter == s.granter
    ensures RetireStep(s, c, ok).granter == s.granter
    ensures ListStep(s, c, ok).granter == s.granter
  {
  }

  lemma LeftBehindOneMore(es: seq<Event>, e: Event, c: CallId)
    ensures LeftBehind(es + [e], c) <==> LeftBehind(es, c) || Abandons(Run(es), e, c)
  {
    var all := es + [e];
    assert forall k | 0 <= k < |es| :: all[..k] == es[..k] && all[k] == es[k];
    assert all[..|es|] == es && all[|es|] == e;
  }

  /**
   In every run: the granting call is gone and its authority is still open exactly when one of its
   four steps after the grant failed, or its process crashed, while the approval was approved without
   a record, and nobody has retired it since.
   */
  lemma {:induction false} OrphanIffLeftBehind(es: seq<Event>, c: CallId)
    requires Run(es).granter == Some(c)
    ensures (Orphan(Run(es)) && c !in Run(es).calls) <==> LeftBehind(es, c) && Run(es).row.state == Approved
  {
    if es != [] {
      var rest, last := es[..|es| - 1], es[|es| - 1];
      var s := Run(rest);
      InvHolds(rest);
      assert es == rest + [last];
      LeftBehindOneMore(rest, last, c);
      StepLeavesBehind(s, last, c);
      if s.granter.Some? && Run(es).row.state == Approved { RowIsMonotone(s, last); }
      if s.granter == Some(c) {
        OrphanIffLeftBehind(rest, c);
        if LeftBehind(rest, c) { LeftBehindIsOver(rest, c); }
      } else {
        NotYetGranted(rest, c);
      }
    }
  }

  lemma LeftBehindIsNotEmpty(es: seq<Event>, c: CallId)
    requires LeftBehind(es, c)
    ensures es != []
  {
    var k :| 0 <= k < |es| && Abandons(Run(es[..k]), es[k], c);
  }

  lemma LastApart(es: seq<Event>)
    requires es != []
    ensures es == es[..|es| - 1] + [es[|es| - 1]]
  {
  }

  /** Who left a grant behind is gone, and no record was made since. */
  lemma {:induction false} LeftBehindIsOver(es: seq<Event>, c: CallId)
    requires LeftBehind(es, c)
    ensures Run(es).granter == Some(c) && c !in Run(es).calls && Run(es).record.None?
  {
    LeftBehindIsNotEmpty(es, c);
    LastApart(es);
    var rest, last := es[..|es| - 1], es[|es| - 1];
    InvHolds(rest);
    LeftBehindOneMore(rest, last, c);
    if LeftBehind(rest, c) {
      LeftBehindIsOver(rest, c);
      StaysUnrecorded(Run(rest), last, c);
    } else {
      AbandonsIsOver(Run(rest), last, c);
    }
  }

  lemma AbandonsIsOver(s: State, e: Event, c: CallId)
    requires Abandons(s, e, c)
    ensures Step(s, e).granter == Some(c) && c !in Step(s, e).calls && Step(s, e).record.None?
  {
  }

  lemma NotYetGranted(es: seq<Event>, c: CallId)
    requires Run(es).granter != Some(c)
    ensures !LeftBehind(es, c)
  {
    if LeftBehind(es, c) { LeftBehindIsOver(es, c); }
  }

  /** A call that ended by itself left an orphan only through one of its four steps after the grant. */
  lemma NoOrphanOnExit(es: seq<Event>, c: CallId)
    requires c in Run(es).outcomes && Run(es).granter == Some(c)
    requires forall k | 0 <= k < |es| :: !FailsToRetire(Run(es[..k]), es[k], c)
    ensures !Orphan(Run(es))
  {
    OutcomesHold(es);
    OrphanIffLeftBehind(es, c);
    if LeftBehind(es, c) {
      var k :| 0 <= k < |es| && Abandons(Run(es[..k]), es[k], c);
      CrashedIsForever(es, k, c);
    }
  }

  /** A call that died with its process is counted among the crashed ones ever after. */
  lemma {:induction false} CrashedIsForever(es: seq<Event>, k: nat, c: CallId)
    requires k < |es| && CrashesIn(Run(es[..k]), es[k], c)
    ensures c in Run(es).crashed
  {
    var rest, last := es[..|es| - 1], es[|es| - 1];
    InvHolds(rest);
    StepIsMonotone(Run(rest), last);
    if k < |rest| {
      assert rest[..k] == es[..k] && rest[k] == es[k];
      CrashedIsForever(rest, k, c);
    } else {
      assert rest == es[..k];
    }
  }

  lemma OneMore(es: seq<Event>, e: Event)
    ensures Run(es + [e]) == Step(Run(es), e)
  {
    assert (es + [e])[..|es|] == es;
  }

  /** One call of process 0, at a step. */
  function Alone(pc: Pc, row: Row, granter: Option<CallId>): State {
    INITIAL.(row := row, granter := granter, calls := map[0 := Call(0, pc)], used := {0}, inFlight := {0})
  }

  lemma AloneAdvances(es: seq<Event>, pc: Pc, row: Row, granter: Option<CallId>, ok: bool)
    requires Run(es) == Alone(pc, row, granter)
    ensures Run(es + [Advance(0, ok)]) == Step(Alone(pc, row, granter), Advance(0, ok))
  {
    OneMore(es, Advance(0, ok));
  }

  lemma GrantedAlone() returns (es: seq<Event>)
    ensures es == [StartOwner(0, 0), Advance(0, true), Advance(0, true), Advance(0, true), Advance(0, true)]
    ensures Run(es) == Alone(GrantAudit, Row(Approved, Some(0)), Some(0))
  {
    es := [StartOwner(0, 0)];
    OneMore([], StartOwner(0, 0));
    assert [] + es == es && Run(es) == Alone(ReadRecord, INITIAL.row, None);
    AloneAdvances(es, ReadRecord, INITIAL.row, None, true);
    es := es + [Advance(0, true)];
    assert Run(es) == Alone(Inspect, INITIAL.row, None);
    AloneAdvances(es, Inspect, INITIAL.row, None, true);
    es := es + [Advance(0, true)];
    assert Run(es) == Alone(GrantRead, INITIAL.row, None);
    AloneAdvances(es, GrantRead, INITIAL.row, None, true);
    es := es + [Advance(0, true)];
    assert Run(es) == Alone(GrantWrite(INITIAL.row), INITIAL.row, None);
    AloneAdvances(es, GrantWrite(INITIAL.row), INITIAL.row, None, true);
    es := es + [Advance(0, true)];
  }

  /** The smallest such run: the grant is written, its audit entry is not, and the call throws. */
  lemma FailedAuditLeavesAnOrphan() returns (es: seq<Event>)
    ensures es == [StartOwner(0, 0), Advance(0, true), Advance(0, true), Advance(0, true), Advance(0, true), Advance(0, false)]
    ensures Orphan(Run(es)) && 0 !in Run(es).calls && 0 in Run(es).outcomes && Run(es).outcomes[0] == Threw
  {
    es := GrantedAlone();
    AloneAdvances(es, GrantAudit, Row(Approved, Some(0)), Some(0), false);
    es := es + [Advance(0, false)];
  }

  // ----- a retry after the record -----

  /** Call `c` is where it was, and has answered what it had. */
  predicate SameFor(s: State, t: State, c: CallId) {
    && (c in t.calls <==> c in s.calls) && (c in s.calls ==> t.calls[c] == s.calls[c])
    && (c in t.outcomes <==> c in s.outcomes) && (c in s.outcomes ==> t.outcomes[c] == s.outcomes[c])
  }

  lemma OtherOwnersStand(s: State, d: CallId, ok: bool, c: CallId)
    requires c != d && d in s.calls
    ensures SameFor(s, GrantStep(s, d, ok), c) && SameFor(s, PromoteStep(s, d, ok), c)
  {
  }

  lemma OtherCallsStand(s: State, d: CallId, ok: bool, c: CallId)
    requires c != d
    ensures SameFor(s, Step(s, Advance(d, ok)), c)
  {
    if d in s.calls { OtherOwnersStand(s, d, ok, c); }
  }

  lemma OwnReplay(s: State, c: CallId, ok: bool, id: CallId)
    requires OnlyReplays(s, c, id)
    ensures OnlyReplays(Step(s, Advance(c, ok)), c, id)
    ensures ok && c in s.calls ==> Step(s, Advance(c, ok)).outcomes[c] == Replayed(id)
    ensures Step(s, Advance(c, ok)).merges == s.merges && Step(s, Advance(c, ok)).row == s.row
  {
  }

  /** A call that began after the record existed: it only ever reads it. */
  predicate OnlyReplays(s: State, c: CallId, id: CallId) {
    && s.record.Some? && s.record.value.id == id
    && c in s.used && s.granter != Some(c)
    && (c in s.calls ==> s.calls[c].pc == ReadRecord)
    && (c in s.outcomes ==> s.outcomes[c] == Replayed(id) || s.outcomes[c] == Threw)
  }

  lemma StepOnlyReplays(s: State, e: Event, c: CallId, id: CallId)
    requires Inv(s) && OutcomeInv(s) && OnlyReplays(s, c, id)
    ensures OnlyReplays(Step(s, e), c, id)
  {
    StepIsMonotone(s, e);
    if e.Advance? {
      if e.c == c { OwnReplay(s, c, e.ok, id); } else { OtherCallsStand(s, e.c, e.ok, c); }
    }
  }

  /** A retry that starts once a record exists answers with that record, or throws, and starts nothing. */
  lemma {:induction false} RetryReplays(es: seq<Event>, k: nat, p: Process, c: CallId)
    requires k < |es| && es[k] == StartOwner(p, c)
    requires c !in Run(es[..k]).used && p !in Run(es[..k]).inFlight && Run(es[..k]).record.Some?
    ensures OnlyReplays(Run(es), c, Run(es[..k]).record.value.id)
  {
    var rest, last := es[..|es| - 1], es[|es| - 1];
    InvHolds(rest);
    OutcomesHold(rest);
    if k == |rest| {
      assert rest == es[..k];
      assert c !in Run(rest).outcomes;
    } else {
      assert rest[..k] == es[..k] && rest[k] == es[k];
      RetryReplays(rest, k, p, c);
      StepOnlyReplays(Run(rest), last, c, Run(es[..k]).record.value.id);
    }
  }

  // ----- what a history listing does to orphans -----

  /** A listing never withdraws a grant whose call is under way in its own process. */
  lemma ListingSparesItsOwn(es: seq<Event>, c: CallId, ok: bool)
    requires c in Run(es).calls && !OwnerPc(Run(es).calls[c].pc)
    requires Step(Run(es), Advance(c, ok)).row != Run(es).row
    ensures RetirableBy(Run(es), Run(es).calls[c].process)
    ensures Run(es).row.state == Approved && Step(Run(es), Advance(c, ok)).row.state == Rejected
  {
    InvHolds(es);
    assert CallInv(Run(es), c);
  }

  /** The granting call is over: crashed, or ended by itself. */
  predicate GranterGone(s: State) {
    s.granter.Some? && s.granter.value !in s.calls
  }

  /** The progress of listing `c` over an approval whose granting call is gone and left no record. */
  predicate Retiring(s: State, c: CallId, p: Process) {
    && GranterGone(s) && s.record.None? && s.row.state != Requested
    && c in s.used && s.granter != Some(c)
    && (c in s.calls ==> s.calls[c].process == p && !OwnerPc(s.calls[c].pc))
    && (c in s.calls ==>
          match s.calls[c].pc
          case ListApproval(started) => !started
          case ListCheck(started, read) => !started && (read.state == Approved || Terminal(s.row.state))
          case ListRejectAudit => Terminal(s.row.state)
          case ListAgain => Terminal(s.row.state)
          case _ => true)
    && (c in s.outcomes ==> s.outcomes[c] == Threw || Terminal(s.row.state))
  }

  lemma OwnListing(s: State, c: CallId, ok: bool, p: Process)
    requires Retiring(s, c, p) && p !in s.inFlight && c in s.calls && CallInv(s, c)
    ensures Retiring(Step(s, Advance(c, ok)), c, p)
  {
  }

  lemma OthersLeaveItToList(s: State, d: CallId, ok: bool)
    requires Inv(s) && GranterGone(s) && s.record.None? && s.row.state != Requested
    ensures Step(s, Advance(d, ok)).record.None? && Step(s, Advance(d, ok)).row.state != Requested
  {
    if d in s.calls { assert CallInv(s, d); }
  }

  lemma StepRetires(s: State, e: Event, c: CallId, p: Process)
    requires Inv(s) && OutcomeInv(s) && Retiring(s, c, p) && p !in s.inFlight
    ensures Retiring(Step(s, e), c, p)
  {
    StepIsMonotone(s, e);
    StaysUnrecorded(s, e, s.granter.value);
    if e.Advance? {
      OthersLeaveItToList(s, e.c, e.ok);
      if e.c != c {
        OtherCallsStand(s, e.c, e.ok, c);
      } else if c in s.calls {
        OwnListing(s, c, e.ok, p);
      }
    }
  }

  lemma ListingStarts(s: State, p: Process, c: CallId)
    requires Inv(s) && OutcomeInv(s) && Orphan(s) && GranterGone(s) && c !in s.used
    ensures Retiring(Step(s, StartList(p, c)), c, p)
  {
    assert c !in s.outcomes;
  }

  /**
   Whatever left an orphan behind, a listing that runs to its end in a process with no owner call of its
   own for that approval leaves no orphan, whatever other processes do meanwhile.
   */
  lemma {:induction false} ListingRetiresOrphans(es: seq<Event>, k: nat, p: Process, c: CallId)
    requires k < |es| && es[k] == StartList(p, c) && c !in Run(es[..k]).used
    requires Orphan(Run(es[..k])) && GranterGone(Run(es[..k]))
    requires forall j | k <= j < |es| :: p !in Run(es[..j]).inFlight
    ensures Retiring(Run(es), c, p)
    ensures c in Run(es).outcomes && Run(es).outcomes[c] == Listed ==> !Orphan(Run(es))
  {
    var rest, last := es[..|es| - 1], es[|es| - 1];
    InvHolds(rest);
    OutcomesHold(rest);
    if k == |rest| {
      assert rest == es[..k];
      ListingStarts(Run(rest), p, c);
    } else {
      assert rest[..k] == es[..k] && rest[k] == es[k];
      assert forall j | k <= j < |rest| :: rest[..j] == es[..j];
      ListingRetiresOrphans(rest, k, p, c);
      assert es[..|rest|] == rest;
      StepRetires(Run(rest), last, c, p);
    }
  }

  // ----- the owner call as it runs -----

  /** The shared tables, as far as this approval goes. */
  class Registry {
    var row: Row
    var record: Option<Record>
    var merges: nat

    ghost predicate Shows(s: State)
      reads this
    {
      row == s.row && record == s.record && merges == s.merges
    }

    constructor ()
      ensures Shows(INITIAL)
    {
      row, record, merges := Row(Requested, None), None, 0;
    }

    method Write(read: Row, next: Row) returns (ok: bool)
      modifies this`row
      ensures ok <==> !Terminal(read.state) && old(row) == read
      ensures row == if ok then next else old(row)
    {
      if Terminal(read.state) || row != read { return false; }
      row := next;
      return true;
    }

    method InsertRecord(c: CallId) returns (ok: bool)
      modifies this`record
      ensures ok <==> old(record).None?
      ensures record == if ok then Some(Record(c, Applying)) else old(record)
    {
      if record.Some? { return false; }
      record := Some(Record(c, Applying));
      return true;
    }
  }

  /** Which steps of one call work; each may fail by itself. */
  datatype Fate = Fate(
    readRecord: bool, inspect: bool, grantRead: bool, grantWrite: bool, grantAudit: bool,
    authorize: bool, insert: bool, announce: bool, consume: bool, settle: bool,
    recover: bool, rejectRead: bool, rejectWrite: bool)

  // How far a call gets that nothing interrupts, by what it finds and which of its steps work.

  /** Nothing is recorded, and both reads work. */
  predicate Finds(record: Option<Record>, fate: Fate) {
    record.None? && fate.readRecord && fate.inspect
  }

  /** A requested approval is granted. */
  predicate Grants(row: Row, record: Option<Record>, fate: Fate) {
    Finds(record, fate) && row.state == Requested && fate.grantRead && fate.grantWrite
  }

  /** An intent is recorded. */
  predicate Intends(row: Row, record: Option<Record>, fate: Fate) {
    Grants(row, record, fate) && fate.grantAudit && fate.authorize && fate.insert
  }

  /** The approval is spent, and the merge starts. */
  predicate Spends(row: Row, record: Option<Record>, fate: Fate) {
    Intends(row, record, fate) && fate.announce && fate.consume
  }

  /** A grant is withdrawn: one this call made and could not use, or one an earlier call left. */
  predicate Withdraws(row: Row, record: Option<Record>, fate: Fate) {
    && fate.rejectRead && fate.rejectWrite
    && (|| (Finds(record, fate) && row.state == Approved)
        || (Grants(row, record, fate) && fate.grantAudit && !(fate.authorize && fate.insert) && fate.recover))
  }

  /** The calling process advances its call, one step at a time. */
  function Drive(s: State, c: CallId, oks: seq<bool>): State {
    if oks == [] then s else Step(Drive(s, c, oks[..|oks| - 1]), Advance(c, oks[|oks| - 1]))
  }

  lemma DriveOneMore(s: State, c: CallId, oks: seq<bool>, ok: bool)
    ensures Drive(s, c, oks + [ok]) == Step(Drive(s, c, oks), Advance(c, ok))
  {
    assert (oks + [ok])[..|oks|] == oks;
  }

  lemma {:induction false} DriveAppends(s: State, c: CallId, a: seq<bool>, b: seq<bool>)
    ensures Drive(s, c, a + b) == Drive(Drive(s, c, a), c, b)
  {
    if b == [] {
      assert a + b == a;
    } else {
      var rest, last := b[..|b| - 1], b[|b| - 1];
      DriveAppends(s, c, a, rest);
      AppendLast(a, b);
      DriveOneMore(s, c, a + rest, last);
    }
  }

  function AllWork(n: nat): seq<bool> {
    if n == 0 then [] else AllWork(n - 1) + [true]
  }

  lemma OneMoreWorks(s: State, c: CallId, n: nat)
    ensures Drive(s, c, AllWork(n + 1)) == Step(Drive(s, c, AllWork(n)), Advance(c, true))
  {
    DriveOneMore(s, c, AllWork(n), true);
  }

  predicate WithdrawsAtListing(s: State, c: CallId)
    requires c in s.calls
  {
    s.row.state == Approved && s.record.None? && s.calls[c].process !in s.inFlight
  }

  /** The registry and the call after some steps that left the rest of the state alone. */
  predicate Comes(s: State, t: State, row: Row, c: CallId, pc: Pc) {
    && t.row == row && t.record == s.record && t.merges == s.merges && t.inFlight == s.inFlight
    && c in s.calls && c in t.calls && t.calls[c] == s.calls[c].(pc := pc)
  }

  lemma LooksAtRecord(s: State, c: CallId)
    requires Stands(s, c, ListRecords)
    ensures Comes(s, Step(s, Advance(c, true)), s.row, c, ListApproval(s.record.Some?))
  {
  }

  lemma LooksAtApproval(s: State, c: CallId, started: bool)
    requires Stands(s, c, ListApproval(started))
    ensures Comes(s, Step(s, Advance(c, true)), s.row, c, ListCheck(started, s.row))
  {
  }

  lemma Checks(s: State, c: CallId)
    requires Stands(s, c, ListCheck(s.record.Some?, s.row))
    ensures Comes(s, Step(s, Advance(c, true)), s.row, c, if WithdrawsAtListing(s, c) then ListRejectRead else ListAgain)
  {
  }

  lemma ReadsToWithdraw(s: State, c: CallId)
    requires Stands(s, c, ListRejectRead) && s.row.state == Approved
    ensures Comes(s, Step(s, Advance(c, true)), s.row, c, ListRejectWrite(s.row))
  {
  }

  lemma WritesWithdrawal(s: State, c: CallId)
    requires Stands(s, c, ListRejectWrite(s.row)) && s.row.state == Approved
    ensures Comes(s, Step(s, Advance(c, true)), Row(Rejected, None), c, ListRejectAudit)
  {
  }

  lemma AuditsWithdrawal(s: State, c: CallId)
    requires Stands(s, c, ListRejectAudit)
    ensures Comes(s, Step(s, Advance(c, true)), s.row, c, ListAgain)
  {
  }

  lemma ListsAgain(s: State, c: CallId)
    requires Stands(s, c, ListAgain)
    ensures var t := Step(s, Advance(c, true));
            Ended(t, c, Listed) && t.row == s.row && t.record == s.record && t.merges == s.merges
  {
  }

  lemma ListingLooks(s: State, c: CallId)
    requires Stands(s, c, ListRecords)
    ensures Comes(s, Drive(s, c, AllWork(3)), s.row, c, if WithdrawsAtListing(s, c) then ListRejectRead else ListAgain)
  {
    assert Drive(s, c, AllWork(0)) == s;
    OneMoreWorks(s, c, 0);
    LooksAtRecord(s, c);
    OneMoreWorks(s, c, 1);
    LooksAtApproval(Drive(s, c, AllWork(1)), c, s.record.Some?);
    OneMoreWorks(s, c, 2);
    Checks(Drive(s, c, AllWork(2)), c);
  }

  lemma ListingWithdraws(s: State, c: CallId)
    requires Stands(s, c, ListRecords) && WithdrawsAtListing(s, c)
    ensures Comes(s, Drive(s, c, AllWork(6)), Row(Rejected, None), c, ListAgain)
  {
    ListingLooks(s, c);
    OneMoreWorks(s, c, 3);
    ReadsToWithdraw(Drive(s, c, AllWork(3)), c);
    OneMoreWorks(s, c, 4);
    WritesWithdrawal(Drive(s, c, AllWork(4)), c);
    OneMoreWorks(s, c, 5);
    AuditsWithdrawal(Drive(s, c, AllWork(5)), c);
  }

  /**
   A listing that nothing interrupts and whose steps work is answered, and withdraws an approval
   without a record exactly where no owner call of its own process is under way.
   */
  lemma ListingAnswers(s: State, c: CallId)
    requires Stands(s, c, ListRecords)
    ensures var withdraws := s.row.state == Approved && s.record.None? && s.calls[c].process !in s.inFlight;
            var t := Drive(s, c, AllWork(if withdraws then 7 else 4));
            && Ended(t, c, Listed)
            && t.row == (if withdraws then Row(Rejected, None) else s.row)
            && t.record == s.record && t.merges == s.merges
  {
    if WithdrawsAtListing(s, c) {
      ListingWithdraws(s, c);
      OneMoreWorks(s, c, 6);
      ListsAgain(Drive(s, c, AllWork(6)), c);
    } else {
      ListingLooks(s, c);
      OneMoreWorks(s, c, 3);
      ListsAgain(Drive(s, c, AllWork(3)), c);
    }
  }

  /** A call with the step it stands at; `Ended` is what it answered. */
  predicate Stands(s: State, c: CallId, pc: Pc) {
    c in s.calls && s.calls[c].pc == pc
  }

  predicate Ended(s: State, c: CallId, o: Outcome) {
    c !in s.calls && c in s.outcomes && s.outcomes[c] == o
  }

  lemma AuthorizeMoves(s: State, c: CallId, ok: bool)
    requires Stands(s, c, Authorize)
    ensures var t := Step(s, Advance(c, ok));
            && t.row == s.row && t.record == s.record && t.merges == s.merges
            && Stands(t, c, if ok && s.row.state == Approved && s.row.token == Some(c) then InsertIntent(s.row) else Recover)
  {
  }

  lemma AuthorizeDriven(s: State, c: CallId, ok: bool)
    requires Stands(s, c, Authorize)
    ensures var t := Drive(s, c, [ok]);
            && t.row == s.row && t.record == s.record && t.merges == s.merges
            && Stands(t, c, if ok && s.row.state == Approved && s.row.token == Some(c) then InsertIntent(s.row) else Recover)
  {
    assert Drive(s, c, []) == s && [] + [ok] == [ok];
    DriveOneMore(s, c, [], ok);
    AuthorizeMoves(s, c, ok);
  }

  lemma InsertDriven(s: State, c: CallId, oks: seq<bool>, read: Row, ok: bool)
    requires Stands(Drive(s, c, oks), c, InsertIntent(read))
    ensures var t, u := Drive(s, c, oks), Drive(s, c, oks + [ok]);
            && u.row == t.row && u.merges == t.merges
            && (if ok && t.record.None? then u.record == Some(Record(c, Applying)) && Stands(u, c, Announce(read))
                else u.record == t.record && Stands(u, c, Recover))
  {
    DriveOneMore(s, c, oks, ok);
    InsertMoves(Drive(s, c, oks), c, read, ok);
  }

  lemma InsertMoves(s: State, c: CallId, read: Row, ok: bool)
    requires Stands(s, c, InsertIntent(read))
    ensures var t := Step(s, Advance(c, ok));
            && t.row == s.row && t.merges == s.merges
            && (if ok && s.record.None? then t.record == Some(Record(c, Applying)) && Stands(t, c, Announce(read))
                else t.record == s.record && Stands(t, c, Recover))
  {
  }

  predicate Tries(row: Row, record: Option<Record>, c: CallId, fate: Fate) {
    row == Row(Approved, Some(c)) && record.None? && fate.authorize && fate.insert
  }

  class Service {
    const registry: Registry
    var inFlight: bool

    constructor (registry: Registry)
      ensures this.registry == registry && !inFlight
    {
      this.registry, inFlight := registry, false;
    }

    /** The two reads; without an answer the call goes on to grant, or to withdraw an orphan. */
    method LookUp(c: CallId, fate: Fate, ghost s: State) returns (o: Option<Outcome>, orphan: bool, ghost oks: seq<bool>)
      requires registry.Shows(s) && Stands(s, c, ReadRecord)
      ensures registry.Shows(Drive(s, c, oks))
      ensures match o
        case Some(answer) => Ended(Drive(s, c, oks), c, answer)
        case None => Stands(Drive(s, c, oks), c, if orphan then RejectRead else GrantRead)
      ensures o.None? <==> Finds(registry.record, fate)
      ensures o.Some? ==>
        o.value == if fate.readRecord && registry.record.Some? then Replayed(registry.record.value.id) else Threw
      ensures orphan <==> o.None? && registry.row.state == Approved
    {
      oks, orphan := [fate.readRecord], false;
      assert Drive(s, c, []) == s;
      DriveOneMore(s, c, [], fate.readRecord);
      if !fate.readRecord { return Some(Threw), orphan, oks; }
      if registry.record.Some? { return Some(Replayed(registry.record.value.id)), orphan, oks; }
      DriveOneMore(s, c, oks, fate.inspect);
      oks := oks + [fate.inspect];
      if !fate.inspect { return Some(Threw), orphan, oks; }
      return None, registry.row.state == Approved, oks;
    }

    /** The grant, its audit entry and its ledger line. */
    method IssueAndAudit(c: CallId, fate: Fate, ghost s: State) returns (ok: bool, ghost oks: seq<bool>)
      requires registry.Shows(s) && Stands(s, c, GrantRead)
      modifies registry
      ensures registry.Shows(Drive(s, c, oks))
      ensures if ok then Stands(Drive(s, c, oks), c, Authorize) else Ended(Drive(s, c, oks), c, Threw)
      ensures var granted := old(registry.row.state) == Requested && fate.grantRead && fate.grantWrite;
              && (ok <==> granted && fate.grantAudit)
              && registry.row == (if granted then Row(Approved, Some(c)) else old(registry.row))
              && registry.record == old(registry.record) && registry.merges == old(registry.merges)
    {
      ok, oks := Issue(c, fate, s);
      if !ok { return; }
      DriveOneMore(s, c, oks, fate.grantAudit);
      oks := oks + [fate.grantAudit];
      ok := fate.grantAudit;
    }

    /** The grant itself: only a requested approval can be granted, and only once. */
    method Issue(c: CallId, fate: Fate, ghost s: State) returns (ok: bool, ghost oks: seq<bool>)
      requires registry.Shows(s) && Stands(s, c, GrantRead)
      modifies registry
      ensures registry.Shows(Drive(s, c, oks))
      ensures if ok then Stands(Drive(s, c, oks), c, GrantAudit) else Ended(Drive(s, c, oks), c, Threw)
      ensures ok <==> old(registry.row.state) == Requested && fate.grantRead && fate.grantWrite
      ensures registry.row == if ok then Row(Approved, Some(c)) else old(registry.row)
      ensures registry.record == old(registry.record) && registry.merges == old(registry.merges)
    {
      oks := [fate.grantRead];
      assert Drive(s, c, []) == s;
      DriveOneMore(s, c, [], fate.grantRead);
      var read := registry.row;
      if !fate.grantRead || read.state != Requested { return false, oks; }
      DriveOneMore(s, c, oks, fate.grantWrite);
      oks := oks + [fate.grantWrite];
      if !fate.grantWrite { return false, oks; }
      ok := registry.Write(read, Row(Approved, Some(c)));
    }

    /** The reads and the grant; `None` means the `try` is entered, or an orphan is to be withdrawn. */
    method Grant(c: CallId, fate: Fate, ghost s: State) returns (o: Option<Outcome>, orphan: bool, ghost oks: seq<bool>)
      requires registry.Shows(s) && Stands(s, c, ReadRecord)
      modifies registry
      ensures registry.Shows(Drive(s, c, oks))
      ensures match o
        case Some(answer) => Ended(Drive(s, c, oks), c, answer)
        case None => Stands(Drive(s, c, oks), c, if orphan then RejectRead else Authorize)
      ensures var granted := Grants(old(registry.row), old(registry.record), fate);
              && (o.None? && !orphan <==> granted && fate.grantAudit)
              && registry.row == (if granted then Row(Approved, Some(c)) else old(registry.row))
              && registry.record == old(registry.record) && registry.merges == old(registry.merges)
      ensures o.None? && orphan <==> Finds(old(registry.record), fate) && old(registry.row.state) == Approved
      ensures o.Some? ==>
        o.value == if fate.readRecord && registry.record.Some? then Replayed(registry.record.value.id) else Threw
    {
      o, orphan, oks := LookUp(c, fate, s);
      if o.Some? || orphan { return; }
      ghost var more;
      var ok;
      ok, more := IssueAndAudit(c, fate, Drive(s, c, oks));
      DriveAppends(s, c, oks, more);
      oks := oks + more;
      if !ok { o := Some(Threw); }
    }

    /** The checks and the intent record; without it the `catch` is entered. */
    method RecordIntent(c: CallId, fate: Fate, ghost s: State) returns (read: Row, ok: bool, ghost oks: seq<bool>)
      requires registry.Shows(s) && Stands(s, c, Authorize)
      modifies registry
      ensures registry.Shows(Drive(s, c, oks))
      ensures Stands(Drive(s, c, oks), c, if ok then Announce(read) else Recover)
      ensures ok <==> old(registry.row) == Row(Approved, Some(c)) && old(registry.record).None? && fate.authorize && fate.insert
      ensures read == registry.row == old(registry.row) && registry.merges == old(registry.merges)
      ensures registry.record == if ok then Some(Record(c, Applying)) else old(registry.record)
    {
      oks, ok := [fate.authorize], false;
      AuthorizeDriven(s, c, fate.authorize);
      read := registry.row;
      if !fate.authorize || read.state != Approved || read.token != Some(c) { return; }
      InsertDriven(s, c, oks, read, fate.insert);
      oks := oks + [fate.insert];
      if !fate.insert { return; }
      ok := registry.InsertRecord(c);
    }

    /** The intent and its event; only after both is the approval spent. */
    method RecordAndAnnounce(c: CallId, fate: Fate, ghost s: State) returns (read: Row, ok: bool, ghost oks: seq<bool>)
      requires registry.Shows(s) && Stands(s, c, Authorize)
      modifies registry
      ensures registry.Shows(Drive(s, c, oks))
      ensures Stands(Drive(s, c, oks), c, if ok then Consume(read) else Recover)
      ensures read == registry.row == old(registry.row) && registry.merges == old(registry.merges)
      ensures var intended := old(registry.row) == Row(Approved, Some(c)) && old(registry.record).None? && fate.authorize && fate.insert;
              && (ok <==> intended && fate.announce)
              && registry.record == if intended then Some(Record(c, Applying)) else old(registry.record)
    {
      read, ok, oks := RecordIntent(c, fate, s);
      if !ok { return; }
      DriveOneMore(s, c, oks, fate.announce);
      oks := oks + [fate.announce];
      ok := fate.announce;
    }

    /** Spending the approval; a lost compare-and-set settles the intent as rolled back. */
    method Spend(c: CallId, read: Row, fate: Fate, ghost s: State) returns (ok: bool, ghost oks: seq<bool>)
      requires registry.Shows(s) && Stands(s, c, Consume(read))
      modifies registry
      ensures registry.Shows(Drive(s, c, oks))
      ensures Stands(Drive(s, c, oks), c, if ok then StartMerge else Recover)
      ensures ok <==> fate.consume && !Terminal(read.state) && old(registry.row) == read
      ensures registry.row == (if ok then Row(Consumed, None) else old(registry.row)) && registry.merges == old(registry.merges)
      ensures registry.record == if ok then old(registry.record) else Some(Record(c, RolledBack))
    {
      oks, ok := [fate.consume], false;
      assert Drive(s, c, []) == s;
      DriveOneMore(s, c, [], fate.consume);
      if fate.consume { ok := registry.Write(read, Row(Consumed, None)); }
      if !ok { registry.record := Some(Record(c, RolledBack)); }
    }

    /** The one merge. */
    method RunMerge(c: CallId, ghost s: State) returns (ghost oks: seq<bool>)
      requires registry.Shows(s) && Stands(s, c, StartMerge)
      modifies registry
      ensures registry.Shows(Drive(s, c, oks)) && Stands(Drive(s, c, oks), c, SettleMerge)
      ensures registry.merges == old(registry.merges) + 1
      ensures registry.row == old(registry.row) && registry.record == old(registry.record)
    {
      oks := [true];
      assert Drive(s, c, []) == s;
      DriveOneMore(s, c, [], true);
      registry.merges := registry.merges + 1;
    }

    /** The one merge, and its settlement. */
    method Merge(c: CallId, fate: Fate, ghost s: State) returns (ok: bool, ghost oks: seq<bool>)
      requires registry.Shows(s) && Stands(s, c, StartMerge)
      modifies registry
      ensures registry.Shows(Drive(s, c, oks))
      ensures if ok then Ended(Drive(s, c, oks), c, Promoted(c)) else Stands(Drive(s, c, oks), c, Recover)
      ensures ok <==> fate.settle
      ensures registry.merges == old(registry.merges) + 1
      ensures registry.row == old(registry.row) && registry.record == old(registry.record)
    {
      oks := RunMerge(c, s);
      DriveOneMore(s, c, oks, fate.settle);
      oks := oks + [fate.settle];
      ok := fate.settle;
    }

    /** What the `try` leaves: an intent where it got that far, spent if its event and the write worked. */
    predicate TryLeaves(row: Row, record: Option<Record>, merges: nat, c: CallId, fate: Fate)
      reads this, registry
    {
      var intends := Tries(row, record, c, fate);
      var spends := intends && fate.announce && fate.consume;
      && registry.row == (if spends then Row(Consumed, None) else row)
      && registry.record == (if intends then Some(Record(c, if fate.announce && !fate.consume then RolledBack else Applying)) else record)
      && registry.merges == merges + if spends then 1 else 0
    }

    /** The body of the `try`. */
    method Promote(c: CallId, fate: Fate, ghost s: State) returns (o: Option<Outcome>, ghost oks: seq<bool>)
      requires registry.Shows(s) && Stands(s, c, Authorize)
      modifies registry
      ensures registry.Shows(Drive(s, c, oks))
      ensures match o
        case Some(answer) => Ended(Drive(s, c, oks), c, answer)
        case None => Stands(Drive(s, c, oks), c, Recover)
      ensures o == if Tries(old(registry.row), old(registry.record), c, fate) && fate.announce && fate.consume && fate.settle
                   then Some(Promoted(c)) else None
      ensures TryLeaves(old(registry.row), old(registry.record), old(registry.merges), c, fate)
    {
      var read, ok;
      read, ok, oks := RecordAndAnnounce(c, fate, s);
      if !ok { return None, oks; }
      ghost var more;
      ok, more := Spend(c, read, fate, Drive(s, c, oks));
      DriveAppends(s, c, oks, more);
      oks := oks + more;
      if !ok { return None, oks; }
      ok, more := Merge(c, fate, Drive(s, c, oks));
      DriveAppends(s, c, oks, more);
      oks := oks + more;
      return if ok then Some(Promoted(c)) else None, oks;
    }

    /** Withdraws the grant; the call throws whatever comes of it. */
    method Reject(c: CallId, fate: Fate, ghost s: State) returns (ghost oks: seq<bool>)
      requires registry.Shows(s) && Stands(s, c, RejectRead)
      modifies registry
      ensures registry.Shows(Drive(s, c, oks)) && Ended(Drive(s, c, oks), c, Threw)
      ensures registry.row ==
        if fate.rejectRead && fate.rejectWrite && !Terminal(old(registry.row.state)) then Row(Rejected, None) else old(registry.row)
      ensures registry.record == old(registry.record) && registry.merges == old(registry.merges)
    {
      oks := [fate.rejectRead];
      assert Drive(s, c, []) == s;
      DriveOneMore(s, c, [], fate.rejectRead);
      var read := registry.row;
      if !fate.rejectRead || Terminal(read.state) { return; }
      DriveOneMore(s, c, oks, fate.rejectWrite);
      oks := oks + [fate.rejectWrite];
      if !fate.rejectWrite { return; }
      var ok := registry.Write(read, Row(Rejected, None));
    }

    /** The `try` and, where it is entered, the `catch` up to its check; `None` means the grant is to be withdrawn. */
    method PromoteOrRecover(c: CallId, fate: Fate, ghost s: State) returns (o: Option<Outcome>, ghost oks: seq<bool>)
      requires registry.Shows(s) && Stands(s, c, Authorize)
      modifies registry
      ensures registry.Shows(Drive(s, c, oks))
      ensures match o
        case Some(answer) => Ended(Drive(s, c, oks), c, answer)
        case None => Stands(Drive(s, c, oks), c, RejectRead)
      ensures o.None? ==> fate.recover && registry.record.None?
      ensures o.Some? ==>
        o.value == if Tries(old(registry.row), old(registry.record), c, fate) && fate.announce && fate.consume && fate.settle
                   then Promoted(c) else Threw
      ensures fate.recover && registry.record.None? ==> o.None?
      ensures TryLeaves(old(registry.row), old(registry.record), old(registry.merges), c, fate)
    {
      o, oks := Promote(c, fate, s);
      if o.Some? { return; }
      DriveOneMore(s, c, oks, fate.recover);
      oks := oks + [fate.recover];
      return if !fate.recover || registry.record.Some? then Some(Threw) else None, oks;
    }

    /**
     One owner call that nothing interrupts is a run of its own steps, from its start to its answer.

     It replays a record there is; it promotes exactly where it finds a requested approval without one
     and each of its steps works; otherwise it throws, and what it leaves depends on how far it got.
     */
    method ApproveAndPromote(c: CallId, fate: Fate, ghost s: State) returns (o: Outcome, ghost oks: seq<bool>)
      requires !inFlight && registry.Shows(s) && Stands(s, c, ReadRecord)
      modifies this, registry
      ensures !inFlight
      ensures registry.Shows(Drive(s, c, oks)) && Ended(Drive(s, c, oks), c, o)
      ensures var (row, record) := (old(registry.row), old(registry.record));
              && o == (if fate.readRecord && record.Some? then Replayed(record.value.id)
                       else if Spends(row, record, fate) && fate.settle then Promoted(c)
                       else Threw)
              && registry.merges == old(registry.merges) + (if Spends(row, record, fate) then 1 else 0)
              && registry.record == (if !Intends(row, record, fate) then record
                                     else Some(Record(c, if fate.announce && !fate.consume then RolledBack else Applying)))
              && registry.row == (if Spends(row, record, fate) then Row(Consumed, None)
                                  else if Withdraws(row, record, fate) then Row(Rejected, None)
                                  else if Grants(row, record, fate) then Row(Approved, Some(c))
                                  else row)
    {
      inFlight := true;
      var answer, orphan;
      answer, orphan, oks := Grant(c, fate, s);
      ghost var more: seq<bool>;
      if answer.None? && !orphan {
        answer, more := PromoteOrRecover(c, fate, Drive(s, c, oks));
        DriveAppends(s, c, oks, more);
        oks := oks + more;
      }
      if answer.None? {
        more := Reject(c, fate, Drive(s, c, oks));
        DriveAppends(s, c, oks, more);
        oks := oks + more;
        answer := Some(Threw);
      }
      inFlight := false;
      return answer.value, oks;
    }
  }
}
