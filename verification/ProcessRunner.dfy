/**
 The life of one subprocess: output chunks, a timeout, an abort, a child error, the close of the
 leader, the kill timer and the group probe arrive in any order, and the promise settles once.

 Each callback is one step over explicit state. `group` is what probing the process group reports at
 that moment, `now` the clock; a timer is its due time.
 */
module ProcessRunner {
  import opened Results
  import opened Collections
  import opened Utf8

  type Chunk = seq<Byte>

  const KILL_AFTER := 1_000
  const CLEANUP_WITHIN := 1_000
  const PROBE_EVERY := 25

  datatype Reason = TimedOut | Cancelled | OutputLimit

  datatype Outcome =
    | Resolved(exitCode: int, stdout: seq<Chunk>, stderr: seq<Chunk>, outputBytes: nat, reason: Option<Reason>)
    | ConsumerFailed
    | CleanupFailed
    | ChildFailed

  /** `hasConsumer`: standard output is handed on instead of kept. */
  datatype Request = Request(outputLimit: nat, hasConsumer: bool)

  /** `consumerError` is the last value the consumer threw, as far as the code looks: whether it is truthy. */
  datatype State = State(
    settled: Option<Outcome>,
    leaderClosed: bool,
    closeCode: int,
    reason: Option<Reason>,
    forceDue: Option<int>,
    probeDue: Option<int>,
    cleanupDeadline: int,
    stdout: seq<Chunk>,
    stderr: seq<Chunk>,
    outputBytes: nat,
    capturedBytes: nat,
    consumerError: Option<bool>,
    signals: seq<Signal>)

  datatype Signal = Term | Kill

  datatype Kind =
    | Stdout(chunk: Chunk, thrown: Option<bool>)
    | Stderr(chunk: Chunk)
    | Timeout
    | Abort
    | Error(hasPid: bool)
    | Close(code: Option<int>)
    | Force
    | Probe

  datatype Event = Event(now: int, group: bool, kind: Kind)

  const INITIAL := State(None, false, 1, None, None, None, 0, [], [], 0, 0, None, [])

  // ----- the callbacks -----

  function Settle(s: State, o: Outcome): State {
    s.(settled := Some(o), forceDue := None, probeDue := None)
  }

  function SettleClosed(s: State, group: bool): State {
    if s.settled.Some? || !s.leaderClosed then s
    else if s.reason.Some? && group then s
    else if s.consumerError == Some(true) then Settle(s, ConsumerFailed)
    else Settle(s, Resolved(s.closeCode, s.stdout, s.stderr, s.outputBytes, s.reason))
  }

  function ProbeGroup(s: State, now: int, group: bool): State {
    var t := s.(probeDue := None);
    if t.settled.Some? || !t.leaderClosed || t.reason.None? then t
    else if !group then SettleClosed(t, group)
    else if t.forceDue.None? && t.cleanupDeadline > 0 && now >= t.cleanupDeadline then Settle(t, CleanupFailed)
    else t.(probeDue := Some(now + PROBE_EVERY))
  }

  function Terminate(s: State, reason: Reason, now: int): State {
    if s.reason.Some? then s
    else s.(reason := Some(reason), signals := s.signals + [Term], forceDue := Some(now + KILL_AFTER))
  }

  function Capture(rq: Request, s: State, chunk: Chunk, toStdout: bool, now: int): State {
    var t := s.(capturedBytes := s.capturedBytes + |chunk|);
    var u :=
      if t.capturedBytes > rq.outputLimit then t
      else if toStdout then t.(stdout := t.stdout + [chunk])
      else t.(stderr := t.stderr + [chunk]);
    if u.capturedBytes > rq.outputLimit then Terminate(u, OutputLimit, now) else u
  }

  function Consume(rq: Request, s: State, e: Event): State
    requires e.kind.Stdout? || e.kind.Stderr?
  {
    var t := s.(outputBytes := s.outputBytes + |e.kind.chunk|);
    if e.kind.Stdout? && rq.hasConsumer then
      if e.kind.thrown.None? then t
      else Terminate(t.(consumerError := e.kind.thrown), Cancelled, e.now)
    else Capture(rq, t, e.kind.chunk, e.kind.Stdout?, e.now)
  }

  function Step(rq: Request, s: State, e: Event): State {
    match e.kind
    case Stdout(_, _) => Consume(rq, s, e)
    case Stderr(_) => Consume(rq, s, e)
    case Timeout => Terminate(s, TimedOut, e.now)
    case Abort => Terminate(s, Cancelled, e.now)
    case Error(hasPid) =>
      if s.settled.Some? then s
      else if s.reason.Some? && hasPid then
        var t := s.(leaderClosed := true, closeCode := 1);
        if t.probeDue.None? then ProbeGroup(t, e.now, e.group) else t
      else Settle(s, ChildFailed)
    case Close(code) =>
      if s.settled.Some? then s
      else
        var t := SettleClosed(s.(leaderClosed := true, closeCode := code.GetOr(1)), e.group);
        if t.settled.None? && t.reason.Some? && t.probeDue.None? then ProbeGroup(t, e.now, e.group) else t
    case Force =>
      var t := s.(forceDue := None, cleanupDeadline := e.now + CLEANUP_WITHIN, signals := s.signals + [Kill]);
      if t.leaderClosed && t.probeDue.None? then ProbeGroup(t, e.now, e.group) else t
    case Probe => ProbeGroup(s, e.now, e.group)
  }

  /** Which callbacks can come next: timers only when live and due, and nothing after it was removed. */
  predicate Enabled(s: State, e: Event) {
    match e.kind
    case Timeout => s.settled.None?
    case Abort => s.settled.None?
    case Force => s.forceDue.Some? && s.forceDue.value <= e.now
    case Probe => s.probeDue.Some? && s.probeDue.value <= e.now
    case _ => true
  }

  function Run(rq: Request, es: seq<Event>): State {
    if es == [] then INITIAL else Step(rq, Run(rq, es[..|es| - 1]), es[|es| - 1])
  }

  /** Time does not go back, and a group that has vanished stays gone. */
  ghost predicate IsRun(rq: Request, es: seq<Event>) {
    es == []
    || (var rest, last := es[..|es| - 1], es[|es| - 1];
        && IsRun(rq, rest)
        && 0 <= last.now
        && (rest != [] ==> rest[|rest| - 1].now <= last.now && (last.group ==> rest[|rest| - 1].group))
        && Enabled(Run(rq, rest), last))
  }

  // ----- the callbacks as they run -----

  /** The closure of one `runProcess` call. A timer that is not armed is `None`. */
  class Runner {
    const request: Request
    var settled: Option<Outcome>
    var leaderClosed: bool
    var closeCode: int
    var terminationReason: Option<Reason>
    var forceTimer: Option<int>
    var groupProbeTimer: Option<int>
    var cleanupDeadline: int
    var stdout: seq<Chunk>
    var stderr: seq<Chunk>
    var outputBytes: nat
    var capturedBytes: nat
    var consumerError: Option<bool>
    var signals: seq<Signal>

    ghost function Now(): State
      reads this
    {
      State(settled, leaderClosed, closeCode, terminationReason, forceTimer, groupProbeTimer, cleanupDeadline,
            stdout, stderr, outputBytes, capturedBytes, consumerError, signals)
    }

    constructor (request: Request)
      ensures this.request == request && Now() == INITIAL
    {
      this.request := request;
      settled, leaderClosed, closeCode, terminationReason := None, false, 1, None;
      forceTimer, groupProbeTimer, cleanupDeadline := None, None, 0;
      stdout, stderr, outputBytes, capturedBytes, consumerError, signals := [], [], 0, 0, None, [];
    }

    method SettleWith(o: Outcome)
      modifies this
      ensures Now() == Settle(old(Now()), o)
    {
      settled := Some(o);
      forceTimer, groupProbeTimer := None, None;
    }

    method OnSettleClosed(group: bool)
      modifies this
      ensures Now() == SettleClosed(old(Now()), group)
    {
      if settled.Some? || !leaderClosed { return; }
      if terminationReason.Some? && group { return; }
      if consumerError == Some(true) {
        SettleWith(ConsumerFailed);
        return;
      }
      SettleWith(Resolved(closeCode, stdout, stderr, outputBytes, terminationReason));
    }

    method OnProbe(now: int, group: bool)
      modifies this
      ensures Now() == ProbeGroup(old(Now()), now, group)
    {
      groupProbeTimer := None;
      if settled.Some? || !leaderClosed || terminationReason.None? { return; }
      if !group {
        OnSettleClosed(group);
        return;
      }
      if forceTimer.None? && cleanupDeadline > 0 && now >= cleanupDeadline {
        SettleWith(CleanupFailed);
        return;
      }
      groupProbeTimer := Some(now + PROBE_EVERY);
    }

    method OnTerminate(reason: Reason, now: int)
      modifies this
      ensures Now() == Terminate(old(Now()), reason, now)
    {
      if terminationReason.Some? { return; }
      terminationReason := Some(reason);
      signals := signals + [Term];
      forceTimer := Some(now + KILL_AFTER);
    }

    method OnForce(now: int, group: bool)
      modifies this
      ensures Now() == Step(request, old(Now()), Event(now, group, Force))
    {
      forceTimer := None;
      cleanupDeadline := now + CLEANUP_WITHIN;
      signals := signals + [Kill];
      if leaderClosed && groupProbeTimer.None? { OnProbe(now, group); }
    }

    method OnData(chunk: Chunk, isStdout: bool, thrown: Option<bool>, now: int, group: bool)
      modifies this
      ensures Now() == Step(request, old(Now()), Event(now, group, if isStdout then Stdout(chunk, thrown) else Stderr(chunk)))
    {
      outputBytes := outputBytes + |chunk|;
      if isStdout && request.hasConsumer {
        if thrown.Some? {
          consumerError := thrown;
          OnTerminate(Cancelled, now);
        }
        return;
      }
      Keep(chunk, isStdout, now);
    }

    /** A chunk that nobody consumes is kept while the limit lasts. */
    method Keep(chunk: Chunk, toStdout: bool, now: int)
      modifies this
      ensures Now() == Capture(request, old(Now()), chunk, toStdout, now)
    {
      capturedBytes := capturedBytes + |chunk|;
      if capturedBytes <= request.outputLimit {
        if toStdout { stdout := stdout + [chunk]; } else { stderr := stderr + [chunk]; }
      }
      if capturedBytes > request.outputLimit { OnTerminate(OutputLimit, now); }
    }

    method OnError(hasPid: bool, now: int, group: bool)
      modifies this
      ensures Now() == Step(request, old(Now()), Event(now, group, Error(hasPid)))
    {
      if settled.Some? { return; }
      if terminationReason.Some? && hasPid {
        leaderClosed, closeCode := true, 1;
        if groupProbeTimer.None? { OnProbe(now, group); }
        return;
      }
      SettleWith(ChildFailed);
    }

    method OnClose(code: Option<int>, now: int, group: bool)
      modifies this
      ensures Now() == Step(request, old(Now()), Event(now, group, Close(code)))
    {
      if settled.Some? { return; }
      leaderClosed, closeCode := true, code.GetOr(1);
      OnSettleClosed(group);
      if settled.None? && terminationReason.Some? && groupProbeTimer.None? { OnProbe(now, group); }
    }
  }

  // ----- never stuck, settled once -----

  /** Every reachable state: once the leader is gone and nothing is settled, a probe is on its way. */
  predicate Inv(s: State) {
    && (s.settled.None? && s.leaderClosed ==> s.reason.Some? && s.probeDue.Some?)
    && (s.reason.None? ==> s.forceDue.None? && s.cleanupDeadline == 0 && s.signals == [])
    && (s.settled.None? && s.reason.Some? && s.forceDue.None? ==> s.cleanupDeadline > 0)
    && (s.probeDue.Some? ==> s.settled.None? && s.leaderClosed)
    && (s.reason.Some? ==> s.signals == [Term] || (s.forceDue.None? && s.signals == [Term, Kill]))
    && (s.forceDue.Some? ==> s.reason.Some?)
  }

  lemma TerminateKeepsInv(s: State, reason: Reason, now: int)
    requires Inv(s)
    ensures Inv(Terminate(s, reason, now))
  {
  }

  /** Probing repairs the one clause the two ends of the leader break. */
  lemma ProbeRestoresInv(s: State, now: int, group: bool)
    requires Inv(s.(leaderClosed := false, probeDue := None)) && s.reason.Some? && 0 <= now
    ensures Inv(ProbeGroup(s, now, group))
  {
  }

  lemma DataKeepsInv(rq: Request, s: State, e: Event)
    requires Inv(s) && (e.kind.Stdout? || e.kind.Stderr?)
    ensures Inv(Consume(rq, s, e))
  {
    TerminateKeepsInv(s, OutputLimit, e.now);
  }

  lemma ErrorKeepsInv(rq: Request, s: State, e: Event)
    requires Inv(s) && e.kind.Error? && 0 <= e.now
    ensures Inv(Step(rq, s, e))
  {
    if s.reason.Some? { ProbeRestoresInv(s.(leaderClosed := true, closeCode := 1), e.now, e.group); }
  }

  lemma CloseKeepsInv(rq: Request, s: State, e: Event)
    requires Inv(s) && e.kind.Close? && 0 <= e.now
    ensures Inv(Step(rq, s, e))
  {
    if s.reason.Some? {
      ProbeRestoresInv(s.(leaderClosed := true, closeCode := e.kind.code.GetOr(1)), e.now, e.group);
    }
  }

  lemma ForceKeepsInv(rq: Request, s: State, e: Event)
    requires Inv(s) && e.kind.Force? && Enabled(s, e) && 0 <= e.now
    ensures Inv(Step(rq, s, e))
  {
    var t := s.(forceDue := None, cleanupDeadline := e.now + CLEANUP_WITHIN, signals := s.signals + [Kill]);
    if t.settled.None? { ProbeRestoresInv(t, e.now, e.group); }
  }

  lemma StepKeepsInv(rq: Request, s: State, e: Event)
    requires Inv(s) && Enabled(s, e) && 0 <= e.now
    ensures Inv(Step(rq, s, e))
  {
    match e.kind
    case Stdout(_, _) => DataKeepsInv(rq, s, e);
    case Stderr(_) => DataKeepsInv(rq, s, e);
    case Timeout => TerminateKeepsInv(s, TimedOut, e.now);
    case Abort => TerminateKeepsInv(s, Cancelled, e.now);
    case Error(_) => ErrorKeepsInv(rq, s, e);
    case Close(_) => CloseKeepsInv(rq, s, e);
    case Force => ForceKeepsInv(rq, s, e);
    case Probe => if s.reason.Some? { ProbeRestoresInv(s, e.now, e.group); }
  }

  lemma {:induction false} NeverStuck(rq: Request, es: seq<Event>)
    requires IsRun(rq, es)
    ensures Inv(Run(rq, es))
  {
    if es != [] {
      NeverStuck(rq, es[..|es| - 1]);
      StepKeepsInv(rq, Run(rq, es[..|es| - 1]), es[|es| - 1]);
    }
  }

  lemma {:induction false} PrefixIsRun(rq: Request, es: seq<Event>, k: nat)
    requires IsRun(rq, es) && k <= |es|
    ensures IsRun(rq, es[..k])
  {
    if k < |es| {
      PrefixIsRun(rq, es[..|es| - 1], k);
      assert es[..|es| - 1][..k] == es[..k];
    } else {
      assert es[..k] == es;
    }
  }

  lemma StaysSettled(rq: Request, s: State, e: Event)
    ensures s.settled.Some? ==> Step(rq, s, e).settled == s.settled
  {
  }

  /** The outcome is never replaced. */
  lemma {:induction false} SettlesOnce(rq: Request, es: seq<Event>, k: nat)
    requires k <= |es| && Run(rq, es[..k]).settled.Some?
    ensures Run(rq, es).settled == Run(rq, es[..k]).settled
  {
    if k < |es| {
      assert es[..|es| - 1][..k] == es[..k];
      SettlesOnce(rq, es[..|es| - 1], k);
      StaysSettled(rq, Run(rq, es[..|es| - 1]), es[|es| - 1]);
    } else {
      assert es[..k] == es;
    }
  }

  /** The one event that settled a run. */
  lemma {:induction false} SettlingEvent(rq: Request, es: seq<Event>) returns (k: nat)
    requires IsRun(rq, es) && Run(rq, es).settled.Some?
    ensures k < |es| && IsRun(rq, es[..k]) && Run(rq, es[..k]).settled.None?
    ensures Step(rq, Run(rq, es[..k]), es[k]).settled == Run(rq, es).settled
    ensures es[|es| - 1].group ==> es[k].group
  {
    var rest, last := es[..|es| - 1], es[|es| - 1];
    if Run(rq, rest).settled.None? {
      k := |rest|;
    } else {
      k := SettlingEvent(rq, rest);
      assert rest[..k] == es[..k];
      StaysSettled(rq, Run(rq, rest), last);
    }
  }

  /** What the event that settles a run can make of it. */
  lemma SettlesAs(rq: Request, s: State, e: Event)
    requires Inv(s) && s.settled.None? && Step(rq, s, e).settled.Some?
    ensures match Step(rq, s, e).settled.value
      case Resolved(code, out, err, bytes, reason) =>
        && out == s.stdout && err == s.stderr && bytes == s.outputBytes && reason == s.reason
        && s.consumerError != Some(true) && (reason.Some? ==> !e.group)
        && code == (if e.kind.Close? then e.kind.code.GetOr(1) else if e.kind.Error? then 1 else s.closeCode)
      case ConsumerFailed => s.consumerError == Some(true)
      case CleanupFailed => e.group && s.reason.Some? && 0 < s.cleanupDeadline <= e.now
      case ChildFailed => e.kind.Error? && (s.reason.Some? ==> !e.kind.hasPid)
  {
  }

  /** Resolved with a reason: the group was gone, and still is. */
  lemma ResolvedMeansGone(rq: Request, es: seq<Event>)
    requires IsRun(rq, es) && Run(rq, es).settled.Some?
    requires Run(rq, es).settled.value.Resolved? && Run(rq, es).settled.value.reason.Some?
    ensures !es[|es| - 1].group
  {
    var k := SettlingEvent(rq, es);
    NeverStuck(rq, es[..k]);
    SettlesAs(rq, Run(rq, es[..k]), es[k]);
  }

  // ----- bounded wait -----

  /** No callback runs while another one is overdue by more than `late`. */
  ghost predicate Punctual(rq: Request, es: seq<Event>, late: nat) {
    forall k | 0 <= k < |es| && Run(rq, es[..k]).settled.None? ::
      && (Run(rq, es[..k]).forceDue.Some? ==> es[k].now <= Run(rq, es[..k]).forceDue.value + late)
      && (Run(rq, es[..k]).probeDue.Some? ==> es[k].now <= Run(rq, es[..k]).probeDue.value + late)
  }

  /** When termination was decided. */
  function DecidedAt(rq: Request, es: seq<Event>): int
    requires Run(rq, es).reason.Some?
  {
    var rest := es[..|es| - 1];
    if Run(rq, rest).reason.Some? then DecidedAt(rq, rest) else es[|es| - 1].now
  }

  predicate Bounds(s: State, decided: int, now: int, late: nat) {
    && decided <= now
    && (s.forceDue.Some? ==> s.forceDue.value == decided + KILL_AFTER)
    && (s.forceDue.None? ==> s.cleanupDeadline <= decided + KILL_AFTER + late + CLEANUP_WITHIN)
    && (s.forceDue.None? && s.probeDue.Some? ==> s.probeDue.value < s.cleanupDeadline + PROBE_EVERY)
    && (s.probeDue.Some? ==> s.probeDue.value <= now + PROBE_EVERY)
  }

  /** What holds of the state before an event that is not later than `late` allows. */
  predicate OnTime(s: State, now: int, late: nat) {
    && (s.forceDue.Some? ==> now <= s.forceDue.value + late)
    && (s.probeDue.Some? ==> now <= s.probeDue.value + late)
  }

  lemma FirstDecision(rq: Request, s: State, e: Event, late: nat)
    requires Inv(s) && s.settled.None? && s.reason.None? && Step(rq, s, e).reason.Some?
    ensures Bounds(Step(rq, s, e), e.now, e.now, late)
  {
  }

  lemma StepKeepsBounds(rq: Request, s: State, e: Event, decided: int, before: int, late: nat)
    requires Inv(s) && Enabled(s, e) && s.settled.None? && s.reason.Some?
    requires Bounds(s, decided, before, late) && before <= e.now && OnTime(s, e.now, late)
    requires Step(rq, s, e).settled.None?
    ensures Bounds(Step(rq, s, e), decided, e.now, late)
  {
  }

  lemma {:induction false} TimersStayInBounds(rq: Request, es: seq<Event>, late: nat)
    requires IsRun(rq, es) && Punctual(rq, es, late)
    requires Run(rq, es).settled.None? && Run(rq, es).reason.Some?
    ensures es != [] && Bounds(Run(rq, es), DecidedAt(rq, es), es[|es| - 1].now, late)
  {
    var rest, last := es[..|es| - 1], es[|es| - 1];
    NeverStuck(rq, rest);
    PunctualPrefix(rq, es, late);
    StaysSettled(rq, Run(rq, rest), last);
    if Run(rq, rest).reason.Some? {
      TimersStayInBounds(rq, rest, late);
      StepKeepsBounds(rq, Run(rq, rest), last, DecidedAt(rq, rest), rest[|rest| - 1].now, late);
    } else {
      FirstDecision(rq, Run(rq, rest), last, late);
    }
  }

  lemma PunctualPrefix(rq: Request, es: seq<Event>, late: nat)
    requires es != [] && Punctual(rq, es, late)
    ensures Punctual(rq, es[..|es| - 1], late)
    ensures Run(rq, es[..|es| - 1]).settled.None? ==> OnTime(Run(rq, es[..|es| - 1]), es[|es| - 1].now, late)
  {
    var rest := es[..|es| - 1];
    assert forall k | 0 <= k < |rest| :: rest[..k] == es[..k] && rest[k] == es[k];
  }

  lemma WaitIsOver(rq: Request, s: State, e: Event, decided: int, before: int, late: nat)
    requires Inv(s) && Enabled(s, e) && s.settled.None? && s.reason.Some?
    requires Bounds(s, decided, before, late) && before <= e.now && OnTime(s, e.now, late)
    requires e.now >= decided + KILL_AFTER + CLEANUP_WITHIN + PROBE_EVERY + 2 * late
    requires Step(rq, s, e).leaderClosed
    ensures Step(rq, s, e).settled.Some?
  {
    assert s.forceDue.None?;
    assert s.probeDue.None?;
    assert e.now >= s.cleanupDeadline;
    assert e.kind.Error? || e.kind.Close?;
  }

  /**
   Once the leader is gone, the promise is settled no later than 2025 ms after the decision to
   terminate, plus what two timers may be late. Without such a decision it is settled at once.
   */
  lemma BoundedWait(rq: Request, es: seq<Event>, late: nat)
    requires IsRun(rq, es) && Punctual(rq, es, late) && es != [] && Run(rq, es).leaderClosed
    requires Run(rq, es).reason.Some? ==> es[|es| - 1].now >= DecidedAt(rq, es) + 2_025 + 2 * late
    ensures Run(rq, es).settled.Some?
  {
    NeverStuck(rq, es);
    if Run(rq, es).settled.None? {
      var rest, last := es[..|es| - 1], es[|es| - 1];
      StaysSettled(rq, Run(rq, rest), last);
      PunctualPrefix(rq, es, late);
      NeverStuck(rq, rest);
      if Run(rq, rest).reason.Some? {
        TimersStayInBounds(rq, rest, late);
        WaitIsOver(rq, Run(rq, rest), last, DecidedAt(rq, rest), rest[|rest| - 1].now, late);
      }
    }
  }

  // ----- no early rejection -----

  /** The kill timer is due a second after the decision, the clean-up deadline a second after the kill. */
  predicate Patient(s: State, decided: int) {
    && (s.forceDue.Some? ==> s.forceDue.value == decided + 1_000)
    && (s.cleanupDeadline > 0 ==> s.cleanupDeadline >= decided + 2_000)
  }

  lemma StepKeepsPatience(rq: Request, s: State, e: Event, decided: int)
    requires Inv(s) && Enabled(s, e) && s.reason.Some? && Patient(s, decided)
    ensures Patient(Step(rq, s, e), decided)
  {
  }

  lemma DecisionStartsPatience(rq: Request, s: State, e: Event)
    requires Inv(s) && s.reason.None? && Step(rq, s, e).reason.Some?
    ensures Patient(Step(rq, s, e), e.now)
  {
  }

  lemma {:induction false} TimersAreNotEarly(rq: Request, es: seq<Event>)
    requires IsRun(rq, es) && Run(rq, es).reason.Some?
    ensures Patient(Run(rq, es), DecidedAt(rq, es))
  {
    var rest, last := es[..|es| - 1], es[|es| - 1];
    NeverStuck(rq, rest);
    if Run(rq, rest).reason.Some? {
      TimersAreNotEarly(rq, rest);
      StepKeepsPatience(rq, Run(rq, rest), last, DecidedAt(rq, rest));
    } else {
      DecisionStartsPatience(rq, Run(rq, rest), last);
    }
  }

  /** The promise is rejected for a group that would not go only two seconds after the decision, with the group still there. */
  lemma NotGivenUpEarly(rq: Request, es: seq<Event>) returns (k: nat)
    requires IsRun(rq, es) && Run(rq, es).settled == Some(CleanupFailed)
    ensures k < |es| && Run(rq, es[..k]).settled.None? && Run(rq, es[..k]).reason.Some?
    ensures es[k].group && es[k].now >= DecidedAt(rq, es[..k]) + 2_000
  {
    k := SettlingEvent(rq, es);
    NeverStuck(rq, es[..k]);
    SettlesAs(rq, Run(rq, es[..k]), es[k]);
    TimersAreNotEarly(rq, es[..k]);
  }

  // ----- what is retained -----

  /** Everything one captured stream delivered, kept or not. */
  function Delivered(rq: Request, es: seq<Event>, toStdout: bool): seq<Chunk> {
    if es == [] then []
    else
      var kind := es[|es| - 1].kind;
      Delivered(rq, es[..|es| - 1], toStdout)
      + if (toStdout && kind.Stdout? && !rq.hasConsumer) || (!toStdout && kind.Stderr?) then [kind.chunk] else []
  }

  function Bytes(chunks: seq<Chunk>): nat {
    if chunks == [] then 0 else Bytes(chunks[..|chunks| - 1]) + |chunks[|chunks| - 1]|
  }

  lemma BytesOneMore(chunks: seq<Chunk>, chunk: Chunk)
    ensures Bytes(chunks + [chunk]) == Bytes(chunks) + |chunk|
  {
    assert (chunks + [chunk])[..|chunks|] == chunks;
  }

  /** Kept output: prefixes of the two streams, within the limit, and all of both while within it. */
  predicate Retained(rq: Request, s: State, out: seq<Chunk>, err: seq<Chunk>) {
    && s.capturedBytes == Bytes(out) + Bytes(err)
    && s.stdout <= out && s.stderr <= err
    && Bytes(s.stdout) + Bytes(s.stderr) <= rq.outputLimit
    && (s.capturedBytes <= rq.outputLimit ==> s.stdout == out && s.stderr == err)
    && (s.capturedBytes > rq.outputLimit ==> s.reason.Some?)
  }

  lemma CaptureRetains(rq: Request, s: State, e: Event, out: seq<Chunk>, err: seq<Chunk>)
    requires Retained(rq, s, out, err) && (e.kind.Stderr? || (e.kind.Stdout? && !rq.hasConsumer))
    ensures if e.kind.Stdout? then Retained(rq, Step(rq, s, e), out + [e.kind.chunk], err)
            else Retained(rq, Step(rq, s, e), out, err + [e.kind.chunk])
  {
    BytesOneMore(out, e.kind.chunk);
    BytesOneMore(err, e.kind.chunk);
  }

  lemma OthersLeaveOutput(rq: Request, s: State, e: Event)
    requires !e.kind.Stderr? && (e.kind.Stdout? ==> rq.hasConsumer)
    ensures var t := Step(rq, s, e);
            && t.stdout == s.stdout && t.stderr == s.stderr && t.capturedBytes == s.capturedBytes
            && (s.reason.Some? ==> t.reason.Some?)
  {
    match e.kind
    case Error(_) => ProbeLeavesOutput(s.(leaderClosed := true, closeCode := 1), e.now, e.group);
    case Close(code) => ProbeLeavesOutput(s.(leaderClosed := true, closeCode := code.GetOr(1)), e.now, e.group);
    case _ =>
  }

  lemma ProbeLeavesOutput(s: State, now: int, group: bool)
    ensures var t := ProbeGroup(s, now, group);
            t.stdout == s.stdout && t.stderr == s.stderr && t.capturedBytes == s.capturedBytes && t.reason == s.reason
  {
  }

  lemma DeliveredOneMore(rq: Request, es: seq<Event>)
    requires es != []
    ensures var rest, kind := es[..|es| - 1], es[|es| - 1].kind;
            && Delivered(rq, es, true)
               == (if kind.Stdout? && !rq.hasConsumer then Delivered(rq, rest, true) + [kind.chunk] else Delivered(rq, rest, true))
            && Delivered(rq, es, false)
               == (if kind.Stderr? then Delivered(rq, rest, false) + [kind.chunk] else Delivered(rq, rest, false))
  {
  }

  lemma {:induction false} RetentionHolds(rq: Request, es: seq<Event>)
    ensures Retained(rq, Run(rq, es), Delivered(rq, es, true), Delivered(rq, es, false))
  {
    if es != [] {
      var rest, last := es[..|es| - 1], es[|es| - 1];
      RetentionHolds(rq, rest);
      DeliveredOneMore(rq, es);
      if last.kind.Stderr? || (last.kind.Stdout? && !rq.hasConsumer) {
        CaptureRetains(rq, Run(rq, rest), last, Delivered(rq, rest, true), Delivered(rq, rest, false));
      } else {
        OthersLeaveOutput(rq, Run(rq, rest), last);
      }
    }
  }

  /** A result holds a chunk-prefix of each stream within the limit, and without a reason all of both. */
  lemma ResultRetains(rq: Request, es: seq<Event>) returns (k: nat)
    requires IsRun(rq, es) && Run(rq, es).settled.Some? && Run(rq, es).settled.value.Resolved?
    ensures k < |es| && Run(rq, es[..k]).settled.None?
    ensures var r := Run(rq, es).settled.value;
            && r.stdout <= Delivered(rq, es[..k], true) && r.stderr <= Delivered(rq, es[..k], false)
            && Bytes(r.stdout) + Bytes(r.stderr) <= rq.outputLimit
            && (r.reason.None? ==> r.stdout == Delivered(rq, es[..k], true) && r.stderr == Delivered(rq, es[..k], false))
  {
    k := SettlingEvent(rq, es);
    NeverStuck(rq, es[..k]);
    SettlesAs(rq, Run(rq, es[..k]), es[k]);
    RetentionHolds(rq, es[..k]);
  }

  // ----- what a result reports, read off the events -----

  /** The last word on the exit code: what the last close said, 1 for a signal or for a child error. */
  function ExitCode(es: seq<Event>): int {
    if es == [] then 1
    else match es[|es| - 1].kind
      case Close(Some(n)) => n
      case Close(None) => 1
      case Error(_) => 1
      case _ => ExitCode(es[..|es| - 1])
  }

  /** The bytes of every chunk, kept, dropped or handed on. */
  function AllBytes(es: seq<Event>): nat {
    if es == [] then 0
    else
      var kind := es[|es| - 1].kind;
      AllBytes(es[..|es| - 1]) + if kind.Stdout? || kind.Stderr? then |kind.chunk| else 0
  }

  /** Why the run was terminated: the first event that asks for it. */
  function Decision(rq: Request, es: seq<Event>): Option<Reason> {
    if es == [] then None
    else
      var before, kind := Decision(rq, es[..|es| - 1]), es[|es| - 1].kind;
      if before.Some? then before
      else if kind.Timeout? then Some(TimedOut)
      else if kind.Abort? then Some(Cancelled)
      else if kind.Stdout? && rq.hasConsumer then (if kind.thrown.Some? then Some(Cancelled) else None)
      else if Bytes(Delivered(rq, es, true)) + Bytes(Delivered(rq, es, false)) > rq.outputLimit then Some(OutputLimit)
      else None
  }

  lemma StepCountsBytes(rq: Request, s: State, e: Event)
    ensures Step(rq, s, e).outputBytes == s.outputBytes + if e.kind.Stdout? || e.kind.Stderr? then |e.kind.chunk| else 0
  {
  }

  lemma StepSetsCode(rq: Request, s: State, e: Event)
    requires Step(rq, s, e).settled.None?
    ensures Step(rq, s, e).closeCode == match e.kind
      case Close(n) => n.GetOr(1)
      case Error(_) => 1
      case _ => s.closeCode
  {
  }

  /** The reason is set once, by a timeout, an abort, a throwing consumer or too much kept output. */
  lemma StepDecides(rq: Request, s: State, e: Event)
    requires !(e.kind.Stdout? && rq.hasConsumer) ==> s.capturedBytes > rq.outputLimit ==> s.reason.Some?
    ensures Step(rq, s, e).reason ==
      if s.reason.Some? then s.reason
      else match e.kind
        case Timeout => Some(TimedOut)
        case Abort => Some(Cancelled)
        case Stdout(_, thrown) =>
          if rq.hasConsumer then (if thrown.Some? then Some(Cancelled) else None)
          else if Step(rq, s, e).capturedBytes > rq.outputLimit then Some(OutputLimit) else None
        case Stderr(_) => if Step(rq, s, e).capturedBytes > rq.outputLimit then Some(OutputLimit) else None
        case _ => None
  {
    match e.kind
    case Error(_) => ProbeLeavesOutput(s.(leaderClosed := true, closeCode := 1), e.now, e.group);
    case Close(code) => ProbeLeavesOutput(s.(leaderClosed := true, closeCode := code.GetOr(1)), e.now, e.group);
    case _ =>
  }

  lemma {:induction false} RunDecides(rq: Request, es: seq<Event>)
    ensures Run(rq, es).reason == Decision(rq, es)
  {
    if es != [] {
      var rest, last := es[..|es| - 1], es[|es| - 1];
      RunDecides(rq, rest);
      RetentionHolds(rq, rest);
      RetentionHolds(rq, es);
      DeliveredOneMore(rq, es);
      StepDecides(rq, Run(rq, rest), last);
    }
  }

  lemma {:induction false} RunCounts(rq: Request, es: seq<Event>)
    ensures Run(rq, es).outputBytes == AllBytes(es)
    ensures Run(rq, es).settled.None? ==> Run(rq, es).closeCode == ExitCode(es)
  {
    if es != [] {
      var rest, last := es[..|es| - 1], es[|es| - 1];
      RunCounts(rq, rest);
      StepCountsBytes(rq, Run(rq, rest), last);
      if Run(rq, es).settled.None? {
        StaysSettled(rq, Run(rq, rest), last);
        StepSetsCode(rq, Run(rq, rest), last);
      }
    }
  }

  /** A child error rejects, unless a termination was under way and the child had started. */
  lemma ErrorRejects(rq: Request, s: State, e: Event)
    requires s.settled.None? && e.kind.Error? && (s.reason.Some? ==> !e.kind.hasPid)
    ensures Step(rq, s, e).settled == Some(ChildFailed)
  {
  }

  lemma ErrorsWereTerminations(rq: Request, es: seq<Event>, j: nat)
    requires IsRun(rq, es) && Run(rq, es).settled.Some? && Run(rq, es).settled.value.Resolved?
    requires j < |es| && Run(rq, es[..j]).settled.None? && es[j].kind.Error?
    ensures es[j].kind.hasPid && Decision(rq, es[..j]).Some?
  {
    RunDecides(rq, es[..j]);
    PrefixGrows(es, j);
    if Run(rq, es[..j]).reason.Some? ==> !es[j].kind.hasPid {
      ErrorRejects(rq, Run(rq, es[..j]), es[j]);
      SettlesOnce(rq, es, j + 1);
    }
  }

  lemma UnsettledBefore(rq: Request, es: seq<Event>, k: nat)
    requires k <= |es| && Run(rq, es[..k]).settled.None?
    ensures forall j | 0 <= j <= k :: Run(rq, es[..j]).settled.None?
  {
    forall j | 0 <= j <= k ensures Run(rq, es[..j]).settled.None? {
      assert es[..k][..j] == es[..j];
      if Run(rq, es[..j]).settled.Some? { SettlesOnce(rq, es[..k], j); }
    }
  }

  /**
   What a result says, by the events alone: the exit code of the last close, the size of all output, and
   the first reason to terminate. A child error before it came during a termination.
   */
  lemma ResultReports(rq: Request, es: seq<Event>) returns (k: nat)
    requires IsRun(rq, es) && Run(rq, es).settled.Some? && Run(rq, es).settled.value.Resolved?
    ensures k < |es| && Run(rq, es[..k]).settled.None? && Run(rq, es[..k + 1]).settled == Run(rq, es).settled
    ensures var r := Run(rq, es).settled.value;
            && r.exitCode == ExitCode(es[..k + 1])
            && r.outputBytes == AllBytes(es[..k])
            && r.reason == Decision(rq, es[..k])
    ensures forall j | 0 <= j <= k && es[j].kind.Error? :: es[j].kind.hasPid && Decision(rq, es[..j]).Some?
  {
    k := SettlingEvent(rq, es);
    NeverStuck(rq, es[..k]);
    SettlesAs(rq, Run(rq, es[..k]), es[k]);
    RunCounts(rq, es[..k]);
    RunDecides(rq, es[..k]);
    PrefixGrows(es, k);
    UnsettledBefore(rq, es, k);
    forall j | 0 <= j <= k && es[j].kind.Error? ensures es[j].kind.hasPid && Decision(rq, es[..j]).Some? {
      ErrorsWereTerminations(rq, es, j);
    }
  }

  // ----- a consumer that throws -----

  function LastThrown(rq: Request, es: seq<Event>): Option<bool> {
    if es == [] then None
    else
      var kind := es[|es| - 1].kind;
      if kind.Stdout? && rq.hasConsumer && kind.thrown.Some? then kind.thrown
      else LastThrown(rq, es[..|es| - 1])
  }

  lemma StepRemembers(rq: Request, s: State, e: Event)
    ensures Step(rq, s, e).consumerError
            == if e.kind.Stdout? && rq.hasConsumer && e.kind.thrown.Some? then e.kind.thrown else s.consumerError
  {
  }

  lemma StepKeepsReason(rq: Request, s: State, e: Event)
    ensures s.reason.Some? || (e.kind.Stdout? && rq.hasConsumer && e.kind.thrown.Some?) ==> Step(rq, s, e).reason.Some?
  {
  }

  lemma {:induction false} RemembersLastThrown(rq: Request, es: seq<Event>)
    ensures Run(rq, es).consumerError == LastThrown(rq, es)
    ensures LastThrown(rq, es).Some? ==> Run(rq, es).reason.Some?
  {
    if es != [] {
      var rest, last := es[..|es| - 1], es[|es| - 1];
      RemembersLastThrown(rq, rest);
      StepRemembers(rq, Run(rq, rest), last);
      StepKeepsReason(rq, Run(rq, rest), last);
    }
  }

  /** A run whose consumer threw can resolve exactly when the last value it threw was falsy. */
  lemma ThrownThenResolved(rq: Request, es: seq<Event>) returns (k: nat)
    requires IsRun(rq, es) && Run(rq, es).settled.Some?
    requires Run(rq, es).settled.value.Resolved? || Run(rq, es).settled.value.ConsumerFailed?
    ensures k < |es| && Run(rq, es[..k]).settled.None?
    ensures Run(rq, es).settled.value.Resolved? <==> LastThrown(rq, es[..k]) != Some(true)
  {
    k := SettlingEvent(rq, es);
    NeverStuck(rq, es[..k]);
    SettlesAs(rq, Run(rq, es[..k]), es[k]);
    RemembersLastThrown(rq, es[..k]);
  }

  /** The smallest such run: the consumer throws `undefined` once, and the run resolves as cancelled. */
  lemma FalsyThrowResolves()
    ensures exists es: seq<Event> ::
      && IsRun(Request(1, true), es) && |es| == 2
      && es[0].kind == Stdout([], Some(false))
      && Run(Request(1, true), es).settled == Some(Resolved(0, [], [], 0, Some(Cancelled)))
  {
    var es := [Event(0, true, Stdout([], Some(false))), Event(1, false, Close(Some(0)))];
    var one := [es[0]];
    assert es[..1] == one && one[..0] == [];
    assert Run(Request(1, true), one) == Step(Request(1, true), INITIAL, es[0]);
    assert IsRun(Request(1, true), []);
    assert IsRun(Request(1, true), one);
  }

  predicate Killed(es: seq<Event>) {
    exists k :: 0 <= k < |es| && es[k].kind.Force?
  }

  lemma KilledOneMore(es: seq<Event>)
    requires es != []
    ensures Killed(es) <==> Killed(es[..|es| - 1]) || es[|es| - 1].kind.Force?
  {
    var rest := es[..|es| - 1];
    if Killed(rest) {
      var k :| 0 <= k < |rest| && rest[k].kind.Force?;
      assert es[k].kind.Force?;
    }
    if es[|es| - 1].kind.Force? { assert Killed(es); }
    if k :| 0 <= k < |es| && es[k].kind.Force? && k != |es| - 1 { assert rest[k].kind.Force?; }
  }

  lemma StepSignals(rq: Request, s: State, e: Event)
    ensures Step(rq, s, e).signals ==
      s.signals
      + (if s.reason.None? && Step(rq, s, e).reason.Some? then [Term] else [])
      + (if e.kind.Force? then [Kill] else [])
  {
    match e.kind
    case Error(_) => ProbeIsSilent(s.(leaderClosed := true, closeCode := 1), e.now, e.group);
    case Close(code) => ProbeIsSilent(s.(leaderClosed := true, closeCode := code.GetOr(1)), e.now, e.group);
    case Force =>
      ProbeIsSilent(s.(forceDue := None, cleanupDeadline := e.now + CLEANUP_WITHIN, signals := s.signals + [Kill]), e.now, e.group);
    case Probe => ProbeIsSilent(s, e.now, e.group);
    case _ =>
  }

  lemma ProbeIsSilent(s: State, now: int, group: bool)
    ensures ProbeGroup(s, now, group).signals == s.signals && ProbeGroup(s, now, group).reason == s.reason
  {
  }

  /** One SIGTERM once a reason to terminate is there, one SIGKILL when the kill timer fires. */
  lemma {:induction false} SignalsEscalate(rq: Request, es: seq<Event>)
    requires IsRun(rq, es)
    ensures Run(rq, es).signals ==
      (if Decision(rq, es).Some? then [Term] else []) + (if Killed(es) then [Kill] else [])
    ensures Killed(es) ==> Decision(rq, es).Some?
  {
    RunDecides(rq, es);
    if es != [] {
      var rest, last := es[..|es| - 1], es[|es| - 1];
      SignalsEscalate(rq, rest);
      RunDecides(rq, rest);
      NeverStuck(rq, rest);
      StepSignals(rq, Run(rq, rest), last);
      KilledOneMore(es);
    }
  }
}
