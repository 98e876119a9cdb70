/**
 The message box: Enter twice sends, one Enter is a newline, Command-Enter sends at once.

 The pair is counted on the release of the first Enter, and a mark left by a composing or a sending
 key swallows that key's own release. Every browser event is one step; an event carries what the box
 holds at that moment.
 */
module Composer {
  import opened Results

  const DOUBLE_ENTER_WINDOW := 1_600

  datatype Key = Enter | Modifier | Other

  datatype Box = Box(value: string, start: nat, end: nat)

  datatype Mods = Mods(meta: bool, shift: bool, alt: bool, ctrl: bool)

  /** `code` is the physical key: an input method may report another `key` for it on the way down. */
  datatype Event =
    | KeyDown(key: Key, code: nat, mods: Mods, composing: bool, repeating: bool, box: Box, at: int, disabled: bool)
    | KeyUp(key: Key, code: nat, mods: Mods, composing: bool, box: Box, at: int)
    | Blur

  datatype Armed = Armed(box: Box, at: int)

  datatype State = State(armed: Option<Armed>, suppress: bool)

  const IDLE := State(None, false)
  const NONE := Mods(false, false, false, false)

  predicate CommandSend(e: Event) {
    e.KeyDown? && !e.composing && e.key == Enter && e.mods == NONE.(meta := true)
  }

  predicate PlainDown(e: Event) {
    e.KeyDown? && !e.composing && e.key == Enter && e.mods == NONE && !e.repeating
  }

  predicate PlainUp(e: Event) {
    e.KeyUp? && !e.composing && e.key == Enter && e.mods == NONE
  }

  /** The second press of a pair: it sends, unless the button is disabled. */
  predicate Fires(s: State, e: Event) {
    PlainDown(e) && s.armed.Some? && s.armed.value.box == e.box && e.at - s.armed.value.at <= DOUBLE_ENTER_WINDOW
  }

  function Step(s: State, e: Event): State {
    match e
    case KeyDown(_, _, _, composing, _, _, _, _) =>
      if composing || CommandSend(e) || Fires(s, e) then State(None, true) else s.(armed := None)
    case KeyUp(key, _, mods, composing, box, at) =>
      if key != Enter then (if key == Modifier then s else s.(suppress := false))
      else if s.suppress then State(None, false)
      else if composing || mods != NONE then s.(armed := None)
      else s.(armed := Some(Armed(box, at)))
    case Blur => s.(armed := None)
  }

  function Run(es: seq<Event>): State {
    if es == [] then IDLE else Step(Run(es[..|es| - 1]), es[|es| - 1])
  }

  class Keyboard {
    var composerEnterState: Option<Armed>
    var suppressComposerEnterKeyup: bool

    ghost function Now(): State
      reads this
    {
      State(composerEnterState, suppressComposerEnterKeyup)
    }

    constructor ()
      ensures Now() == IDLE
    {
      composerEnterState, suppressComposerEnterKeyup := None, false;
    }

    method OnKeyDown(e: Event) returns (submitted: bool)
      requires e.KeyDown?
      modifies this
      ensures Now() == Step(old(Now()), e)
      ensures submitted <==> (CommandSend(e) || Fires(old(Now()), e)) && !e.disabled
      ensures submitted <==>
        && e.key == Enter && !e.composing && !e.disabled && !e.mods.shift && !e.mods.alt && !e.mods.ctrl
        && (|| e.mods.meta
            || (!e.repeating && old(composerEnterState).Some?
                && old(composerEnterState).value.box == e.box && e.at <= old(composerEnterState).value.at + 1_600))
    {
      if e.composing {
        composerEnterState, suppressComposerEnterKeyup := None, true;
        return false;
      }
      if e.key != Enter {
        composerEnterState := None;
        return false;
      }
      if e.mods.meta && !e.mods.shift && !e.mods.alt && !e.mods.ctrl {
        composerEnterState, suppressComposerEnterKeyup := None, true;
        return !e.disabled;
      }
      if e.mods.shift || e.mods.alt || e.mods.ctrl || e.mods.meta || e.repeating {
        composerEnterState := None;
        return false;
      }
      var armed := composerEnterState;
      if armed.Some? && e.box == armed.value.box && e.at - armed.value.at <= DOUBLE_ENTER_WINDOW {
        composerEnterState, suppressComposerEnterKeyup := None, true;
        return !e.disabled;
      }
      composerEnterState := None;
      return false;
    }

    method OnKeyUp(e: Event)
      requires e.KeyUp?
      modifies this
      ensures Now() == Step(old(Now()), e)
      ensures e.key == Enter && !old(suppressComposerEnterKeyup) ==>
        composerEnterState ==
        if e.composing || e.mods.meta || e.mods.shift || e.mods.alt || e.mods.ctrl then None else Some(Armed(e.box, e.at))
    {
      if e.key != Enter {
        if e.key != Modifier { suppressComposerEnterKeyup := false; }
        return;
      }
      if suppressComposerEnterKeyup {
        composerEnterState, suppressComposerEnterKeyup := None, false;
        return;
      }
      if e.composing || e.mods.shift || e.mods.alt || e.mods.ctrl || e.mods.meta {
        composerEnterState := None;
        return;
      }
      composerEnterState := Some(Armed(e.box, e.at));
    }

    method OnBlur()
      modifies this
      ensures Now() == Step(old(Now()), Blur)
    {
      composerEnterState := None;
    }
  }

  // ----- what the state remembers, read off the history -----

  /** A key that took a candidate or sent: its own release does not count. */
  predicate Marks(es: seq<Event>, x: nat)
    requires x < |es|
  {
    es[x].KeyDown? && (es[x].composing || CommandSend(es[x]) || Fires(Run(es[..x]), es[x]))
  }

  predicate Releases(e: Event) {
    e.KeyUp? && e.key != Modifier
  }

  /** Some mark before `m` whose key was not released since. */
  ghost predicate Swallowed(es: seq<Event>, m: nat)
    requires m <= |es|
  {
    exists x :: 0 <= x < m && Marks(es, x) && forall j | x < j < m :: !Releases(es[j])
  }

  predicate Resets(e: Event) {
    e.KeyDown? || e.Blur? || (e.KeyUp? && e.key == Enter)
  }

  /** `m` is the release of a first Enter, and nothing since undid it. */
  ghost predicate FirstOfPair(es: seq<Event>, m: nat) {
    m < |es| && PlainUp(es[m]) && !Swallowed(es, m) && forall j | m < j < |es| :: !Resets(es[j])
  }

  lemma MarksInPrefix(es: seq<Event>, e: Event, x: nat)
    requires x < |es|
    ensures Marks(es + [e], x) <==> Marks(es, x)
  {
    assert (es + [e])[..x] == es[..x];
  }

  lemma SwallowedOneMore(es: seq<Event>, e: Event)
    ensures forall m: nat | m <= |es| :: Swallowed(es + [e], m) <==> Swallowed(es, m)
    ensures Swallowed(es + [e], |es| + 1)
            <==> (e.KeyDown? && (e.composing || CommandSend(e) || Fires(Run(es), e))) || (Swallowed(es, |es|) && !Releases(e))
  {
    var all := es + [e];
    assert all[..|es|] == es && all[|es|] == e;
    forall x | 0 <= x < |es| ensures Marks(all, x) <==> Marks(es, x) { MarksInPrefix(es, e, x); }
    assert forall j | 0 <= j < |es| :: all[j] == es[j];
    assert Marks(all, |es|) <==> e.KeyDown? && (e.composing || CommandSend(e) || Fires(Run(es), e));
    if Swallowed(es, |es|) && !Releases(e) {
      var x :| 0 <= x < |es| && Marks(es, x) && forall j | x < j < |es| :: !Releases(es[j]);
      assert Marks(all, x);
    }
  }

  lemma FirstOneMore(es: seq<Event>, e: Event)
    ensures forall m: nat | m < |es| :: FirstOfPair(es + [e], m) <==> FirstOfPair(es, m) && !Resets(e)
    ensures FirstOfPair(es + [e], |es|) <==> PlainUp(e) && !Swallowed(es, |es|)
  {
    var all := es + [e];
    SwallowedOneMore(es, e);
    assert forall j | 0 <= j < |es| :: all[j] == es[j];
    assert all[|es|] == e;
  }

  /** The two fields are exactly what the history says. */
  lemma {:induction false} StateIsHistory(es: seq<Event>)
    ensures Run(es).suppress <==> Swallowed(es, |es|)
    ensures Run(es).armed.Some? <==> exists m: nat :: FirstOfPair(es, m)
    ensures forall m: nat | FirstOfPair(es, m) :: Run(es).armed == Some(Armed(es[m].box, es[m].at))
  {
    if es != [] {
      var rest, e := es[..|es| - 1], es[|es| - 1];
      StateIsHistory(rest);
      assert es == rest + [e];
      SwallowedOneMore(rest, e);
      FirstOneMore(rest, e);
      if Run(es).armed.Some? {
        if PlainUp(e) && !Swallowed(rest, |rest|) {
          assert FirstOfPair(es, |rest|);
        } else {
          var m: nat :| FirstOfPair(rest, m);
          assert FirstOfPair(es, m);
        }
      }
    }
  }

  /** A press sends as the second of a pair exactly when the history holds its first. */
  lemma FiresIff(es: seq<Event>, e: Event)
    ensures Fires(Run(es), e) <==>
      PlainDown(e) && exists m: nat :: FirstOfPair(es, m) && es[m].box == e.box && e.at - es[m].at <= DOUBLE_ENTER_WINDOW
  {
    StateIsHistory(es);
  }

  // ----- two presses -----

  predicate IsKey(e: Event) {
    !e.Blur? && e.key != Modifier
  }

  /** The last key event, modifiers aside, before `n`. */
  function Previous(es: seq<Event>, n: nat): (k: Option<nat>)
    requires n <= |es|
    ensures k.Some? ==> k.value < n && IsKey(es[k.value])
    ensures k.None? ==> forall j | 0 <= j < n :: !IsKey(es[j])
    ensures k.Some? ==> forall j | k.value < j < n :: !IsKey(es[j])
  {
    if n == 0 then None else if IsKey(es[n - 1]) then Some(n - 1) else Previous(es, n - 1)
  }

  predicate SamePress(down: Event, e: Event) {
    down.KeyDown? && IsKey(down) && IsKey(e) && down.code == e.code && (!down.composing ==> down.key == e.key)
  }

  /** Keys other than modifiers do not overlap: a release or a repeat belongs to the key pressed last. */
  predicate Separate(es: seq<Event>) {
    forall n | 0 <= n < |es| && IsKey(es[n]) && (es[n].KeyUp? || es[n].repeating) ::
      Previous(es, n).Some? && SamePress(es[Previous(es, n).value], es[n])
  }

  /** Modifiers only change when a modifier key does. */
  predicate SteadyMods(es: seq<Event>) {
    forall i, j | 0 <= i < j < |es| && IsKey(es[i]) && IsKey(es[j]) && (forall k | i < k < j :: IsKey(es[k]) || es[k].Blur?) ::
      es[i].mods == es[j].mods
  }

  // ----- the modifiers held -----

  datatype Mod = Meta | Shift | Alt | Ctrl

  predicate On(mods: Mods, f: Mod) {
    match f
    case Meta => mods.meta
    case Shift => mods.shift
    case Alt => mods.alt
    case Ctrl => mods.ctrl
  }

  /** What the last key event before `n` said was held; before the first one, anything may be. */
  function Held(es: seq<Event>, n: nat): Option<Mods>
    requires n <= |es|
  {
    if n == 0 then None else if es[n - 1].Blur? then Held(es, n - 1) else Some(es[n - 1].mods)
  }

  predicate HeldAt(es: seq<Event>, n: nat, f: Mod)
    requires n <= |es|
  {
    Held(es, n).Some? && On(Held(es, n).value, f)
  }

  /** The press of a modifier key only adds modifiers, its release only takes them away, other keys change none. */
  predicate Tracks(es: seq<Event>, n: nat)
    requires n < |es|
  {
    es[n].Blur? || Held(es, n).None? || forall f: Mod ::
      if IsKey(es[n]) then On(es[n].mods, f) == HeldAt(es, n, f)
      else if es[n].KeyDown? then HeldAt(es, n, f) ==> On(es[n].mods, f)
      else On(es[n].mods, f) ==> HeldAt(es, n, f)
  }

  predicate Tracked(es: seq<Event>) {
    forall n | 0 <= n < |es| :: Tracks(es, n)
  }

  predicate Presses(es: seq<Event>, i: nat, f: Mod)
    requires i < |es|
  {
    es[i].KeyDown? && !IsKey(es[i]) && !HeldAt(es, i, f) && HeldAt(es, i + 1, f)
  }

  predicate Lifts(es: seq<Event>, j: nat, f: Mod)
    requires j < |es|
  {
    es[j].KeyUp? && !IsKey(es[j]) && HeldAt(es, j, f) && !HeldAt(es, j + 1, f)
  }

  /** Between `k` and `m` a modifier is let go that was not pressed in between. */
  ghost predicate LetsGo(es: seq<Event>, k: nat, m: nat, f: Mod)
    requires m <= |es|
  {
    exists j :: k < j < m && Lifts(es, j, f) && forall i | k < i < j :: !Presses(es, i, f)
  }

  lemma HeldOneMore(es: seq<Event>, n: nat, f: Mod)
    requires n < |es| && Tracks(es, n) && Held(es, n).Some?
    ensures HeldAt(es, n + 1, f) <==> (HeldAt(es, n, f) && !Lifts(es, n, f)) || Presses(es, n, f)
  {
  }

  /** What is held at `j` and was not pressed since `k` was held at `k`. */
  lemma {:induction false} HeldSince(es: seq<Event>, k: nat, j: nat, f: Mod)
    requires k < j <= |es| && Tracked(es) && !es[k].Blur?
    requires HeldAt(es, j, f) && forall i | k < i < j :: !Presses(es, i, f)
    ensures On(es[k].mods, f)
    decreases j
  {
    if k + 1 < j {
      HeldFrom(es, k, j - 1);
      HeldOneMore(es, j - 1, f);
      HeldSince(es, k, j - 1, f);
    }
  }

  lemma {:induction false} HeldFrom(es: seq<Event>, k: nat, j: nat)
    requires k < j <= |es| && !es[k].Blur?
    ensures Held(es, j).Some?
    decreases j
  {
    if k + 1 < j { HeldFrom(es, k, j - 1); }
  }

  /** What was held at `k` and not let go stays held, so it is not pressed either. */
  lemma {:induction false} StaysHeld(es: seq<Event>, k: nat, m: nat, f: Mod)
    requires k < m <= |es| && Tracked(es) && !es[k].Blur?
    requires On(es[k].mods, f) && !LetsGo(es, k, m, f)
    ensures HeldAt(es, m, f) && forall i | k < i < m :: !Presses(es, i, f)
    decreases m
  {
    if k + 1 < m {
      StaysHeld(es, k, m - 1, f);
      HeldFrom(es, k, m - 1);
      HeldOneMore(es, m - 1, f);
    }
  }

  /** The press that `m` releases was plain exactly if no modifier held at its start is let go during it. */
  lemma PlainFirstIff(es: seq<Event>, k: nat, m: nat)
    requires k < m < |es| && Tracked(es) && PlainUp(es[m])
    requires es[k].KeyDown? && es[k].key == Enter && !es[k].repeating && !es[k].composing
    ensures PlainDown(es[k]) <==> forall f: Mod :: !LetsGo(es, k, m, f)
  {
    HeldFrom(es, k, m);
    assert Tracks(es, m);
    forall f: Mod ensures On(es[k].mods, f) <==> LetsGo(es, k, m, f) {
      assert On(es[m].mods, f) == HeldAt(es, m, f);
      if On(es[k].mods, f) && !LetsGo(es, k, m, f) { StaysHeld(es, k, m, f); }
      if LetsGo(es, k, m, f) {
        var j :| k < j < m && Lifts(es, j, f) && forall i | k < i < j :: !Presses(es, i, f);
        HeldSince(es, k, j, f);
      }
    }
    assert es[k].mods == NONE <==> !On(es[k].mods, Meta) && !On(es[k].mods, Shift) && !On(es[k].mods, Alt) && !On(es[k].mods, Ctrl);
  }

  lemma {:induction false} PressBegins(es: seq<Event>, m: nat, at: nat) returns (k: nat)
    requires Separate(es) && at < m <= |es| && !Swallowed(es, m)
    requires es[at].KeyDown? && es[at].key == Enter && forall j | at < j < m :: !Releases(es[j])
    ensures k <= at && es[k].KeyDown? && es[k].key == Enter && !es[k].repeating && es[k].code == es[at].code
    ensures forall j | k <= j < m :: !Releases(es[j]) && !Marks(es, j)
    decreases at
  {
    assert !Marks(es, at);
    if es[at].repeating {
      var before := Previous(es, at).value;
      assert SamePress(es[before], es[at]);
      forall j | before < j < m ensures !Releases(es[j]) {
      }
      assert !Marks(es, before);
      k := PressBegins(es, m, before);
    } else {
      k := at;
      forall j | k <= j < m ensures !Marks(es, j) {
      }
    }
  }

  /**
   A pair that sends is two presses of Enter, with nothing sent or composed since the first began: its
   release counted, and between that release and the second press nothing was typed and the box kept
   the focus. So the focus was kept since the first press exactly if it was kept during that press.
   */
  lemma TwoPresses(es: seq<Event>, e: Event) returns (k: nat, m: nat)
    requires Separate(es) && Fires(Run(es), e)
    ensures k < m < |es| && PlainUp(es[m]) && PlainDown(e)
    ensures es[k].KeyDown? && es[k].key == Enter && !es[k].repeating && es[k].code == es[m].code
    ensures forall j | k <= j < |es| :: !Marks(es, j)
    ensures forall j | m < j < |es| :: !es[j].KeyDown? && !es[j].Blur?
    ensures (forall j | k <= j < |es| :: !es[j].Blur?) <==> (forall j | k < j < m :: !es[j].Blur?)
    ensures es[m].box == e.box && e.at - es[m].at <= DOUBLE_ENTER_WINDOW
    ensures SteadyMods(es) && (forall j | k < j < m :: IsKey(es[j]) || es[j].Blur?) ==> PlainDown(es[k])
    ensures Tracked(es) ==> (PlainDown(es[k]) <==> forall f: Mod :: !LetsGo(es, k, m, f))
  {
    FiresIff(es, e);
    m :| 0 <= m && FirstOfPair(es, m) && es[m].box == e.box && e.at - es[m].at <= DOUBLE_ENTER_WINDOW;
    var at := Previous(es, m).value;
    assert SamePress(es[at], es[m]);
    forall j | at < j < m ensures !Releases(es[j]) {
    }
    assert !Marks(es, at);
    k := PressBegins(es, m, at);
    assert !Marks(es, k);
    if Tracked(es) { PlainFirstIff(es, k, m); }
  }

  lemma OneMore(es: seq<Event>, e: Event)
    ensures Run(es + [e]) == Step(Run(es), e)
  {
    assert (es + [e])[..|es|] == es;
  }

  /**
   Shift-Enter with Shift released first counts as the first press: one plain Enter then sends. So the
   first press has to be plain only where no modifier key is released during it.
   */
  lemma ShiftEnterCanBeTheFirst(box: Box)
    ensures
      var shift := NONE.(shift := true);
      var es := [KeyDown(Modifier, 1, shift, false, false, box, 0, false), KeyDown(Enter, 2, shift, false, false, box, 1, false),
                 KeyUp(Modifier, 1, NONE, false, box, 2), KeyUp(Enter, 2, NONE, false, box, 3)];
      Separate(es) && Tracked(es) && LetsGo(es, 1, 3, Shift) && Fires(Run(es), KeyDown(Enter, 2, NONE, false, false, box, 4, false))
  {
    var shift := NONE.(shift := true);
    var es := [KeyDown(Modifier, 1, shift, false, false, box, 0, false), KeyDown(Enter, 2, shift, false, false, box, 1, false),
               KeyUp(Modifier, 1, NONE, false, box, 2), KeyUp(Enter, 2, NONE, false, box, 3)];
    var one, two, three := [es[0]], [es[0], es[1]], [es[0], es[1], es[2]];
    OneMore([], es[0]);
    assert [] + [es[0]] == one;
    assert Run(one) == IDLE;
    OneMore(one, es[1]);
    assert one + [es[1]] == two;
    assert Run(two) == IDLE;
    OneMore(two, es[2]);
    assert two + [es[2]] == three;
    OneMore(three, es[3]);
    assert three + [es[3]] == es;
    assert Previous(es, 3) == Previous(es, 2) == Some(1);
    assert Lifts(es, 2, Shift);
  }

  /** Enter pressed, the focus lost and regained, Enter released: one press after the blur then sends. */
  lemma BlurDuringTheFirst(box: Box)
    ensures
      var es := [KeyDown(Enter, 2, NONE, false, false, box, 0, false), Blur, KeyUp(Enter, 2, NONE, false, box, 2)];
      Separate(es) && Fires(Run(es), KeyDown(Enter, 2, NONE, false, false, box, 3, false))
  {
    var es := [KeyDown(Enter, 2, NONE, false, false, box, 0, false), Blur, KeyUp(Enter, 2, NONE, false, box, 2)];
    var one, two := [es[0]], [es[0], es[1]];
    OneMore([], es[0]);
    assert [] + [es[0]] == one;
    assert Run(one) == IDLE;
    OneMore(one, es[1]);
    assert one + [es[1]] == two;
    assert Run(two) == IDLE;
    OneMore(two, es[2]);
    assert two + [es[2]] == es;
    assert Previous(es, 2) == Previous(es, 1) == Some(0);
  }
}
