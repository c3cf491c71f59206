/** recording/recorder.py: WindowsRecorder, the held-modifier state machine that
    turns the listener's events into a time-stamped, modifier-stamped recording. */
module Recording {
  import opened Common
  import opened Events
  import opened Listeners

  /** Virtual-key codes: left/right Shift, Ctrl and Alt, and Delete. */
  const HOLDABLE_KEYS: set<int> := {160, 161, 162, 163, 164, 165}
  const SHIFT_KEYS: set<int> := {160, 161}
  const CTRL_KEYS: set<int> := {162, 163}
  const ALT_KEYS: set<int> := {164, 165}
  const DEL: int := 46

  /** The KeyIDs of the held-key entries. */
  function HeldIds(held: seq<Event>): (ids: set<int>)
    ensures forall k :: k in ids <==> exists i :: 0 <= i < |held| && held[i].keyId == k
  {
    set i | 0 <= i < |held| :: held[i].keyId
  }

  datatype Flags = Flags(shift: bool, ctrl: bool, alt: bool)

  /** `__set_held_keys`: each flag says whether a key of its class is held. */
  function FlagsOf(held: seq<Event>): Flags
  {
    Flags(SHIFT_KEYS * HeldIds(held) != {}, CTRL_KEYS * HeldIds(held) != {}, ALT_KEYS * HeldIds(held) != {})
  }

  /** The held list holds only holdable keys, no KeyID twice. */
  predicate WellFormed(held: seq<Event>)
  {
    (forall i :: 0 <= i < |held| ==> held[i].keyId in HOLDABLE_KEYS) &&
    (forall i, j :: 0 <= i < j < |held| ==> held[i].keyId != held[j].keyId)
  }

  /** The recorder's state as a value: the held keys, the three flags, the time
      of the last recorded event, the recording, and whether a collection was
      given (with None nothing is ever appended). */
  datatype RecorderState = RecorderState(held: seq<Event>, flags: Flags, last: int, recorded: seq<Event>, collecting: bool)

  function SetHeld(s: RecorderState, held: seq<Event>): RecorderState
  {
    s.(held := held, flags := FlagsOf(held))
  }

  /** The event as `__record_event` leaves it: the delay since the last record
      and the flags in force. */
  function Stamp(s: RecorderState, e: Event, now: int): Event
  {
    e.(time := now - s.last, isShift := s.flags.shift, isCtrl := s.flags.ctrl, isAlt := s.flags.alt)
  }

  /** `__record_event` at clock reading `now`. */
  function Record(s: RecorderState, e: Event, now: int): RecorderState
  {
    s.(last := now, recorded := if s.collecting then s.recorded + [Stamp(s, e, now)] else s.recorded)
  }

  /** Index of the first held entry with KeyID `k`. */
  function FirstHeld(held: seq<Event>, k: int): (i: nat)
    requires k in HeldIds(held)
    ensures i < |held| && held[i].keyId == k && k !in HeldIds(held[..i])
  {
    if held[0].keyId == k then 0
    else
      var j := FirstHeld(held[1..], k);
      assert held[..j + 1] == [held[0]] + held[1..][..j];
      j + 1
  }

  function RemoveAt(held: seq<Event>, i: nat): seq<Event>
    requires i < |held|
  {
    held[..i] + held[i + 1..]
  }

  /** `on_key_down_event`. */
  function KeyDown(s: RecorderState, e: Event, now: int): RecorderState
  {
    if e.keyId in HOLDABLE_KEYS then
      if e.keyId in HeldIds(s.held) then s else SetHeld(s, s.held + [e])
    else if e.keyId == DEL then
      if CTRL_KEYS * HeldIds(s.held) != {} && ALT_KEYS * HeldIds(s.held) != {} then
        s.(flags := s.flags.(ctrl := false, alt := false))
      else s
    else Record(s, e, now)
  }

  /** `on_key_up_event`: only the release of a held key is recorded. */
  function KeyUp(s: RecorderState, e: Event, now: int): RecorderState
  {
    if e.keyId in HeldIds(s.held) then
      Record(SetHeld(s, RemoveAt(s.held, FirstHeld(s.held, e.keyId))), e, now)
    else s
  }

  /** `on_keyboard_event`. */
  function Keyboard(s: RecorderState, e: Event, now: int): RecorderState
  {
    if e.isDown then KeyDown(s, e, now) else KeyUp(s, e, now)
  }

  /** `on_mouse_event`: `ignoring` is `process_to_ignore is not None`, `windowPid`
      the process owning the event's window, `ownPid` the recorder's process. */
  function Mouse(s: RecorderState, e: Event, now: int, ignoring: bool, windowPid: int, ownPid: int): RecorderState
  {
    if ignoring && windowPid == ownPid then s else Record(s, e, now)
  }

  // ---------------------------------------------------------------------------
  // Properties of the transitions

  /** Pressing a holdable key that is not held adds it to the held list and
      recomputes the flags; nothing is recorded and the clock is not touched. */
  lemma NewHoldIsTracked(s: RecorderState, e: Event, now: int)
    requires e.isDown && e.keyId in HOLDABLE_KEYS && e.keyId !in HeldIds(s.held)
    ensures var s' := Keyboard(s, e, now);
      s'.held == s.held + [e] && s'.flags == FlagsOf(s'.held) &&
      s'.recorded == s.recorded && s'.last == s.last
  {
  }

  /** Pressing a holdable key that is already held changes nothing. */
  lemma RepeatedHoldIsIgnored(s: RecorderState, e: Event, now: int)
    requires e.isDown && e.keyId in HOLDABLE_KEYS && e.keyId in HeldIds(s.held)
    ensures Keyboard(s, e, now) == s
  {
  }

  /** Each flag is true exactly when a key of its class is held. */
  lemma {:induction false} FlagsReflectHeldKeys(held: seq<Event>)
    ensures FlagsOf(held).shift <==> exists i :: 0 <= i < |held| && held[i].keyId in SHIFT_KEYS
    ensures FlagsOf(held).ctrl <==> exists i :: 0 <= i < |held| && held[i].keyId in CTRL_KEYS
    ensures FlagsOf(held).alt <==> exists i :: 0 <= i < |held| && held[i].keyId in ALT_KEYS
  {
    if FlagsOf(held).shift {
      var k :| k in SHIFT_KEYS * HeldIds(held);
    }
    if FlagsOf(held).ctrl {
      var k :| k in CTRL_KEYS * HeldIds(held);
    }
    if FlagsOf(held).alt {
      var k :| k in ALT_KEYS * HeldIds(held);
    }
    if exists i :: 0 <= i < |held| && held[i].keyId in SHIFT_KEYS {
      var i :| 0 <= i < |held| && held[i].keyId in SHIFT_KEYS;
      assert held[i].keyId in SHIFT_KEYS * HeldIds(held);
    }
    if exists i :: 0 <= i < |held| && held[i].keyId in CTRL_KEYS {
      var i :| 0 <= i < |held| && held[i].keyId in CTRL_KEYS;
      assert held[i].keyId in CTRL_KEYS * HeldIds(held);
    }
    if exists i :: 0 <= i < |held| && held[i].keyId in ALT_KEYS {
      var i :| 0 <= i < |held| && held[i].keyId in ALT_KEYS;
      assert held[i].keyId in ALT_KEYS * HeldIds(held);
    }
  }

  /** Removing an entry keeps the held list well formed and drops exactly that KeyID. */
  lemma {:induction false} RemoveKeepsWellFormed(held: seq<Event>, i: nat)
    requires WellFormed(held) && i < |held|
    ensures WellFormed(RemoveAt(held, i))
    ensures HeldIds(RemoveAt(held, i)) == HeldIds(held) - {held[i].keyId}
  {
    var r := RemoveAt(held, i);
    assert forall j :: 0 <= j < |r| ==> r[j] == (if j < i then held[j] else held[j + 1]);
    forall k | k in HeldIds(held) - {held[i].keyId} ensures k in HeldIds(r) {
      var j :| 0 <= j < |held| && held[j].keyId == k;
      assert r[if j < i then j else j - 1].keyId == k;
    }
  }

  /** No key event or mouse event breaks the held list's invariant. */
  lemma {:induction false} EventsKeepWellFormed(s: RecorderState, e: Event, now: int, ignoring: bool, windowPid: int, ownPid: int)
    requires WellFormed(s.held)
    ensures WellFormed(Keyboard(s, e, now).held)
    ensures WellFormed(Mouse(s, e, now, ignoring, windowPid, ownPid).held)
  {
    if !e.isDown && e.keyId in HeldIds(s.held) {
      RemoveKeepsWellFormed(s.held, FirstHeld(s.held, e.keyId));
    }
  }

  /** Delete is never recorded. With a ctrl-class and an alt-class key held, the
      ctrl and alt flags are cleared and the held list is kept; otherwise nothing changes. */
  lemma DeleteIsNeverRecorded(s: RecorderState, e: Event, now: int)
    requires e.isDown && e.keyId == DEL
    ensures var s' := Keyboard(s, e, now);
      s'.recorded == s.recorded && s'.last == s.last && s'.held == s.held &&
      s'.flags == (if CTRL_KEYS * HeldIds(s.held) != {} && ALT_KEYS * HeldIds(s.held) != {}
                   then s.flags.(ctrl := false, alt := false) else s.flags)
  {
  }

  /** A key-up is recorded exactly when a held key has its KeyID; that key then
      leaves the held list. Any other key-up changes nothing. */
  lemma {:induction false} KeyUpRecordedIffHeld(s: RecorderState, e: Event, now: int)
    requires s.collecting && WellFormed(s.held) && !e.isDown
    ensures var s' := Keyboard(s, e, now);
      (|s'.recorded| == |s.recorded| + 1 <==> e.keyId in HeldIds(s.held)) &&
      (e.keyId in HeldIds(s.held) ==>
        s'.recorded == s.recorded + [Stamp(s', e, now).(time := now - s.last)] &&
        HeldIds(s'.held) == HeldIds(s.held) - {e.keyId} && |s'.held| == |s.held| - 1) &&
      (e.keyId !in HeldIds(s.held) ==> s' == s)
  {
    if e.keyId in HeldIds(s.held) {
      RemoveKeepsWellFormed(s.held, FirstHeld(s.held, e.keyId));
    }
  }

  /** A mouse event is dropped exactly when its window belongs to the recorder's
      own process and that process is to be ignored. */
  lemma MouseDroppedIffOwnWindow(s: RecorderState, e: Event, now: int, ignoring: bool, windowPid: int, ownPid: int)
    requires s.collecting
    ensures var s' := Mouse(s, e, now, ignoring, windowPid, ownPid);
      (s' == s <==> ignoring && windowPid == ownPid) &&
      (s' != s ==> s'.recorded == s.recorded + [Stamp(s, e, now)] && s'.last == now)
  {
    var s' := Mouse(s, e, now, ignoring, windowPid, ownPid);
    if !(ignoring && windowPid == ownPid) {
      assert |s'.recorded| == |s.recorded| + 1;
    }
  }

  /** Recording appends the event once, with the delay since the last record and
      the current flags; without a collection nothing is appended. */
  lemma RecordStampsAndAppends(s: RecorderState, e: Event, now: int)
    ensures var s' := Record(s, e, now);
      s'.last == now && s'.held == s.held && s'.flags == s.flags &&
      (s.collecting ==>
         |s'.recorded| == |s.recorded| + 1 && s'.recorded[..|s.recorded|] == s.recorded &&
         s'.recorded[|s.recorded|].time == now - s.last &&
         s'.recorded[|s.recorded|].isShift == s.flags.shift &&
         s'.recorded[|s.recorded|].isCtrl == s.flags.ctrl &&
         s'.recorded[|s.recorded|].isAlt == s.flags.alt) &&
      (!s.collecting ==> s'.recorded == s.recorded)
  {
  }

  function SumTimes(events: seq<Event>): int
  {
    if events == [] then 0 else SumTimes(events[..|events| - 1]) + events[|events| - 1].time
  }

  /** The recorded delays add up to the time from `start` to the last record:
      replaying them reproduces the elapsed time. */
  predicate ElapsedSince(s: RecorderState, start: int)
  {
    SumTimes(s.recorded) == s.last - start
  }

  lemma {:induction false} RecordKeepsElapsed(s: RecorderState, e: Event, now: int, start: int)
    requires s.collecting && ElapsedSince(s, start)
    ensures ElapsedSince(Record(s, e, now), start)
  {
    var r := Record(s, e, now).recorded;
    assert r[..|r| - 1] == s.recorded;
  }

  lemma {:induction false} EventsKeepElapsed(s: RecorderState, e: Event, now: int, ignoring: bool, windowPid: int, ownPid: int, start: int)
    requires s.collecting && ElapsedSince(s, start)
    ensures ElapsedSince(Keyboard(s, e, now), start)
    ensures ElapsedSince(Mouse(s, e, now, ignoring, windowPid, ownPid), start)
  {
    RecordKeepsElapsed(s, e, now, start);
    if !e.isDown && e.keyId in HeldIds(s.held) {
      var s1 := SetHeld(s, RemoveAt(s.held, FirstHeld(s.held, e.keyId)));
      RecordKeepsElapsed(s1, e, now, start);
    }
  }

  /** With a clock that never runs backwards, every recorded delay is non-negative. */
  lemma EventsKeepDelaysNonNegative(s: RecorderState, e: Event, now: int, ignoring: bool, windowPid: int, ownPid: int)
    requires now >= s.last
    requires forall i :: 0 <= i < |s.recorded| ==> s.recorded[i].time >= 0
    ensures var s' := Keyboard(s, e, now); forall i :: 0 <= i < |s'.recorded| ==> s'.recorded[i].time >= 0
    ensures var s' := Mouse(s, e, now, ignoring, windowPid, ownPid); forall i :: 0 <= i < |s'.recorded| ==> s'.recorded[i].time >= 0
  {
  }

  /** Pressing and releasing a key that was not held restores the held list and
      leaves the flags those of the held list. */
  lemma {:induction false} PressThenReleaseRestoresHeld(s: RecorderState, down: Event, up: Event, t1: int, t2: int)
    requires WellFormed(s.held)
    requires down.isDown && !up.isDown && down.keyId == up.keyId
    requires down.keyId in HOLDABLE_KEYS && down.keyId !in HeldIds(s.held)
    ensures var s' := Keyboard(Keyboard(s, down, t1), up, t2);
      s'.held == s.held && s'.flags == FlagsOf(s.held)
  {
    var h := s.held + [down];
    assert down.keyId in HeldIds(h) by { assert h[|s.held|] == down; }
    var i := FirstHeld(h, down.keyId);
    assert i == |s.held|;
    assert RemoveAt(h, i) == s.held;
  }

  lemma {:induction false} HeldIdsAppend(held: seq<Event>, e: Event)
    ensures HeldIds(held + [e]) == HeldIds(held) + {e.keyId}
  {
    var h := held + [e];
    assert h[|held|] == e;
    forall k | k in HeldIds(held) ensures k in HeldIds(h) {
      var i :| 0 <= i < |held| && held[i].keyId == k;
      assert h[i] == held[i];
    }
  }

  function Initial(collecting: bool, now: int): RecorderState
  {
    RecorderState([], Flags(false, false, false), now, [], collecting)
  }

  /** Hold left shift, press "a", release left shift: "a" is recorded with the
      shift flag, then the shift key-up, stamped after the flags were recomputed. */
  lemma {:induction false} ShiftChordExample(shiftDown: Event, a: Event, shiftUp: Event, t0: int, t1: int, t2: int, t3: int)
    requires shiftDown.isDown && shiftDown.keyId == 160
    requires a.isDown && a.keyId == 65
    requires !shiftUp.isDown && shiftUp.keyId == 160
    ensures var s := Keyboard(Keyboard(Keyboard(Initial(true, t0), shiftDown, t1), a, t2), shiftUp, t3);
      s.recorded == [a.(time := t2 - t0, isShift := true, isCtrl := false, isAlt := false),
                     shiftUp.(time := t3 - t2, isShift := false, isCtrl := false, isAlt := false)] &&
      s.held == [] && s.last == t3
  {
    var s1 := Keyboard(Initial(true, t0), shiftDown, t1);
    assert s1.held == [] + [shiftDown];
    HeldIdsAppend([], shiftDown);
    var s2 := Keyboard(s1, a, t2);
    assert s2.held == [shiftDown];
    assert FirstHeld(s2.held, 160) == 0;
    assert HeldIds([]) == {};
  }

  /** Pressing left ctrl and then left alt holds both, in that order, with the
      ctrl and alt flags set and nothing recorded. */
  lemma {:induction false} CtrlAltPressExample(ctrl: Event, alt: Event, t0: int, t1: int, t2: int)
    requires ctrl.isDown && ctrl.keyId == 162 && alt.isDown && alt.keyId == 164
    ensures var s := Keyboard(Keyboard(Initial(true, t0), ctrl, t1), alt, t2);
      s == SetHeld(Initial(true, t0), [ctrl, alt]) && s.flags == Flags(false, true, true)
  {
    var s0 := Initial(true, t0);
    var s1 := Keyboard(s0, ctrl, t1);
    assert s1.held == [] + [ctrl];
    HeldIdsAppend([], ctrl);
    assert s1 == SetHeld(s0, [ctrl]);
    assert HeldIds([]) == {};
    assert 164 !in HeldIds(s1.held);
    var s2 := Keyboard(s1, alt, t2);
    HeldIdsAppend([ctrl], alt);
    var h := [ctrl, alt];
    assert [ctrl] + [alt] == h;
    assert s2 == SetHeld(s0, h);
    assert HeldIds(h) == {162, 164};
    assert 162 in CTRL_KEYS * HeldIds(h) && 164 in ALT_KEYS * HeldIds(h);
    assert SHIFT_KEYS * HeldIds(h) == {};
  }

  /** Ctrl+Alt+Del: the delete is not recorded and the next key is stamped with
      neither ctrl nor alt, although both keys are still in the held list. */
  lemma {:induction false} CtrlAltDeleteExample(ctrl: Event, alt: Event, del: Event, x: Event, t0: int, t1: int, t2: int, t3: int, t4: int)
    requires ctrl.isDown && ctrl.keyId == 162 && alt.isDown && alt.keyId == 164
    requires del.isDown && del.keyId == DEL && x.isDown && x.keyId == 88
    ensures var s := Keyboard(Keyboard(Keyboard(Keyboard(Initial(true, t0), ctrl, t1), alt, t2), del, t3), x, t4);
      s.held == [ctrl, alt] &&
      s.recorded == [x.(time := t4 - t0, isShift := false, isCtrl := false, isAlt := false)]
  {
    CtrlAltPressExample(ctrl, alt, t0, t1, t2);
    var s2 := SetHeld(Initial(true, t0), [ctrl, alt]);
    assert s2.held[0].keyId == 162 && s2.held[1].keyId == 164;
    assert 162 in CTRL_KEYS * HeldIds(s2.held) && 164 in ALT_KEYS * HeldIds(s2.held);
    var s3 := Keyboard(s2, del, t3);
    DeleteIsNeverRecorded(s2, del, t3);
    assert s3.flags == Flags(false, false, false) && s3.last == t0 && s3.recorded == [];
    var s4 := Keyboard(s3, x, t4);
    assert s4 == Record(s3, x, t4);
  }


  // ---------------------------------------------------------------------------
  // The recorder object

  class Recorder {
    var held: seq<Event>              // __keys_held_down
    var shiftHeld: bool               // __shift_is_held
    var ctrlHeld: bool                // __ctrl_is_held
    var altHeld: bool                 // __alt_is_held
    var last: int                     // __time_since_last_command
    var events: seq<Event>            // events_collection
    const collecting: bool            // events_collection is not None
    const processToIgnore: Option<int>
    const ownPid: int                 // os.getpid()
    const id: int                     // this recorder as a listener entry
    var listener: Listener?           // __listener
    var cleared: bool                 // release() has set the clock and the held list to None

    ghost function State(): RecorderState
      reads this
    {
      RecorderState(held, Flags(shiftHeld, ctrlHeld, altHeld), last, events, collecting)
    }

    function AsSubscriber(): Subscriber
    {
      Client(id, true, true)
    }

    /** `WindowsRecorder(events_collection, process_to_ignore)` at clock `now`,
        sharing the process-wide listener. */
    constructor (singleton: ListenerSingleton, eventsCollection: Option<seq<Event>>, processToIgnore: Option<int>, ownPid: int, now: int, id: int)
      modifies singleton, singleton.instance
      ensures State() == RecorderState([], Flags(false, false, false), now,
                                       if eventsCollection.Some? then eventsCollection.value else [], eventsCollection.Some?)
      ensures this.processToIgnore == processToIgnore && this.ownPid == ownPid && this.id == id
      ensures listener == singleton.instance && listener != null && !cleared
      ensures old(singleton.instance) == null ==> fresh(listener) && listener.subscribers == []
      ensures old(singleton.instance) != null ==> listener == old(singleton.instance)
    {
      var l := singleton.Construct();
      listener := l;
      held := [];
      shiftHeld, ctrlHeld, altHeld := false, false, false;
      collecting := eventsCollection.Some?;
      events := if eventsCollection.Some? then eventsCollection.value else [];
      this.processToIgnore := processToIgnore;
      this.ownPid := ownPid;
      this.id := id;
      last := now;
      cleared := false;
    }

    /** on_mouse_event. `windowPid` is the owner of the event's window. After
        release() the clock is None and recording raises TypeError. */
    method OnMouseEvent(e: Event, now: int, windowPid: int) returns (r: Outcome)
      modifies this
      ensures !old(cleared) ==> r == Pass && State() == Mouse(old(State()), e, now, processToIgnore.Some?, windowPid, ownPid)
      ensures old(cleared) ==>
        State() == old(State()) && r == (if processToIgnore.Some? && windowPid == ownPid then Pass else Fail(TypeError))
      ensures listener == old(listener) && cleared == old(cleared)
    {
      if processToIgnore.Some? && windowPid == ownPid {
        return Pass;
      }
      r := RecordEvent(e, now);
    }

    /** on_keyboard_event. */
    method OnKeyboardEvent(e: Event, now: int) returns (r: Outcome)
      modifies this
      ensures !old(cleared) ==> r == Pass && State() == Keyboard(old(State()), e, now)
      ensures old(cleared) ==> r == Fail(TypeError) && State() == old(State())
      ensures listener == old(listener) && cleared == old(cleared)
    {
      if e.isDown {
        r := OnKeyDownEvent(e, now);
      } else {
        r := OnKeyUpEvent(e, now);
      }
    }

    /** on_key_up_event. */
    method OnKeyUpEvent(e: Event, now: int) returns (r: Outcome)
      modifies this
      ensures !old(cleared) ==> r == Pass && State() == KeyUp(old(State()), e, now)
      ensures old(cleared) ==> r == Fail(TypeError) && State() == old(State())
      ensures listener == old(listener) && cleared == old(cleared)
    {
      if cleared {
        return Fail(TypeError);
      }
      var i := 0;
      while i < |held| && held[i].keyId != e.keyId
        invariant 0 <= i <= |held| && e.keyId !in HeldIds(held[..i])
      {
        assert held[..i + 1] == held[..i] + [held[i]];
        i := i + 1;
      }
      if i < |held| {
        assert i == FirstHeld(held, e.keyId);
        held := held[..i] + held[i + 1..];
        SetHeldKeys();
        r := RecordEvent(e, now);
      } else {
        assert held[..i] == held;
        r := Pass;
      }
    }

    /** on_key_down_event. */
    method OnKeyDownEvent(e: Event, now: int) returns (r: Outcome)
      modifies this
      ensures !old(cleared) ==> r == Pass && State() == KeyDown(old(State()), e, now)
      ensures old(cleared) ==> r == Fail(TypeError) && State() == old(State())
      ensures listener == old(listener) && cleared == old(cleared)
    {
      if cleared {
        return Fail(TypeError);
      }
      if e.keyId in HOLDABLE_KEYS {
        if e.keyId in HeldIds(held) {
          return Pass;
        }
        held := held + [e];
        SetHeldKeys();
        return Pass;
      }
      if e.keyId == DEL {
        if CTRL_KEYS * HeldIds(held) != {} && ALT_KEYS * HeldIds(held) != {} {
          ctrlHeld := false;
          altHeld := false;
        }
        return Pass;
      }
      r := RecordEvent(e, now);
    }

    /** __set_held_keys. */
    method SetHeldKeys()
      modifies this
      ensures State() == SetHeld(old(State()), old(held))
      ensures listener == old(listener) && cleared == old(cleared)
    {
      var ids := HeldIds(held);
      altHeld := ALT_KEYS * ids != {};
      ctrlHeld := CTRL_KEYS * ids != {};
      shiftHeld := SHIFT_KEYS * ids != {};
    }

    /** __record_event. */
    method RecordEvent(e: Event, now: int) returns (r: Outcome)
      modifies this
      ensures !old(cleared) ==> r == Pass && State() == Record(old(State()), e, now)
      ensures old(cleared) ==> r == Fail(TypeError) && State() == old(State())
      ensures listener == old(listener) && cleared == old(cleared)
    {
      if cleared {
        return Fail(TypeError);
      }
      var stamped := e.(time := now - last, isShift := shiftHeld, isCtrl := ctrlHeld, isAlt := altHeld);
      last := now;
      if collecting {
        events := events + [stamped];
      }
      r := Pass;
    }

    /** start(): subscribe to the listener (AttributeError once it is released). */
    method Start() returns (r: Outcome)
      modifies this, listener
      ensures listener == old(listener) && State() == old(State()) && cleared == old(cleared)
      ensures old(listener) == null ==> r == Fail(AttributeError)
      ensures old(listener) != null ==>
        var added := AddTo(old(listener.subscribers), AsSubscriber());
        (added.Success? ==> r == Pass && listener.subscribers == old(listener.subscribers) + [AsSubscriber()]) &&
        (added.Failure? ==> r == Fail(ValueError) && listener.subscribers == old(listener.subscribers))
      ensures old(listener) != null ==>
        listener.queue == old(listener.queue) && listener.initialized == old(listener.initialized) &&
        listener.pumpsStarted == old(listener.pumpsStarted)
    {
      if listener == null {
        return Fail(AttributeError);
      }
      r := listener.AddListener(AsSubscriber());
    }

    /** stop(): unsubscribe; ValueError when the recorder is not subscribed. */
    method Stop() returns (r: Outcome)
      modifies this, listener
      ensures listener == old(listener) && State() == old(State()) && cleared == old(cleared)
      ensures old(listener) == null ==> r == Fail(AttributeError)
      ensures old(listener) != null ==>
        var removed := RemoveFrom(old(listener.subscribers), AsSubscriber());
        (removed.Success? ==> r == Pass && listener.subscribers == removed.value) &&
        (removed.Failure? ==> r == Fail(ValueError) && listener.subscribers == old(listener.subscribers))
      ensures old(listener) != null ==>
        listener.queue == old(listener.queue) && listener.initialized == old(listener.initialized) &&
        listener.pumpsStarted == old(listener.pumpsStarted)
    {
      if listener == null {
        return Fail(AttributeError);
      }
      r := listener.RemoveListener(AsSubscriber());
    }

    /** release(): stop once, drop the listener, then drop the clock and the held
        keys. A failing stop() propagates before anything is dropped; once the
        listener is dropped, further calls only re-clear. */
    method Release() returns (r: Outcome)
      modifies this, listener
      ensures old(listener) != null && RemoveFrom(old(listener.subscribers), AsSubscriber()).Failure? ==>
        r == Fail(ValueError) && listener == old(listener) && State() == old(State()) && cleared == old(cleared)
      ensures old(listener) != null && RemoveFrom(old(listener.subscribers), AsSubscriber()).Success? ==>
        r == Pass && old(listener).subscribers == RemoveFrom(old(listener.subscribers), AsSubscriber()).value &&
        listener == null && cleared && held == []
      ensures old(listener) == null ==> r == Pass && listener == null && cleared && held == []
      ensures events == old(events) && last == old(last)
      ensures shiftHeld == old(shiftHeld) && ctrlHeld == old(ctrlHeld) && altHeld == old(altHeld)
      ensures old(listener) != null && r.Fail? ==> listener.subscribers == old(listener.subscribers)
      ensures old(listener) != null ==>
        old(listener).queue == old(listener.queue) && old(listener).initialized == old(listener.initialized) &&
        old(listener).pumpsStarted == old(listener.pumpsStarted)
    {
      if listener != null {
        r := Stop();
        if r.Fail? {
          return;
        }
        listener := null;
      }
      cleared := true;
      held := [];
      r := Pass;
    }
  }

  /** A recorder subscribed with start() is the last listener; released, it is
      no longer listed and keeps its recording, and a second release does
      nothing more. */
  method RecorderLifecycle(now: int) returns (subscribedLast: bool, unsubscribed: bool, second: Outcome, kept: bool)
    ensures subscribedLast && unsubscribed && second == Pass && kept
  {
    var singleton := new ListenerSingleton();
    var rec := new Recorder(singleton, Some([]), None, 1, now, 7);
    var l := rec.listener;
    var started := rec.Start();
    subscribedLast := l.subscribers != [] && l.subscribers[|l.subscribers| - 1] == rec.AsSubscriber();
    var released := rec.Release();
    unsubscribed := released == Pass && rec.listener == null;
    var recorded, flags, clock := rec.events, (rec.shiftHeld, rec.ctrlHeld, rec.altHeld), rec.last;
    second := rec.Release();
    kept := rec.events == recorded && (rec.shiftHeld, rec.ctrlHeld, rec.altHeld) == flags && rec.last == clock &&
            rec.listener == null && rec.cleared && rec.held == [];
  }
}
