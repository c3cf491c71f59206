/** playback/playback.py: the playback manager's lifecycle (start, the one-shot
    release, the cancel key), the button flag of a replayed click and the text of
    the generated playback script. */
module Playback {
  import opened Common
  import opened Events
  import opened Strings
  import Converter
  import opened Listeners

  // ---------------------------------------------------------------------------
  // mouse_click

  /** The win32con MOUSEEVENTF_* flags a click is replayed with. */
  const MOUSEEVENTF_LEFTDOWN: int := 0x0002
  const MOUSEEVENTF_LEFTUP: int := 0x0004
  const MOUSEEVENTF_RIGHTDOWN: int := 0x0008
  const MOUSEEVENTF_RIGHTUP: int := 0x0010

  /** The Win32 calls a replayed click makes. */
  datatype Win32Call =
    | SetCursorPos(x: int, y: int)
    | MouseEvent(code: int, x: int, y: int, data: int, extra: int)

  /** The flag for a press or release of the left or right button: the four
      cases get four different flags. */
  function ButtonCode(down: bool, left: bool): (code: int)
    ensures code == MOUSEEVENTF_LEFTDOWN <==> down && left
    ensures code == MOUSEEVENTF_RIGHTDOWN <==> down && !left
    ensures code == MOUSEEVENTF_LEFTUP <==> !down && left
    ensures code == MOUSEEVENTF_RIGHTUP <==> !down && !left
  {
    if down then
      if left then MOUSEEVENTF_LEFTDOWN else MOUSEEVENTF_RIGHTDOWN
    else
      if left then MOUSEEVENTF_LEFTUP else MOUSEEVENTF_RIGHTUP
  }

  /** The (down, left) pair a mouse_event flag stands for; None for any other flag. */
  function ButtonOf(code: int): Option<(bool, bool)>
  {
    if code == MOUSEEVENTF_LEFTDOWN then Some((true, true))
    else if code == MOUSEEVENTF_RIGHTDOWN then Some((true, false))
    else if code == MOUSEEVENTF_LEFTUP then Some((false, true))
    else if code == MOUSEEVENTF_RIGHTUP then Some((false, false))
    else None
  }

  /** The flag choice is one-to-one: decoding it gives back the button and the
      direction, and every decodable flag is chosen for its own pair. */
  lemma ButtonCodeRoundTrip(down: bool, left: bool, code: int)
    ensures ButtonOf(ButtonCode(down, left)) == Some((down, left))
    ensures ButtonOf(code) == Some((down, left)) ==> ButtonCode(down, left) == code
  {
  }

  /** mouse_click(x, y, down, left): the cursor is placed at (x, y) first, then
      the button flag is sent at the same position. */
  function MouseClick(x: int, y: int, down: bool, left: bool): (calls: seq<Win32Call>)
    ensures |calls| == 2 && calls[0] == SetCursorPos(x, y)
    ensures calls[1].MouseEvent? && calls[1].x == x && calls[1].y == y
    ensures calls[1].data == 0 && calls[1].extra == 0
    ensures ButtonOf(calls[1].code) == Some((down, left))
  {
    ButtonCodeRoundTrip(down, left, 0);
    [SetCursorPos(x, y), MouseEvent(ButtonCode(down, left), x, y, 0, 0)]
  }

  // ---------------------------------------------------------------------------
  // The manager's state and its transitions

  /** The key that cancels a playback: virtual-key code 123, F12. */
  const CANCEL_KEY: int := 123

  /** The test on_keyboard_event applies before releasing: a keyboard event, not
      injected by the playback itself, for the cancel key. */
  predicate IsCancelKey(e: Event)
  {
    e.kind == KEYBOARD && !e.injected && e.keyId == CANCEL_KEY
  }

  /** A start or end callback, by identity. */
  type Callback = int

  /** What the manager does to the world, in order. */
  datatype Effect =
    | Called(callback: Callback)        // a start or end callback runs
    | Launched(file: Option<string>)    // the playback process starts on `file`
    | WaiterStarted                     // the 'Script Ended Thread' starts
    | Terminated                        // the playback process is terminated
    | WaiterJoined                      // release waits for the 'Script Ended Thread'

  /** `for func in callbacks: func()`. */
  function Invoked(cbs: seq<Callback>): (r: seq<Effect>)
    ensures |r| == |cbs| && forall i :: 0 <= i < |cbs| ==> r[i] == Called(cbs[i])
  {
    seq(|cbs|, i requires 0 <= i < |cbs| => Called(cbs[i]))
  }

  /** The callbacks of an optional list; nothing for None. */
  function InvokedAll(cbs: Option<seq<Callback>>): seq<Effect>
  {
    if cbs.Some? then Invoked(cbs.value) else []
  }

  /** The fields of a WindowsPlaybackManager, with the effects made so far. */
  datatype ManagerState = ManagerState(
    listening: bool,                    // __key_logger is not None
    process: bool,                      // __recorded_script_process is not None
    waiter: bool,                       // __script_ended_thread is not None
    released: bool,                     // __released
    onStarted: Option<seq<Callback>>,   // __on_playback_started
    onEnded: Option<seq<Callback>>,     // __on_playback_ended
    file: Option<string>,               // file
    trace: seq<Effect>)

  /** The state `__init__` leaves: subscribed, nothing launched, nothing run yet. */
  function Initial(file: string, onStarted: Option<seq<Callback>>, onEnded: Option<seq<Callback>>): ManagerState
  {
    ManagerState(true, false, false, false, onStarted, onEnded, Some(file), [])
  }

  /** start(): every start callback in order, then the playback process on the
      file and the thread that waits for it. */
  function StartOf(s: ManagerState): (r: ManagerState)
    ensures r.process && r.waiter
    ensures |r.trace| >= |s.trace| && r.trace[..|s.trace|] == s.trace
    ensures r.trace[|s.trace|..] == InvokedAll(s.onStarted) + [Launched(s.file), WaiterStarted]
    ensures r.(process := s.process, waiter := s.waiter, trace := s.trace) == s
  {
    s.(trace := s.trace + InvokedAll(s.onStarted) + [Launched(s.file), WaiterStarted],
       process := true, waiter := true)
  }

  /** The manager after a call that may release it, the listener list of the
      listener it was subscribed to, and the call's outcome. */
  datatype Released = Released(state: ManagerState, subscribers: seq<Subscriber>, outcome: Outcome)

  /** release() on a manager subscribed as `me` to a listener holding `subs`.
      Once released, nothing happens. Otherwise the flag is set and the process
      terminated; unsubscribing then fails with ValueError when `me` is not in
      the list, and the rest of the method is skipped. On success the waiter is
      joined, the file and the start callbacks dropped without being run, and
      the end callbacks run in order and dropped. */
  function ReleaseOf(s: ManagerState, subs: seq<Subscriber>, me: Subscriber): (r: Released)
    ensures s.released ==> r == Released(s, subs, Pass)
    ensures !s.released ==> r.state.released && !r.state.process
    ensures r.outcome.Fail? <==> !s.released && s.listening && me !in subs
    ensures r.outcome.Fail? ==> r.outcome.error == ValueError && r.subscribers == subs && r.state.listening
    ensures !s.released && r.outcome == Pass ==>
      !r.state.listening && !r.state.waiter && r.state.file.None? && r.state.onStarted.None? && r.state.onEnded.None?
  {
    if s.released then Released(s, subs, Pass)
    else
      var removed := if s.listening then RemoveFrom(subs, me) else Success(subs);
      if removed.Failure? then Released(TerminateOf(s), subs, Fail(ValueError))
      else Released(FinishOf(TerminateOf(s)), removed.value, Pass)
  }

  /** The first steps of release(): the flag is set and the process terminated. */
  function TerminateOf(s: ManagerState): ManagerState
  {
    s.(released := true, process := false, trace := s.trace + (if s.process then [Terminated] else []))
  }

  /** The steps of release() after leaving the listener: the waiter is joined,
      the file and the start callbacks dropped, the end callbacks run and dropped. */
  function FinishOf(s: ManagerState): ManagerState
  {
    s.(listening := false, waiter := false, file := None, onStarted := None, onEnded := None,
       trace := s.trace + (if s.waiter then [WaiterJoined] else []) + InvokedAll(s.onEnded))
  }

  /** on_keyboard_event: only the cancel key releases the manager. */
  function OnKeyboardOf(s: ManagerState, subs: seq<Subscriber>, me: Subscriber, e: Event): Released
  {
    if IsCancelKey(e) then ReleaseOf(s, subs, me) else Released(s, subs, Pass)
  }

  /** A run of keyboard events delivered to the manager one after another. */
  function OnKeyboardEvents(s: ManagerState, subs: seq<Subscriber>, me: Subscriber, es: seq<Event>): Released
    decreases |es|
  {
    if es == [] then Released(s, subs, Pass)
    else
      var r := OnKeyboardOf(s, subs, me, es[0]);
      OnKeyboardEvents(r.state, r.subscribers, me, es[1..])
  }

  /** A release after a release does nothing: the process is terminated, the
      listener left and the end callbacks run at most once. */
  lemma ReleaseIsIdempotent(s: ManagerState, subs: seq<Subscriber>, me: Subscriber)
    ensures var r := ReleaseOf(s, subs, me);
      ReleaseOf(r.state, r.subscribers, me) == Released(r.state, r.subscribers, Pass)
  {
  }

  /** Release never runs a start callback: the effects it adds are the
      termination, the join and the end callbacks, in that order. */
  lemma ReleaseEffects(s: ManagerState, subs: seq<Subscriber>, me: Subscriber)
    requires !s.released
    ensures var r := ReleaseOf(s, subs, me);
      r.outcome == Pass ==>
        r.state.trace == s.trace + (if s.process then [Terminated] else []) +
                         (if s.waiter then [WaiterJoined] else []) + InvokedAll(s.onEnded)
    ensures var r := ReleaseOf(s, subs, me);
      r.outcome.Fail? ==> r.state.trace == s.trace + (if s.process then [Terminated] else [])
  {
  }

  /** Keyboard events without the cancel key leave the playback alone; with it,
      the playback ends exactly as one release() ends it, however many cancel
      keys follow and whatever else is pressed in between. */
  lemma {:induction false} CancelKeyReleasesOnce(s: ManagerState, subs: seq<Subscriber>, me: Subscriber, es: seq<Event>)
    decreases |es|
    ensures (forall i :: 0 <= i < |es| ==> !IsCancelKey(es[i])) ==>
      OnKeyboardEvents(s, subs, me, es) == Released(s, subs, Pass)
    ensures (exists i :: 0 <= i < |es| && IsCancelKey(es[i])) ==>
      var after := OnKeyboardEvents(s, subs, me, es);
      var once := ReleaseOf(s, subs, me);
      after.state == once.state && after.subscribers == once.subscribers
  {
    if es != [] {
      var r := OnKeyboardOf(s, subs, me, es[0]);
      CancelKeyReleasesOnce(r.state, r.subscribers, me, es[1..]);
      if IsCancelKey(es[0]) {
        ReleaseIsIdempotent(s, subs, me);
        AfterReleaseNothingChanges(r.state, r.subscribers, me, es[1..]);
      } else {
        assert forall i :: 1 <= i < |es| ==> es[1..][i - 1] == es[i];
      }
    }
  }

  /** Once released, no keyboard event changes the manager any more. */
  lemma {:induction false} AfterReleaseNothingChanges(s: ManagerState, subs: seq<Subscriber>, me: Subscriber, es: seq<Event>)
    requires s.released
    decreases |es|
    ensures OnKeyboardEvents(s, subs, me, es) == Released(s, subs, Pass)
  {
    if es != [] {
      AfterReleaseNothingChanges(s, subs, me, es[1..]);
    }
  }

  /** A whole playback subscribed to its listener: the start callbacks, the
      process and its waiter, then on release the termination, the join and the
      end callbacks; a later stop() adds nothing. */
  lemma Lifecycle(file: string, started: seq<Callback>, ended: seq<Callback>, subs: seq<Subscriber>, me: Subscriber)
    requires me in subs
    ensures var s := StartOf(Initial(file, Some(started), Some(ended)));
      var r := ReleaseOf(s, subs, me);
      r.outcome == Pass &&
      r.state.trace == Invoked(started) + [Launched(Some(file)), WaiterStarted, Terminated, WaiterJoined] + Invoked(ended) &&
      ReleaseOf(r.state, r.subscribers, me) == Released(r.state, r.subscribers, Pass)
  {
  }

  // ---------------------------------------------------------------------------
  // WindowsPlaybackManager

  class PlaybackManager {
    var keyLogger: Listener?              // __key_logger
    var process: bool                     // __recorded_script_process is not None
    var waiter: bool                      // __script_ended_thread is not None
    var released: bool                    // __released
    var onStarted: Option<seq<Callback>>  // __on_playback_started
    var onEnded: Option<seq<Callback>>    // __on_playback_ended
    var file: Option<string>              // file
    var trace: seq<Effect>                // what the manager has done so far
    const id: int                         // this manager as a listener entry
    const registered: Outcome             // how add_listener(self) in __init__ ended

    ghost function State(): ManagerState
      reads this
    {
      ManagerState(keyLogger != null, process, waiter, released, onStarted, onEnded, file, trace)
    }

    /** The listener list of the listener this manager is subscribed to. */
    ghost function Subscribers(): seq<Subscriber>
      reads this, keyLogger
    {
      if keyLogger != null then keyLogger.subscribers else []
    }

    function AsSubscriber(): Subscriber
    {
      Client(id, true, true)
    }

    /** `WindowsPlaybackManager(file, on_playback_started, on_playback_ended)`:
        takes the process-wide listener and subscribes to it. The subscription
        fails only when the listener lists itself. */
    constructor (singleton: ListenerSingleton, file: string, onStarted: Option<seq<Callback>>,
                 onEnded: Option<seq<Callback>>, id: int)
      modifies singleton, singleton.instance
      ensures State() == Initial(file, onStarted, onEnded) && this.id == id
      ensures keyLogger == singleton.instance && keyLogger != null && keyLogger.initialized
      ensures old(singleton.instance) == null ==> fresh(keyLogger) && keyLogger.subscribers == [AsSubscriber()] && registered == Pass
      ensures registered == (if Dispatcher in keyLogger.subscribers then Fail(ValueError) else Pass)
      ensures registered == Pass ==>
        keyLogger.subscribers != [] && keyLogger.subscribers[|keyLogger.subscribers| - 1] == AsSubscriber()
    {
      var l := singleton.Construct();
      var r := l.AddListener(Client(id, true, true));
      keyLogger := l;
      registered := r;
      process := false;
      waiter := false;
      released := false;
      this.onStarted := onStarted;
      this.onEnded := onEnded;
      this.file := Some(file);
      trace := [];
      this.id := id;
    }

    /** Runs every callback of `cbs`, in order. */
    method CallEach(cbs: seq<Callback>)
      modifies this
      ensures State() == old(State()).(trace := old(trace) + Invoked(cbs))
      ensures keyLogger == old(keyLogger)
    {
      var t := trace;
      var i := 0;
      while i < |cbs|
        invariant 0 <= i <= |cbs| && t == old(trace) + Invoked(cbs[..i])
      {
        assert Invoked(cbs[..i + 1]) == Invoked(cbs[..i]) + [Called(cbs[i])];
        t := t + [Called(cbs[i])];
        i := i + 1;
      }
      assert cbs[..i] == cbs;
      trace := t;
    }

    /** start(). */
    method Start()
      modifies this
      ensures State() == StartOf(old(State()))
      ensures keyLogger == old(keyLogger)
    {
      ghost var before := State();
      if onStarted.Some? {
        CallEach(onStarted.value);
      }
      trace := trace + [Launched(file), WaiterStarted];
      process, waiter := true, true;
      assert trace == before.trace + InvokedAll(before.onStarted) + [Launched(before.file), WaiterStarted];
    }

    /** on_mouse_event: does nothing. */
    method OnMouseEvent(e: Event)
      ensures unchanged(this)
    {
    }

    /** on_keyboard_event: releases the manager on the cancel key. */
    method OnKeyboardEvent(e: Event) returns (r: Outcome)
      modifies this, keyLogger
      ensures var after := OnKeyboardOf(old(State()), old(Subscribers()), AsSubscriber(), e);
        State() == after.state && r == after.outcome &&
        (old(keyLogger) != null ==> old(keyLogger).subscribers == after.subscribers)
      ensures keyLogger == null || keyLogger == old(keyLogger)
    {
      if IsCancelKey(e) {
        r := Release();
      } else {
        r := Pass;
      }
    }

    /** script_ended_thread_worker, once the playback process has exited. */
    method ScriptEnded() returns (r: Outcome)
      modifies this, keyLogger
      ensures var after := ReleaseOf(old(State()), old(Subscribers()), AsSubscriber());
        State() == after.state && r == after.outcome &&
        (old(keyLogger) != null ==> old(keyLogger).subscribers == after.subscribers)
      ensures keyLogger == null || keyLogger == old(keyLogger)
    {
      r := Release();
    }

    /** stop(). */
    method Stop() returns (r: Outcome)
      modifies this, keyLogger
      ensures var after := ReleaseOf(old(State()), old(Subscribers()), AsSubscriber());
        State() == after.state && r == after.outcome &&
        (old(keyLogger) != null ==> old(keyLogger).subscribers == after.subscribers)
      ensures keyLogger == null || keyLogger == old(keyLogger)
    {
      r := Release();
    }

    /** release(). A failing remove_listener propagates out of the method. */
    method Release() returns (r: Outcome)
      modifies this, keyLogger
      ensures var after := ReleaseOf(old(State()), old(Subscribers()), AsSubscriber());
        State() == after.state && r == after.outcome &&
        (old(keyLogger) != null ==> old(keyLogger).subscribers == after.subscribers)
      ensures keyLogger == null || keyLogger == old(keyLogger)
      ensures old(keyLogger) != null ==>
        old(keyLogger).queue == old(keyLogger.queue) && old(keyLogger).initialized == old(keyLogger.initialized) &&
        old(keyLogger).pumpsStarted == old(keyLogger.pumpsStarted)
    {
      if released {
        return Pass;
      }
      Terminate();
      if keyLogger != null {
        r := keyLogger.RemoveListener(AsSubscriber());
        if r.Fail? {
          return;
        }
        keyLogger := null;
      }
      Finish();
      r := Pass;
    }

    /** release(), up to leaving the listener. */
    method Terminate()
      modifies this
      ensures State() == TerminateOf(old(State())) && keyLogger == old(keyLogger)
    {
      released := true;
      if process {
        trace := trace + [Terminated];
        process := false;
      }
    }

    /** release(), from joining the waiter on. */
    method Finish()
      requires keyLogger == null
      modifies this
      ensures State() == FinishOf(old(State())) && keyLogger == null
    {
      if waiter {
        trace := trace + [WaiterJoined];
        waiter := false;
      }
      file := None;
      if onStarted.Some? {
        onStarted := None;
      }
      if onEnded.Some? {
        CallEach(onEnded.value);
        onEnded := None;
      }
    }
  }

  /** The states of a playback cancelled by F12: the start callback, the
      process and its waiter, then the termination, the join and the two end
      callbacks; the listener list is left empty and a later stop() adds nothing. */
  lemma CancelledPlaybackStates(me: Subscriber)
    ensures var s := StartOf(Initial("macro.py", Some([1]), Some([2, 3])));
      var r := ReleaseOf(s, [me], me);
      r.outcome == Pass && r.subscribers == [] &&
      r.state.trace == [Called(1), Launched(Some("macro.py")), WaiterStarted, Terminated, WaiterJoined, Called(2), Called(3)] &&
      ReleaseOf(r.state, r.subscribers, me) == Released(r.state, [], Pass)
  {
    assert RemoveFrom([me], me) == Success([]);
    Lifecycle("macro.py", [1], [2, 3], [me], me);
  }

  /** A playback with one start and two end callbacks: an F12 injected by the
      playback is ignored, a real F12 cancels it, and a later stop() does nothing. */
  method CancelledPlayback() returns (trace: seq<Effect>, unsubscribed: bool, second: Outcome)
    ensures trace == [Called(1), Launched(Some("macro.py")), WaiterStarted, Terminated, WaiterJoined, Called(2), Called(3)]
    ensures unsubscribed && second == Pass
  {
    var singleton := new ListenerSingleton();
    var m := new PlaybackManager(singleton, "macro.py", Some([1]), Some([2, 3]), 5);
    var l := m.keyLogger;
    var me := m.AsSubscriber();
    CancelledPlaybackStates(me);
    m.Start();
    var f12 := Event(KEYBOARD, CANCEL_KEY, "F12", true, false, false, false, false, false, 0, "", 0, 0, 0, false, false, false);
    var ignored := m.OnKeyboardEvent(f12.(injected := true));
    assert m.State() == StartOf(Initial("macro.py", Some([1]), Some([2, 3])));
    var cancelled := m.OnKeyboardEvent(f12);
    unsubscribed := cancelled == Pass && me !in l.subscribers;
    second := m.Stop();
    trace := m.trace;
  }

  // ---------------------------------------------------------------------------
  // create_executable_playback_file

  /** The lines printed before the events; `dir` is the directory of the
      playback module. */
  function Header(dir: string): seq<string>
  {
    ["# Mandatory imports", "import time", "import sys", "", "",
     "# Set Python's path", "sys.path.append(r\"" + dir + "\\..\")",
     "from playback.playback import WindowsPlaybackManager", "", ""]
  }

  /** The arguments of a replayed click. */
  datatype Click = Click(x: int, y: int, down: bool, left: bool)

  function ClickOf(e: Event): Click
  {
    Click(e.x, e.y, e.isDown, e.isLeft)
  }

  const MOUSE_CALL: string := "WindowsPlaybackManager.mouse_click("

  /** The `%s` fields of a call, separated by `, `. */
  function Arguments(args: seq<string>): string
    decreases |args|
  {
    if args == [] then "" else if |args| == 1 then args[0] else args[0] + ", " + Arguments(args[1..])
  }

  function MouseArguments(c: Click): seq<string>
  {
    [IntToString(c.x), IntToString(c.y), BoolToString(c.down), BoolToString(c.left)]
  }

  /** The executable line of a mouse event. */
  function MouseExecutable(c: Click): string
  {
    MOUSE_CALL + Arguments(MouseArguments(c)) + ")"
  }

  /** The argument after a `, ` separator. */
  function AfterSpace(p: string): Option<string>
  {
    if |p| >= 1 && p[0] == ' ' then Some(p[1..]) else None
  }

  /** Reads a mouse_click line back into its arguments. */
  function ParseMouseClick(s: string): Option<Click>
  {
    var n := |MOUSE_CALL|;
    if |s| < n + 1 || s[..n] != MOUSE_CALL || s[|s| - 1] != ')' then None
    else ParseMouseArguments(SplitComma(s[n..|s| - 1]))
  }

  function ParseMouseArguments(parts: seq<string>): Option<Click>
  {
    if |parts| != 4 then None
    else
      var x, ys, ds, ls := ParseInt(parts[0]), AfterSpace(parts[1]), AfterSpace(parts[2]), AfterSpace(parts[3]);
      if x.None? || ys.None? || ds.None? || ls.None? then None
      else
        var y, d, l := ParseInt(ys.value), ParseBool(ds.value), ParseBool(ls.value);
        if y.None? || d.None? || l.None? then None
        else Some(Click(x.value, y.value, d.value, l.value))
  }

  /** `a, b` split at its first comma: `a`, then `b` after its space. */
  lemma SplitAtSeparator(a: string, b: string)
    requires ',' !in a
    ensures SplitComma(a + ", " + b) == [a] + SplitComma(" " + b)
  {
    assert a + ", " + b == a + "," + (" " + b);
    SplitCommaJoin(a, " " + b);
  }

  /** The joined form of four arguments. */
  lemma ArgumentsOfFour(a: string, b: string, c: string, d: string)
    ensures Arguments([a, b, c, d]) == a + ", " + (b + ", " + (c + ", " + d))
  {
    assert [c, d][1..] == [d];
    assert Arguments([c, d]) == c + ", " + d;
    assert [b, c, d][1..] == [c, d];
    assert Arguments([b, c, d]) == b + ", " + Arguments([c, d]);
    assert [a, b, c, d][1..] == [b, c, d];
  }

  /** The space after a separator belongs to the argument that follows it. */
  lemma SpaceBeforeArgument(b: string, r: string)
    ensures " " + (b + ", " + r) == (" " + b) + ", " + r
  {
  }

  /** Four comma-free arguments split back into themselves, each after the
      first with its separating space. */
  lemma SplitFourArguments(a: string, b: string, c: string, d: string)
    requires ',' !in a && ',' !in b && ',' !in c && ',' !in d
    ensures SplitComma(Arguments([a, b, c, d])) == [a, " " + b, " " + c, " " + d]
  {
    var r2 := c + ", " + d;
    var r1 := b + ", " + r2;
    ArgumentsOfFour(a, b, c, d);
    SpaceBeforeArgument(b, r2);
    SpaceBeforeArgument(c, d);
    assert ',' !in " " + b && ',' !in " " + c && ',' !in " " + d;
    SplitAtSeparator(a, r1);
    SplitAtSeparator(" " + b, r2);
    SplitAtSeparator(" " + c, d);
    var p3 := SplitComma(" " + d);
    assert p3 == [" " + d];
    var p2 := SplitComma(" " + r2);
    assert p2 == [" " + c, " " + d];
    var p1 := SplitComma(" " + r1);
    assert p1 == [" " + b, " " + c, " " + d];
    assert SplitComma(a + ", " + r1) == [a] + p1;
    DisplayOfFour(a, " " + b, " " + c, " " + d);
  }

  lemma DisplayOfFour<U>(a: U, b: U, c: U, d: U)
    ensures [a] + [b, c, d] == [a, b, c, d]
  {
  }

  /** The call's text lies between the opening `mouse_click(` and the final `)`. */
  lemma CallEnclosesArguments(inner: string)
    ensures var s := MOUSE_CALL + inner + ")";
      |s| >= |MOUSE_CALL| + 1 && s[..|MOUSE_CALL|] == MOUSE_CALL && s[|s| - 1] == ')' &&
      s[|MOUSE_CALL|..|s| - 1] == inner
  {
  }

  /** The four printed arguments read back into the click. */
  lemma MouseArgumentsRoundTrip(c: Click)
    ensures var args := MouseArguments(c);
      ParseMouseArguments([args[0], " " + args[1], " " + args[2], " " + args[3]]) == Some(c)
  {
    var args := MouseArguments(c);
    IntToStringRoundTrip(c.x);
    IntToStringRoundTrip(c.y);
    assert AfterSpace(" " + args[1]) == Some(args[1]);
    assert AfterSpace(" " + args[2]) == Some(args[2]);
    assert AfterSpace(" " + args[3]) == Some(args[3]);
  }

  /** A mouse line carries its click exactly: reading it back gives the event's
      position, direction and button. */
  lemma MouseExecutableRoundTrip(c: Click)
    ensures ParseMouseClick(MouseExecutable(c)) == Some(c)
  {
    var args := MouseArguments(c);
    assert ',' !in BoolToString(c.down) && ',' !in BoolToString(c.left);
    CallEnclosesArguments(Arguments(args));
    SplitFourArguments(args[0], args[1], args[2], args[3]);
    MouseArgumentsRoundTrip(c);
  }

  /** Replaying a recorded click's line presses or releases the recorded button
      at the recorded position. */
  lemma MouseLineReplaysClick(e: Event)
    requires e.kind == MOUSE
    ensures var c := ParseMouseClick(MouseExecutable(ClickOf(e)));
      c.Some? &&
      var calls := MouseClick(c.value.x, c.value.y, c.value.down, c.value.left);
      calls[0] == SetCursorPos(e.x, e.y) && ButtonOf(calls[1].code) == Some((e.isDown, e.isLeft))
  {
    MouseExecutableRoundTrip(ClickOf(e));
  }

  /** The executable line of a keyboard event around its SendKeys text. */
  function KeyExecutable(text: string): string
  {
    "WindowsPlaybackManager.key_press(\"" + text + "\")"
  }

  /** `converter.to_send_key(...) or event.Key`, the conversion called with its
      count as None. */
  function KeyCommand(e: Event): (text: string)
    ensures var converted := Converter.ToSendKey(e.key, e.isCtrl, e.isAlt, e.isShift, None);
      converted.Success? && text == (if converted.value != "" then converted.value else e.key)
  {
    var converted := Converter.ToSendKey(e.key, e.isCtrl, e.isAlt, e.isShift, None).value;
    if converted != "" then converted else e.key
  }

  /** A mouse or keyboard event: the kinds the script replays. */
  predicate HasExecutable(e: Event) { e.kind == MOUSE || e.kind == KEYBOARD }

  /** `event.Executable` once the gathering loop has visited the event; None for
      an event of another type, which gets no executable. */
  function Executable(e: Event): (exe: Option<string>)
    ensures exe.Some? <==> HasExecutable(e)
  {
    if e.kind == MOUSE then Some(MouseExecutable(ClickOf(e)))
    else if e.kind == KEYBOARD then Some(KeyExecutable(KeyCommand(e)))
    else None
  }

  function Executables(events: seq<Event>): (r: seq<Option<string>>)
    ensures |r| == |events| && forall i :: 0 <= i < |events| ==> r[i] == Executable(events[i])
  {
    seq(|events|, i requires 0 <= i < |events| => Executable(events[i]))
  }

  /** `max_length` after the gathering loop: an executable longer than the
      current width sets the width to its length plus four. */
  function Width(exes: seq<Option<string>>): nat
  {
    if exes == [] then 0
    else
      var w := Width(exes[..|exes| - 1]);
      var x := exes[|exes| - 1];
      if x.Some? && |x.value| > w then |x.value| + 4 else w
  }

  /** No executable is longer than the width, so every comment starts at or
      after the end of its line's executable. */
  lemma {:induction false} WidthCoversEveryLine(exes: seq<Option<string>>)
    ensures forall i :: 0 <= i < |exes| && exes[i].Some? ==> |exes[i].value| <= Width(exes)
  {
    if exes != [] {
      var init := exes[..|exes| - 1];
      WidthCoversEveryLine(init);
      assert forall i :: 0 <= i < |init| ==> init[i] == exes[i];
    }
  }

  /** The width is zero, or four more than the length of one of the executables. */
  lemma {:induction false} WidthComesFromALine(exes: seq<Option<string>>)
    ensures Width(exes) == 0 ||
      exists i :: 0 <= i < |exes| && exes[i].Some? && Width(exes) == |exes[i].value| + 4
  {
    if exes != [] {
      var init := exes[..|exes| - 1];
      WidthComesFromALine(init);
      if Width(exes) == Width(init) && Width(init) != 0 {
        var i :| 0 <= i < |init| && init[i].Some? && Width(init) == |init[i].value| + 4;
        assert exes[i] == init[i];
      }
    }
  }

  /** The width is only raised by a line longer than the current width, not by
      one longer than the longest line so far: a line four characters longer
      than the first one gets no space before its comment. */
  lemma NoGapExample()
    ensures var exes := [Some("abcdef"), Some("abcdefghij")];
      Width(exes) == 10 && PadRight(exes[1].value, Width(exes)) == exes[1].value
  {
    var exes := [Some("abcdef"), Some("abcdefghij")];
    assert exes[..1] == [Some("abcdef")];
    assert exes[..1][..0] == [];
  }

  /** The comment prefix: "Shift + ", "Alt + " and "Ctrl + " for the flags set. */
  function ModifierMessage(shift: bool, alt: bool, ctrl: bool): string
  {
    var m := if shift then "Shift + " else "";
    var m := if alt then m + "Alt + " else m;
    if ctrl then m + "Ctrl + " else m
  }

  /** The comment's name of one SendKeys modifier character. */
  function ModifierName(c: char): string
  {
    match c
    case '+' => "Shift + "
    case '%' => "Alt + "
    case '^' => "Ctrl + "
    case _ => ""
  }

  /** The name of each SendKeys modifier character, in order. */
  function PrefixNames(p: string): string
  {
    if p == [] then [] else ModifierName(p[0]) + PrefixNames(p[1..])
  }

  /** The comment names the modifiers of the SendKeys prefix, in the same order
      as the prefix characters. */
  lemma CommentNamesPrefix(shift: bool, alt: bool, ctrl: bool)
    ensures ModifierMessage(shift, alt, ctrl) == PrefixNames(Converter.ModifierPrefix(ctrl, alt, shift))
  {
    var a, b, c := if ctrl then "^" else "", if alt then "%" else "", if shift then "+" else "";
    assert Converter.ModifierPrefix(ctrl, alt, shift) == (c + b) + a;
    PrefixNamesConcat(c + b, a);
    PrefixNamesConcat(c, b);
    assert PrefixNames(a) == if ctrl then "Ctrl + " else "";
    assert PrefixNames(b) == if alt then "Alt + " else "";
    assert PrefixNames(c) == if shift then "Shift + " else "";
  }

  lemma {:induction false} PrefixNamesConcat(p: string, q: string)
    ensures PrefixNames(p + q) == PrefixNames(p) + PrefixNames(q)
  {
    if p == [] {
      assert p + q == q;
    } else {
      assert (p + q)[0] == p[0] && (p + q)[1..] == p[1..] + q;
      PrefixNamesConcat(p[1..], q);
    }
  }

  /** `time.sleep(event.Time)`. */
  function SleepLine(e: Event): string
  {
    "time.sleep(" + IntToString(e.time) + ")"
  }

  /** `'%-*s%s' % (width, exe, comment)`: the executable, spaces up to the
      width, then the comment. */
  function Line(exe: string, width: nat, comment: string): (line: string)
    ensures |line| == (if |exe| < width then width else |exe|) + |comment|
    ensures line[..|exe|] == exe
    ensures forall i :: |exe| <= i < width ==> line[i] == ' '
    ensures line[|line| - |comment|..] == comment
  {
    PadRight(exe, width) + comment
  }

  /** The comment after an executable line. */
  function Comment(e: Event): string
  {
    if e.kind == MOUSE then "# Window: " + e.windowName
    else "# Key: " + ModifierMessage(e.isShift, e.isAlt, e.isCtrl) + e.key + " "
  }

  /** The lines one event adds to the script, given the executable the
      gathering loop set on it and the width: its sleep, then for a mouse or
      keyboard event its executable, padded to the width, and its comment. */
  function EventLines(e: Event, exe: Option<string>, width: nat): (lines: seq<string>)
    requires HasExecutable(e) ==> exe.Some?
    ensures |lines| >= 1 && lines[0] == SleepLine(e)
    ensures !HasExecutable(e) ==> |lines| == 1
    ensures HasExecutable(e) ==> lines == [SleepLine(e), Line(exe.value, width, Comment(e))]
    ensures HasExecutable(e) ==> lines[1][..|exe.value|] == exe.value
    // comments start in the same column whenever the executable fits the width
    ensures HasExecutable(e) && |exe.value| <= width ==> |lines[1]| >= width && lines[1][width..] == Comment(e)
  {
    var sleep := SleepLine(e);
    if e.kind == MOUSE then [sleep, Line(exe.value, width, "# Window: " + e.windowName)]
    else if e.kind == KEYBOARD then
      [sleep, Line(exe.value, width, "# Key: " + ModifierMessage(e.isShift, e.isAlt, e.isCtrl) + e.key + " ")]
    else [sleep]
  }

  /** Every mouse and keyboard event has its executable set. */
  predicate Gathered(events: seq<Event>, exes: seq<Option<string>>)
  {
    |exes| == |events| && forall i :: 0 <= i < |events| && HasExecutable(events[i]) ==> exes[i].Some?
  }

  /** The lines of the printing loop, event after event. */
  function Body(events: seq<Event>, exes: seq<Option<string>>, width: nat): seq<string>
    requires Gathered(events, exes)
  {
    if events == [] then []
    else
      assert HasExecutable(events[0]) ==> exes[0].Some?;
      EventLines(events[0], exes[0], width) + Body(events[1..], exes[1..], width)
  }

  /** The printing loop adds one event's lines after the lines of the events
      before it. */
  lemma {:induction false} BodyAppend(events: seq<Event>, exes: seq<Option<string>>, e: Event, exe: Option<string>, width: nat)
    requires Gathered(events, exes) && (HasExecutable(e) ==> exe.Some?)
    ensures Gathered(events + [e], exes + [exe])
    ensures Body(events + [e], exes + [exe], width) == Body(events, exes, width) + EventLines(e, exe, width)
  {
    if events != [] {
      assert (events + [e])[1..] == events[1..] + [e];
      assert (exes + [exe])[1..] == exes[1..] + [exe];
      BodyAppend(events[1..], exes[1..], e, exe, width);
    }
  }

  /** The gathered executables fit the events. */
  lemma ExecutablesGathered(events: seq<Event>)
    ensures Gathered(events, Executables(events))
  {
  }

  /** The whole script for `events`. */
  function Script(dir: string, events: seq<Event>): seq<string>
  {
    ExecutablesGathered(events);
    var exes := Executables(events);
    Header(dir) + Body(events, exes, Width(exes))
  }

  /** create_executable_playback_file with line 177 calling to_send_key with
      the count: the executables of the events and the printed lines. */
  method CreateExecutablePlaybackFile(dir: string, events: seq<Event>) returns (executables: seq<Option<string>>, lines: seq<string>)
    ensures executables == Executables(events)
    ensures lines == Script(dir, events)
  {
    lines := Header(dir);
    var maxLength;
    executables, maxLength := GatherExecutables(events);
    ExecutablesGathered(events);
    var body := PrintEvents(events, executables, maxLength);
    lines := lines + body;
  }

  /** The gathering loop: each event's executable, and `max_length`. */
  method GatherExecutables(events: seq<Event>) returns (executables: seq<Option<string>>, maxLength: nat)
    ensures executables == Executables(events) && maxLength == Width(executables)
  {
    maxLength := 0;
    executables := [];
    var x := 0;
    while x < |events|
      invariant 0 <= x <= |events|
      invariant executables == Executables(events[..x])
      invariant maxLength == Width(executables)
    {
      var event := events[x];
      var exe: Option<string> := None;
      if event.kind == MOUSE {
        exe := Some(MouseExecutable(ClickOf(event)));
      } else if event.kind == KEYBOARD {
        exe := Some(KeyExecutable(KeyCommand(event)));
      }
      executables, maxLength := Gathering(events, x, executables, maxLength, exe);
      x := x + 1;
    }
    assert events[..x] == events;
  }

  /** The end of one turn of the gathering loop: `max_length` raised by a
      longer executable, which is appended. */
  method Gathering(events: seq<Event>, x: nat, executables: seq<Option<string>>, maxLength: nat, exe: Option<string>)
    returns (executables': seq<Option<string>>, maxLength': nat)
    requires x < |events| && executables == Executables(events[..x]) && maxLength == Width(executables)
    requires exe == Executable(events[x])
    ensures executables' == Executables(events[..x + 1]) && maxLength' == Width(executables')
  {
    maxLength' := maxLength;
    if exe.Some? && |exe.value| > maxLength {
      maxLength' := |exe.value| + 4;
    }
    GatherStep(events, x, executables, exe);
    executables' := executables + [exe];
  }

  /** One turn of the gathering loop for an event other than a key event. */
  method GatherOther(events: seq<Event>, x: nat, executables: seq<Option<string>>, maxLength: nat)
    returns (executables': seq<Option<string>>, maxLength': nat)
    requires x < |events| && events[x].kind != KEYBOARD
    requires executables == Executables(events[..x]) && maxLength == Width(executables)
    ensures executables' == Executables(events[..x + 1]) && maxLength' == Width(executables')
  {
    var event := events[x];
    var exe: Option<string> := None;
    if event.kind == MOUSE {
      exe := Some(MouseExecutable(ClickOf(event)));
    }
    executables', maxLength' := Gathering(events, x, executables, maxLength, exe);
  }

  /** One more event gathered. */
  lemma GatherStep(events: seq<Event>, x: nat, executables: seq<Option<string>>, exe: Option<string>)
    requires x < |events| && executables == Executables(events[..x]) && exe == Executable(events[x])
    ensures executables + [exe] == Executables(events[..x + 1])
    ensures (executables + [exe])[..|executables|] == executables
  {
    assert events[..x + 1][..x] == events[..x];
  }

  /** The printing loop: each event's lines from the executable set on it. */
  method PrintEvents(events: seq<Event>, executables: seq<Option<string>>, maxLength: nat)
    returns (lines: seq<string>)
    requires Gathered(events, executables)
    ensures lines == Body(events, executables, maxLength)
  {
    lines := [];
    var i := 0;
    while i < |events|
      invariant 0 <= i <= |events|
      invariant Gathered(events[..i], executables[..i])
      invariant lines == Body(events[..i], executables[..i], maxLength)
    {
      var printed := PrintEvent(events[i], executables[i], maxLength);
      PrintStep(events, executables, i, maxLength);
      lines := lines + printed;
      i := i + 1;
    }
    assert events[..i] == events && executables[..i] == executables;
  }

  /** One turn of the printing loop: the sleep, then for a mouse or keyboard
      event its executable padded to the width and its comment. */
  method PrintEvent(event: Event, exe: Option<string>, maxLength: nat) returns (printed: seq<string>)
    requires HasExecutable(event) ==> exe.Some?
    ensures printed == EventLines(event, exe, maxLength)
  {
    var sleep := SleepLine(event);
    printed := [sleep];
    if event.kind == MOUSE {
      printed := [sleep, Line(exe.value, maxLength, "# Window: " + event.windowName)];
    } else if event.kind == KEYBOARD {
      var message := ModifierMessage(event.isShift, event.isAlt, event.isCtrl);
      printed := [sleep, Line(exe.value, maxLength, "# Key: " + message + event.key + " ")];
    }
  }

  /** One more event printed. */
  lemma PrintStep(events: seq<Event>, exes: seq<Option<string>>, i: nat, width: nat)
    requires Gathered(events, exes) && i < |events| && Gathered(events[..i], exes[..i])
    ensures Gathered(events[..i + 1], exes[..i + 1])
    ensures Body(events[..i + 1], exes[..i + 1], width) ==
      Body(events[..i], exes[..i], width) + EventLines(events[i], exes[i], width)
  {
    assert events[..i + 1] == events[..i] + [events[i]];
    assert exes[..i + 1] == exes[..i] + [exes[i]];
    BodyAppend(events[..i], exes[..i], events[i], exes[i], width);
  }

  /** Some event of the sequence is a key event. */
  predicate HasKeyboard(events: seq<Event>)
  {
    exists i :: 0 <= i < |events| && events[i].kind == KEYBOARD
  }

  /** Index of the first keyboard event. */
  function FirstKeyboard(events: seq<Event>): (k: nat)
    requires HasKeyboard(events)
    ensures k < |events| && events[k].kind == KEYBOARD
    ensures forall i :: 0 <= i < k ==> events[i].kind != KEYBOARD
  {
    if events[0].kind == KEYBOARD then 0
    else
      assert exists i :: 0 <= i < |events[1..]| && events[1..][i].kind == KEYBOARD by {
        var i :| 0 <= i < |events| && events[i].kind == KEYBOARD;
        assert events[1..][i - 1] == events[i];
      }
      1 + FirstKeyboard(events[1..])
  }

  /** The first keyboard event is the one with no keyboard event before it,
      and the executables gathered before it are those of the events before it. */
  lemma FirstKeyboardAt(events: seq<Event>, x: nat, executables: seq<Option<string>>)
    requires x < |events| && events[x].kind == KEYBOARD
    requires forall i :: 0 <= i < x ==> events[i].kind != KEYBOARD
    requires executables == Executables(events[..x])
    ensures HasKeyboard(events)
    ensures executables == Executables(events[..FirstKeyboard(events)])
  {
    var k := FirstKeyboard(events);
    assert !(k < x) && !(x < k);
  }

  /** Without a keyboard event the gathering loop runs to the end. */
  lemma NoKeyboardAtAll(events: seq<Event>, x: nat)
    requires x == |events|
    requires forall i :: 0 <= i < x ==> events[i].kind != KEYBOARD
    ensures !HasKeyboard(events) && events[..x] == events
  {
  }

  /** create_executable_playback_file as written: the header is printed, then
      the first keyboard event stops the gathering loop with TypeError, after
      the executables of the events before it were set. Without keyboard events
      it prints the same script as the corrected method. */
  method CreateExecutablePlaybackFileAsWritten(dir: string, events: seq<Event>)
    returns (executables: seq<Option<string>>, lines: seq<string>, error: Option<Error>)
    ensures error.Some? <==> HasKeyboard(events)
    ensures error.Some? ==>
      error.value == TypeError && lines == Header(dir) &&
      executables == Executables(events[..FirstKeyboard(events)])
    ensures error.None? ==> executables == Executables(events) && lines == Script(dir, events)
  {
    lines := Header(dir);
    var maxLength;
    executables, maxLength, error := GatherExecutablesAsWritten(events);
    if error.None? {
      ExecutablesGathered(events);
      var body := PrintEvents(events, executables, maxLength);
      lines := lines + body;
    }
  }

  /** The gathering loop as written: a keyboard event raises TypeError at the
      call to to_send_key. */
  method GatherExecutablesAsWritten(events: seq<Event>) returns (executables: seq<Option<string>>, maxLength: nat, error: Option<Error>)
    ensures error.Some? <==> HasKeyboard(events)
    ensures error.Some? ==> error.value == TypeError && executables == Executables(events[..FirstKeyboard(events)])
    ensures error.None? ==> executables == Executables(events) && maxLength == Width(executables)
  {
    maxLength := 0;
    executables := [];
    var x := 0;
    while x < |events|
      invariant 0 <= x <= |events|
      invariant executables == Executables(events[..x])
      invariant maxLength == Width(executables)
      invariant forall i :: 0 <= i < x ==> events[i].kind != KEYBOARD
    {
      if events[x].kind == KEYBOARD {
        // to_send_key called with four of its five parameters raises TypeError
        FirstKeyboardAt(events, x, executables);
        return executables, maxLength, Some(TypeError);
      }
      executables, maxLength := GatherOther(events, x, executables, maxLength);
      x := x + 1;
    }
    NoKeyboardAtAll(events, x);
    error := None;
  }

  /** A press of Return after two time units, without modifiers. */
  function ReturnPress(): Event
  {
    Event(KEYBOARD, 13, "Return", true, false, false, false, false, false, 0, "", 0, 0, 2, false, false, false)
  }

  /** Return converts to `{ENTER}`. */
  lemma ReturnPressExecutable()
    ensures Executables([ReturnPress()]) == [Some(KeyExecutable("{ENTER}"))]
  {
    Converter.ReturnExample();
    assert KeyCommand(ReturnPress()) == "{ENTER}";
  }

  /** The lines of the Return press at a width of 47. */
  lemma ReturnPressLines()
    ensures Gathered([ReturnPress()], [Some(KeyExecutable("{ENTER}"))])
    ensures Body([ReturnPress()], [Some(KeyExecutable("{ENTER}"))], 47) ==
      ["time.sleep(2)", PadRight(KeyExecutable("{ENTER}"), 47) + "# Key: Return "]
  {
    var press, exes := ReturnPress(), [Some(KeyExecutable("{ENTER}"))];
    assert Body([press], exes, 47) == EventLines(press, exes[0], 47) by {
      assert [press][1..] == [] && exes[1..] == [];
    }
    assert SleepLine(press) == "time.sleep(2)" by {
      assert IntToString(2) == "2";
    }
    assert Comment(press) == "# Key: Return " by {
      assert ModifierMessage(false, false, false) == "";
    }
  }

  /** The script of one Return press: its sleep, then the key_press line padded
      to the width of 47 and the comment naming the key. */
  lemma ReturnPressScript(dir: string)
    ensures Script(dir, [ReturnPress()]) ==
      Header(dir) + ["time.sleep(2)", PadRight(KeyExecutable("{ENTER}"), 47) + "# Key: Return "]
  {
    var exes := [Some(KeyExecutable("{ENTER}"))];
    ReturnPressExecutable();
    assert |exes[0].value| == 43;
    assert Width(exes) == 47 by {
      assert exes[..0] == [];
    }
    ReturnPressLines();
  }

  /** One recorded key press: as written the script stops after its header
      with TypeError; corrected, the key becomes a key_press line. */
  method KeyPressScriptExample() returns (asWritten: Option<Error>, written: seq<string>, corrected: seq<string>)
    ensures asWritten == Some(TypeError) && written == Header("C:\\kf\\playback")
    ensures corrected == Header("C:\\kf\\playback") + ["time.sleep(2)", PadRight(KeyExecutable("{ENTER}"), 47) + "# Key: Return "]
  {
    var gathered;
    gathered, written, asWritten := CreateExecutablePlaybackFileAsWritten("C:\\kf\\playback", [ReturnPress()]);
    assert [ReturnPress()][0].kind == KEYBOARD;
    gathered, corrected := CreateExecutablePlaybackFile("C:\\kf\\playback", [ReturnPress()]);
    ReturnPressScript("C:\\kf\\playback");
  }
}
