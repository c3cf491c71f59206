/** utilities/listeners.py: the process-wide WindowsListener. Raw hook callbacks
    are normalised into events and queued; a pump drains the queue and routes
    every event to the subscribed listeners in subscription order. */
module Listeners {
  import opened Common
  import opened Events

  /** An entry of the listener list: a subscribing object identified by `id`,
      with whether it defines on_mouse_event and on_keyboard_event, or the
      WindowsListener itself, which defines neither public handler. */
  datatype Subscriber = Dispatcher | Client(id: int, hasMouseHandler: bool, hasKeyboardHandler: bool)

  predicate DefinesMouseHandler(s: Subscriber) { s.Client? && s.hasMouseHandler }

  predicate DefinesKeyboardHandler(s: Subscriber) { s.Client? && s.hasKeyboardHandler }

  datatype Handler = OnMouseEvent | OnKeyboardEvent

  /** One handler call made by the pump: `target.handler(event)`. */
  datatype Notification = Notification(target: Subscriber, handler: Handler, event: Event)

  /** `for x in listeners: x.handler(e)`. */
  function Notify(subs: seq<Subscriber>, h: Handler, e: Event): (r: seq<Notification>)
    ensures |r| == |subs|
    ensures forall i :: 0 <= i < |subs| ==> r[i] == Notification(subs[i], h, e)
  {
    if subs == [] then [] else [Notification(subs[0], h, e)] + Notify(subs[1..], h, e)
  }

  /** The handler calls one dequeued event causes: keyboard events reach every
      listener's on_keyboard_event, mouse events every on_mouse_event, in list
      order; an event of any other type reaches no one. */
  function Route(subs: seq<Subscriber>, e: Event): seq<Notification>
  {
    if e.kind == KEYBOARD then Notify(subs, OnKeyboardEvent, e)
    else if e.kind == MOUSE then Notify(subs, OnMouseEvent, e)
    else []
  }

  /** What the pump loop does with a queue: the calls made, the items left
      unread, and whether it dequeued the `None` that ends it. */
  datatype Drained = Drained(delivered: seq<Notification>, rest: seq<Option<Event>>, stopped: bool)

  function Drain(subs: seq<Subscriber>, queue: seq<Option<Event>>): Drained
  {
    if queue == [] then Drained([], [], false)
    else if queue[0].None? then Drained([], queue[1..], true)
    else
      var d := Drain(subs, queue[1..]);
      Drained(Route(subs, queue[0].value) + d.delivered, d.rest, d.stopped)
  }

  /** `d` with the calls `calls` made before it. */
  function Prefixed(calls: seq<Notification>, d: Drained): Drained
  {
    Drained(calls + d.delivered, d.rest, d.stopped)
  }

  /** The calls caused by a run of queued events, one after the other. */
  function RouteAll(subs: seq<Subscriber>, events: seq<Event>): seq<Notification>
  {
    if events == [] then [] else Route(subs, events[0]) + RouteAll(subs, events[1..])
  }

  function Queued(events: seq<Event>): (q: seq<Option<Event>>)
    ensures |q| == |events| && forall i :: 0 <= i < |q| ==> q[i] == Some(events[i])
  {
    if events == [] then [] else [Some(events[0])] + Queued(events[1..])
  }

  /** The pump handles every event queued before the first `None`, in order,
      then stops, leaving what follows the `None` unread. */
  lemma {:induction false} DrainStopsAtSentinel(subs: seq<Subscriber>, events: seq<Event>, after: seq<Option<Event>>)
    ensures Drain(subs, Queued(events) + [None] + after) == Drained(RouteAll(subs, events), after, true)
  {
    if events == [] {
      assert Queued(events) + [None] + after == [None] + after;
    } else {
      var q := Queued(events) + [None] + after;
      assert q[1..] == Queued(events[1..]) + [None] + after;
      DrainStopsAtSentinel(subs, events[1..], after);
    }
  }

  /** With no `None` queued, the pump handles everything and waits for more. */
  lemma {:induction false} DrainWithoutSentinel(subs: seq<Subscriber>, events: seq<Event>)
    ensures Drain(subs, Queued(events)) == Drained(RouteAll(subs, events), [], false)
  {
    if events != [] {
      assert Queued(events)[1..] == Queued(events[1..]);
      DrainWithoutSentinel(subs, events[1..]);
    }
  }

  /** add_listener on a list value: the duplicate guard tests whether the
      WindowsListener itself is listed, then each handler is required. */
  function AddTo(subs: seq<Subscriber>, s: Subscriber): (r: Result<seq<Subscriber>>)
    ensures r.Success? <==> Dispatcher !in subs && DefinesMouseHandler(s) && DefinesKeyboardHandler(s)
    ensures r.Success? ==> r.value == subs + [s]
    ensures Dispatcher in subs ==> r == Failure(ValueError)
    ensures Dispatcher !in subs && !DefinesMouseHandler(s) ==>
      r == Failure(ArgumentError("listeners must define a on_mouse_event(event) method"))
    ensures Dispatcher !in subs && DefinesMouseHandler(s) && !DefinesKeyboardHandler(s) ==>
      r == Failure(ArgumentError("listeners must define a on_keyboard_event(event) method"))
  {
    if Dispatcher in subs then Failure(ValueError)
    else if !DefinesMouseHandler(s) then Failure(ArgumentError("listeners must define a on_mouse_event(event) method"))
    else if !DefinesKeyboardHandler(s) then Failure(ArgumentError("listeners must define a on_keyboard_event(event) method"))
    else Success(subs + [s])
  }

  /** remove_listener on a list value: `list.remove`, the first occurrence, or ValueError. */
  function RemoveFrom(subs: seq<Subscriber>, s: Subscriber): (r: Result<seq<Subscriber>>)
    ensures r.Failure? <==> s !in subs
    ensures r.Failure? ==> r.error == ValueError
    ensures r.Success? ==> multiset(r.value) == multiset(subs) - multiset{s}
    ensures r.Success? ==> exists i :: 0 <= i < |subs| && subs[i] == s && s !in subs[..i] && r.value == subs[..i] + subs[i + 1..]
  {
    if s !in subs then Failure(ValueError)
    else
      var i := FirstIndex(subs, s);
      assert subs == subs[..i] + [s] + subs[i + 1..];
      Success(subs[..i] + subs[i + 1..])
  }

  /** A list every entry of which defines both handlers. */
  predicate Subscribable(subs: seq<Subscriber>)
  {
    forall i :: 0 <= i < |subs| ==> DefinesMouseHandler(subs[i]) && DefinesKeyboardHandler(subs[i])
  }

  /** The WindowsListener never defines the public handlers, so it can never be
      listed and the duplicate guard never fires: adding a listener that is
      already subscribed succeeds, and it is notified twice. */
  lemma {:induction false} AddSameListenerTwice(subs: seq<Subscriber>, c: Subscriber, e: Event)
    requires Subscribable(subs) && DefinesMouseHandler(c) && DefinesKeyboardHandler(c)
    requires e.kind == KEYBOARD
    ensures AddTo(subs, c).Success? && AddTo(AddTo(subs, c).value, c).Success?
    ensures var twice := AddTo(AddTo(subs, c).value, c).value;
      twice == subs + [c, c] &&
      Route(twice, e)[|subs|..] == [Notification(c, OnKeyboardEvent, e), Notification(c, OnKeyboardEvent, e)]
  {
    var once := subs + [c];
    assert once + [c] == subs + [c, c];
  }

  /** The process-wide listener object (the class attribute `__instance` lives in
      ListenerSingleton). */
  class Listener {
    var subscribers: seq<Subscriber>     // __listeners
    var queue: seq<Option<Event>>        // __inputs_queue, not yet dequeued
    var initialized: bool                // __initialized
    var pumpsStarted: nat                // times the hook process and pump thread were launched

    /** `object.__new__(cls)`: an object whose initialisation has not run. */
    constructor ()
      ensures !initialized && subscribers == [] && queue == [] && pumpsStarted == 0
    {
      subscribers, queue, initialized, pumpsStarted := [], [], false, 0;
    }

    /** `__init__`: the body runs only while `__initialized` is false; it creates
        an empty listener list and a fresh queue and launches the pump. */
    method Init()
      modifies this
      ensures initialized
      ensures old(initialized) ==> subscribers == old(subscribers) && queue == old(queue) && pumpsStarted == old(pumpsStarted)
      ensures !old(initialized) ==> subscribers == [] && queue == [] && pumpsStarted == old(pumpsStarted) + 1
    {
      if !initialized {
        initialized := true;
        subscribers := [];
        queue := [];
        pumpsStarted := pumpsStarted + 1;
      }
    }

    /** The hook callback for a mouse button: the event is stamped as a mouse event
        with the button flags, queued once, and True is returned. */
    method OnMouseHook(e: Event, isLeft: bool, isRight: bool, isDown: bool, isUp: bool) returns (pass: bool)
      modifies this
      ensures pass
      ensures queue == old(queue) + [Some(AsMouseEvent(e, isLeft, isRight, isDown, isUp))]
      ensures subscribers == old(subscribers) && initialized == old(initialized) && pumpsStarted == old(pumpsStarted)
    {
      queue := queue + [Some(AsMouseEvent(e, isLeft, isRight, isDown, isUp))];
      pass := true;
    }

    /** The hook callback for a key transition. */
    method OnKeyboardHook(e: Event, isDown: bool) returns (pass: bool)
      modifies this
      ensures pass
      ensures queue == old(queue) + [Some(AsKeyboardEvent(e, isDown))]
      ensures subscribers == old(subscribers) && initialized == old(initialized) && pumpsStarted == old(pumpsStarted)
    {
      queue := queue + [Some(AsKeyboardEvent(e, isDown))];
      pass := true;
    }

    /** One dequeued event handed to every listener in list order, as the
        pump's inner loop does. */
    method Dispatch(e: Event) returns (calls: seq<Notification>)
      ensures calls == Route(subscribers, e)
    {
      calls := [];
      if e.kind == KEYBOARD || e.kind == MOUSE {
        var h := if e.kind == KEYBOARD then OnKeyboardEvent else OnMouseEvent;
        var i := 0;
        while i < |subscribers|
          invariant 0 <= i <= |subscribers| && |calls| == i
          invariant forall j :: 0 <= j < i ==> calls[j] == Notification(subscribers[j], h, e)
        {
          calls := calls + [Notification(subscribers[i], h, e)];
          i := i + 1;
        }
      }
    }

    /** The pump loop: dequeue until `None`, calling the listeners' handlers for
        each event. It returns the calls it made, in order, and whether it stopped;
        with the queue exhausted and no `None` read it would wait for more. */
    method Pump() returns (delivered: seq<Notification>, stopped: bool)
      modifies this
      ensures Drain(old(subscribers), old(queue)) == Drained(delivered, queue, stopped)
      ensures subscribers == old(subscribers) && initialized == old(initialized) && pumpsStarted == old(pumpsStarted)
    {
      delivered, stopped := [], false;
      while queue != [] && !stopped
        invariant subscribers == old(subscribers) && initialized == old(initialized) && pumpsStarted == old(pumpsStarted)
        invariant !stopped ==> Drain(subscribers, old(queue)) == Prefixed(delivered, Drain(subscribers, queue))
        invariant stopped ==> Drain(subscribers, old(queue)) == Drained(delivered, queue, true)
        decreases |queue|
      {
        var item := queue[0];
        ghost var before := queue;
        queue := queue[1..];
        if item.None? {
          stopped := true;
        } else {
          var e := item.value;
          ghost var start := delivered;
          var calls := Dispatch(e);
          delivered := delivered + calls;
          assert Drain(subscribers, before) == Prefixed(Route(subscribers, e), Drain(subscribers, queue));
          assert start + (Route(subscribers, e) + Drain(subscribers, queue).delivered)
              == delivered + Drain(subscribers, queue).delivered;
        }
      }
      if !stopped {
        assert Drain(subscribers, queue) == Drained([], [], false);
        assert delivered + [] == delivered;
      }
    }

    /** release(): the list is cleared, the instance marked uninitialised and a
        `None` queued to end the pump. */
    method Release()
      modifies this
      ensures subscribers == [] && !initialized && queue == old(queue) + [None]
      ensures pumpsStarted == old(pumpsStarted)
    {
      subscribers := [];
      initialized := false;
      queue := queue + [None];
    }

    /** add_listener(listener). */
    method AddListener(s: Subscriber) returns (r: Outcome)
      modifies this
      ensures AddTo(old(subscribers), s).Success? ==> r == Pass && subscribers == AddTo(old(subscribers), s).value
      ensures AddTo(old(subscribers), s).Failure? ==> r == Fail(AddTo(old(subscribers), s).error) && subscribers == old(subscribers)
      ensures queue == old(queue) && initialized == old(initialized) && pumpsStarted == old(pumpsStarted)
    {
      if Dispatcher in subscribers {
        return Fail(ValueError);
      }
      if !DefinesMouseHandler(s) {
        return Fail(ArgumentError("listeners must define a on_mouse_event(event) method"));
      } else if !DefinesKeyboardHandler(s) {
        return Fail(ArgumentError("listeners must define a on_keyboard_event(event) method"));
      }
      subscribers := subscribers + [s];
      r := Pass;
    }

    /** remove_listener(listener). */
    method RemoveListener(s: Subscriber) returns (r: Outcome)
      modifies this
      ensures RemoveFrom(old(subscribers), s).Success? ==> r == Pass && subscribers == RemoveFrom(old(subscribers), s).value
      ensures RemoveFrom(old(subscribers), s).Failure? ==> r == Fail(ValueError) && subscribers == old(subscribers)
      ensures queue == old(queue) && initialized == old(initialized) && pumpsStarted == old(pumpsStarted)
    {
      if s !in subscribers {
        return Fail(ValueError);
      }
      var i := 0;
      while subscribers[i] != s
        decreases |subscribers| - i
        invariant 0 <= i < |subscribers| && s in subscribers[i..] && s !in subscribers[..i]
      {
        i := i + 1;
      }
      assert i == FirstIndex(subscribers, s);
      subscribers := subscribers[..i] + subscribers[i + 1..];
      r := Pass;
    }
  }

  /** `__on_mouse_event`: Type MOUSE, the four button flags from the arguments,
      Is_Double False; every other attribute is left as it was. */
  function AsMouseEvent(e: Event, isLeft: bool, isRight: bool, isDown: bool, isUp: bool): (r: Event)
    ensures r.kind == MOUSE && !r.isDouble
    ensures r.isLeft == isLeft && r.isRight == isRight && r.isDown == isDown && r.isUp == isUp
    ensures r.(kind := e.kind, isLeft := e.isLeft, isRight := e.isRight, isDown := e.isDown, isUp := e.isUp, isDouble := e.isDouble) == e
  {
    e.(kind := MOUSE, isLeft := isLeft, isRight := isRight, isDown := isDown, isUp := isUp, isDouble := false)
  }

  /** `__on_keyboard_event`: Type KEYBOARD and Is_Down; nothing else changes. */
  function AsKeyboardEvent(e: Event, isDown: bool): (r: Event)
    ensures r.kind == KEYBOARD && r.isDown == isDown
    ensures r.(kind := e.kind, isDown := e.isDown) == e
  {
    e.(kind := KEYBOARD, isDown := isDown)
  }

  /** The four mouse hooks: left or right button, down or up; exactly one button
      flag and exactly one direction flag is set. */
  function MouseButtonEvent(e: Event, left: bool, down: bool): (r: Event)
    ensures r.kind == MOUSE && r.isLeft != r.isRight && r.isDown != r.isUp
    ensures r.isLeft == left && r.isDown == down
  {
    AsMouseEvent(e, left, !left, down, !down)
  }

  /** The class attribute `WindowsListener.__instance`. */
  class ListenerSingleton {
    var instance: Listener?

    constructor ()
      ensures instance == null
    {
      instance := null;
    }

    /** `__new__`: the first call creates the instance, every call returns it. */
    method New() returns (l: Listener)
      modifies this
      ensures old(instance) != null ==> l == old(instance)
      ensures old(instance) == null ==> fresh(l) && !l.initialized && l.subscribers == [] && l.queue == [] && l.pumpsStarted == 0
      ensures instance == l
    {
      if instance == null {
        instance := new Listener();
      }
      l := instance;
    }

    /** `WindowsListener()`: `__new__` followed by `__init__`. */
    method Construct() returns (l: Listener)
      modifies this, instance
      ensures instance == l && l.initialized
      ensures old(instance) != null ==> l == old(instance)
      ensures old(instance) == null ==> fresh(l) && l.subscribers == [] && l.queue == [] && l.pumpsStarted == 1
      ensures old(instance) != null && old(instance.initialized) ==>
        l.subscribers == old(instance.subscribers) && l.queue == old(instance.queue) && l.pumpsStarted == old(instance.pumpsStarted)
      ensures old(instance) != null && !old(instance.initialized) ==>
        l.subscribers == [] && l.queue == [] && l.pumpsStarted == old(instance.pumpsStarted) + 1
    {
      l := New();
      l.Init();
    }
  }

  /** Every construction returns the same instance and the pump is launched once;
      after release() the next construction re-runs the initialisation on that
      same instance, because release() resets only the instance's own flag. */
  method SingletonScenario() returns (same: bool, starts: nat, sameAfterRelease: bool, startsAfterRelease: nat)
    ensures same && starts == 1
    ensures sameAfterRelease && startsAfterRelease == 2
  {
    var cls := new ListenerSingleton();
    var a := cls.Construct();
    var b := cls.Construct();
    same, starts := a == b, b.pumpsStarted;
    b.Release();
    var c := cls.Construct();
    sameAfterRelease, startsAfterRelease := c == a, c.pumpsStarted;
  }
}
