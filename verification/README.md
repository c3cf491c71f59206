# key-ferry core in Dafny

key-ferry records a Windows user's keyboard and mouse input and plays it back.
This project models its core:

- **the listener** (`utilities/listeners.py`): a process-wide `WindowsListener`.
  Its hook callbacks normalise raw events and queue them. A pump drains the
  queue and calls `on_keyboard_event` or `on_mouse_event` on every subscribed
  listener, in subscription order.
- **the recorder** (`recording/recorder.py`): a `WindowsRecorder` subscribes to
  the listener. It tracks the held Shift/Ctrl/Alt keys and appends each event
  it records, stamped with the delay since the previous record and with the
  modifier flags in force.
- **the converter** (`utilities/converter.py`): turns a key name, the modifier
  flags and a repeat count into a WScript `SendKeys` command.
- **the playback manager** (`playback/playback.py`): the lifecycle of one
  playback (`start`, the one-shot `release`, F12 to cancel), the Win32 calls of
  `mouse_click`, and the text of the Python script that
  `create_executable_playback_file` writes.
- **the doubly linked list** (`utilities/collections.py`): `LinkedList` and `Node`.

Code that mutates objects is modelled as Dafny classes:

- `Listeners.Listener`, `Listeners.ListenerSingleton`
- `Recording.Recorder`
- `Playback.PlaybackManager`
- `Collections.LinkedList`, `Collections.Node`

Each stateful class is tied to pure transition functions with contracts of the
form `State() == F(old(State()))`. The recorder uses `Keyboard`, `Mouse` and
`Record`. The playback manager uses `StartOf` and `ReleaseOf`. The listener uses
`AddTo`, `RemoveFrom` and `Drain`. The properties of the source are then proved
as lemmas about those functions.

The linked list keeps a ghost sequence of its nodes plus a `Repr` footprint.
Every method is proved to keep the list consistent: `next`/`prev` links
mirrored, and `head`/`tail` at the ends. Every method also states the new
contents as a sequence.

The converter and the script writer are pure code and are modelled as
functions.

Python exceptions become values of `Common.Error`, returned through `Result`
or `Outcome`: `TypeError`, `AttributeError`, `ValueError`, `ArgumentError` and
`RuntimeError` with their messages.

Where the code and the documented behaviour differ, the model follows the code:

- The cancel key is virtual-key code 123 (F12) (`playback/playback.py:79`).
- The Ctrl+Alt+Del special case only clears the ctrl and alt flags. The keys
  stay in the held list, and the delete is never recorded
  (`recording/recorder.py:96-102`).
- The duplicate guard of `add_listener` tests whether the `WindowsListener`
  itself is in the list, not the listener being added
  (`utilities/listeners.py:189`). So adding the same listener twice succeeds,
  and it is then notified twice.
- `WindowsListener.release` assigns `__instance` and `__initialized` on the
  instance, not on the class (`utilities/listeners.py:212-213`). A later
  `WindowsListener()` therefore returns the same object and runs the
  initialisation again.
- `to_send_key` is documented to return None when a key is not found. It never
  does: it falls back to the lower-cased key. With a repeat count above one and
  an unmapped key, it raises `TypeError` (`utilities/converter.py:91-92`).
- `WindowsRecorder.stop` is not idempotent. A second `stop()` raises
  `ValueError`, and `release()` propagates it.

## Model

| member | source | states |
|---|---|---|
| Strings.NatToString | playback/playback.py:170-171 | `str()` of a non-negative int is a non-empty run of decimal digits, with no leading zero except for 0 itself |
| Strings.ParseNatToString | playback/playback.py:170-171 | the printed digits read back as the same number |
| Strings.IntToString | playback/playback.py:170-171 | `str()` of any int is non-empty and contains no comma, space or `)`, so it cannot be confused with the separators of a `mouse_click(...)` line |
| Strings.IntToStringRoundTrip | playback/playback.py:170-171 | `str()` of any int, negative or not, parses back to that int |
| Strings.Upper | utilities/converter.py:89 | `key.upper()` on ASCII key names: same length, every ASCII letter upper-cased and every other character kept |
| Strings.Lower | utilities/converter.py:107 | `key.lower()` on ASCII key names: same length, every ASCII letter lower-cased and every other character kept |
| Strings.SameUpperSameLower | utilities/converter.py:89-107 | two keys with the same upper-case form have the same lower-case form, so the table lookup and the lower-case fallback agree on them |
| Strings.RepeatLength | utilities/converter.py:91-92 | `command * times` is `times` copies of the command |
| Strings.Spaces | playback/playback.py:189 | the padding is exactly n spaces |
| Strings.PadRight | playback/playback.py:189 | `'%-*s'`: a shorter text is left-justified and space-padded to the width; a longer text is kept whole; the text is always a prefix of the result |
| Strings.SplitComma | playback/playback.py:170-171 | splitting at commas yields at least one field |
| Strings.SplitCommaJoin | playback/playback.py:170-171 | a comma-free field joined by a comma splits back into that field, followed by the fields of the rest |
| Converter.TableCommandsNonEmpty | utilities/converter.py:1-76 | every command in FROM_KEY_TO_SENDKEY is non-empty, so `command or key.lower()` falls back only for an unmapped key |
| Converter.ModifierPrefix | utilities/converter.py:94-100 | the prefix is `+` for shift, then `%` for alt, then `^` for ctrl, each only when its flag is set; so it is empty exactly when no modifier is set, `+%^` with all three, and never contains a parenthesis |
| Converter.ToSendKey | utilities/converter.py:79-112 | fails with TypeError exactly when a count above one is given for a key the table lacks; without modifiers the result is the key text, with modifiers it is the prefix followed by the key text in parentheses |
| Converter.ToSendKeyIgnoresCase | utilities/converter.py:89 | two key names equal up to case convert to the same command |
| Converter.UnmappedKeyIsLowered | utilities/converter.py:107 | an unmapped key, without a repeat, converts successfully to its lower-cased name |
| Converter.NoRepeatNeverFails | utilities/converter.py:91-112 | with no count, or a count of at most one, the conversion never fails, contrary to its documented "None if not found" |
| Converter.RepeatedCommand | utilities/converter.py:91-92 | a count n above one repeats a mapped command n times, giving n times its length |
| Converter.AllModifiersExample | utilities/converter.py:94-110 | Enter with shift, alt and ctrl is `+%^({ENTER})` |
| Converter.PlainKeyExample | utilities/converter.py:89-107 | Prior with a count of one is `{PGUP}`, with no parentheses |
| Converter.ReturnExample | utilities/converter.py:1-76 | Return maps to `{ENTER}` |
| Converter.UnmappedLetterExample | utilities/converter.py:91-107 | ctrl+A is `^(a)`; q repeated twice raises TypeError |
| Converter.RepeatExample | utilities/converter.py:91-92 | Tab three times is `{TAB}{TAB}{TAB}` |
| Listeners.Notify | utilities/listeners.py:74-79 | the handler is called once on every listener, in list order, with the same event |
| Listeners.Queued | utilities/listeners.py:128 | the queued items are the events, each wrapped as a non-`None` item, in order |
| Listeners.DrainStopsAtSentinel | utilities/listeners.py:69-79 | the pump routes every event queued before the first `None`, in queue order, then stops, leaving the items after the `None` unread |
| Listeners.DrainWithoutSentinel | utilities/listeners.py:69-79 | with no `None` queued, the pump routes every queued event and is still running |
| Listeners.AddTo | utilities/listeners.py:182-197 | succeeds exactly when the WindowsListener is not listed and the listener defines both handlers, and then appends it; otherwise it fails with ValueError, or with the ArgumentError naming the missing handler, in the source's order |
| Listeners.RemoveFrom | utilities/listeners.py:199-205 | `list.remove`: fails with ValueError exactly when the listener is absent; otherwise removes exactly its first occurrence and keeps the order of the rest |
| Listeners.AddSameListenerTwice | utilities/listeners.py:189-197 | because the guard tests for the WindowsListener itself, a subscribed listener can be added again, and a keyboard event then reaches it twice |
| Listeners.AsMouseEvent | utilities/listeners.py:110-128 | a mouse-hook event is typed MOUSE and gets the given button and direction flags and Is_Double False; every other attribute is unchanged |
| Listeners.AsKeyboardEvent | utilities/listeners.py:149-160 | a keyboard-hook event is typed KEYBOARD and gets the given Is_Down; nothing else changes |
| Listeners.MouseButtonEvent | utilities/listeners.py:93-99 | each of the four mouse hooks sets exactly one button flag and exactly one direction flag |
| Listeners.Listener.constructor | utilities/listeners.py:60 | `object.__new__`: an uninitialised object with no listeners and an empty queue |
| Listeners.Listener.Init | utilities/listeners.py:21-49 | `__init__` runs its body only while uninitialised: it then starts from no listeners and a fresh queue, and launches the pump once; otherwise nothing changes |
| Listeners.Listener.OnMouseHook | utilities/listeners.py:110-147 | a mouse hook queues the normalised event once, returns True, and changes nothing else |
| Listeners.Listener.OnKeyboardHook | utilities/listeners.py:149-180 | a keyboard hook queues the normalised event once, returns True, and changes nothing else |
| Listeners.Listener.Dispatch | utilities/listeners.py:74-79 | one dequeued event produces exactly the handler calls that `Route` prescribes: keyboard events go to every on_keyboard_event, mouse events to every on_mouse_event, other events to no one |
| Listeners.Listener.Pump | utilities/listeners.py:64-79 | the loop makes exactly the calls of `Drain` on the queue it started with, leaves the unread rest queued, and stops exactly when it dequeued `None` |
| Listeners.Listener.Release | utilities/listeners.py:207-214 | the listener list is emptied, the instance marked uninitialised and `None` queued |
| Listeners.Listener.AddListener | utilities/listeners.py:182-197 | the list becomes `AddTo`'s list, or the method fails with `AddTo`'s error and the list is unchanged |
| Listeners.Listener.RemoveListener | utilities/listeners.py:199-205 | the list becomes `RemoveFrom`'s list, or the method fails with ValueError and the list is unchanged |
| Listeners.ListenerSingleton.constructor | utilities/listeners.py:19 | the class starts with no instance |
| Listeners.ListenerSingleton.New | utilities/listeners.py:51-62 | `__new__`: the first call creates the uninitialised instance; every later call returns that same instance |
| Listeners.ListenerSingleton.Construct | utilities/listeners.py:21-62 | `WindowsListener()`: always the one instance, initialised; the pump is launched only when the instance was not yet initialised, which is also the only case where its list and queue are reset |
| Listeners.SingletonScenario | utilities/listeners.py:21-214 | two constructions give the same instance with one pump; after release(), construction gives that same instance again and launches a second pump |
| Recording.HeldIds | recording/recorder.py:111 | `{key.KeyID for key in held}`: exactly the KeyIDs that occur in the held list |
| Recording.FirstHeld | recording/recorder.py:73-76 | the first held entry with the released KeyID; no earlier entry has it |
| Recording.NewHoldIsTracked | recording/recorder.py:86-92 | pressing a holdable key that is not held appends it and recomputes the flags, without recording and without touching the clock |
| Recording.RepeatedHoldIsIgnored | recording/recorder.py:88-89 | pressing a holdable key that is already held (auto-repeat) changes nothing |
| Recording.FlagsReflectHeldKeys | recording/recorder.py:107-114 | each flag is true exactly when some held key belongs to its class |
| Recording.RemoveKeepsWellFormed | recording/recorder.py:76 | removing a held entry keeps the held list free of duplicates and of non-modifier keys, and drops exactly that KeyID |
| Recording.EventsKeepWellFormed | recording/recorder.py:44-105 | no keyboard or mouse event can break the held list's invariant |
| Recording.DeleteIsNeverRecorded | recording/recorder.py:96-102 | Delete is never recorded and leaves the held keys alone; the ctrl and alt flags are cleared exactly when a ctrl key and an alt key are both held |
| Recording.KeyUpRecordedIffHeld | recording/recorder.py:68-78 | a key-up is recorded exactly when a held key has its KeyID; it is then stamped after the flags are recomputed, and that KeyID leaves the held list; any other key-up changes nothing |
| Recording.MouseDroppedIffOwnWindow | recording/recorder.py:44-56 | a mouse event is dropped exactly when a process is to be ignored and the event's window belongs to the recorder's own process; otherwise it is recorded |
| Recording.RecordStampsAndAppends | recording/recorder.py:116-132 | recording appends the event once, stamped with the delay since the last record and the current flags, and moves the clock; with no collection nothing is appended |
| Recording.RecordKeepsElapsed | recording/recorder.py:123-125 | the recorded delays still add up to the time from the start to the last record |
| Recording.EventsKeepElapsed | recording/recorder.py:44-132 | no event breaks that sum, so replaying the delays reproduces the elapsed time |
| Recording.EventsKeepDelaysNonNegative | recording/recorder.py:123-125 | with a clock that never runs backwards, every recorded delay stays non-negative |
| Recording.PressThenReleaseRestoresHeld | recording/recorder.py:68-92 | pressing and then releasing a modifier that was not held restores the held list and its flags |
| Recording.HeldIdsAppend | recording/recorder.py:90 | appending a held key adds exactly its KeyID |
| Recording.ShiftChordExample | recording/recorder.py:68-132 | shift down, A, shift up: A is recorded with the shift flag, then the shift release without it, with the delays between them |
| Recording.CtrlAltPressExample | recording/recorder.py:86-92 | ctrl then alt: both held, in order, with the ctrl and alt flags set and nothing recorded |
| Recording.CtrlAltDeleteExample | recording/recorder.py:96-105 | after Ctrl+Alt+Del, the next key is recorded with neither ctrl nor alt, although both keys are still held |
| Recording.Recorder.constructor | recording/recorder.py:24-42 | a recorder on the shared listener, holding nothing, flags clear, clock at `now`, recording into the given collection if there is one; the listener is created only when none exists |
| Recording.Recorder.OnMouseEvent | recording/recorder.py:44-56 | the new state is `Mouse` of the old one; after release() a recorded event raises TypeError and changes nothing |
| Recording.Recorder.OnKeyboardEvent | recording/recorder.py:58-66 | the new state is `Keyboard` of the old one; after release() it raises TypeError and changes nothing |
| Recording.Recorder.OnKeyUpEvent | recording/recorder.py:68-78 | the new state is `KeyUp` of the old one |
| Recording.Recorder.OnKeyDownEvent | recording/recorder.py:80-105 | the new state is `KeyDown` of the old one |
| Recording.Recorder.SetHeldKeys | recording/recorder.py:107-114 | the flags become those of the held list |
| Recording.Recorder.RecordEvent | recording/recorder.py:116-132 | the new state is `Record` of the old one |
| Recording.Recorder.Start | recording/recorder.py:134-138 | subscribes exactly as `AddTo` prescribes, leaving the listener's queue and pump state alone; after release() it raises AttributeError |
| Recording.Recorder.Stop | recording/recorder.py:140-144 | unsubscribes exactly as `RemoveFrom` prescribes, leaving the listener's queue and pump state alone, so a second stop() raises ValueError |
| Recording.Recorder.Release | recording/recorder.py:146-159 | unsubscribes once and drops the listener, the clock and the held keys; a failing stop() propagates before anything is dropped; the recorded events, the modifier flags and the last time are never touched, so a second release only re-clears; a failing stop() leaves the listener list as it was, and the listener's queue and pump state are never touched |
| Recording.RecorderLifecycle | recording/recorder.py:134-159 | after start() the recorder is the last listener; release() unsubscribes it; a second release() succeeds and keeps the events, the flags and the last time |
| Common.FirstIndex | utilities/collections.py:124-135 | the position of the first occurrence: it holds the value and no earlier position does; `find`, `list.remove` and `str.split` all search with it |
| Collections.Reverse | utilities/collections.py:146-152 | the backward order: element i is element n-1-i of the input |
| Collections.ValuesOf | utilities/collections.py:1-13 | the values of a run of nodes, position by position |
| Collections.ValuesOfSlice | utilities/collections.py:1-13 | the values of a slice of nodes are that slice of the values |
| Collections.ValuesOfConcat | utilities/collections.py:1-13 | the values of two runs of nodes are the values of each, concatenated |
| Collections.ValuesOfInsert | utilities/collections.py:103-122 | inserting a node at i inserts its value at i |
| Collections.ValuesOfRemove | utilities/collections.py:76-101 | removing the node at i removes the value at i |
| Collections.InsertKeepsDistinct | utilities/collections.py:103-122 | inserting a node that is not yet present keeps the nodes distinct and adds exactly that node |
| Collections.RemoveKeepsDistinct | utilities/collections.py:76-101 | removing a node keeps the nodes distinct and drops exactly that node |
| Collections.SpliceFront | utilities/collections.py:114-117 | a node linked before the first node of a chain makes a correctly linked chain with it at the front |
| Collections.SpliceBetween | utilities/collections.py:119-122 | a node linked between `before` and its predecessor makes a correctly linked chain with it at that position |
| Collections.UnspliceFirst | utilities/collections.py:84-101 | unlinking the first node of a chain of two or more leaves a correctly linked chain starting at the second, and the removed node has no links |
| Collections.UnspliceLast | utilities/collections.py:90-101 | unlinking the last node leaves a correctly linked chain ending at the one before, and the removed node has no links |
| Collections.UnspliceInner | utilities/collections.py:97-101 | unlinking an inner node joins its neighbours, and the removed node has no links |
| Collections.Node.constructor | utilities/collections.py:6-13 | a node holding the value, with no links |
| Collections.LinkedList.constructor | utilities/collections.py:21-31 | a consistent list holding the copied values in order, or no values |
| Collections.LinkedList.AddNode | utilities/collections.py:62-74 | the node becomes the tail (and also the head of an empty list); the values gain its value at the end |
| Collections.LinkedList.AddData | utilities/collections.py:33-38 | the values gain `data` at the end, in a fresh node |
| Collections.LinkedList.Find | utilities/collections.py:124-135 | null exactly when no node holds the data; otherwise the first node that holds it |
| Collections.LinkedList.LinkAt | utilities/collections.py:1-13 | in a consistent list, each node's next is its successor and its prev its predecessor |
| Collections.LinkedList.DistinctIndex | utilities/collections.py:124-135 | a node of the list occurs only at its own position |
| Collections.LinkedList.Ends | utilities/collections.py:84-94 | in a consistent list, only the head lacks a prev and only the tail lacks a next, which is what remove_node's error checks rely on |
| Collections.LinkedList.RemoveNode | utilities/collections.py:76-101 | a node of the list leaves it: the others keep their order, the list stays consistent, and the node's links are cleared; removing the only node empties the list (see Findings); a foreign node with no prev or no next is refused with the source's RuntimeError and changes nothing |
| Collections.LinkedList.Unlink | utilities/collections.py:84-101 | the three branches of remove_node together remove the node at its position |
| Collections.LinkedList.UnlinkOnly | utilities/collections.py:84-88 | removing the only node leaves no head and no tail |
| Collections.LinkedList.UnlinkHead | utilities/collections.py:84-88 | the head leaves and its successor becomes the head |
| Collections.LinkedList.UnlinkTail | utilities/collections.py:90-94 | the tail leaves and its predecessor becomes the tail |
| Collections.LinkedList.UnlinkInner | utilities/collections.py:96-98 | an inner node leaves and its neighbours are linked to each other |
| Collections.LinkedList.RemoveNodeAsWritten | utilities/collections.py:76-101 | as written, removing the only node raises AttributeError and leaves the list inconsistent (no head, but the tail still set); every other removal behaves like the corrected one |
| Collections.LinkedList.InsertNode | utilities/collections.py:103-122 | the node is linked immediately before `before`, becoming the head when `before` was the head; the list stays consistent; a foreign `before` with no prev is refused with the source's RuntimeError and changes nothing |
| Collections.LinkedList.LinkBeforeHead | utilities/collections.py:111-117 | the node becomes the new head, in front of the old head |
| Collections.LinkedList.LinkBetween | utilities/collections.py:118-122 | the node is linked between `before` and its predecessor; the head is unchanged |
| Collections.LinkedList.RemoveData | utilities/collections.py:40-49 | removes the first value equal to `data`; when there is none, it raises RuntimeError and the values are unchanged |
| Collections.LinkedList.InsertData | utilities/collections.py:51-60 | inserts `data` just before the first value equal to `before`; when there is none, it raises RuntimeError and the values are unchanged |
| Collections.LinkedList.InsertCreated | utilities/collections.py:60 | a fresh node holding `data` goes in before the node at position i |
| Collections.LinkedList.Forward | utilities/collections.py:138-144 | following next from the head visits exactly the values, front to back |
| Collections.LinkedList.Backward | utilities/collections.py:146-152 | following prev from the tail visits exactly the values in reverse |
| Collections.DataMethodsExample | utilities/collections.py:229-270 | 1, 2, 3, 4 after removing an inner node, the tail and the head, then inserting before the head and in the middle, is 1, 2, 3 forwards and 3, 2, 1 backwards; removing absent data raises RuntimeError |
| Collections.Traversals | utilities/collections.py:138-152 | both traversals of a list holding 1, 2, 3 |
| Collections.RemoveInnerThenTail | utilities/collections.py:236-252 | 1, 2, 3, 4 without its inner node and then its tail is 1, 3 |
| Collections.RemoveHeadThenMissing | utilities/collections.py:242-246 | 1, 3 without its head is 3; removing 9 then raises RuntimeError and changes nothing |
| Collections.InsertFrontThenBetween | utilities/collections.py:254-264 | 3 with 1 inserted before the head, then 2 inserted before 3, is 1, 2, 3 |
| Collections.SingleNodeRemovalExample | utilities/collections.py:84-88 | a one-node list: the as-written removal raises AttributeError; the corrected one succeeds and empties the list |
| Playback.ButtonCode | playback/playback.py:129-138 | the four press/release × left/right cases get the four distinct MOUSEEVENTF flags, each one exactly for its own case |
| Playback.ButtonCodeRoundTrip | playback/playback.py:129-138 | the flag decodes back to the button and the direction, and no other pair gets that flag |
| Playback.MouseClick | playback/playback.py:118-140 | two calls: the cursor is moved to (x, y), then the flag of the requested button and direction is sent at (x, y) with zero data |
| Playback.Invoked | playback/playback.py:49-51 | each callback is run once, in list order |
| Playback.StartOf | playback/playback.py:43-64 | start() runs the start callbacks in order, then launches the process on the file, then starts the waiter thread; nothing else changes |
| Playback.ReleaseOf | playback/playback.py:201-248 | once released, nothing happens; otherwise the manager is marked released and the process terminated; unsubscribing fails with ValueError exactly when the manager is not listed, and then the rest of release is skipped; on success the manager stops listening and the waiter, the file and both callback lists are dropped |
| Playback.ReleaseIsIdempotent | playback/playback.py:205-206 | a second release does nothing, so the process is terminated, the listener left and the end callbacks run at most once |
| Playback.ReleaseEffects | playback/playback.py:208-248 | release adds only the termination, the join and the end callbacks, in that order, and never runs a start callback; a failed unsubscription stops after the termination |
| Playback.CancelKeyReleasesOnce | playback/playback.py:74-80 | keyboard events without the cancel key leave the playback untouched; any run containing it ends the playback exactly as one release() does, however many cancel keys follow |
| Playback.AfterReleaseNothingChanges | playback/playback.py:205-206 | once released, no keyboard event changes the manager |
| Playback.Lifecycle | playback/playback.py:43-248 | a subscribed playback does: start callbacks, launch, waiter; then on release: terminate, join, end callbacks; a later stop() adds nothing |
| Playback.PlaybackManager.constructor | playback/playback.py:23-41 | the manager takes the shared listener and subscribes to it as its last listener, or records the ValueError of a listener that lists itself; nothing is launched and no callback is run |
| Playback.PlaybackManager.CallEach | playback/playback.py:50-51 | runs the callbacks in order and changes nothing else |
| Playback.PlaybackManager.Start | playback/playback.py:43-64 | the new state is `StartOf` of the old one |
| Playback.PlaybackManager.OnMouseEvent | playback/playback.py:66-72 | a mouse event during playback does nothing: the manager is left unchanged |
| Playback.PlaybackManager.OnKeyboardEvent | playback/playback.py:74-80 | only a non-injected F12 keyboard event releases the manager; any other event changes nothing |
| Playback.PlaybackManager.ScriptEnded | playback/playback.py:82-90 | the end of the playback process releases the manager as `ReleaseOf` prescribes |
| Playback.PlaybackManager.Stop | playback/playback.py:92-96 | stop() is release() |
| Playback.PlaybackManager.Release | playback/playback.py:201-248 | the new state and listener list are `ReleaseOf` of the old ones; the listener's queue and pump state are not touched |
| Playback.PlaybackManager.Terminate | playback/playback.py:208-214 | sets the released flag and terminates a running process |
| Playback.PlaybackManager.Finish | playback/playback.py:222-248 | joins the waiter, drops the file and the start callbacks, and runs and drops the end callbacks |
| Playback.CancelledPlaybackStates | playback/playback.py:43-248 | a playback with one start callback and two end callbacks, cancelled by F12: its effects in order, the listener list left empty, and a later stop() that adds nothing |
| Playback.CancelledPlayback | playback/playback.py:74-96 | an injected F12 is ignored, a real F12 cancels the playback and unsubscribes it, and a later stop() succeeds without effect |
| Playback.SplitAtSeparator | playback/playback.py:170 | in a `mouse_click(...)` line, the text before the first `, ` is the first argument |
| Playback.ArgumentsOfFour | playback/playback.py:170 | the four arguments are joined by `, ` |
| Playback.SpaceBeforeArgument | playback/playback.py:170 | the space after a separator belongs to the following argument |
| Playback.SplitFourArguments | playback/playback.py:170-171 | four comma-free arguments split back into themselves, each after the first with its leading space |
| Playback.DisplayOfFour | playback/playback.py:170-171 | the first argument followed by the other three gives all four in order |
| Playback.CallEnclosesArguments | playback/playback.py:170 | the arguments lie exactly between `mouse_click(` and the closing `)` |
| Playback.MouseArgumentsRoundTrip | playback/playback.py:170-171 | the four printed fields (x, y, Is_Down, Is_Left) read back into the click |
| Playback.MouseExecutableRoundTrip | playback/playback.py:170-171 | a mouse line read back gives exactly the click it was written from |
| Playback.MouseLineReplaysClick | playback/playback.py:118-171 | replaying a recorded click's script line moves the cursor to the recorded position and sends the recorded button and direction |
| Playback.KeyCommand | playback/playback.py:177-178 | the key's SendKeys text, converted with no count, which cannot fail, or the key name when the text is empty |
| Playback.Executable | playback/playback.py:167-182 | exactly the mouse and keyboard events get an executable |
| Playback.Executables | playback/playback.py:167-183 | one executable per event, in event order |
| Playback.WidthCoversEveryLine | playback/playback.py:173-182 | no executable is longer than `max_length`, so every comment starts at or after the end of its executable |
| Playback.WidthComesFromALine | playback/playback.py:173-182 | `max_length` is 0, or four more than the length of one of the executables |
| Playback.NoGapExample | playback/playback.py:173-189 | the width is raised only by an executable longer than the current width, so an executable exactly four characters longer than the first one fills the width and gets no space before its comment |
| Playback.CommentNamesPrefix | playback/playback.py:191-197 | the comment names the modifiers as Shift, Alt, Ctrl, in the same order as the SendKeys prefix `+`, `%`, `^` |
| Playback.PrefixNamesConcat | playback/playback.py:191-197 | naming the characters of a prefix distributes over concatenation |
| Playback.Line | playback/playback.py:189-199 | `'%-*s%s'`: the executable, then spaces up to the width, then the comment, with the length that implies |
| Playback.EventLines | playback/playback.py:186-199 | every event gets its sleep line; mouse and keyboard events then get their executable, padded to the width, followed by their comment, so every comment starts in the same column when the executable fits the width; other events get nothing more |
| Playback.BodyAppend | playback/playback.py:186-199 | the printing loop adds one event's lines after those of the events before it |
| Playback.CreateExecutablePlaybackFile | playback/playback.py:142-199 | with line 177 corrected: the executables are those of every event, and the output is the header followed by each event's lines at the computed width |
| Playback.GatherExecutables | playback/playback.py:163-183 | the gathering loop sets every event's executable and computes `max_length` |
| Playback.Gathering | playback/playback.py:173-183 | one turn of the gathering loop: `max_length` is raised by a longer executable, which is then appended |
| Playback.GatherOther | playback/playback.py:169-183 | one turn of the gathering loop for an event that is not a keyboard event |
| Playback.GatherStep | playback/playback.py:183 | the executables of one more event |
| Playback.PrintEvents | playback/playback.py:185-199 | the printing loop prints exactly the body: each event's lines, in order |
| Playback.PrintStep | playback/playback.py:186-199 | the lines of one more event |
| Playback.FirstKeyboard | playback/playback.py:176-177 | the first keyboard event: a keyboard event, with none before it |
| Playback.FirstKeyboardAt | playback/playback.py:167-177 | the gathering loop reaches line 177 at the first keyboard event, having set the executables of all the events before it |
| Playback.CreateExecutablePlaybackFileAsWritten | playback/playback.py:142-199 | as written: raises TypeError exactly when some event is a keyboard event, after printing only the header and setting the executables of the events before the first keyboard event; without keyboard events it writes the same script as the corrected method |
| Playback.GatherExecutablesAsWritten | playback/playback.py:163-183 | as written, the gathering loop raises TypeError exactly at the first keyboard event |
| Playback.ReturnPressExecutable | playback/playback.py:176-178 | a Return press becomes `key_press("{ENTER}")` |
| Playback.ReturnPressLines | playback/playback.py:186-199 | the Return press prints its sleep, then its executable padded to 47 columns, followed by `# Key: Return ` |
| Playback.ReturnPressScript | playback/playback.py:142-199 | the whole corrected script for one Return press |
| Playback.KeyPressScriptExample | playback/playback.py:142-199 | one recorded Return press: as written, only the header is printed, followed by TypeError; corrected, the header is followed by the key's two lines |

## Left out

- The Windows hooks (pyHook and `pythoncom.PumpMessages`), the hook-manager
  process, the pump thread and the multiprocessing queue are not modelled as
  such. The queue is a sequence field, the hook callbacks are methods that
  append to it, and the pump is a method that drains it. Concurrency between
  the hook process, the pump thread and the caller is not modelled.
- Listeners.Listener.Pump: it returns the handler calls it makes as
  `Notification` values instead of executing them, so a handler cannot call
  back into the listener while the pump runs.
- `WindowsPlaybackManager.key_press` (`playback/playback.py:98-116`) is not
  modelled. It only hands the text to WScript's `SendKeys` and prints the COM
  error, and both are foreign calls.
- `SetCursorPos` and `mouse_event` are not executed. `Playback.MouseClick`
  returns the calls as values.
- The playback process (`python_executor.execute_file`), its termination, the
  waiter thread and the join are recorded as `Effect` values in the order the
  source performs them. `DEFAULT_TIMEOUT` (30 s), `is_alive()`, the timeout
  message and the exception swallowed when the waiter joins itself are not
  modelled.
- Start and end callbacks are integers standing for the functions. Running one
  is recorded in the trace, and a callback cannot call back into the manager.
  The `clear()` of the caller's callback lists (`playback/playback.py:240,
  247`) is visible to the caller only through aliasing, which the model does
  not capture; the manager drops its references as the source does.
- Playback.PlaybackManager.constructor: when `add_listener(self)` raises, the
  source's constructor raises. The model instead records the outcome in
  `registered`. The WScript shell created there is not modelled.
- The recorder's clock (`datetime.datetime.now()`) is an integer parameter
  `now`. `total_seconds()` is a float in the source and an integer difference
  here, so `time.sleep(%s)` prints that integer.
- `win32process.GetWindowThreadProcessId` and `os.getpid()` are parameters
  (`windowPid`, `ownPid`).
- The recorder's callback list becomes the `collecting` flag. The only
  callback the source ever adds appends to the collection.
- `os.path.dirname(inspect.getfile(WindowsPlaybackManager))` in the script
  header is the `dir` parameter of `Playback.Header`.
- `create_executable_playback_file` stores `Executable` on the event objects.
  The model returns the executables as a sequence alongside the events.
- The file object `create_executable_playback_file` prints to is not
  modelled. The method returns the printed lines instead.
- Playback.EventLines: it requires the gathered executable for a mouse or
  keyboard event. In the source, the printing loop only ever runs after the
  gathering loop has set one on every such event.
- Collections.LinkedList.RemoveData: the RuntimeError message omits the
  `str(data)` suffix, because `str` of an arbitrary value is not modelled.
  It removes through the corrected `remove_node`, so removing the only value
  of a list empties it; the source raises AttributeError there
  (`utilities/collections.py:87-88`, see Findings).
- Collections.LinkedList.AddNode: it requires a node that is not in the list
  and has no links. The source accepts any node, and adding one already
  linked would corrupt the list; `add_data` and the test script always pass
  a freshly created node.
- Collections.LinkedList.InsertData: the RuntimeError message omits the
  `str(data)` suffix for the same reason. The source's message names the new
  data, not the missing one.
- Collections.LinkedList.RemoveNode: it requires a node of the list, or a
  foreign node with no prev or no next. A foreign node with both links set
  would be spliced out of whatever chain it belongs to, and that is not
  modelled.
- Collections.LinkedList.InsertNode: it requires a node that is not yet in the
  list, and a `before` in the list or with no prev. Re-inserting a node
  already in the list, or inserting before a foreign node with a prev, would
  corrupt the links, and that is not modelled.
- The `verify_forward` and `verify_backwards` helpers of the test script, and
  the node-method tests with 10 elements, are represented by shorter scenarios
  over the same branches (`Collections.DataMethodsExample`,
  `Collections.RemoveInnerThenTail`, `Collections.RemoveHeadThenMissing`,
  `Collections.InsertFrontThenBetween`).
- Strings.Upper: only the ASCII letters a-z change case. Python's
  `str.upper()` also maps other Unicode letters (and may change the length,
  as `'ß'.upper() == 'SS'`); the pyHook key names the converter receives
  are ASCII.
- Strings.Lower: only the ASCII letters A-Z change case, for the same reason
  as `Strings.Upper`.
- The GUI (`gui/main_window.py`), the `key_fairy.py` and `key_ferry.py` entry
  points and `setup.py` are not part of this model.

## Findings

| source | as written | input that shows it | evidently intended | confidence | as-written member | corrected member |
|---|---|---|---|---|---|---|
| playback/playback.py:177 | `to_send_key` is called with four arguments, but it takes five (`times` has no default), so Python raises TypeError | any recording containing a keyboard event, e.g. one press of Return: the script stops after its header | call with the count as None, so that Return becomes `WindowsPlaybackManager.key_press("{ENTER}")` | not executed | Playback.CreateExecutablePlaybackFileAsWritten | Playback.CreateExecutablePlaybackFile |
| utilities/collections.py:87-88 | removing the head sets the head to `next_node` and then assigns `next_node.prev`, but `next_node` is None when the head is the only node | a list holding one value, removing its only node (directly, or through `remove_data` of its value): AttributeError, with the head gone and the tail still set | the list becomes empty, with no head and no tail | not executed | Collections.LinkedList.RemoveNodeAsWritten | Collections.LinkedList.RemoveNode |
