/** utilities/converter.py: translation of a key name, the modifier flags and a
    repeat count into a WScript SendKeys command string. */
module Converter {
  import opened Common
  import opened Strings

  /** FROM_KEY_TO_SENDKEY.get(name, None): the SendKeys command of an upper-case
      key name, entry by entry as in the source table. */
  function FromKeyToSendKey(name: string): Option<string>
  {
    match name
    case "BACKSPACE" => Some("{BACKSPACE}")
    case "BACK" => Some("{BACKSPACE}")
    case "BREAK" => Some("{BREAK}")
    case "PAUSE" => Some("{BREAK}")
    case "CAPS LOCK" => Some("{CAPSLOCK}")
    case "CAPITAL" => Some("{CAPSLOCK}")
    case "DELETE" => Some("{DELETE}")
    case "DEL" => Some("{DEL}")
    case "DOWN ARROW" => Some("{DOWN}")
    case "DOWN" => Some("{DOWN}")
    case "END" => Some("{END}")
    case "ENTER" => Some("{ENTER}")
    case "RETURN" => Some("{ENTER}")
    case "ESC" => Some("{ESC}")
    case "ESCAPE" => Some("{ESC}")
    case "HELP" => Some("{HELP}")
    case "HOME" => Some("{HOME}")
    case "INSERT" => Some("{INSERT}")
    case "INS" => Some("{INS}")
    case "LEFT ARROW" => Some("{LEFT}")
    case "LEFT" => Some("{LEFT}")
    case "NUM LOCK" => Some("{NUMLOCK}")
    case "NUMLOCK" => Some("{NUMLOCK}")
    case "PAGE DOWN" => Some("{PGDN}")
    case "NEXT" => Some("{PGDN}")
    case "PAGE UP" => Some("{PGUP}")
    case "PRIOR" => Some("{PGUP}")
    case "PRINT SCREEN" => Some("{PRTSC}")
    case "RIGHT ARROW" => Some("{RIGHT}")
    case "RIGHT" => Some("{RIGHT}")
    case "SCROLL LOCK" => Some("{SCROLLLOCK}")
    case "TAB" => Some("{TAB}")
    case "UP ARROW" => Some("{UP}")
    case "UP" => Some("{UP}")
    case "SPACE" => Some(" ")
    case "F1" => Some("{F1}")
    case "F2" => Some("{F2}")
    case "F3" => Some("{F3}")
    case "F4" => Some("{F4}")
    case "F5" => Some("{F5}")
    case "F6" => Some("{F6}")
    case "F7" => Some("{F7}")
    case "F8" => Some("{F8}")
    case "F9" => Some("{F9}")
    case "F10" => Some("{F10}")
    case "F11" => Some("{F11}")
    case "F12" => Some("{F12}")
    case "F13" => Some("{F13}")
    case "F14" => Some("{F14}")
    case "F15" => Some("{F15}")
    case "F16" => Some("{F16}")
    case "!" => Some("{!}")
    case "#" => Some("{#}")
    case "+" => Some("{+}")
    case "^" => Some("{^}")
    case "%" => Some("{%}")
    case "{" => Some("{{}")
    case "}" => Some("{}}")
    case "LWIN" => Some("^{ESC}")
    case "RWIN" => Some("^{ESC}")
    case "NUMPAD0" => Some("0")
    case "NUMPAD1" => Some("1")
    case "NUMPAD2" => Some("2")
    case "NUMPAD3" => Some("3")
    case "NUMPAD4" => Some("4")
    case "NUMPAD5" => Some("5")
    case "NUMPAD6" => Some("6")
    case "NUMPAD7" => Some("7")
    case "NUMPAD8" => Some("8")
    case "NUMPAD9" => Some("9")
    case "ADD" => Some("{+}")
    case "SUBTRACT" => Some("-")
    case "MULTIPLY" => Some("*")
    case "DIVIDE" => Some("/")
    case _ => None
  }

  /** Every command in the table is a non-empty string, so `command or ...` only
      falls back to the key name for a key the table lacks. */
  lemma TableCommandsNonEmpty()
    ensures forall name :: FromKeyToSendKey(name).Some? ==> FromKeyToSendKey(name).value != ""
  {
  }

  /** `FROM_KEY_TO_SENDKEY.get(key.upper(), None)`. */
  function Lookup(key: string): Option<string>
  {
    FromKeyToSendKey(Upper(key))
  }

  /** Python truthiness of `times and times > 1`, with None as `Option.None`. */
  predicate Repeats(times: Option<int>) { times.Some? && times.value > 1 }

  /** The modifier characters, each prepended in the order ctrl, alt, shift. */
  function ModifierPrefix(ctrl: bool, alt: bool, shift: bool): (p: string)
    ensures p == "" <==> !ctrl && !alt && !shift
    ensures ctrl && alt && shift ==> p == "+%^"
    // shift outermost, then alt, then ctrl
    ensures p == (if shift then "+" else "") + (if alt then "%" else "") + (if ctrl then "^" else "")
    ensures |p| <= 3 && '(' !in p && ')' !in p
  {
    var p0 := "";
    var p1 := if ctrl then "^" + p0 else p0;
    var p2 := if alt then "%" + p1 else p1;
    if shift then "+" + p2 else p2
  }

  /** to_send_key(key, ctrl, alt, shift, times). Multiplying the missing command
      of an unmapped key by a count above one is Python's TypeError. */
  function ToSendKey(key: string, ctrl: bool, alt: bool, shift: bool, times: Option<int>): (r: Result<string>)
    ensures r.Failure? <==> Repeats(times) && Lookup(key).None?
    ensures r.Failure? ==> r.error == TypeError
    ensures r.Success? && !ctrl && !alt && !shift ==> r.value == SendKeyText(key, times)
    ensures r.Success? && (ctrl || alt || shift) ==>
      r.value == ModifierPrefix(ctrl, alt, shift) + "(" + SendKeyText(key, times) + ")"
  {
    var command := Lookup(key);
    if Repeats(times) && command.None? then Failure(TypeError)
    else
      var command := if Repeats(times) then Some(Repeat(command.value, times.value)) else command;
      var result := ModifierPrefix(ctrl, alt, shift);
      var needClose := result != "";
      var result := if needClose then result + "(" else result;
      // `command or key.lower()`: an empty command is falsy as well
      var result := result + (if command.Some? && command.value != "" then command.value else Lower(key));
      Success(if needClose then result + ")" else result)
  }

  /** The key text the result is built around: the table command (repeated when a
      count above one is given) or, for an unmapped key, the lower-cased key. */
  function SendKeyText(key: string, times: Option<int>): string
  {
    match Lookup(key)
    case Some(c) =>
      var c' := if Repeats(times) then Repeat(c, times.value) else c;
      if c' != "" then c' else Lower(key)
    case None => Lower(key)
  }

  /** Lookup is case-insensitive: two keys equal up to ASCII case convert alike. */
  lemma {:induction false} ToSendKeyIgnoresCase(k1: string, k2: string, ctrl: bool, alt: bool, shift: bool, times: Option<int>)
    requires Upper(k1) == Upper(k2)
    ensures ToSendKey(k1, ctrl, alt, shift, times) == ToSendKey(k2, ctrl, alt, shift, times)
  {
    SameUpperSameLower(k1, k2);
  }

  /** An unmapped key is emitted lower-cased, without repetition. */
  lemma UnmappedKeyIsLowered(key: string, ctrl: bool, alt: bool, shift: bool, times: Option<int>)
    requires Lookup(key).None? && !Repeats(times)
    ensures ToSendKey(key, ctrl, alt, shift, times).Success?
    ensures SendKeyText(key, times) == Lower(key)
  {
  }

  /** A count of None, 0 or 1 never fails: the result is never None, whatever the
      doc-comment of to_send_key says. */
  lemma NoRepeatNeverFails(key: string, ctrl: bool, alt: bool, shift: bool, times: Option<int>)
    requires times.None? || times.value <= 1
    ensures ToSendKey(key, ctrl, alt, shift, times).Success?
  {
  }

  /** A count above one repeats a mapped command exactly that many times. */
  lemma {:induction false} RepeatedCommand(key: string, n: int)
    requires Lookup(key).Some? && n > 1
    ensures var c := Lookup(key).value;
      SendKeyText(key, Some(n)) == Repeat(c, n) && |SendKeyText(key, Some(n))| == n * |c|
  {
    var c := Lookup(key).value;
    TableCommandsNonEmpty();
    RepeatLength(c, n);
    assert Repeat(c, n) == c + Repeat(c, n - 1);
  }

  /** Shift, alt and ctrl around Enter: prefix `+%^`, the command in parentheses. */
  lemma AllModifiersExample()
    ensures ToSendKey("enter", true, true, true, None) == Success("+%^({ENTER})")
  {
    assert Upper("enter") == "ENTER";
    assert SendKeyText("enter", None) == "{ENTER}";
    assert "+%^" + "(" + "{ENTER}" + ")" == "+%^({ENTER})";
  }

  /** A count of one leaves an unmodified command as it is, without parentheses. */
  lemma PlainKeyExample()
    ensures ToSendKey("Prior", false, false, false, Some(1)) == Success("{PGUP}")
  {
    assert Upper("Prior") == "PRIOR";
    assert Lookup("Prior") == Some("{PGUP}");
    assert SendKeyText("Prior", Some(1)) == "{PGUP}";
  }

  /** Return is the table's ENTER, in any case. */
  lemma ReturnExample()
    ensures ToSendKey("Return", false, false, false, None) == Success("{ENTER}")
  {
    assert Upper("Return") == "RETURN";
    assert SendKeyText("Return", None) == "{ENTER}";
  }

  /** A letter is not in the table and comes out lower-cased. */
  lemma UnmappedLetterExample()
    ensures ToSendKey("A", true, false, false, None) == Success("^(a)")
    ensures ToSendKey("q", false, false, false, Some(2)) == Failure(TypeError)
  {
    LetterA();
    assert SendKeyText("A", None) == "a";
    assert ModifierPrefix(true, false, false) == "^";
    assert "^" + "(" + "a" + ")" == "^(a)";
    LetterQ();
  }

  lemma LetterA()
    ensures Lookup("A") == None && Lower("A") == "a"
  {
    assert Upper("A") == "A";
  }

  lemma LetterQ()
    ensures Lookup("q") == None
  {
    assert Upper("q") == "Q";
  }

  /** A count of three repeats the command three times. */
  lemma RepeatExample()
    ensures ToSendKey("tab", false, false, false, Some(3)) == Success("{TAB}{TAB}{TAB}")
  {
    assert Upper("tab") == "TAB";
    assert Lookup("tab") == Some("{TAB}");
    assert Repeat("{TAB}", 3) == "{TAB}" + Repeat("{TAB}", 2);
    assert Repeat("{TAB}", 2) == "{TAB}" + Repeat("{TAB}", 1);
    assert Repeat("{TAB}", 1) == "{TAB}";
    assert "{TAB}" + ("{TAB}" + "{TAB}") == "{TAB}{TAB}{TAB}";
  }
}
