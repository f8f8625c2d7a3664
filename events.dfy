/** Keyboard and mouse state (src/Events.js): three tables of inputs, written by
    the browser's key and mouse events and read by the game once per frame.
    "Pressed" is reported once per physical press through a checked latch. */
module Events {
  import opened Wrappers

  /** One key or button: whether it is down, and whether its press was
      already reported. */
  datatype Input = Input(value: bool, checked: bool)

  /** A result, or the TypeError the source throws when it indexes past the
      end of a table and reads or writes a field of `undefined`. */
  datatype Outcome<T> = Ok(value: T) | TypeError

  const ALPHANUMERIC_KEYS := 63
  const SPECIAL_KEYS := 10
  const MOUSE_BUTTONS := 10

  /** The `MOUSE` constants. */
  const MOUSE_LEFT := 0
  const MOUSE_MIDDLE := 1
  const MOUSE_RIGHT := 2
  const MOUSE_ANY := 5

  /** The values of the exported `KEY` table. */
  const KeyNames: seq<string> := [
    "a", "b", "c", "d", "e", "f", "g", "h", "i", "j", "k", "l", "m",
    "n", "o", "p", "q", "r", "s", "t", "u", "v", "w", "x", "y", "z",
    " ", "1", "2", "3", "4", "5", "6", "7", "8", "9", "0",
    "Shift", "Tab", "CapsLock", "Control", "Alt", "Any"]

  // ---------------------------------------------------------------------
  // Key names to table slots

  /** `key.length == 1`: JavaScript counts UTF-16 code units, so a character
      outside the Basic Multilingual Plane has length 2. */
  predicate SingleUnit(key: string)
  {
    |key| == 1 && (key[0] as int) < 0x10000
  }

  /** The code point of the upper-cased character; only ASCII letters change. */
  function UpperCode(c: char): int
  {
    if 'a' <= c <= 'z' then c as int - 32 else c as int
  }

  /** A one-unit key maps to its upper-case code point minus 32 (the code of
      space), the six named special keys to 0..5, anything else to -1. */
  function GetKeyIndex(key: string): (i: int)
    ensures !SingleUnit(key) ==> -1 <= i <= 5
    ensures SingleUnit(key) ==> i >= -32
    ensures key == "Any" ==> i == 0
    ensures key == "Tab" ==> i == 1
    ensures key == "CapsLock" ==> i == 2
    ensures key == "Shift" ==> i == 3
    ensures key == "Control" ==> i == 4
    ensures key == "Alt" ==> i == 5
    ensures !SingleUnit(key) && key !in {"Any", "Tab", "CapsLock", "Shift", "Control", "Alt"} ==> i == -1
  {
    if SingleUnit(key) then UpperCode(key[0]) - 32
    else if key == "Any" then 0
    else if key == "Tab" then 1
    else if key == "CapsLock" then 2
    else if key == "Shift" then 3
    else if key == "Control" then 4
    else if key == "Alt" then 5
    else -1
  }

  /** Letters map to 33..58 whatever their case; digits to 16..25; space to 0. */
  lemma LetterDigitSpaceIndices(c: char)
    ensures 'a' <= c <= 'z' ==>
      (33 <= GetKeyIndex([c]) <= 58 && GetKeyIndex([c]) == GetKeyIndex([(c as int - 32) as char]))
    ensures 'A' <= c <= 'Z' ==> 33 <= GetKeyIndex([c]) <= 58
    ensures '0' <= c <= '9' ==> 16 <= GetKeyIndex([c]) <= 25
    ensures c == ' ' ==> GetKeyIndex([c]) == 0
  {
  }

  /** Every name in the `KEY` table has a slot inside its table. */
  lemma KeyNamesInBounds(k: nat)
    requires k < |KeyNames|
    ensures 0 <= GetKeyIndex(KeyNames[k])
    ensures SingleUnit(KeyNames[k]) ==> GetKeyIndex(KeyNames[k]) < ALPHANUMERIC_KEYS
    ensures !SingleUnit(KeyNames[k]) ==> GetKeyIndex(KeyNames[k]) < SPECIAL_KEYS
  {
    var key := KeyNames[k];
    if k < 37 {
      assert |key| == 1;
      LetterDigitSpaceIndices(key[0]);
    }
  }

  /** Two one-unit keys share a slot exactly when they agree after
      upper-casing, so 'a' and 'A' are one key and no two letters collide. */
  lemma SingleUnitSlots(k: string, l: string)
    requires SingleUnit(k) && SingleUnit(l)
    ensures GetKeyIndex(k) == GetKeyIndex(l) <==> UpperCode(k[0]) == UpperCode(l[0])
  {
  }

  /** Distinct names of the `KEY` table never share a slot of the same table,
      so one key's latch never answers for another. */
  lemma KeyNamesDistinctSlots(k: nat, l: nat)
    requires k < |KeyNames| && l < |KeyNames| && k != l
    requires SingleUnit(KeyNames[k]) == SingleUnit(KeyNames[l])
    ensures GetKeyIndex(KeyNames[k]) != GetKeyIndex(KeyNames[l])
  {
    SlotNamesKey(k);
    SlotNamesKey(l);
  }

  /** The position in `KeyNames` of the name that owns a slot of the
      alphanumeric (`single`) or the special table. */
  function KeyOfSlot(single: bool, i: int): int
  {
    if single then
      if 33 <= i <= 58 then i - 33
      else if i == 0 then 26
      else if 17 <= i <= 25 then i + 10
      else if i == 16 then 36
      else -1
    else if 0 <= i <= 5 then [42, 38, 39, 37, 40, 41][i]
    else -1
  }

  /** Each `KEY` name is recovered from its table and slot. */
  lemma SlotNamesKey(k: nat)
    requires k < |KeyNames|
    ensures KeyOfSlot(SingleUnit(KeyNames[k]), GetKeyIndex(KeyNames[k])) == k
  {
    if k < 26 {
      LetterSlotNamesKey(k);
    } else {
      OtherSlotNamesKey(k);
    }
  }

  lemma LetterSlotNamesKey(k: nat)
    requires k < 26
    ensures KeyOfSlot(SingleUnit(KeyNames[k]), GetKeyIndex(KeyNames[k])) == k
  {
    assert |KeyNames[k]| == 1 && 'a' <= KeyNames[k][0] <= 'z';
  }

  lemma OtherSlotNamesKey(k: nat)
    requires 26 <= k < |KeyNames|
    ensures KeyOfSlot(SingleUnit(KeyNames[k]), GetKeyIndex(KeyNames[k])) == k
  {
  }

  /** A printable one-unit character from '_' (code 95) upwards that is not a
      lower-case letter falls past the 63-entry table: '_', '`', '{' and '~'
      among them. */
  lemma PastTheTable(c: char)
    requires 95 <= c as int < 0x10000 && !('a' <= c <= 'z')
    ensures GetKeyIndex([c]) >= ALPHANUMERIC_KEYS
  {
  }

  // ---------------------------------------------------------------------
  // The tables as values

  datatype Tables = Tables(alpha: seq<Input>, special: seq<Input>, mouse: seq<Input>)

  predicate WellSized(t: Tables)
  {
    |t.alpha| == ALPHANUMERIC_KEYS && |t.special| == SPECIAL_KEYS && |t.mouse| == MOUSE_BUTTONS
  }

  /** What the constructor builds: every input up and unreported. */
  function InitialTables(): (t: Tables)
    ensures WellSized(t)
    ensures forall i :: 0 <= i < |t.alpha| ==> t.alpha[i] == Input(false, false)
    ensures forall i :: 0 <= i < |t.special| ==> t.special[i] == Input(false, false)
    ensures forall i :: 0 <= i < |t.mouse| ==> t.mouse[i] == Input(false, false)
  {
    Tables(seq(ALPHANUMERIC_KEYS, _ => Input(false, false)),
           seq(SPECIAL_KEYS, _ => Input(false, false)),
           seq(MOUSE_BUTTONS, _ => Input(false, false)))
  }

  /** A table and the outcome of an operation on it. An operation that throws
      keeps the writes it made before the throw. */
  datatype Step<T> = Step(tables: Tables, out: Outcome<T>)

  function Down(s: seq<Input>, k: nat): seq<Input>
    requires k < |s|
  {
    s[k := s[k].(value := true)]
  }

  function Up(s: seq<Input>, k: nat): seq<Input>
    requires k < |s|
  {
    s[k := Input(false, false)]
  }

  /** The pressed query on one entry: down and not yet reported; a positive
      answer marks it reported. */
  function Latch(s: seq<Input>, k: nat): (bool, seq<Input>)
    requires k < |s|
  {
    var result := s[k].value && !s[k].checked;
    (result, if result then s[k := s[k].(checked := true)] else s)
  }

  /** A key whose slot lies inside its table. */
  predicate Recognised(key: string)
  {
    var index := GetKeyIndex(key);
    index != -1 && (SingleUnit(key) ==> 0 <= index < ALPHANUMERIC_KEYS)
  }

  /** The entry of a recognised key: in the alphanumeric table for a one-unit
      key, in the special table otherwise. */
  function Slot(t: Tables, key: string): Input
    requires WellSized(t) && Recognised(key)
  {
    if SingleUnit(key) then t.alpha[GetKeyIndex(key)] else t.special[GetKeyIndex(key)]
  }

  /** `r` agrees with `t` on every key entry except the slot of `key` and, when
      `any` holds, the Any entry (special slot 0); the mouse table is the same. */
  predicate KeysElsewhere(t: Tables, r: Tables, key: string, any: bool)
    requires WellSized(t) && WellSized(r)
  {
    var index := GetKeyIndex(key);
    && r.mouse == t.mouse
    && (forall j :: 0 <= j < ALPHANUMERIC_KEYS && !(SingleUnit(key) && j == index) ==>
          r.alpha[j] == t.alpha[j])
    && (forall j :: 0 <= j < SPECIAL_KEYS && !(any && j == 0) && !(!SingleUnit(key) && j == index) ==>
          r.special[j] == t.special[j])
  }

  /** `r` agrees with `t` everywhere except mouse entries `a` and `b`. */
  predicate MouseElsewhere(t: Tables, r: Tables, a: int, b: int)
    requires WellSized(t) && WellSized(r)
  {
    && r.alpha == t.alpha && r.special == t.special
    && (forall j :: 0 <= j < MOUSE_BUTTONS && j != a && j != b ==> r.mouse[j] == t.mouse[j])
  }

  /** The pressed query: a recognised key answers whether it is down and not
      yet reported, and a positive answer marks it reported; nothing else
      changes. An unknown key answers no; a one-unit key past the table throws. */
  function KeyPressed(t: Tables, key: string): (r: Step<bool>)
    requires WellSized(t)
    ensures WellSized(r.tables)
    ensures Recognised(key) ==>
      && r.out == Ok(Slot(t, key).value && !Slot(t, key).checked)
      && Slot(r.tables, key) == Slot(t, key).(checked := Slot(t, key).checked || r.out.value)
      && KeysElsewhere(t, r.tables, key, false)
    ensures !Recognised(key) ==>
      r == Step(t, if GetKeyIndex(key) == -1 then Ok(false) else TypeError)
  {
    var index := GetKeyIndex(key);
    if index == -1 then Step(t, Ok(false))
    else if SingleUnit(key) then
      if 0 <= index < |t.alpha| then
        var l := Latch(t.alpha, index);
        Step(t.(alpha := l.1), Ok(l.0))
      else Step(t, TypeError)
    else
      var l := Latch(t.special, index);
      Step(t.(special := l.1), Ok(l.0))
  }

  /** The held query: a recognised key answers whether it is down, an unknown
      key answers no, and a one-unit key past the table throws. */
  function KeyHeld(t: Tables, key: string): (r: Outcome<bool>)
    requires WellSized(t)
    ensures r == TypeError <==> SingleUnit(key) && !(-1 <= GetKeyIndex(key) < ALPHANUMERIC_KEYS)
    ensures Recognised(key) ==> r == Ok(Slot(t, key).value)
    ensures GetKeyIndex(key) == -1 ==> r == Ok(false)
  {
    var index := GetKeyIndex(key);
    if index == -1 then Ok(false)
    else if SingleUnit(key) then
      if 0 <= index < |t.alpha| then Ok(t.alpha[index].value) else TypeError
    else Ok(t.special[index].value)
  }

  function KeyReleased(t: Tables, key: string): (r: Outcome<bool>)
    requires WellSized(t)
    ensures r.Ok? <==> KeyHeld(t, key).Ok?
    ensures r.Ok? ==> r.value == !KeyHeld(t, key).value
  {
    match KeyHeld(t, key)
    case Ok(held) => Ok(!held)
    case TypeError => TypeError
  }

  /** The keydown handler: for a recognised key, Any and the key go down with
      their reported flags kept, and nothing else changes. An unknown key
      changes nothing; a one-unit key past the table puts Any down and throws. */
  function KeyDown(t: Tables, key: string): (r: Step<()>)
    requires WellSized(t)
    ensures WellSized(r.tables)
    ensures Recognised(key) ==>
      && r.out == Ok(())
      && r.tables.special[0] == t.special[0].(value := true)
      && Slot(r.tables, key) == Slot(t, key).(value := true)
      && KeysElsewhere(t, r.tables, key, true)
    ensures GetKeyIndex(key) == -1 ==> r == Step(t, Ok(()))
    ensures !Recognised(key) && GetKeyIndex(key) != -1 ==>
      r == Step(t.(special := t.special[0 := t.special[0].(value := true)]), TypeError)
  {
    var index := GetKeyIndex(key);
    if index == -1 then Step(t, Ok(()))
    else
      var any := Down(t.special, 0);
      if SingleUnit(key) then
        if 0 <= index < |t.alpha| then Step(t.(special := any, alpha := Down(t.alpha, index)), Ok(()))
        else Step(t.(special := any), TypeError)
      else Step(t.(special := Down(any, index)), Ok(()))
  }

  /** The keyup handler: for a recognised key, Any and the key go up and
      unreported, and nothing else changes. An unknown key changes nothing; a
      one-unit key past the table puts Any up and throws. */
  function KeyUp(t: Tables, key: string): (r: Step<()>)
    requires WellSized(t)
    ensures WellSized(r.tables)
    ensures Recognised(key) ==>
      && r.out == Ok(())
      && r.tables.special[0] == Input(false, false)
      && Slot(r.tables, key) == Input(false, false)
      && KeysElsewhere(t, r.tables, key, true)
    ensures GetKeyIndex(key) == -1 ==> r == Step(t, Ok(()))
    ensures !Recognised(key) && GetKeyIndex(key) != -1 ==>
      r == Step(t.(special := t.special[0 := Input(false, false)]), TypeError)
  {
    var index := GetKeyIndex(key);
    if index == -1 then Step(t, Ok(()))
    else
      var any := Up(t.special, 0);
      if SingleUnit(key) then
        if 0 <= index < |t.alpha| then Step(t.(special := any, alpha := Up(t.alpha, index)), Ok(()))
        else Step(t.(special := any), TypeError)
      else Step(t.(special := Up(any, index)), Ok(()))
  }

  /** Buttons past ANY (or negative) read as not held. */
  function MouseHeld(t: Tables, button: int): (r: bool)
    requires WellSized(t)
    ensures r <==> (0 <= button <= MOUSE_ANY && t.mouse[button].value)
  {
    if button < 0 || button > MOUSE_ANY then false else t.mouse[button].value
  }

  function MouseReleased(t: Tables, button: int): (r: bool)
    requires WellSized(t)
    ensures r <==> !MouseHeld(t, button)
  {
    !MouseHeld(t, button)
  }

  /** The pressed query on a button 0..ANY: down and not yet reported, and a
      positive answer marks it reported; nothing else changes. Other buttons
      answer no. */
  function MousePressed(t: Tables, button: int): (r: (bool, Tables))
    requires WellSized(t)
    ensures WellSized(r.1)
    ensures 0 <= button <= MOUSE_ANY ==>
      && r.0 == (t.mouse[button].value && !t.mouse[button].checked)
      && r.1.mouse[button] == t.mouse[button].(checked := t.mouse[button].checked || r.0)
      && MouseElsewhere(t, r.1, button, button)
    ensures !(0 <= button <= MOUSE_ANY) ==> r == (false, t)
  {
    if button < 0 || button > MOUSE_ANY then (false, t)
    else
      var l := Latch(t.mouse, button);
      (l.0, t.(mouse := l.1))
  }

  /** The mousedown handler ignores ANY and above; otherwise ANY and the
      button go down with their reported flags kept, and nothing else changes. */
  function MouseDown(t: Tables, button: int): (r: Tables)
    requires WellSized(t)
    ensures WellSized(r)
    ensures 0 <= button < MOUSE_ANY ==>
      && r.mouse[button] == t.mouse[button].(value := true)
      && r.mouse[MOUSE_ANY] == t.mouse[MOUSE_ANY].(value := true)
      && MouseElsewhere(t, r, button, MOUSE_ANY)
    ensures !(0 <= button < MOUSE_ANY) ==> r == t
  {
    if button < 0 || button >= MOUSE_ANY then t
    else t.(mouse := Down(Down(t.mouse, MOUSE_ANY), button))
  }

  /** The mouseup handler ignores ANY and above; otherwise ANY and the button
      go up and unreported, and nothing else changes. */
  function MouseUp(t: Tables, button: int): (r: Tables)
    requires WellSized(t)
    ensures WellSized(r)
    ensures 0 <= button < MOUSE_ANY ==>
      && r.mouse[button] == Input(false, false)
      && r.mouse[MOUSE_ANY] == Input(false, false)
      && MouseElsewhere(t, r, button, MOUSE_ANY)
    ensures !(0 <= button < MOUSE_ANY) ==> r == t
  {
    if button < 0 || button >= MOUSE_ANY then t
    else t.(mouse := Up(Up(t.mouse, MOUSE_ANY), button))
  }

  // ---------------------------------------------------------------------
  // Properties of the tables

  /** The events that can reach one entry while its key stays down. */
  datatype KeyEvent = Repeat | Query

  function ApplyEvent(i: Input, e: KeyEvent): (bool, Input)
  {
    match e
    case Repeat => (false, i.(value := true))
    case Query =>
      var l := Latch([i], 0);
      (l.0, l.1[0])
  }

  /** How many queries answer "pressed" over a run of events. */
  function Reports(i: Input, es: seq<KeyEvent>): nat
    decreases |es|
  {
    if es == [] then 0
    else
      var a := ApplyEvent(i, es[0]);
      (if a.0 then 1 else 0) + Reports(a.1, es[1..])
  }

  /** While a key stays down (key repeats and queries only), at most one query
      reports it pressed, and none once its press was reported. */
  lemma {:induction false} OncePerPress(i: Input, es: seq<KeyEvent>)
    ensures Reports(i, es) <= 1
    ensures i.checked ==> Reports(i, es) == 0
    decreases |es|
  {
    if es != [] {
      var a := ApplyEvent(i, es[0]);
      OncePerPress(a.1, es[1..]);
      if a.0 {
        assert a.1.checked;
      } else if i.checked {
        assert a.1.checked;
      }
    }
  }

  /** How many pressed queries on `key` answer yes over a run of key repeats
      (the keydown handler) and queries, on the tables. */
  function KeyReports(t: Tables, key: string, es: seq<KeyEvent>): nat
    requires WellSized(t) && Recognised(key)
    decreases |es|
  {
    if es == [] then 0
    else match es[0]
      case Repeat => KeyReports(KeyDown(t, key).tables, key, es[1..])
      case Query =>
        var s := KeyPressed(t, key);
        (if s.out == Ok(true) then 1 else 0) + KeyReports(s.tables, key, es[1..])
  }

  /** On the tables, the handler and the query act on a key's slot exactly as
      `ApplyEvent` acts on one entry, so the reports are those of the entry. */
  lemma {:induction false} KeyReportsFollowSlot(t: Tables, key: string, es: seq<KeyEvent>)
    requires WellSized(t) && Recognised(key)
    ensures KeyReports(t, key, es) == Reports(Slot(t, key), es)
    decreases |es|
  {
    if es != [] {
      match es[0]
      case Repeat =>
        KeyReportsFollowSlot(KeyDown(t, key).tables, key, es[1..]);
      case Query =>
        KeyReportsFollowSlot(KeyPressed(t, key).tables, key, es[1..]);
    }
  }

  /** Once per physical press, on the tables: while a recognised key stays
      down, at most one pressed query on it answers yes, and none once its
      press was reported. */
  lemma KeyPressedOncePerPress(t: Tables, key: string, es: seq<KeyEvent>)
    requires WellSized(t) && Recognised(key)
    ensures KeyReports(t, key, es) <= 1
    ensures Slot(t, key).checked ==> KeyReports(t, key, es) == 0
  {
    KeyReportsFollowSlot(t, key, es);
    OncePerPress(Slot(t, key), es);
  }

  /** How many pressed queries on a button answer yes over a run of presses
      (the mousedown handler) and queries, on the tables. */
  function ButtonReports(t: Tables, button: int, es: seq<KeyEvent>): nat
    requires WellSized(t) && 0 <= button < MOUSE_ANY
    decreases |es|
  {
    if es == [] then 0
    else match es[0]
      case Repeat => ButtonReports(MouseDown(t, button), button, es[1..])
      case Query =>
        var s := MousePressed(t, button);
        (if s.0 then 1 else 0) + ButtonReports(s.1, button, es[1..])
  }

  lemma {:induction false} ButtonReportsFollowSlot(t: Tables, button: int, es: seq<KeyEvent>)
    requires WellSized(t) && 0 <= button < MOUSE_ANY
    ensures ButtonReports(t, button, es) == Reports(t.mouse[button], es)
    decreases |es|
  {
    if es != [] {
      match es[0]
      case Repeat =>
        ButtonReportsFollowSlot(MouseDown(t, button), button, es[1..]);
      case Query =>
        ButtonReportsFollowSlot(MousePressed(t, button).1, button, es[1..]);
    }
  }

  /** Once per click: while a button stays down, at most one pressed query on
      it answers yes, and none once its press was reported. */
  lemma ButtonPressedOncePerClick(t: Tables, button: int, es: seq<KeyEvent>)
    requires WellSized(t) && 0 <= button < MOUSE_ANY
    ensures ButtonReports(t, button, es) <= 1
    ensures t.mouse[button].checked ==> ButtonReports(t, button, es) == 0
  {
    ButtonReportsFollowSlot(t, button, es);
    OncePerPress(t.mouse[button], es);
  }

  /** A reported press is not reported again, even after a key repeat. */
  lemma PressedOnce(t: Tables, key: string)
    requires WellSized(t)
    requires KeyPressed(t, key).out == Ok(true)
    ensures KeyPressed(KeyPressed(t, key).tables, key).out == Ok(false)
    ensures KeyPressed(KeyDown(KeyPressed(t, key).tables, key).tables, key).out == Ok(false)
  {
  }

  /** Releasing and pressing a key again re-arms the report. */
  lemma ReleaseRearms(t: Tables, key: string)
    requires WellSized(t) && Recognised(key)
    ensures KeyHeld(KeyDown(t, key).tables, key) == Ok(true)
    ensures KeyReleased(KeyUp(t, key).tables, key) == Ok(true)
    ensures KeyPressed(KeyDown(KeyUp(t, key).tables, key).tables, key).out == Ok(true)
  {
  }

  /** Any is released by the release of any key, even while another key is
      still held. */
  lemma AnyReleasedEarly(t: Tables, a: string, b: string)
    requires WellSized(t) && Recognised(a) && Recognised(b)
    requires SingleUnit(a) != SingleUnit(b) || GetKeyIndex(a) != GetKeyIndex(b)
    requires SingleUnit(b) || GetKeyIndex(b) != 0
    ensures var t3 := KeyUp(KeyDown(KeyDown(t, a).tables, b).tables, a).tables;
      KeyHeld(t3, b) == Ok(true) && KeyHeld(t3, "Any") == Ok(false)
  {
  }

  /** An unrecognised key name changes nothing. */
  lemma UnknownKeyIgnored(t: Tables, key: string)
    requires WellSized(t) && GetKeyIndex(key) == -1
    ensures KeyDown(t, key) == Step(t, Ok(())) && KeyUp(t, key) == Step(t, Ok(()))
    ensures KeyPressed(t, key) == Step(t, Ok(false)) && KeyHeld(t, key) == Ok(false)
  {
  }

  /** A one-unit key past the table throws, on reads and on writes; the
      keydown handler has already put Any down when it does. */
  lemma PastTheTableThrows(t: Tables, key: string)
    requires WellSized(t) && SingleUnit(key) && GetKeyIndex(key) >= ALPHANUMERIC_KEYS
    ensures KeyPressed(t, key).out == TypeError && KeyHeld(t, key) == TypeError
    ensures KeyDown(t, key).out == TypeError && KeyDown(t, key).tables.special[0].value
    ensures KeyUp(t, key).out == TypeError
  {
  }

  /** Mouse queries outside 0..ANY answer "not pressed" and change nothing;
      the handlers ignore ANY and above. */
  lemma MouseOutOfRange(t: Tables, button: int)
    requires WellSized(t)
    ensures (button < 0 || button > MOUSE_ANY) ==> MousePressed(t, button) == (false, t) && !MouseHeld(t, button)
    ensures (button < 0 || button >= MOUSE_ANY) ==> MouseDown(t, button) == t && MouseUp(t, button) == t
  {
  }

  /** A button press puts the button and ANY down and is reported once; its
      release puts both up. */
  lemma MouseClick(t: Tables, button: int)
    requires WellSized(t) && 0 <= button < MOUSE_ANY
    ensures MouseHeld(MouseDown(t, button), button) && MouseHeld(MouseDown(t, button), MOUSE_ANY)
    ensures MousePressed(MouseDown(MouseUp(t, button), button), button).0
    ensures !MousePressed(MousePressed(MouseDown(t, button), button).1, button).0
    ensures MouseReleased(MouseUp(t, button), button) && MouseReleased(MouseUp(t, button), MOUSE_ANY)
  {
  }

  // ---------------------------------------------------------------------
  // The event manager

  class EventManager {
    const alphaNumericKeys: array<Input>
    const specialKeys: array<Input>
    const mouseButtons: array<Input>

    ghost predicate Valid()
      reads this
    {
      && alphaNumericKeys.Length == ALPHANUMERIC_KEYS
      && specialKeys.Length == SPECIAL_KEYS
      && mouseButtons.Length == MOUSE_BUTTONS
      && alphaNumericKeys != specialKeys && alphaNumericKeys != mouseButtons && specialKeys != mouseButtons
    }

    function Contents(): Tables
      reads this, alphaNumericKeys, specialKeys, mouseButtons
    {
      Tables(alphaNumericKeys[..], specialKeys[..], mouseButtons[..])
    }

    /** The body of the constructor that runs on first construction. */
    constructor ()
      ensures Valid() && Contents() == InitialTables()
      ensures fresh(alphaNumericKeys) && fresh(specialKeys) && fresh(mouseButtons)
    {
      alphaNumericKeys := new Input[ALPHANUMERIC_KEYS](_ => Input(false, false));
      specialKeys := new Input[SPECIAL_KEYS](_ => Input(false, false));
      mouseButtons := new Input[MOUSE_BUTTONS](_ => Input(false, false));
    }

    method IsKeyPressed(key: string) returns (o: Outcome<bool>)
      requires Valid()
      modifies alphaNumericKeys, specialKeys
      ensures Step(Contents(), o) == KeyPressed(old(Contents()), key)
    {
      var index := GetKeyIndex(key);
      if index == -1 {
        return Ok(false);
      }
      if SingleUnit(key) {
        if !(0 <= index < alphaNumericKeys.Length) {
          return TypeError;
        }
        var input := alphaNumericKeys[index];
        var result := input.value && !input.checked;
        if result {
          alphaNumericKeys[index] := input.(checked := true);
        }
        return Ok(result);
      }
      var input := specialKeys[index];
      var result := input.value && !input.checked;
      if result {
        specialKeys[index] := input.(checked := true);
      }
      return Ok(result);
    }

    function IsKeyHeld(key: string): (o: Outcome<bool>)
      reads this, alphaNumericKeys, specialKeys, mouseButtons
      requires Valid()
      ensures Recognised(key) ==> o == Ok(Slot(Contents(), key).value)
      ensures GetKeyIndex(key) == -1 ==> o == Ok(false)
      ensures !Recognised(key) && GetKeyIndex(key) != -1 ==> o == TypeError
    {
      KeyHeld(Contents(), key)
    }

    function IsKeyReleased(key: string): (o: Outcome<bool>)
      reads this, alphaNumericKeys, specialKeys, mouseButtons
      requires Valid()
      ensures o == KeyReleased(Contents(), key)
    {
      match IsKeyHeld(key)
      case Ok(held) => Ok(!held)
      case TypeError => TypeError
    }

    method IsMouseButtonPressed(button: int) returns (pressed: bool)
      requires Valid()
      modifies mouseButtons
      ensures (pressed, Contents()) == MousePressed(old(Contents()), button)
    {
      if button < 0 || button > MOUSE_ANY {
        return false;
      }
      var input := mouseButtons[button];
      pressed := input.value && !input.checked;
      if pressed {
        mouseButtons[button] := input.(checked := true);
      }
    }

    function IsMouseButtonHeld(button: int): (held: bool)
      reads this, alphaNumericKeys, specialKeys, mouseButtons
      requires Valid()
      ensures held <==> (0 <= button <= MOUSE_ANY && mouseButtons[button].value)
    {
      MouseHeld(Contents(), button)
    }

    function IsMouseButtonReleased(button: int): (released: bool)
      reads this, alphaNumericKeys, specialKeys, mouseButtons
      requires Valid()
      ensures released == MouseReleased(Contents(), button)
    {
      !IsMouseButtonHeld(button)
    }

    method OnKeyDown(key: string) returns (o: Outcome<()>)
      requires Valid()
      modifies alphaNumericKeys, specialKeys
      ensures Step(Contents(), o) == KeyDown(old(Contents()), key)
    {
      var index := GetKeyIndex(key);
      if index == -1 {
        return Ok(());
      }
      specialKeys[0] := specialKeys[0].(value := true);
      if SingleUnit(key) {
        if !(0 <= index < alphaNumericKeys.Length) {
          return TypeError;
        }
        alphaNumericKeys[index] := alphaNumericKeys[index].(value := true);
        return Ok(());
      }
      specialKeys[index] := specialKeys[index].(value := true);
      return Ok(());
    }

    method OnKeyUp(key: string) returns (o: Outcome<()>)
      requires Valid()
      modifies alphaNumericKeys, specialKeys
      ensures Step(Contents(), o) == KeyUp(old(Contents()), key)
    {
      var index := GetKeyIndex(key);
      if index == -1 {
        return Ok(());
      }
      specialKeys[0] := Input(false, false);
      if SingleUnit(key) {
        if !(0 <= index < alphaNumericKeys.Length) {
          return TypeError;
        }
        alphaNumericKeys[index] := Input(false, false);
        return Ok(());
      }
      specialKeys[index] := Input(false, false);
      return Ok(());
    }

    method OnMouseDown(button: int)
      requires Valid()
      modifies mouseButtons
      ensures Contents() == MouseDown(old(Contents()), button)
    {
      if button < 0 || button >= MOUSE_ANY {
        return;
      }
      mouseButtons[MOUSE_ANY] := mouseButtons[MOUSE_ANY].(value := true);
      mouseButtons[button] := mouseButtons[button].(value := true);
    }

    method OnMouseUp(button: int)
      requires Valid()
      modifies mouseButtons
      ensures Contents() == MouseUp(old(Contents()), button)
    {
      if button < 0 || button >= MOUSE_ANY {
        return;
      }
      mouseButtons[MOUSE_ANY] := Input(false, false);
      mouseButtons[button] := Input(false, false);
    }
  }

  /** Where the single instance is kept (`EventManager.instance`). */
  class Registry {
    var instance: Option<EventManager>

    constructor ()
      ensures instance == None
    {
      instance := None;
    }
  }

  /** `new EventManager()`: the first construction builds and registers the
      instance, every later one returns it. */
  method NewEventManager(registry: Registry) returns (m: EventManager)
    modifies registry
    ensures old(registry.instance).Some? ==> m == old(registry.instance).value && registry.instance == old(registry.instance)
    ensures old(registry.instance).None? ==> fresh(m) && m.Valid() && m.Contents() == InitialTables() && registry.instance == Some(m)
  {
    if registry.instance.Some? {
      return registry.instance.value;
    }
    m := new EventManager();
    registry.instance := Some(m);
  }
}
