/**
 * Keyboard and clipboard actuation (auto_input/util.py).
 *
 * Every pyautogui / pyperclip call becomes one `Event` appended to the
 * `trace` of an `Actuator`. What such a trace does to the focused form is
 * given by a small reference interpreter (`Apply`), so that the order of
 * fields and the paste-or-skip rule can be stated as effects on the form.
 */
module InputUtil {
  import opened Text

  /** A Python value handed to `auto_input`: the cases it distinguishes. */
  datatype FieldValue =
    | Str(s: string)     // str
    | Int(n: int)        // int
    | Bool(b: bool)      // bool, which Python treats as an int
    | NoValue            // None, float and every other type

  datatype Event =
    | Copy(text: string)      // pyperclip.copy
    | KeyDown(key: string)    // pyautogui.keyDown
    | KeyUp(key: string)      // pyautogui.keyUp
    | Press(key: string)      // pyautogui.press

  const Tab := Press("tab")

  /** Whether `auto_input` pastes the value before its Tab. */
  predicate Pastes(v: FieldValue) {
    match v
    case Str(s) => |s| != 0
    case Int(_) => true
    case Bool(_) => true
    case NoValue => false
  }

  /** The text pyperclip puts on the clipboard: `str(value)`. */
  function ClipboardText(v: FieldValue): string {
    match v
    case Str(s) => s
    case Int(n) => IntToString(n)
    case Bool(b) => if b then "True" else "False"
    case NoValue => "None"
  }

  /** The events of `paste_text(text)`. */
  function PasteEvents(text: string): seq<Event> {
    [Copy(text), KeyDown("ctrl"), Press("a"), Press("v"), KeyUp("ctrl")]
  }

  /** The events of `delete_text()`. */
  function DeleteEvents(): seq<Event> {
    [KeyDown("ctrl"), Press("a"), KeyUp("ctrl"), Press("delete")]
  }

  /** The events of `auto_input(v)`. */
  function AutoInputEvents(v: FieldValue): seq<Event> {
    (if Pastes(v) then PasteEvents(ClipboardText(v)) else []) + [Tab]
  }

  /** One position of a form: a value entered with `auto_input`, or a bare Tab. */
  datatype Slot = Fill(value: FieldValue) | Skip

  function SlotEvents(slot: Slot): seq<Event> {
    match slot
    case Fill(v) => AutoInputEvents(v)
    case Skip => [Tab]
  }

  /** The events of entering `slots` one after the other. */
  function EventsOf(slots: seq<Slot>): seq<Event> {
    if slots == [] then [] else SlotEvents(slots[0]) + EventsOf(slots[1..])
  }

  /** The texts put on the clipboard, in order. */
  function Copied(events: seq<Event>): seq<string> {
    if events == [] then []
    else (if events[0].Copy? then [events[0].text] else []) + Copied(events[1..])
  }

  /** The first `k` events (all of them when there are fewer). */
  function Take(events: seq<Event>, k: nat): seq<Event> {
    if k == 0 || events == [] then [] else [events[0]] + Take(events[1..], k - 1)
  }

  lemma {:induction false} TakePrefix(events: seq<Event>, k: nat)
    ensures Take(events, k) == events[..if k < |events| then k else |events|]
  {
    if k > 0 && events != [] {
      TakePrefix(events[1..], k - 1);
    }
  }

  /** The actuator: the trace of events the automation has produced so far. */
  class Actuator {
    var trace: seq<Event>

    constructor ()
      ensures trace == []
    {
      trace := [];
    }

    method CopyText(text: string)
      modifies this
      ensures trace == old(trace) + [Copy(text)]
    {
      trace := trace + [Copy(text)];
    }

    method KeyDownKey(key: string)
      modifies this
      ensures trace == old(trace) + [KeyDown(key)]
    {
      trace := trace + [KeyDown(key)];
    }

    method KeyUpKey(key: string)
      modifies this
      ensures trace == old(trace) + [KeyUp(key)]
    {
      trace := trace + [KeyUp(key)];
    }

    method PressKey(key: string)
      modifies this
      ensures trace == old(trace) + [Press(key)]
    {
      trace := trace + [Press(key)];
    }

    /** `paste_text`: clipboard, then Ctrl-down, A, V, Ctrl-up. */
    method PasteText(text: string)
      modifies this
      ensures trace == old(trace) + PasteEvents(text)
    {
      CopyText(text);
      KeyDownKey("ctrl");
      PressKey("a");
      PressKey("v");
      KeyUpKey("ctrl");
    }

    /** `delete_text`: Ctrl-down, A, Ctrl-up, then Delete. */
    method DeleteText()
      modifies this
      ensures trace == old(trace) + DeleteEvents()
    {
      KeyDownKey("ctrl");
      PressKey("a");
      KeyUpKey("ctrl");
      PressKey("delete");
    }

    /**
     * `auto_input`: paste a non-empty string or any int (bool included),
     * skip every other value, and always finish with one Tab.
     */
    method AutoInput(v: FieldValue)
      modifies this
      ensures trace == old(trace) + AutoInputEvents(v)
    {
      if v.Str? {
        if |v.s| != 0 {
          PasteText(v.s);
        }
      } else if v.Int? || v.Bool? {
        PasteText(ClipboardText(v));
      }
      PressKey("tab");
    }

    /** One position of a form: `auto_input(v)` for a value, a bare Tab for a skipped field. */
    method EnterSlot(slot: Slot)
      modifies this
      ensures trace == old(trace) + SlotEvents(slot)
    {
      match slot
      case Fill(v) => AutoInput(v);
      case Skip => PressKey("tab");
    }

    /**
     * pyautogui's fail-safe: the automation raises `FailSafeException`
     * after performing only the first `k` of the `events` it was about to
     * produce.
     */
    method Abort(events: seq<Event>, k: nat)
      modifies this
      ensures trace == old(trace) + Take(events, k)
    {
      TakePrefix(events, k);
      trace := trace + events[..if k < |events| then k else |events|];
    }
  }

  // ---------------------------------------------------------------------
  // Reference meaning of a trace: what it does to the focused form.
  // ---------------------------------------------------------------------

  /**
   * The focused application as the automation sees it: which field has the
   * focus, the clipboard, whether Ctrl is held, whether the field's text is
   * selected, and the text of each field.
   */
  datatype Ui = Ui(focus: int, clipboard: string, ctrl: bool, selected: bool, fields: map<int, string>)

  function Current(fields: map<int, string>, i: int): string {
    if i in fields then fields[i] else ""
  }

  /** Tab moves the focus; Ctrl-A selects; Ctrl-V replaces a selection; Delete clears it. */
  function ApplyOne(ui: Ui, e: Event): Ui {
    match e
    case Copy(t) => ui.(clipboard := t)
    case KeyDown(k) => if k == "ctrl" then ui.(ctrl := true) else ui
    case KeyUp(k) => if k == "ctrl" then ui.(ctrl := false) else ui
    case Press(k) =>
      if k == "tab" then ui.(focus := ui.focus + 1, selected := false)
      else if k == "a" && ui.ctrl then ui.(selected := true)
      else if k == "v" && ui.ctrl then
        var old_ := if ui.selected then "" else Current(ui.fields, ui.focus);
        ui.(fields := ui.fields[ui.focus := old_ + ui.clipboard], selected := false)
      else if k == "delete" && ui.selected then ui.(fields := ui.fields[ui.focus := ""], selected := false)
      else ui
  }

  function Apply(ui: Ui, events: seq<Event>): Ui
    decreases |events|
  {
    if events == [] then ui else Apply(ApplyOne(ui, events[0]), events[1..])
  }

  /** The form after `auto_input(v)` wrote its field (or left it alone). */
  function Write(fields: map<int, string>, i: int, v: FieldValue): map<int, string> {
    if Pastes(v) then fields[i := ClipboardText(v)] else fields
  }

  /** Entering one slot: write it (when it pastes) and move to the next field. */
  function SlotEffect(ui: Ui, slot: Slot): Ui {
    match slot
    case Fill(v) =>
      Ui(ui.focus + 1, if Pastes(v) then ClipboardText(v) else ui.clipboard, ui.ctrl, false,
         Write(ui.fields, ui.focus, v))
    case Skip => ui.(focus := ui.focus + 1, selected := false)
  }

  function FillAll(ui: Ui, slots: seq<Slot>): Ui
    decreases |slots|
  {
    if slots == [] then ui else FillAll(SlotEffect(ui, slots[0]), slots[1..])
  }

  lemma {:induction false} ApplyConcat(ui: Ui, a: seq<Event>, b: seq<Event>)
    ensures Apply(ui, a + b) == Apply(Apply(ui, a), b)
    decreases |a|
  {
    if a == [] {
      assert a + b == b;
    } else {
      assert (a + b)[0] == a[0];
      assert (a + b)[1..] == a[1..] + b;
      ApplyConcat(ApplyOne(ui, a[0]), a[1..], b);
    }
  }

  /** `paste_text(t)` replaces the focused field's text with t. */
  lemma PasteReplaces(ui: Ui, text: string)
    requires !ui.ctrl
    ensures Apply(ui, PasteEvents(text)) == ui.(clipboard := text, fields := ui.fields[ui.focus := text], selected := false)
  {
    var es := PasteEvents(text);
    var u1 := ApplyOne(ui, es[0]);
    var u2 := ApplyOne(u1, es[1]);
    var u3 := ApplyOne(u2, es[2]);
    var u4 := ApplyOne(u3, es[3]);
    var u5 := ApplyOne(u4, es[4]);
    assert es[1..][1..][1..][1..][1..] == [];
    assert Apply(u4, es[1..][1..][1..][1..]) == u5;
    assert Apply(u3, es[1..][1..][1..]) == u5;
    assert Apply(u2, es[1..][1..]) == u5;
    assert Apply(u1, es[1..]) == u5;
    assert "" + text == text;
  }

  /** `delete_text()` empties the focused field. */
  lemma DeleteClears(ui: Ui)
    requires !ui.ctrl
    ensures Apply(ui, DeleteEvents()).fields == ui.fields[ui.focus := ""]
    ensures Apply(ui, DeleteEvents()).focus == ui.focus
  {
  }

  /**
   * `auto_input(v)` writes `str(v)` into the focused field exactly when v is
   * a non-empty string, an int or a bool, leaves it untouched otherwise, and
   * moves the focus one field on.
   */
  lemma AutoInputEffect(ui: Ui, v: FieldValue)
    requires !ui.ctrl
    ensures Apply(ui, AutoInputEvents(v)) == SlotEffect(ui, Fill(v))
  {
    if Pastes(v) {
      var t := ClipboardText(v);
      ApplyConcat(ui, PasteEvents(t), [Tab]);
      PasteReplaces(ui, t);
    }
  }

  /** Entering a list of slots means entering each slot in turn. */
  lemma {:induction false} EventsOfMeaning(ui: Ui, slots: seq<Slot>)
    requires !ui.ctrl
    ensures Apply(ui, EventsOf(slots)) == FillAll(ui, slots)
    decreases |slots|
  {
    if slots != [] {
      ApplyConcat(ui, SlotEvents(slots[0]), EventsOf(slots[1..]));
      EventsOfMeaning(SlotEffect(ui, slots[0]), slots[1..]);
      if slots[0].Fill? {
        AutoInputEffect(ui, slots[0].value);
      }
    }
  }

  /**
   * After entering `slots` from field p, the focus is |slots| fields on, and
   * field p + i holds the i-th value when that value pastes; every other
   * field (skipped positions, values that do not paste, fields outside the
   * range) keeps its text.
   */
  lemma {:induction false} FillAllFields(ui: Ui, slots: seq<Slot>, j: int)
    ensures FillAll(ui, slots).focus == ui.focus + |slots|
    ensures FillAll(ui, slots).ctrl == ui.ctrl
    ensures ui.focus <= j < ui.focus + |slots| && slots[j - ui.focus].Fill? && Pastes(slots[j - ui.focus].value) ==>
      j in FillAll(ui, slots).fields && FillAll(ui, slots).fields[j] == ClipboardText(slots[j - ui.focus].value)
    ensures !(ui.focus <= j < ui.focus + |slots| && slots[j - ui.focus].Fill? && Pastes(slots[j - ui.focus].value)) ==>
      (j in FillAll(ui, slots).fields <==> j in ui.fields) &&
      Current(FillAll(ui, slots).fields, j) == Current(ui.fields, j)
    decreases |slots|
  {
    if slots != [] {
      var ui' := SlotEffect(ui, slots[0]);
      FillAllFields(ui', slots[1..], j);
      if ui.focus < j < ui.focus + |slots| {
        assert slots[1..][j - ui'.focus] == slots[j - ui.focus];
      }
    }
  }

  /** Entering one more slot appends that slot's events. */
  lemma {:induction false} EventsOfSnoc(slots: seq<Slot>, slot: Slot)
    ensures EventsOf(slots + [slot]) == EventsOf(slots) + SlotEvents(slot)
    decreases |slots|
  {
    if slots == [] {
      assert [] + [slot] == [slot];
    } else {
      assert (slots + [slot])[1..] == slots[1..] + [slot];
      EventsOfSnoc(slots[1..], slot);
    }
  }

  /** A trace that has entered the first k slots, extended by slot k's events, has entered k + 1. */
  lemma EventsOfPrefix(trace: seq<Event>, slots: seq<Slot>, k: nat)
    requires k < |slots|
    ensures trace + EventsOf(slots[..k]) + SlotEvents(slots[k]) == trace + EventsOf(slots[..k + 1])
  {
    assert slots[..k + 1] == slots[..k] + [slots[k]];
    EventsOfSnoc(slots[..k], slots[k]);
  }

  /** The trace after entering the first k slots, one call at a time, starting from `t`. */
  function TraceAfter(t: seq<Event>, slots: seq<Slot>, k: nat): seq<Event>
    requires k <= |slots|
  {
    if k == 0 then t else TraceAfter(t, slots, k - 1) + SlotEvents(slots[k - 1])
  }

  lemma {:induction false} TraceAfterPrefix(t: seq<Event>, slots: seq<Slot>, k: nat)
    requires k <= |slots|
    ensures TraceAfter(t, slots, k) == t + EventsOf(slots[..k])
  {
    if k == 0 {
      assert slots[..0] == [];
    } else {
      TraceAfterPrefix(t, slots, k - 1);
      EventsOfPrefix(t, slots, k - 1);
    }
  }

  /** Entering ten slots call by call leaves the events of all ten. */
  lemma TenSlots(t: seq<Event>, s: seq<Slot>)
    requires |s| == 10
    ensures t + EventsOf(s) == t + SlotEvents(s[0]) + SlotEvents(s[1]) + SlotEvents(s[2]) + SlotEvents(s[3])
      + SlotEvents(s[4]) + SlotEvents(s[5]) + SlotEvents(s[6]) + SlotEvents(s[7]) + SlotEvents(s[8]) + SlotEvents(s[9])
  {
    TraceAfterPrefix(t, s, 10);
    assert s[..10] == s;
    assert TraceAfter(t, s, 1) == TraceAfter(t, s, 0) + SlotEvents(s[0]);
    assert TraceAfter(t, s, 2) == TraceAfter(t, s, 1) + SlotEvents(s[1]);
    assert TraceAfter(t, s, 3) == TraceAfter(t, s, 2) + SlotEvents(s[2]);
    assert TraceAfter(t, s, 4) == TraceAfter(t, s, 3) + SlotEvents(s[3]);
    assert TraceAfter(t, s, 5) == TraceAfter(t, s, 4) + SlotEvents(s[4]);
    assert TraceAfter(t, s, 6) == TraceAfter(t, s, 5) + SlotEvents(s[5]);
    assert TraceAfter(t, s, 7) == TraceAfter(t, s, 6) + SlotEvents(s[6]);
    assert TraceAfter(t, s, 8) == TraceAfter(t, s, 7) + SlotEvents(s[7]);
    assert TraceAfter(t, s, 9) == TraceAfter(t, s, 8) + SlotEvents(s[8]);
    assert TraceAfter(t, s, 10) == TraceAfter(t, s, 9) + SlotEvents(s[9]);
  }

  /** Entering eleven slots call by call leaves the events of all eleven. */
  lemma ElevenSlots(t: seq<Event>, s: seq<Slot>)
    requires |s| == 11
    ensures t + EventsOf(s) == t + SlotEvents(s[0]) + SlotEvents(s[1]) + SlotEvents(s[2]) + SlotEvents(s[3])
      + SlotEvents(s[4]) + SlotEvents(s[5]) + SlotEvents(s[6]) + SlotEvents(s[7]) + SlotEvents(s[8]) + SlotEvents(s[9])
      + SlotEvents(s[10])
  {
    TraceAfterPrefix(t, s, 11);
    assert s[..11] == s;
    assert TraceAfter(t, s, 1) == TraceAfter(t, s, 0) + SlotEvents(s[0]);
    assert TraceAfter(t, s, 2) == TraceAfter(t, s, 1) + SlotEvents(s[1]);
    assert TraceAfter(t, s, 3) == TraceAfter(t, s, 2) + SlotEvents(s[2]);
    assert TraceAfter(t, s, 4) == TraceAfter(t, s, 3) + SlotEvents(s[3]);
    assert TraceAfter(t, s, 5) == TraceAfter(t, s, 4) + SlotEvents(s[4]);
    assert TraceAfter(t, s, 6) == TraceAfter(t, s, 5) + SlotEvents(s[5]);
    assert TraceAfter(t, s, 7) == TraceAfter(t, s, 6) + SlotEvents(s[6]);
    assert TraceAfter(t, s, 8) == TraceAfter(t, s, 7) + SlotEvents(s[7]);
    assert TraceAfter(t, s, 9) == TraceAfter(t, s, 8) + SlotEvents(s[8]);
    assert TraceAfter(t, s, 10) == TraceAfter(t, s, 9) + SlotEvents(s[9]);
    assert TraceAfter(t, s, 11) == TraceAfter(t, s, 10) + SlotEvents(s[10]);
  }

  /** What entering `slot` at field j leaves in that field. */
  ghost predicate Entered(before: Ui, after: Ui, j: int, slot: Slot) {
    if slot.Fill? && Pastes(slot.value) then j in after.fields && after.fields[j] == ClipboardText(slot.value)
    else Current(after.fields, j) == Current(before.fields, j)
  }

  /** The i-th slot lands in the i-th field from the focus. */
  lemma SlotsEntered(ui: Ui, slots: seq<Slot>)
    ensures forall i :: 0 <= i < |slots| ==> Entered(ui, FillAll(ui, slots), ui.focus + i, slots[i])
  {
    forall i | 0 <= i < |slots|
      ensures Entered(ui, FillAll(ui, slots), ui.focus + i, slots[i])
    {
      FillAllFields(ui, slots, ui.focus + i);
    }
  }

  /** Each slot contributes exactly one Tab press. */
  lemma {:induction false} TabCount(slots: seq<Slot>)
    ensures multiset(EventsOf(slots))[Tab] == |slots|
    decreases |slots|
  {
    if slots != [] {
      var head := SlotEvents(slots[0]);
      var rest := EventsOf(slots[1..]);
      TabCount(slots[1..]);
      assert multiset(head)[Tab] == 1 by {
        match slots[0]
        case Fill(v) => AutoInputShape(v);
        case Skip =>
      }
      assert EventsOf(slots) == head + rest;
      assert multiset(head + rest) == multiset(head) + multiset(rest);
    }
  }

  /** `auto_input` always ends with a single Tab; a value that pastes adds a paste before it. */
  lemma AutoInputShape(v: FieldValue)
    ensures AutoInputEvents(v)[|AutoInputEvents(v)| - 1] == Tab
    ensures multiset(AutoInputEvents(v))[Tab] == 1
    ensures Copied(AutoInputEvents(v)) == if Pastes(v) then [ClipboardText(v)] else []
  {
    if Pastes(v) {
      var t := ClipboardText(v);
      assert multiset(PasteEvents(t))[Tab] == 0;
      var es := AutoInputEvents(v);
      assert es[1..] == [KeyDown("ctrl"), Press("a"), Press("v"), KeyUp("ctrl"), Tab];
      assert Copied(es[1..][1..][1..][1..][1..][1..]) == [];
      assert Copied(es[1..][1..][1..][1..][1..]) == [];
      assert Copied(es[1..][1..][1..][1..]) == [];
      assert Copied(es[1..][1..][1..]) == [];
      assert Copied(es[1..][1..]) == [];
      assert Copied(es[1..]) == [];
    }
  }
}
