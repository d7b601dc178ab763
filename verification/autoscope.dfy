/**
 * Entry of one sample into the Autoscope form (auto_input/autoscope.py).
 */
module Autoscope {
  import opened InputUtil

  /**
   * The keyword arguments of `autoscope_input`: card number, ID number,
   * name, age, department, physician, sampling site and specimen.
   */
  datatype AutoscopeForm = AutoscopeForm(
    zlkh: FieldValue, idh: FieldValue, xm: FieldValue, nl: FieldValue,
    sjks: FieldValue, sjys: FieldValue, qcbw: FieldValue, sjbb: FieldValue)

  /** Every parameter defaults to the empty string. */
  const DefaultForm := AutoscopeForm(Str(""), Str(""), Str(""), Str(""), Str(""), Str(""), Str(""), Str(""))

  /** The form's positions from the focused field on; positions 3 and 7 and the one after the last are tabbed past. */
  function AutoscopeSlots(f: AutoscopeForm): seq<Slot> {
    [Fill(f.zlkh), Fill(f.idh), Fill(f.xm), Skip, Fill(f.nl), Fill(f.sjks), Fill(f.sjys), Skip, Fill(f.qcbw), Fill(f.sjbb), Skip]
  }

  function AutoscopeEvents(f: AutoscopeForm): seq<Event> {
    EventsOf(AutoscopeSlots(f))
  }

  /** `autoscope_input`: eight `auto_input` calls and three bare Tabs. */
  method AutoscopeInput(act: Actuator, f: AutoscopeForm)
    modifies act
    ensures act.trace == old(act.trace) + AutoscopeEvents(f)
  {
    ghost var t0 := act.trace;
    act.EnterSlot(Fill(f.zlkh));
    act.EnterSlot(Fill(f.idh));
    act.EnterSlot(Fill(f.xm));
    act.EnterSlot(Skip);
    act.EnterSlot(Fill(f.nl));
    act.EnterSlot(Fill(f.sjks));
    act.EnterSlot(Fill(f.sjys));
    act.EnterSlot(Skip);
    act.EnterSlot(Fill(f.qcbw));
    act.EnterSlot(Fill(f.sjbb));
    act.EnterSlot(Skip);
    ElevenSlots(t0, AutoscopeSlots(f));
  }

  /** What the form looks like after `autoscope_input` from `ui`. */
  ghost function AutoscopeEffect(ui: Ui, f: AutoscopeForm): Ui {
    FillAll(ui, AutoscopeSlots(f))
  }

  /** Replaying the trace of `autoscope_input` has exactly the slot-by-slot effect. */
  lemma AutoscopeMeaning(ui: Ui, f: AutoscopeForm)
    requires !ui.ctrl
    ensures Apply(ui, AutoscopeEvents(f)) == AutoscopeEffect(ui, f)
    ensures AutoscopeEffect(ui, f).focus == ui.focus + 11
  {
    EventsOfMeaning(ui, AutoscopeSlots(f));
    FillAllFields(ui, AutoscopeSlots(f), ui.focus);
  }

  /**
   * Starting from field p, `autoscope_input` writes card number, ID number
   * and name into p..p+2, age, department and physician into p+4..p+6,
   * sampling site and specimen into p+8 and p+9, and leaves p+3 (gender)
   * and p+7 untouched.
   */
  lemma AutoscopeEntry(ui: Ui, f: AutoscopeForm)
    ensures Entered(ui, AutoscopeEffect(ui, f), ui.focus, Fill(f.zlkh))
    ensures Entered(ui, AutoscopeEffect(ui, f), ui.focus + 1, Fill(f.idh))
    ensures Entered(ui, AutoscopeEffect(ui, f), ui.focus + 2, Fill(f.xm))
    ensures Entered(ui, AutoscopeEffect(ui, f), ui.focus + 3, Skip)
    ensures Entered(ui, AutoscopeEffect(ui, f), ui.focus + 4, Fill(f.nl))
    ensures Entered(ui, AutoscopeEffect(ui, f), ui.focus + 5, Fill(f.sjks))
    ensures Entered(ui, AutoscopeEffect(ui, f), ui.focus + 6, Fill(f.sjys))
    ensures Entered(ui, AutoscopeEffect(ui, f), ui.focus + 7, Skip)
    ensures Entered(ui, AutoscopeEffect(ui, f), ui.focus + 8, Fill(f.qcbw))
    ensures Entered(ui, AutoscopeEffect(ui, f), ui.focus + 9, Fill(f.sjbb))
  {
    var s := AutoscopeSlots(f);
    SlotsEntered(ui, s);
    assert s[0] == Fill(f.zlkh) && s[1] == Fill(f.idh) && s[2] == Fill(f.xm) && s[3] == Skip && s[4] == Fill(f.nl);
    assert s[5] == Fill(f.sjks) && s[6] == Fill(f.sjys) && s[7] == Skip && s[8] == Fill(f.qcbw) && s[9] == Fill(f.sjbb);
  }

  /** No field before the starting one or past the eleventh is touched. */
  lemma AutoscopeFrame(ui: Ui, f: AutoscopeForm, j: int)
    requires j < ui.focus || j >= ui.focus + 11
    ensures j in AutoscopeEffect(ui, f).fields <==> j in ui.fields
    ensures Current(AutoscopeEffect(ui, f).fields, j) == Current(ui.fields, j)
  {
    FillAllFields(ui, AutoscopeSlots(f), j);
  }

  /** Each call presses Tab exactly eleven times. */
  lemma AutoscopeTabs(f: AutoscopeForm)
    ensures multiset(AutoscopeEvents(f))[Tab] == 11
  {
    TabCount(AutoscopeSlots(f));
  }

  /** With every argument left at its default, the call only tabs through the form. */
  lemma AutoscopeDefaultsOnlyTab(ui: Ui)
    ensures AutoscopeEffect(ui, DefaultForm).fields == ui.fields
  {
    var s := AutoscopeSlots(DefaultForm);
    var after := FillAll(ui, s);
    forall j ensures (j in after.fields <==> j in ui.fields) && Current(after.fields, j) == Current(ui.fields, j) {
      FillAllFields(ui, s, j);
    }
    assert after.fields == ui.fields;
  }
}
