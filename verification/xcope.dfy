/**
 * Entry of one sample into the Xcope form (auto_input/xcope.py).
 */
module Xcope {
  import opened InputUtil

  /**
   * The keyword arguments of `xcope_input`: name, age, card number, sample
   * id, bed, specimen type, physician and department.
   */
  datatype XcopeForm = XcopeForm(
    xm: FieldValue, nl: FieldValue, zlkh: FieldValue, ybbh: FieldValue,
    ch: FieldValue, bbzl: FieldValue, sjys: FieldValue, sjks: FieldValue)

  /** Every parameter defaults to the empty string. */
  const DefaultForm := XcopeForm(Str(""), Str(""), Str(""), Str(""), Str(""), Str(""), Str(""), Str(""))

  /** The form's positions, from the focused field on: the gender field and the one after the last are tabbed past. */
  function XcopeSlots(f: XcopeForm): seq<Slot> {
    [Fill(f.xm), Skip, Fill(f.nl), Fill(f.zlkh), Fill(f.ybbh), Fill(f.ch), Fill(f.bbzl), Fill(f.sjys), Fill(f.sjks), Skip]
  }

  function XcopeEvents(f: XcopeForm): seq<Event> {
    EventsOf(XcopeSlots(f))
  }

  /** `xcope_input`: eight `auto_input` calls, a Tab over gender, and a final Tab. */
  method XcopeInput(act: Actuator, f: XcopeForm)
    modifies act
    ensures act.trace == old(act.trace) + XcopeEvents(f)
  {
    ghost var t0 := act.trace;
    act.EnterSlot(Fill(f.xm));
    act.EnterSlot(Skip);
    act.EnterSlot(Fill(f.nl));
    act.EnterSlot(Fill(f.zlkh));
    act.EnterSlot(Fill(f.ybbh));
    act.EnterSlot(Fill(f.ch));
    act.EnterSlot(Fill(f.bbzl));
    act.EnterSlot(Fill(f.sjys));
    act.EnterSlot(Fill(f.sjks));
    act.EnterSlot(Skip);
    TenSlots(t0, XcopeSlots(f));
  }

  /** What the form looks like after `xcope_input` from `ui`. */
  ghost function XcopeEffect(ui: Ui, f: XcopeForm): Ui {
    FillAll(ui, XcopeSlots(f))
  }

  /** Replaying the trace of `xcope_input` has exactly the slot-by-slot effect. */
  lemma XcopeMeaning(ui: Ui, f: XcopeForm)
    requires !ui.ctrl
    ensures Apply(ui, XcopeEvents(f)) == XcopeEffect(ui, f)
    ensures XcopeEffect(ui, f).focus == ui.focus + 10
  {
    EventsOfMeaning(ui, XcopeSlots(f));
    FillAllFields(ui, XcopeSlots(f), ui.focus);
  }

  /**
   * Starting from field p, `xcope_input` writes name into p, age into p+2,
   * card number into p+3, the sample id into p+4 (the fifth field), bed,
   * specimen, physician and department into p+5..p+8, and never touches
   * the gender field p+1.
   */
  lemma XcopeEntry(ui: Ui, f: XcopeForm)
    ensures Entered(ui, XcopeEffect(ui, f), ui.focus, Fill(f.xm))
    ensures Entered(ui, XcopeEffect(ui, f), ui.focus + 1, Skip)
    ensures Entered(ui, XcopeEffect(ui, f), ui.focus + 2, Fill(f.nl))
    ensures Entered(ui, XcopeEffect(ui, f), ui.focus + 3, Fill(f.zlkh))
    ensures Entered(ui, XcopeEffect(ui, f), ui.focus + 4, Fill(f.ybbh))
    ensures Entered(ui, XcopeEffect(ui, f), ui.focus + 5, Fill(f.ch))
    ensures Entered(ui, XcopeEffect(ui, f), ui.focus + 6, Fill(f.bbzl))
    ensures Entered(ui, XcopeEffect(ui, f), ui.focus + 7, Fill(f.sjys))
    ensures Entered(ui, XcopeEffect(ui, f), ui.focus + 8, Fill(f.sjks))
  {
    var s := XcopeSlots(f);
    SlotsEntered(ui, s);
    assert s[0] == Fill(f.xm) && s[1] == Skip && s[2] == Fill(f.nl) && s[3] == Fill(f.zlkh) && s[4] == Fill(f.ybbh);
    assert s[5] == Fill(f.ch) && s[6] == Fill(f.bbzl) && s[7] == Fill(f.sjys) && s[8] == Fill(f.sjks);
  }

  /** No field before the starting one or past the tenth is touched. */
  lemma XcopeFrame(ui: Ui, f: XcopeForm, j: int)
    requires j < ui.focus || j >= ui.focus + 10
    ensures j in XcopeEffect(ui, f).fields <==> j in ui.fields
    ensures Current(XcopeEffect(ui, f).fields, j) == Current(ui.fields, j)
  {
    FillAllFields(ui, XcopeSlots(f), j);
  }

  /** Each call presses Tab exactly ten times: eight from `auto_input`, the gender skip and the final Tab. */
  lemma XcopeTabs(f: XcopeForm)
    ensures multiset(XcopeEvents(f))[Tab] == 10
  {
    TabCount(XcopeSlots(f));
  }

  /** With every argument left at its default, the call only tabs through the form. */
  lemma XcopeDefaultsOnlyTab(ui: Ui)
    ensures XcopeEffect(ui, DefaultForm).fields == ui.fields
  {
    var s := XcopeSlots(DefaultForm);
    var after := FillAll(ui, s);
    forall j ensures (j in after.fields <==> j in ui.fields) && Current(after.fields, j) == Current(ui.fields, j) {
      FillAllFields(ui, s, j);
    }
    assert after.fields == ui.fields;
  }
}
