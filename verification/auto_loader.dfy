/**
 * The scan cycle of auto_loader.py and its year-scoped sample-number
 * ledger.
 *
 * Each scanned code is either the rollback sentinel, a physical-checkup
 * code (anchored "TJ" prefix, looked up over HTTP) or a clinic card number
 * (looked up in the HIS database). A successful lookup is typed into the
 * Xcope form together with the serial `M<year><number padded to 5>`, and
 * only then is the number committed to memory and to data.json.
 *
 * The scanner, the clock, both directories and pyautogui's fail-safe are
 * inputs of a cycle (`Scan`); error dialogs are the `Notice` a cycle
 * returns; SIGTERM is the `Terminated` result.
 */
module AutoLoader {
  import opened Text
  import opened InputUtil
  import opened Xcope
  import opened Wrappers

  /** The code that undoes the last number instead of being looked up. */
  const RollbackSentinel := "AutoLoaderRollback"

  /** `is_tj_starting`: `re.match(r"^TJ", code)`, case-sensitive and anchored. */
  predicate IsTjStarting(code: string) {
    |code| >= 2 && code[0] == 'T' && code[1] == 'J'
  }

  /** Where a scanned code goes. */
  datatype Route = Rollback | Checkup | His

  function Classify(code: string): (r: Route)
    ensures r == Rollback <==> code == RollbackSentinel
    ensures r == Checkup <==> code != RollbackSentinel && "TJ" <= code
    ensures r == His <==> code != RollbackSentinel && !("TJ" <= code)
  {
    if code == RollbackSentinel then Rollback
    else if IsTjStarting(code) then Checkup
    else His
  }

  /** The sentinel itself does not start with "TJ"; the empty code and lower-case "tj" go to the HIS query. */
  lemma ClassifyExamples()
    ensures Classify(RollbackSentinel) == Rollback
    ensures Classify("") == His
    ensures Classify("tj12345") == His
    ensures Classify("xTJ1") == His
    ensures Classify("TJ12345") == Checkup
  {
  }

  // ---------------------------------------------------------------------
  // Inputs of one cycle.
  // ---------------------------------------------------------------------

  /** One entry of the checkup system's `data` array (the keys read with `.get`). */
  datatype CheckupRecord = CheckupRecord(
    name: FieldValue, age: FieldValue, checkCode: FieldValue, applyDct: FieldValue, departName: FieldValue)

  /**
   * What the checkup request gave: no response at all (`get_response`
   * returned None); a body the loop cannot read (not JSON, not an object,
   * or a non-empty `data` that is not an array of objects, so that
   * `json.loads`, `.get` or `[0]` raises); or a response whose `data`
   * array is `records` (a missing or null `data` is the empty array).
   */
  datatype CheckupReply = NoReply | Malformed | Reply(records: seq<CheckupRecord>)

  /** One row of `SELECT JIUZHENKH,XINGMING,NIANLING,KESHIMC,KAIDANREN`, in column order. */
  datatype HisRow = HisRow(
    jiuzhenkh: FieldValue, xingming: FieldValue, nianling: FieldValue, keshimc: FieldValue, kaidanren: FieldValue)

  /** What the HIS query gave: a `psycopg2.Error`, or the fetched rows. */
  datatype HisReply = HisError | Rows(rows: seq<HisRow>)

  /** Whether `xcope_input` ran to the end or pyautogui's fail-safe fired after `k` events. */
  datatype Actuation = Completed | FailSafe(k: nat)

  /**
   * Everything from outside that one pass of the loop sees: the scanned
   * code, the current year, the answer of whichever directory the code is
   * sent to (the other is ignored) and what the actuation did.
   */
  datatype Scan = Scan(code: string, nowYear: int, checkup: CheckupReply, his: HisReply, actuation: Actuation)

  /** The error dialogs of the loop. */
  datatype Notice =
    | RolledBack        // "样本编号已减少1"
    | NoResponse        // error code 1
    | NoCheckupData     // error code 2
    | FailSafeTripped   // the cursor went to a screen corner
    | NotFound          // no HIS row
    | Multiple          // several HIS rows
    | QueryFailed       // (development twin only) the HIS query raised

  /** How a pass ends: the sample was entered and numbered, a dialog was shown, or the process was killed. */
  datatype CycleResult =
    | Committed(year: int, number: int, patient: Patient)
    | Notified(notice: Notice)
    | Terminated

  /** The `data` dict `{"sample_number", "year"}`, in memory or in data.json. */
  datatype Record = Record(sampleNumber: int, year: int)

  /** The loop's own state: `data["sample_number"]` and `record_year`. */
  datatype State = State(counter: int, year: int)

  // ---------------------------------------------------------------------
  // Serial numbers and forms.
  // ---------------------------------------------------------------------

  /** `f"M{now_year}{str(sample_number).zfill(5)}"`. */
  function SerialId(year: int, n: int): string {
    "M" + (IntToString(year) + ZFill(IntToString(n), 5))
  }

  /** A patient as it is handed to `xcope_input`. */
  datatype Patient = Patient(name: FieldValue, age: FieldValue, card: FieldValue, doctor: FieldValue, department: FieldValue)

  function FromCheckup(r: CheckupRecord): Patient {
    Patient(r.name, r.age, r.checkCode, r.applyDct, r.departName)
  }

  function FromHis(r: HisRow): Patient {
    Patient(r.xingming, r.nianling, r.jiuzhenkh, r.kaidanren, r.keshimc)
  }

  /** The keyword arguments of the `xcope_input` call: bed and specimen keep their "" defaults. */
  function FormFor(p: Patient, serial: string): XcopeForm {
    XcopeForm(p.name, p.age, p.card, Str(serial), Str(""), Str(""), p.doctor, p.department)
  }

  /** The result of looking a code up: a patient, a dialog, or a fatal database error. */
  datatype Lookup = Found(patient: Patient) | Missed(notice: Notice) | Fatal

  /**
   * The two lookup paths: a checkup code needs a response whose `data` is
   * non-empty and uses its first record, and an unreadable body is fatal;
   * a card number needs exactly one HIS row, and a database error is fatal.
   */
  function LookupCode(code: string, checkup: CheckupReply, his: HisReply): (l: Lookup)
    ensures l.Fatal? <==> (IsTjStarting(code) && checkup.Malformed?) || (!IsTjStarting(code) && his.HisError?)
    ensures IsTjStarting(code) && checkup.NoReply? ==> l == Missed(NoResponse)
    ensures IsTjStarting(code) && checkup == Reply([]) ==> l == Missed(NoCheckupData)
    ensures !IsTjStarting(code) && his == Rows([]) ==> l == Missed(NotFound)
    ensures !IsTjStarting(code) && his.Rows? && |his.rows| > 1 ==> l == Missed(Multiple)
    ensures l.Found? && IsTjStarting(code) ==> checkup.Reply? && |checkup.records| > 0 && l.patient == FromCheckup(checkup.records[0])
    ensures l.Found? && !IsTjStarting(code) ==> his.Rows? && |his.rows| == 1 && l.patient == FromHis(his.rows[0])
    ensures IsTjStarting(code) && checkup.Reply? && |checkup.records| > 0 ==> l.Found?
    ensures !IsTjStarting(code) && his.Rows? && |his.rows| == 1 ==> l.Found?
  {
    if IsTjStarting(code) then
      match checkup
      case NoReply => Missed(NoResponse)
      case Malformed => Fatal
      case Reply(records) => if records == [] then Missed(NoCheckupData) else Found(FromCheckup(records[0]))
    else
      match his
      case HisError => Fatal
      case Rows(rows) =>
        if |rows| == 1 then Found(FromHis(rows[0]))
        else if |rows| == 0 then Missed(NotFound)
        else Missed(Multiple)
  }

  // ---------------------------------------------------------------------
  // The specification of one pass of the loop.
  // ---------------------------------------------------------------------

  /** The state after the year check: a new year restarts the counter at 0. */
  function Rolled(st: State, nowYear: int): (r: State)
    ensures r.year == nowYear
    ensures nowYear == st.year ==> r == st
    ensures nowYear != st.year ==> r.counter == 0
  {
    if nowYear != st.year then State(0, nowYear) else st
  }

  /** The file write the year check makes. */
  function RolloverWrites(st: State, nowYear: int): seq<Record> {
    if nowYear != st.year then [Record(0, nowYear)] else []
  }

  /** A sample typed into the form: who, under which year and number, and how the actuation ended. */
  datatype Entry = Entry(patient: Patient, year: int, number: int, actuation: Actuation)

  /** The `xcope_input` call of an entry. */
  function EntryForm(e: Entry): XcopeForm {
    FormFor(e.patient, SerialId(e.year, e.number))
  }

  /** The events an entry produces: the whole form, or as much as the fail-safe let through. */
  function EntryEvents(e: Entry): seq<Event> {
    match e.actuation
    case Completed => XcopeEvents(EntryForm(e))
    case FailSafe(k) => Take(XcopeEvents(EntryForm(e)), k)
  }

  /** One pass: the new state, the data.json writes in order, the result, and the form entry attempted. */
  datatype Outcome = Outcome(state: State, written: seq<Record>, result: CycleResult, entry: Option<Entry>)

  function OutcomeEvents(o: Outcome): seq<Event> {
    if o.entry.Some? then EntryEvents(o.entry.value) else []
  }

  function Step(st: State, sc: Scan): Outcome {
    if sc.code == RollbackSentinel then
      Outcome(State(st.counter - 1, st.year), [], Notified(RolledBack), None)
    else
      var d := Dispatch(Rolled(st, sc.nowYear), sc);
      Outcome(d.state, RolloverWrites(st, sc.nowYear) + d.written, d.result, d.entry)
  }

  /** The part of a pass after the year check: look the code up and enter what was found. */
  function Dispatch(r: State, sc: Scan): Outcome {
    match LookupCode(sc.code, sc.checkup, sc.his)
    case Fatal => Outcome(r, [], Terminated, None)
    case Missed(notice) => Outcome(r, [], Notified(notice), None)
    case Found(p) => Enter(r, p, sc.nowYear, sc.actuation)
  }

  /**
   * Entering a found patient under the tentative number counter+1: the
   * number is committed and written only when the actuation completes.
   */
  function Enter(r: State, p: Patient, nowYear: int, actuation: Actuation): Outcome {
    var n := r.counter + 1;
    var e := Entry(p, nowYear, n, actuation);
    if actuation.Completed? then Outcome(State(n, r.year), [Record(n, r.year)], Committed(nowYear, n, p), Some(e))
    else Outcome(r, [], Notified(FailSafeTripped), Some(e))
  }

  // ---------------------------------------------------------------------
  // The loop itself.
  // ---------------------------------------------------------------------

  class Loader {
    /** `data["sample_number"]`. */
    var sampleNumber: int
    /** `record_year`, which always equals `data["year"]`. */
    var recordYear: int
    /** The content of data.json. */
    ghost var persisted: Record
    /** data.json as start-up found it; a missing file counts as `{0, now_year}`. */
    ghost var initial: Record
    /** Every write of data.json since start-up, in order. */
    ghost var writes: seq<Record>

    /** The file holds the last write, or what start-up found while nothing was written. */
    ghost predicate Valid()
      reads this
    {
      persisted.year == recordYear &&
      persisted == (if writes == [] then initial else writes[|writes| - 1])
    }

    function Snapshot(): State
      reads this
    {
      State(sampleNumber, recordYear)
    }

    /**
     * Start-up: an existing data.json is taken verbatim and its year becomes
     * `record_year`; a missing one is created as `{0, now_year}`.
     */
    constructor (file: Option<Record>, nowYear: int)
      ensures Valid()
      ensures file.Some? ==> sampleNumber == file.value.sampleNumber && recordYear == file.value.year
      ensures file.Some? ==> persisted == file.value && initial == file.value && writes == []
      ensures file.None? ==> sampleNumber == 0 && recordYear == nowYear
      ensures file.None? ==> persisted == Record(0, nowYear) && writes == [Record(0, nowYear)]
    {
      if file.Some? {
        sampleNumber := file.value.sampleNumber;
        recordYear := file.value.year;
        persisted := file.value;
        initial := file.value;
        writes := [];
      } else {
        sampleNumber := 0;
        recordYear := nowYear;
        persisted := Record(0, nowYear);
        initial := Record(0, nowYear);
        writes := [Record(0, nowYear)];
      }
    }

    /** `json.dump(data, file)`. */
    ghost method Save()
      modifies this
      ensures persisted == Record(sampleNumber, recordYear) && writes == old(writes) + [persisted]
      ensures sampleNumber == old(sampleNumber) && recordYear == old(recordYear) && initial == old(initial)
    {
      persisted := Record(sampleNumber, recordYear);
      writes := writes + [persisted];
    }

    /** One pass of the `while True` loop of `main`. */
    method Cycle(sc: Scan, act: Actuator) returns (result: CycleResult)
      requires Valid()
      modifies this, act
      ensures Valid()
      ensures Snapshot() == Step(old(Snapshot()), sc).state
      ensures result == Step(old(Snapshot()), sc).result
      ensures writes == old(writes) + Step(old(Snapshot()), sc).written
      ensures writes == old(writes) ==> persisted == old(persisted)
      ensures initial == old(initial)
      ensures act.trace == old(act.trace) + OutcomeEvents(Step(old(Snapshot()), sc))
    {
      ghost var st := old(Snapshot());
      if sc.code == RollbackSentinel {
        sampleNumber := sampleNumber - 1;
        return Notified(RolledBack);
      }
      if sc.nowYear != recordYear {
        sampleNumber := 0;
        recordYear := sc.nowYear;
        Save();
      }
      ghost var mid := writes;
      assert Snapshot() == Rolled(st, sc.nowYear);
      assert mid == old(writes) + RolloverWrites(st, sc.nowYear);
      result := Lookup(sc, act);
      ghost var d := Dispatch(Rolled(st, sc.nowYear), sc);
      assert Step(st, sc) == Outcome(d.state, RolloverWrites(st, sc.nowYear) + d.written, d.result, d.entry);
      assert OutcomeEvents(Step(st, sc)) == OutcomeEvents(d);
      assert writes == old(writes) + (RolloverWrites(st, sc.nowYear) + d.written) by {
        assert writes == mid + d.written;
      }
    }

    /** Lines 98-195 after the year check: the tentative number, the lookup, and its failure exits. */
    method Lookup(sc: Scan, act: Actuator) returns (result: CycleResult)
      requires Valid() && recordYear == sc.nowYear
      modifies this, act
      ensures Valid()
      ensures Snapshot() == Dispatch(old(Snapshot()), sc).state
      ensures result == Dispatch(old(Snapshot()), sc).result
      ensures writes == old(writes) + Dispatch(old(Snapshot()), sc).written
      ensures writes == old(writes) ==> persisted == old(persisted)
      ensures initial == old(initial)
      ensures act.trace == old(act.trace) + OutcomeEvents(Dispatch(old(Snapshot()), sc))
    {
      var n := sampleNumber + 1;
      var patient: Patient;
      if IsTjStarting(sc.code) {
        if sc.checkup.NoReply? {
          sampleNumber := n - 1;
          return Notified(NoResponse);
        }
        if sc.checkup.Malformed? {
          return Terminated;
        }
        if sc.checkup.records == [] {
          sampleNumber := n - 1;
          return Notified(NoCheckupData);
        }
        patient := FromCheckup(sc.checkup.records[0]);
      } else {
        if sc.his.HisError? {
          return Terminated;
        }
        var rows := sc.his.rows;
        if |rows| == 0 {
          sampleNumber := n - 1;
          return Notified(NotFound);
        } else if |rows| > 1 {
          sampleNumber := n - 1;
          return Notified(Multiple);
        }
        patient := FromHis(rows[0]);
      }
      assert LookupCode(sc.code, sc.checkup, sc.his) == Found(patient);
      result := EnterSample(patient, sc.nowYear, sc.actuation, act);
    }

    /**
     * Lines 140-151 and 171-187: number the sample, type it into Xcope,
     * and write data.json, or give the number back on the fail-safe.
     */
    method EnterSample(patient: Patient, nowYear: int, actuation: Actuation, act: Actuator) returns (result: CycleResult)
      requires Valid() && recordYear == nowYear
      modifies this, act
      ensures Valid()
      ensures Snapshot() == Enter(old(Snapshot()), patient, nowYear, actuation).state
      ensures result == Enter(old(Snapshot()), patient, nowYear, actuation).result
      ensures writes == old(writes) + Enter(old(Snapshot()), patient, nowYear, actuation).written
      ensures writes == old(writes) ==> persisted == old(persisted)
      ensures initial == old(initial)
      ensures act.trace == old(act.trace) + OutcomeEvents(Enter(old(Snapshot()), patient, nowYear, actuation))
    {
      var n := sampleNumber + 1;
      ghost var e := Entry(patient, nowYear, n, actuation);
      var form := FormFor(patient, SerialId(nowYear, n));
      assert form == EntryForm(e);
      sampleNumber := n;
      if actuation.FailSafe? {
        act.Abort(XcopeEvents(form), actuation.k);
        sampleNumber := n - 1;
        return Notified(FailSafeTripped);
      }
      XcopeInput(act, form);
      Save();
      return Committed(nowYear, n, patient);
    }

    /**
     * The loop over a sequence of scans: pass after pass until the scans
     * run out or a database error kills the process.
     */
    method Run(scans: seq<Scan>, act: Actuator) returns (results: seq<CycleResult>)
      requires Valid()
      modifies this, act
      ensures Valid()
      ensures Snapshot() == RunSpec(old(Snapshot()), scans).state
      ensures results == RunSpec(old(Snapshot()), scans).results
      ensures writes == old(writes) + RunSpec(old(Snapshot()), scans).written
      ensures writes == old(writes) ==> persisted == old(persisted)
      ensures initial == old(initial)
      ensures act.trace == old(act.trace) + EntriesEvents(RunSpec(old(Snapshot()), scans).entries)
    {
      ghost var st0 := Snapshot();
      ghost var w0 := writes;
      ghost var t0 := act.trace;
      results := [];
      var i := 0;
      var stopped := false;
      assert scans[..0] == [];
      ghost var ro := RunSpec(st0, scans[..0]);
      while i < |scans| && !stopped
        invariant 0 <= i <= |scans|
        invariant ro == RunSpec(st0, scans[..i])
        invariant Valid()
        invariant stopped == ro.stopped
        invariant Snapshot() == ro.state
        invariant results == ro.results
        invariant writes == w0 + ro.written
        invariant initial == old(initial)
        invariant act.trace == t0 + EntriesEvents(ro.entries)
      {
        ghost var o := Step(ro.state, scans[i]);
        RunSnoc(st0, scans, i);
        EntriesEventsSnoc(ro.entries, o);
        Associative(w0, ro.written, o.written);
        Associative(t0, EntriesEvents(ro.entries), OutcomeEvents(o));
        var res := Cycle(scans[i], act);
        results := results + [res];
        stopped := res.Terminated?;
        ro := Then(ro, o);
        i := i + 1;
      }
      if writes == w0 {
        assert persisted == old(persisted);
      }
      StoppedRun(st0, scans, i);
    }
  }

  /** The state and output of the loop after a sequence of scans. */
  datatype RunOutcome = RunOutcome(state: State, results: seq<CycleResult>, written: seq<Record>, entries: seq<Entry>, stopped: bool)

  /** The form entries of an outcome, as a sequence. */
  function Entries(o: Outcome): seq<Entry> {
    if o.entry.Some? then [o.entry.value] else []
  }

  /** The events of a sequence of form entries. */
  function EntriesEvents(es: seq<Entry>): seq<Event> {
    if es == [] then [] else EntriesEvents(es[..|es| - 1]) + EntryEvents(es[|es| - 1])
  }

  function RunSpec(st: State, scans: seq<Scan>): RunOutcome
    decreases |scans|
  {
    if scans == [] then RunOutcome(st, [], [], [], false)
    else
      var prev := RunSpec(st, scans[..|scans| - 1]);
      if prev.stopped then prev
      else Then(prev, Step(prev.state, scans[|scans| - 1]))
  }

  /** A run extended by one more pass. */
  function Then(prev: RunOutcome, o: Outcome): RunOutcome {
    RunOutcome(o.state, prev.results + [o.result], prev.written + o.written, prev.entries + Entries(o), o.result.Terminated?)
  }

  /** A run one scan longer: one more pass, unless the process was already killed. */
  lemma RunSnoc(st: State, scans: seq<Scan>, i: nat)
    requires i < |scans|
    ensures !RunSpec(st, scans[..i]).stopped ==>
      RunSpec(st, scans[..i + 1]) == Then(RunSpec(st, scans[..i]), Step(RunSpec(st, scans[..i]).state, scans[i]))
  {
    assert scans[..i + 1][..i] == scans[..i];
  }

  lemma Associative<T>(a: seq<T>, b: seq<T>, c: seq<T>)
    ensures a + b + c == a + (b + c)
  {
  }

  lemma EntriesEventsSnoc(es: seq<Entry>, o: Outcome)
    ensures EntriesEvents(es + Entries(o)) == EntriesEvents(es) + OutcomeEvents(o)
  {
    if o.entry.Some? {
      assert (es + Entries(o))[..|es|] == es;
    } else {
      assert es + Entries(o) == es;
    }
  }

  /** Once the process is killed, later scans change nothing. */
  lemma {:induction false} StoppedRun(st: State, scans: seq<Scan>, i: nat)
    requires i <= |scans|
    requires i < |scans| ==> RunSpec(st, scans[..i]).stopped
    ensures RunSpec(st, scans) == RunSpec(st, scans[..i])
    decreases |scans| - i
  {
    if i < |scans| {
      var j := |scans| - 1;
      if i < j {
        assert scans[..j][..i] == scans[..i];
        StoppedRun(st, scans[..j], i);
      }
    } else {
      assert scans[..i] == scans;
    }
  }

  // ---------------------------------------------------------------------
  // Properties of one pass.
  // ---------------------------------------------------------------------

  /**
   * The sentinel is handled before anything else: it lowers the counter by
   * one even below zero, keeps the recorded year whatever the clock says,
   * and neither writes data.json nor looks anything up.
   */
  lemma SentinelStep(st: State, sc: Scan)
    requires sc.code == RollbackSentinel
    ensures Step(st, sc).state == State(st.counter - 1, st.year)
    ensures Step(st, sc).written == [] && Step(st, sc).entry.None?
    ensures Step(st, sc).result == Notified(RolledBack)
  {
  }

  /**
   * Started from an existing data.json holding {7, 2024}, the sentinel
   * lowers the counter to 6 while the file keeps 7.
   */
  method SentinelLeavesFile() returns (l: Loader)
    ensures l.sampleNumber == 6 && l.recordYear == 2024
    ensures l.persisted == Record(7, 2024) && l.writes == []
  {
    var act := new Actuator();
    l := new Loader(Some(Record(7, 2024)), 2024);
    var r := l.Cycle(Scan(RollbackSentinel, 2024, NoReply, HisError, Completed), act);
  }

  /** From counter 0 of 2024, the sentinel scanned in 2025 leaves counter -1 of 2024. */
  lemma SentinelExample()
    ensures Step(State(0, 2024), Scan(RollbackSentinel, 2025, NoReply, HisError, Completed)).state == State(-1, 2024)
  {
    SentinelStep(State(0, 2024), Scan(RollbackSentinel, 2025, NoReply, HisError, Completed));
  }

  /**
   * Any other code first runs the year check: a new year writes {0, year}
   * to data.json before anything else, and a sample numbered in that pass
   * gets number 1.
   */
  lemma RolloverStep(st: State, sc: Scan)
    requires sc.code != RollbackSentinel && sc.nowYear != st.year
    ensures |Step(st, sc).written| > 0 && Step(st, sc).written[0] == Record(0, sc.nowYear)
    ensures Step(st, sc).state.year == sc.nowYear
    ensures Step(st, sc).result.Committed? ==> Step(st, sc).result.number == 1 && Step(st, sc).state.counter == 1
    ensures !Step(st, sc).result.Committed? ==> Step(st, sc).state == State(0, sc.nowYear)
  {
  }

  /**
   * A pass commits exactly when the lookup finds a patient and the form is
   * filled without the fail-safe firing. It then takes the number after the
   * (rolled) counter, makes it the counter, writes it to data.json after
   * the year check's write, and types the serial `M<year><number>` into
   * the form.
   */
  lemma CommitStep(st: State, sc: Scan)
    ensures Step(st, sc).result.Committed? <==>
      sc.code != RollbackSentinel && LookupCode(sc.code, sc.checkup, sc.his).Found? && sc.actuation.Completed?
    ensures Step(st, sc).result.Committed? ==>
      var c := Step(st, sc).result;
      c.year == sc.nowYear && c.number == Rolled(st, sc.nowYear).counter + 1 &&
      c.patient == LookupCode(sc.code, sc.checkup, sc.his).patient &&
      Step(st, sc).state == State(c.number, sc.nowYear) &&
      Step(st, sc).written == RolloverWrites(st, sc.nowYear) + [Record(c.number, sc.nowYear)] &&
      Step(st, sc).entry == Some(Entry(c.patient, c.year, c.number, Completed)) &&
      EntryForm(Step(st, sc).entry.value).ybbh == Str(SerialId(c.year, c.number))
  {
  }

  /**
   * Every other exit of a non-sentinel pass (no response, unreadable
   * reply, empty data, fail-safe, no row, several rows, database error)
   * leaves the counter where the year check put it, and writes nothing
   * beyond that check.
   */
  lemma FailureStep(st: State, sc: Scan)
    requires sc.code != RollbackSentinel && !Step(st, sc).result.Committed?
    ensures Step(st, sc).state == Rolled(st, sc.nowYear)
    ensures Step(st, sc).written == RolloverWrites(st, sc.nowYear)
    ensures sc.nowYear == st.year ==> Step(st, sc).state == st && Step(st, sc).written == []
  {
    var d := Dispatch(Rolled(st, sc.nowYear), sc);
    assert d.written == [];
    assert RolloverWrites(st, sc.nowYear) + [] == RolloverWrites(st, sc.nowYear);
  }

  /**
   * Within a year the counter moves by at most one per pass: up by one on a
   * commit, down by one only on the sentinel, otherwise not at all.
   */
  lemma CounterStep(st: State, sc: Scan)
    requires sc.nowYear == st.year || sc.code == RollbackSentinel
    ensures st.counter - 1 <= Step(st, sc).state.counter <= st.counter + 1
    ensures Step(st, sc).state.counter == st.counter + 1 <==> Step(st, sc).result.Committed?
    ensures Step(st, sc).state.counter == st.counter - 1 <==> sc.code == RollbackSentinel
  {
    if sc.code != RollbackSentinel && !Step(st, sc).result.Committed? {
      FailureStep(st, sc);
    }
  }

  /**
   * The process ends in exactly two ways: an unreadable checkup reply
   * raises out of `main` (and the entry point exits), and a database error
   * on a card number makes the loop kill its own process.
   */
  lemma TerminatedStep(st: State, sc: Scan)
    ensures Step(st, sc).result.Terminated? <==>
      sc.code != RollbackSentinel &&
      ((IsTjStarting(sc.code) && sc.checkup.Malformed?) || (!IsTjStarting(sc.code) && sc.his.HisError?))
  {
  }

  /**
   * Each dialog of a non-sentinel pass: a missed lookup shows its own
   * notice and types nothing; a fail-safe during entry shows the fail-safe
   * notice after typing the first `k` events of the form under the
   * tentative number.
   */
  lemma NoticeStep(st: State, sc: Scan)
    requires sc.code != RollbackSentinel
    ensures LookupCode(sc.code, sc.checkup, sc.his).Missed? ==>
      Step(st, sc).result == Notified(LookupCode(sc.code, sc.checkup, sc.his).notice) &&
      OutcomeEvents(Step(st, sc)) == []
    ensures LookupCode(sc.code, sc.checkup, sc.his).Found? && sc.actuation.FailSafe? ==>
      var e := Entry(LookupCode(sc.code, sc.checkup, sc.his).patient, sc.nowYear, Rolled(st, sc.nowYear).counter + 1, sc.actuation);
      Step(st, sc).result == Notified(FailSafeTripped) &&
      Step(st, sc).entry == Some(e) &&
      OutcomeEvents(Step(st, sc)) == Take(XcopeEvents(EntryForm(e)), sc.actuation.k)
  {
  }

  /**
   * A checkup code reads only the first record of a non-empty `data`
   * array and never consults the HIS database; a card number reads only
   * the HIS answer and never the checkup system.
   */
  lemma LookupIndependence(st: State, sc: Scan, r: CheckupRecord, rest: seq<CheckupRecord>, h: HisReply, c: CheckupReply)
    ensures IsTjStarting(sc.code) ==>
      Step(st, sc.(checkup := Reply([r] + rest))) == Step(st, sc.(checkup := Reply([r])))
    ensures IsTjStarting(sc.code) ==> Step(st, sc.(his := h)) == Step(st, sc)
    ensures !IsTjStarting(sc.code) ==> Step(st, sc.(checkup := c)) == Step(st, sc)
  {
  }

  /** A card number is entered only when the HIS query returns exactly one row, and that row's patient is used. */
  lemma HisNeedsOneRow(st: State, sc: Scan)
    requires !IsTjStarting(sc.code) && Step(st, sc).result.Committed?
    ensures sc.his.Rows? && |sc.his.rows| == 1
    ensures Step(st, sc).result.patient == FromHis(sc.his.rows[0])
  {
  }

  /**
   * The sentinel gives back the number of the sample just committed: the
   * same scan repeated after it is committed under the same number.
   */
  lemma RollbackReusesNumber(st: State, sc: Scan, sentinel: Scan)
    requires sc.nowYear == st.year && Step(st, sc).result.Committed?
    requires sentinel.code == RollbackSentinel
    ensures Step(Step(Step(st, sc).state, sentinel).state, sc).result == Step(st, sc).result
    ensures Step(Step(Step(st, sc).state, sentinel).state, sc).state == Step(st, sc).state
  {
    CommitStep(st, sc);
    var back := Step(Step(st, sc).state, sentinel).state;
    assert back == st;
  }

  // ---------------------------------------------------------------------
  // Serial numbers.
  // ---------------------------------------------------------------------

  /** For a four-digit year the serial is "M", the year's four digits, then the zero-filled number. */
  lemma SerialShape(year: int, n: int)
    requires 1000 <= year <= 9999
    ensures |SerialId(year, n)| >= 10 && SerialId(year, n)[0] == 'M'
    ensures SerialId(year, n)[1..5] == NatToString(year)
    ensures SerialId(year, n)[5..] == ZFill(IntToString(n), 5)
  {
    NatToStringLength(year);
    ZFillLength(IntToString(n), 5);
    var y := IntToString(year);
    var z := ZFill(IntToString(n), 5);
    assert y == NatToString(year);
    assert SerialId(year, n) == "M" + (y + z);
    assert ("M" + (y + z))[1..5] == y;
    assert ("M" + (y + z))[5..] == z;
  }

  /** A non-negative number makes the serial "M" and digits only, the last ones reading back as the number. */
  lemma SerialDigits(year: int, n: int)
    requires 1000 <= year <= 9999 && n >= 0
    ensures AllDigits(SerialId(year, n)[1..]) && DigitsValue(SerialId(year, n)[5..]) == n
  {
    SerialShape(year, n);
    var s := SerialId(year, n);
    var y := NatToString(year);
    var z := ZFill(IntToString(n), 5);
    ZFillNonNegative(n, 5);
    DigitsAppend(y, z);
    assert s[1..] == y + z;
  }

  /** Within four-digit years, distinct (year, number) pairs get distinct serials. */
  lemma SerialInjective(y1: int, n1: int, y2: int, n2: int)
    requires 1000 <= y1 <= 9999 && 1000 <= y2 <= 9999
    requires SerialId(y1, n1) == SerialId(y2, n2)
    ensures y1 == y2 && n1 == n2
  {
    SerialShape(y1, n1);
    SerialShape(y2, n2);
    NatToStringRoundTrip(y1);
    NatToStringRoundTrip(y2);
    ZFillInjective(n1, n2, 5);
  }

  /** Small numbers are padded to five digits. */
  lemma SerialPadded()
    ensures SerialId(2024, 1) == "M202400001"
  {
    assert NatToString(2024) == "2024";
    assert ZFill("1", 5) == "00001";
  }

  /** A counter driven below zero by the sentinel gives a signed serial. */
  lemma SerialSigned()
    ensures SerialId(2024, -1) == "M2024-0001"
  {
    assert NatToString(2024) == "2024";
    assert IntToString(-1) == "-1";
    assert Zeros(3) == "000";
    assert ZFill("-1", 5) == ['-'] + "000" + "1";
  }

  // ---------------------------------------------------------------------
  // Serial numbers over a run.
  // ---------------------------------------------------------------------

  /** A committed pass used a (year, number) pair the state has already counted past. */
  predicate CountedBy(c: CycleResult, st: State) {
    c.Committed? ==> c.year < st.year || (c.year == st.year && c.number <= st.counter)
  }

  /** No two committed passes share a year and a number. */
  predicate DistinctCommits(rs: seq<CycleResult>) {
    forall i, j :: 0 <= i < j < |rs| && rs[i].Committed? && rs[j].Committed? ==>
      rs[i].year != rs[j].year || rs[i].number != rs[j].number
  }

  predicate NoSentinel(scans: seq<Scan>) {
    forall i :: 0 <= i < |scans| ==> scans[i].code != RollbackSentinel
  }

  /** The clock never goes back a year between scans. */
  predicate YearsOrdered(scans: seq<Scan>) {
    forall i, j :: 0 <= i < j < |scans| ==> scans[i].nowYear <= scans[j].nowYear
  }

  /** What a run without the sentinel keeps true: every commit is counted by the state and none repeats. */
  predicate Numbered(ro: RunOutcome, scans: seq<Scan>) {
    |ro.results| <= |scans| &&
    (forall k :: 0 <= k < |ro.results| ==> CountedBy(ro.results[k], ro.state)) &&
    (forall k :: 0 <= k < |ro.results| && ro.results[k].Committed? ==> ro.results[k].year == scans[k].nowYear) &&
    DistinctCommits(ro.results)
  }

  /** One non-sentinel pass, at a year not before the state's, keeps the numbering. */
  lemma StepNumbers(prev: RunOutcome, sc: Scan, scans: seq<Scan>)
    requires sc.code != RollbackSentinel
    requires |prev.results| < |scans| && scans[|prev.results|] == sc
    requires Numbered(prev, scans[..|prev.results|])
    requires prev.results != [] ==> prev.state.year <= sc.nowYear
    ensures Numbered(Then(prev, Step(prev.state, sc)), scans[..|prev.results| + 1])
    ensures Step(prev.state, sc).state.year == sc.nowYear
  {
    var o := Step(prev.state, sc);
    var r := Rolled(prev.state, sc.nowYear);
    var rs := prev.results + [o.result];
    var m := |prev.results|;
    assert o.state.year == sc.nowYear;
    assert r.counter <= o.state.counter;
    assert o.result.Committed? ==> o.result.year == sc.nowYear && o.result.number == r.counter + 1 && o.state.counter == r.counter + 1;
    forall k | 0 <= k < m
      ensures CountedBy(rs[k], o.state)
      ensures rs[k].Committed? ==> rs[k].year < sc.nowYear || (rs[k].year == sc.nowYear && rs[k].number <= r.counter)
    {
      assert rs[k] == prev.results[k];
      assert CountedBy(prev.results[k], prev.state);
    }
    assert CountedBy(rs[m], o.state);
    forall k | 0 <= k < |rs| && rs[k].Committed?
      ensures rs[k].year == scans[..m + 1][k].nowYear
    {
      if k < m {
        assert rs[k] == prev.results[k];
        assert scans[..m][k] == scans[..m + 1][k];
      }
    }
  }

  /**
   * Without the sentinel, and with the clock never going back a year, a
   * run never commits the same (year, number) twice: a new year starts
   * above every earlier year, and within a year each commit takes the
   * number after the counter.
   */
  lemma {:induction false} RunNumbers(st: State, scans: seq<Scan>)
    requires NoSentinel(scans) && YearsOrdered(scans)
    ensures Numbered(RunSpec(st, scans), scans)
    ensures RunSpec(st, scans).results != [] ==> RunSpec(st, scans).state.year <= scans[|scans| - 1].nowYear
    decreases |scans|
  {
    if scans != [] {
      var init := scans[..|scans| - 1];
      var sc := scans[|scans| - 1];
      assert NoSentinel(init) && YearsOrdered(init);
      RunNumbers(st, init);
      var prev := RunSpec(st, init);
      if prev.stopped {
        assert RunSpec(st, scans) == prev;
        assert init[..|prev.results|] == scans[..|prev.results|];
        forall k | 0 <= k < |prev.results| && prev.results[k].Committed?
          ensures prev.results[k].year == scans[k].nowYear
        {
          assert init[k] == scans[k];
        }
        if prev.results != [] {
          assert prev.state.year <= init[|init| - 1].nowYear;
        }
      } else {
        assert |prev.results| == |init| by { RunLength(st, init); }
        assert scans[..|init|] == init && scans[..|init| + 1] == scans;
        if prev.results != [] {
          assert prev.state.year <= init[|init| - 1].nowYear;
        }
        StepNumbers(prev, sc, scans);
      }
    }
  }

  /** A run that has not stopped has one result per scan. */
  lemma {:induction false} RunLength(st: State, scans: seq<Scan>)
    ensures |RunSpec(st, scans).results| <= |scans|
    ensures !RunSpec(st, scans).stopped ==> |RunSpec(st, scans).results| == |scans|
    decreases |scans|
  {
    if scans != [] {
      RunLength(st, scans[..|scans| - 1]);
    }
  }

  /**
   * Hence, for four-digit years, the serials typed into Xcope during such
   * a run are pairwise different.
   */
  lemma RunSerialsDistinct(st: State, scans: seq<Scan>)
    requires NoSentinel(scans) && YearsOrdered(scans)
    requires forall i :: 0 <= i < |scans| ==> 1000 <= scans[i].nowYear <= 9999
    ensures var rs := RunSpec(st, scans).results;
      forall i, j :: 0 <= i < j < |rs| && rs[i].Committed? && rs[j].Committed? ==>
        SerialId(rs[i].year, rs[i].number) != SerialId(rs[j].year, rs[j].number)
  {
    RunNumbers(st, scans);
    var rs := RunSpec(st, scans).results;
    forall i, j | 0 <= i < j < |rs| && rs[i].Committed? && rs[j].Committed?
      ensures SerialId(rs[i].year, rs[i].number) != SerialId(rs[j].year, rs[j].number)
    {
      if SerialId(rs[i].year, rs[i].number) == SerialId(rs[j].year, rs[j].number) {
        SerialInjective(rs[i].year, rs[i].number, rs[j].year, rs[j].number);
      }
    }
  }
}
