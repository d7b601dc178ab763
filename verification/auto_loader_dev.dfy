/**
 * The development twin of the scan cycle (auto_loader_dev.py): a console
 * scanner that can ask for exit, a canned checkup response instead of the
 * HTTP call, console output instead of Xcope, a HIS query whose failure is
 * only reported, and the `MockCursor` table that stands in for the
 * database when no connection can be made.
 */
module AutoLoaderDev {
  import opened Text
  import opened InputUtil
  import opened Wrappers
  import opened AutoLoader

  // ---------------------------------------------------------------------
  // The console scanner.
  // ---------------------------------------------------------------------

  /** `content.lower() == 'exit'`: the scanner kills the process before returning the content. */
  predicate IsExitRequest(content: string) {
    AsciiLower(content) == "exit"
  }

  /** "exit" is recognised in any mix of letter cases, and nothing else is. */
  lemma ExitRequestCases(content: string)
    ensures IsExitRequest(content) <==>
      |content| == 4 &&
      (content[0] == 'e' || content[0] == 'E') && (content[1] == 'x' || content[1] == 'X') &&
      (content[2] == 'i' || content[2] == 'I') && (content[3] == 't' || content[3] == 'T')
  {
    AsciiLowerAt(content);
    if |content| == 4 {
      var l := AsciiLower(content);
      assert l == [l[0], l[1], l[2], l[3]];
    }
  }

  // ---------------------------------------------------------------------
  // The canned checkup response.
  // ---------------------------------------------------------------------

  /** The single record of `MockResponse.text`, after the JSON round trip: the age stays an int. */
  function MockCheckupRecord(code: string): (r: CheckupRecord)
    ensures r.checkCode == Str(code)
  {
    CheckupRecord(Str("测试患者"), Int(45), Str(code), Str("测试医生"), Str("体检中心"))
  }

  // ---------------------------------------------------------------------
  // The HIS query and the mock cursor.
  // ---------------------------------------------------------------------

  /** The query up to its condition: the five selected columns and the patient view. */
  const SqlHead := "SELECT " + "JIUZHENKH," + "XINGMING," + "NIANLING," + "KESHIMC," + "KAIDANREN" +
    " FROM " + "v_binglikaidan" + "_bingrenxx" + " WHERE "
  const CardPrefix := "JIUZHENKH='"

  /** The f-string query for a scanned card number, which pastes the code between quotes unescaped. */
  function HisQuery(code: string): string {
    SqlHead + CardPrefix + code + "'"
  }

  /**
   * `JIUZHENKH='([^']+)'` tried at position i: the prefix, then the longest
   * run of non-quote characters (the class cannot match a quote, so a shorter
   * run never helps), which must be non-empty and followed by a quote.
   */
  function MatchAt(q: string, i: nat): (m: Option<string>)
    requires i <= |q|
    ensures m.Some? ==> m.value != [] && '\'' !in m.value
  {
    if |q| - i < |CardPrefix| || q[i..i + |CardPrefix|] != CardPrefix then None
    else
      var run := Before(q[i + |CardPrefix|..], '\'');
      if run != [] && i + |CardPrefix| + |run| < |q| then Some(run) else None
  }

  /** `re.search`: the group of the leftmost match at or after position i. */
  function SearchFrom(q: string, i: nat): Option<string>
    requires i <= |q|
    decreases |q| - i
  {
    if MatchAt(q, i).Some? then MatchAt(q, i)
    else if i == |q| then None
    else SearchFrom(q, i + 1)
  }

  function SearchCard(q: string): Option<string> {
    SearchFrom(q, 0)
  }

  datatype Row = Row(jiuzhenkh: string, xingming: string, nianling: string, keshimc: string, kaidanren: string)

  /** `self.patients_db`. */
  const PatientsDb: map<string, Row> := map[
    "123456" := Row("123456", "张三", "45", "妇科", "李医生"),
    "234567" := Row("234567", "李四", "32", "内科", "王医生"),
    "345678" := Row("345678", "王五", "28", "外科", "赵医生"),
    "456789" := Row("456789", "赵六", "50", "急诊", "钱医生"),
    "567890" := Row("567890", "钱七", "36", "儿科", "孙医生"),
    "00001719" := Row("00001719", "测试患者", "40", "妇科", "测试医生")
  ]

  /** `self.multiple_matches`. */
  const MultipleMatches: seq<string> := ["999999", "888888"]

  /** `self.not_found`. */
  const NotFoundCodes: seq<string> := ["111111", "222222", "000000"]

  /** Python's `s[-4:]`: the last four characters, or all of a shorter string. */
  function Last4(s: string): (r: string)
    ensures |r| == if |s| < 4 then |s| else 4
    ensures s == s[..|s| - |r|] + r
  {
    if |s| <= 4 then s else s[|s| - 4..]
  }

  /** The rows `fetchall` returns for a parsed card number. */
  function MockRows(card: string): seq<Row> {
    if card in MultipleMatches then [Row(card, "测试患者1", "30", "测试科室", "测试医生"), Row(card, "测试患者2", "35", "测试科室", "测试医生")]
    else if card in NotFoundCodes then []
    else if card in PatientsDb then [PatientsDb[card]]
    else [Row(card, "模拟患者_" + Last4(card), "35", "妇科", "模拟医生")]
  }

  /** `fetchall` on a query: no rows unless the query names a card. */
  function FetchRows(query: string): seq<Row> {
    match SearchCard(query)
    case None => []
    case Some(card) => MockRows(card)
  }

  /** A mock row as the loop reads it. */
  function AsHisRow(r: Row): HisRow {
    HisRow(Str(r.jiuzhenkh), Str(r.xingming), Str(r.nianling), Str(r.keshimc), Str(r.kaidanren))
  }

  function AsHisRows(rows: seq<Row>): (h: seq<HisRow>)
    ensures |h| == |rows|
    ensures forall i :: 0 <= i < |rows| ==> h[i] == AsHisRow(rows[i])
  {
    if rows == [] then [] else [AsHisRow(rows[0])] + AsHisRows(rows[1..])
  }

  /** The cursor of the mock connection: it remembers the last query and answers from the table. */
  class MockCursor {
    /** `self.last_query`, which does not exist before the first `execute`. */
    var lastQuery: Option<string>

    constructor ()
      ensures lastQuery == None
    {
      lastQuery := None;
    }

    method Execute(query: string)
      modifies this
      ensures lastQuery == Some(query)
    {
      lastQuery := Some(query);
    }

    /** `fetchall`: the table's answer for the last query executed. */
    function FetchAll(): (rows: seq<Row>)
      reads this
      requires lastQuery.Some?
      ensures SearchCard(lastQuery.value).None? ==> rows == []
    {
      FetchRows(lastQuery.value)
    }
  }

  /** `cursor.execute(sql)` followed by `cursor.fetchall()` on the mock cursor. */
  method MockQuery(cursor: MockCursor, code: string) returns (rows: seq<Row>)
    modifies cursor
    ensures cursor.lastQuery == Some(HisQuery(code))
    ensures rows == FetchRows(HisQuery(code))
  {
    cursor.Execute(HisQuery(code));
    rows := cursor.FetchAll();
  }

  // ---------------------------------------------------------------------
  // What the mock cursor answers.
  // ---------------------------------------------------------------------

  /** Neither the head of the query nor the prefix before its last character holds a quote. */
  lemma NoMatchInHead(code: string, i: nat)
    requires i < |SqlHead|
    ensures MatchAt(HisQuery(code), i).None?
  {
    var q := HisQuery(code);
    assert q == SqlHead + (CardPrefix + code + "'");
    if i + |CardPrefix| <= |q| {
      var j := i + |CardPrefix| - 1;
      if j < |SqlHead| {
        HeadUnquoted();
        assert q[j] == SqlHead[j];
      } else {
        assert '\'' !in CardPrefix[..|CardPrefix| - 1];
        assert q[j] == CardPrefix[j - |SqlHead|];
      }
      assert q[i..i + |CardPrefix|][|CardPrefix| - 1] == q[j];
    }
  }

  lemma HeadUnquoted()
    ensures '\'' !in SqlHead
  {
  }

  /** Cutting a code with one more quote behind it stops where cutting the code stops. */
  lemma BeforeQuoted(code: string)
    ensures Before(code + "'", '\'') == Before(code, '\'')
  {
    if '\'' in code {
      var b := Before(code, '\'');
      var a := After(code, '\'');
      assert code + "'" == b + ['\''] + (a + "'");
      CutAtFirst(b, '\'', a + "'");
    } else {
      BeforeAbsent(code, '\'', "'");
      BeforeAbsent(code, '\'', []);
      assert code + [] == code;
    }
  }

  /** Searching past positions that do not match changes nothing. */
  lemma {:induction false} SearchSkips(q: string, i: nat, k: nat)
    requires i <= k < |q|
    requires forall j :: i <= j < k ==> MatchAt(q, j).None?
    ensures SearchFrom(q, i) == SearchFrom(q, k)
    decreases k - i
  {
    if i < k {
      SearchSkips(q, i + 1, k);
    }
  }

  /**
   * The query names the scanned code up to its first quote: when that part
   * is non-empty, `fetchall` looks it up.
   */
  lemma QueryNamesCard(code: string)
    requires Before(code, '\'') != []
    ensures SearchCard(HisQuery(code)) == Some(Before(code, '\''))
  {
    var q := HisQuery(code);
    var h := |SqlHead|;
    forall j | 0 <= j < h ensures MatchAt(q, j).None? {
      NoMatchInHead(code, j);
    }
    assert q == SqlHead + CardPrefix + (code + "'");
    assert q[h..h + |CardPrefix|] == CardPrefix;
    assert q[h + |CardPrefix|..] == code + "'";
    BeforeQuoted(code);
    assert MatchAt(q, h) == Some(Before(code, '\''));
    SearchSkips(q, 0, h);
  }

  /** An empty scan names no card, so the mock answers with no rows. */
  lemma EmptyCodeNamesNoCard()
    ensures SearchCard(HisQuery("")) == None
    ensures FetchRows(HisQuery("")) == []
  {
    var q := HisQuery("");
    var h := |SqlHead|;
    assert q == SqlHead + CardPrefix + "'";
    forall j | 0 <= j < h ensures MatchAt(q, j).None? {
      NoMatchInHead("", j);
    }
    assert q[h + |CardPrefix|..] == "'";
    assert MatchAt(q, h).None?;
    assert q[h + 1..h + 1 + |CardPrefix|][0] == q[h + 1] == 'I';
    assert MatchAt(q, h + 1).None?;
    SearchSkips(q, 0, h);
    AfterHeadNone(q, h + 2);
  }

  /** Near the end of the query there is no room for the prefix. */
  lemma {:induction false} AfterHeadNone(q: string, i: nat)
    requires i <= |q| && |q| - i < |CardPrefix|
    ensures SearchFrom(q, i) == None
    decreases |q| - i
  {
    if i < |q| {
      AfterHeadNone(q, i + 1);
    }
  }

  /**
   * The table: 999999 and 888888 give two rows, 111111, 222222 and 000000
   * none, a patient of `patients_db` exactly its row, and any other card one
   * made-up row named after its last four characters.
   */
  lemma MockRowsCases(card: string)
    ensures |MockRows(card)| == 2 <==> card == "999999" || card == "888888"
    ensures |MockRows(card)| == 0 <==> card == "111111" || card == "222222" || card == "000000"
    ensures card in PatientsDb ==> MockRows(card) == [PatientsDb[card]] && PatientsDb[card].jiuzhenkh == card
    ensures card !in PatientsDb && card !in MultipleMatches && card !in NotFoundCodes ==>
      MockRows(card) == [Row(card, "模拟患者_" + Last4(card), "35", "妇科", "模拟医生")]
  {
  }

  /** A code without quotes is looked up as it is. */
  lemma FetchPlainCode(code: string)
    requires code != [] && '\'' !in code
    ensures FetchRows(HisQuery(code)) == MockRows(code)
  {
    BeforeAbsent(code, '\'', []);
    assert code + [] == code;
    QueryNamesCard(code);
  }

  // ---------------------------------------------------------------------
  // One pass of the development loop.
  // ---------------------------------------------------------------------

  /**
   * What one pass of the development loop sees: the console input, the
   * year, and the answer of the HIS cursor (real or mock) to the query.
   * The checkup answer is fixed and nothing is typed into Xcope.
   */
  datatype DevScan = DevScan(code: string, nowYear: int, his: HisReply)

  /**
   * One pass: "exit" kills the process inside the scanner; the sentinel and
   * the year check work as in production; a checkup code always commits the
   * canned record; a failing HIS query is only reported.
   */
  function DevStep(st: State, sc: DevScan): (o: Outcome)
    ensures o.entry.None?
  {
    if IsExitRequest(sc.code) then Outcome(st, [], Terminated, None) else DevPass(st, sc)
  }

  /** A pass once the scanner has returned the content. */
  function DevPass(st: State, sc: DevScan): (o: Outcome)
    ensures o.entry.None?
  {
    if sc.code == RollbackSentinel then Outcome(State(st.counter - 1, st.year), [], Notified(RolledBack), None)
    else
      var d := DevDispatch(Rolled(st, sc.nowYear), sc);
      Outcome(d.state, RolloverWrites(st, sc.nowYear) + d.written, d.result, None)
  }

  /** The development lookup after the year check; the number is committed without any form entry. */
  function DevDispatch(r: State, sc: DevScan): Outcome {
    if IsTjStarting(sc.code) then Enter(r, FromCheckup(MockCheckupRecord(sc.code)), sc.nowYear, Completed)
    else
      match sc.his
      case HisError => Outcome(r, [], Notified(QueryFailed), None)
      case Rows(rows) =>
        if |rows| == 1 then Enter(r, FromHis(rows[0]), sc.nowYear, Completed)
        else if |rows| == 0 then Outcome(r, [], Notified(NotFound), None)
        else Outcome(r, [], Notified(Multiple), None)
  }

  /**
   * auto_loader_dev.py:219-353, one pass on the same ledger as production.
   * The canned `data` array is never empty, so the "no data" exit (error
   * code 2) and the request exception (error code 3) cannot happen.
   */
  method DevCycle(loader: Loader, sc: DevScan) returns (result: CycleResult)
    requires loader.Valid()
    modifies loader
    ensures loader.Valid()
    ensures loader.Snapshot() == DevStep(old(loader.Snapshot()), sc).state
    ensures result == DevStep(old(loader.Snapshot()), sc).result
    ensures loader.writes == old(loader.writes) + DevStep(old(loader.Snapshot()), sc).written
    ensures loader.writes == old(loader.writes) ==> loader.persisted == old(loader.persisted)
    ensures loader.initial == old(loader.initial)
  {
    if IsExitRequest(sc.code) {
      return Terminated;
    }
    result := DevProcess(loader, sc);
  }

  /** The pass after the scanner: the sentinel, the year check and the lookup. */
  method DevProcess(loader: Loader, sc: DevScan) returns (result: CycleResult)
    requires loader.Valid()
    modifies loader
    ensures loader.Valid()
    ensures loader.Snapshot() == DevPass(old(loader.Snapshot()), sc).state
    ensures result == DevPass(old(loader.Snapshot()), sc).result
    ensures loader.writes == old(loader.writes) + DevPass(old(loader.Snapshot()), sc).written
    ensures loader.writes == old(loader.writes) ==> loader.persisted == old(loader.persisted)
    ensures loader.initial == old(loader.initial)
  {
    ghost var st := loader.Snapshot();
    if sc.code == RollbackSentinel {
      loader.sampleNumber := loader.sampleNumber - 1;
      return Notified(RolledBack);
    }
    if sc.nowYear != loader.recordYear {
      loader.sampleNumber := 0;
      loader.recordYear := sc.nowYear;
      loader.Save();
    }
    ghost var mid := loader.writes;
    assert loader.Snapshot() == Rolled(st, sc.nowYear);
    assert mid == old(loader.writes) + RolloverWrites(st, sc.nowYear);
    result := DevLookup(loader, sc);
    ghost var d := DevDispatch(Rolled(st, sc.nowYear), sc);
    assert DevPass(st, sc) == Outcome(d.state, RolloverWrites(st, sc.nowYear) + d.written, d.result, None);
    assert loader.writes == old(loader.writes) + (RolloverWrites(st, sc.nowYear) + d.written) by {
      assert loader.writes == mid + d.written;
    }
  }

  /** Lines 233-353 after the year check: the tentative number, the lookup and its exits. */
  method DevLookup(loader: Loader, sc: DevScan) returns (result: CycleResult)
    requires loader.Valid() && loader.recordYear == sc.nowYear
    modifies loader
    ensures loader.Valid()
    ensures loader.Snapshot() == DevDispatch(old(loader.Snapshot()), sc).state
    ensures result == DevDispatch(old(loader.Snapshot()), sc).result
    ensures loader.writes == old(loader.writes) + DevDispatch(old(loader.Snapshot()), sc).written
    ensures loader.writes == old(loader.writes) ==> loader.persisted == old(loader.persisted)
    ensures loader.initial == old(loader.initial)
  {
    var n := loader.sampleNumber + 1;
    var patient: Patient;
    if IsTjStarting(sc.code) {
      var records := [MockCheckupRecord(sc.code)];
      patient := FromCheckup(records[0]);
    } else {
      if sc.his.HisError? {
        return Notified(QueryFailed);
      }
      var rows := sc.his.rows;
      if |rows| == 0 {
        loader.sampleNumber := n - 1;
        return Notified(NotFound);
      } else if |rows| > 1 {
        loader.sampleNumber := n - 1;
        return Notified(Multiple);
      }
      patient := FromHis(rows[0]);
    }
    loader.sampleNumber := n;
    loader.Save();
    result := Committed(sc.nowYear, n, patient);
  }

  // ---------------------------------------------------------------------
  // Properties of the development pass.
  // ---------------------------------------------------------------------

  /**
   * Apart from "exit" and a failing query, a development pass behaves like
   * a production pass whose checkup system answered with the canned record
   * and whose form entry completed.
   */
  lemma DevMatchesProduction(st: State, sc: DevScan)
    requires !IsExitRequest(sc.code)
    requires IsTjStarting(sc.code) || sc.his.Rows?
    ensures var p := Step(st, Scan(sc.code, sc.nowYear, Reply([MockCheckupRecord(sc.code)]), sc.his, Completed));
      DevStep(st, sc).state == p.state && DevStep(st, sc).result == p.result && DevStep(st, sc).written == p.written
  {
  }

  /** Typing "exit" in any letter case ends the process before anything else, the sentinel included. */
  lemma ExitFirst(st: State, sc: DevScan)
    requires IsExitRequest(sc.code)
    ensures DevStep(st, sc) == Outcome(st, [], Terminated, None)
    ensures !IsExitRequest(RollbackSentinel)
  {
  }

  /** A checkup code always commits the canned patient under the next number. */
  lemma DevCheckupCommits(st: State, sc: DevScan)
    requires !IsExitRequest(sc.code) && IsTjStarting(sc.code)
    ensures DevStep(st, sc).result ==
      Committed(sc.nowYear, Rolled(st, sc.nowYear).counter + 1,
        Patient(Str("测试患者"), Int(45), Str(sc.code), Str("测试医生"), Str("体检中心")))
    ensures DevStep(st, sc).state == State(Rolled(st, sc.nowYear).counter + 1, sc.nowYear)
  {
    assert sc.code != RollbackSentinel;
  }

  /**
   * A failing HIS query is reported and the loop goes on with the counter
   * as the year check left it, where production kills the process.
   */
  lemma DevQueryFailureContinues(st: State, sc: DevScan)
    requires !IsExitRequest(sc.code) && sc.code != RollbackSentinel && !IsTjStarting(sc.code) && sc.his.HisError?
    ensures DevStep(st, sc).result == Notified(QueryFailed)
    ensures DevStep(st, sc).state == Rolled(st, sc.nowYear)
    ensures DevStep(st, sc).written == RolloverWrites(st, sc.nowYear)
    ensures Step(st, Scan(sc.code, sc.nowYear, NoReply, HisError, Completed)).result == Terminated
  {
    assert RolloverWrites(st, sc.nowYear) + [] == RolloverWrites(st, sc.nowYear);
  }

  /** Against the mock cursor an empty scan is "not found". */
  lemma MockEmptyScan(st: State, y: int)
    ensures DevStep(st, DevScan("", y, Rows(AsHisRows(FetchRows(HisQuery("")))))).result == Notified(NotFound)
  {
    EmptyCodeNamesNoCard();
    assert !IsExitRequest("");
  }

  /** Against the mock cursor 999999 is in the database several times. */
  lemma MockMultiple(st: State, y: int)
    ensures DevStep(st, DevScan("999999", y, Rows(AsHisRows(FetchRows(HisQuery("999999")))))).result == Notified(Multiple)
  {
    FetchPlainCode("999999");
    assert |MockRows("999999")| == 2;
    assert !IsExitRequest("999999");
  }

  /** Against the mock cursor 111111 is not in the database. */
  lemma MockAbsent(st: State, y: int)
    ensures DevStep(st, DevScan("111111", y, Rows(AsHisRows(FetchRows(HisQuery("111111")))))).result == Notified(NotFound)
  {
    FetchPlainCode("111111");
    assert MockRows("111111") == [];
    assert !IsExitRequest("111111");
  }

  /** The mock cursor's row for 123456. */
  lemma KnownRow()
    ensures FetchRows(HisQuery("123456")) == [Row("123456", "张三", "45", "妇科", "李医生")]
  {
    FetchPlainCode("123456");
    assert "123456" !in MultipleMatches && "123456" !in NotFoundCodes;
  }

  /** Against the mock cursor 123456 is committed as Zhang San, aged 45, of gynaecology. */
  lemma MockKnownPatient(st: State, y: int)
    ensures DevStep(st, DevScan("123456", y, Rows(AsHisRows(FetchRows(HisQuery("123456")))))).result ==
      Committed(y, Rolled(st, y).counter + 1, Patient(Str("张三"), Str("45"), Str("123456"), Str("李医生"), Str("妇科")))
  {
    var row := Row("123456", "张三", "45", "妇科", "李医生");
    KnownRow();
    assert AsHisRows([row]) == [AsHisRow(row)];
    assert !IsExitRequest("123456");
    assert !IsTjStarting("123456");
  }
}
