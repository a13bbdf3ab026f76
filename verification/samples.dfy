/**
 * The sample logs of the tests, and what a JSON decoder returns for each of
 * their lines: the log shared by the report tests (`tests/test_reports.py`)
 * and the log file of the loader tests (`tests/test_log_parser.py`).
 */
module Samples {
  import opened Wrappers
  import opened JsonData
  import opened Python
  import opened LogParser
  import Counter
  import StatusReport
  import UserAgentReport
  import AverageReport

  const Lines: seq<string> := [
    "{\"url\": \"/api/test\", \"response_time\": \"0.1\"}",
    "{\"url\": \"/api/test\", \"response_time\": \"0.2\"}",
    "{\"url\": \"/api/other\", \"response_time\": \"0.3\"}",
    "{\"status\": \"200\"}",
    "{\"status\": \"404\"}",
    "{\"status\": \"200\"}",
    "{\"http_user_agent\": \"Mozilla/5.0\"}",
    "{\"http_user_agent\": \"curl/7.0\"}",
    "{\"http_user_agent\": \"Mozilla/5.0\"}"
  ]

  function Timed(url: string, time: string): Json
  {
    JObj(map["url" := JStr(url), "response_time" := JStr(time)])
  }

  function Single(name: string, value: string): Json
  {
    JObj(map[name := JStr(value)])
  }

  const Records: seq<Json> := [
    Timed("/api/test", "0.1"),
    Timed("/api/test", "0.2"),
    Timed("/api/other", "0.3"),
    Single("status", "200"),
    Single("status", "404"),
    Single("status", "200"),
    Single("http_user_agent", "Mozilla/5.0"),
    Single("http_user_agent", "curl/7.0"),
    Single("http_user_agent", "Mozilla/5.0")
  ]

  /** The host's decoder reads each sample line as the record written beside it. */
  predicate DecodesSamples(host: Host)
  {
    forall i :: 0 <= i < |Lines| ==> i < |Records| && host.loads(Lines[i]) == Some(Records[i])
  }

  // ---------------------------------------------------------------------
  // The loader's log file: two records of 2025-06-22, one of 2025-06-23
  // and a line that is not JSON

  const LogFile: seq<string> := [
    LogText("2025-06-22", "13:57:32+00:00", "200", "/api/test", "0.05"),
    LogText("2025-06-23", "10:00:00+00:00", "404", "/api/missing", "0.1"),
    "invalid json line\n",
    LogText("2025-06-22", "14:00:00+00:00", "500", "/api/error", "0.2")
  ]

  /** One record line of the file, newline included, with the fields in the file's order. */
  function LogText(day: string, clock: string, status: string, url: string, time: string): string
  {
    "{\"@timestamp\": \"" + day + "T" + clock + "\", \"status\": " + status + ", \"url\": \"" + url
      + "\", \"response_time\": " + time + "}\n"
  }

  /** The record of a line; its timestamp is `day`, `T`, then the time of day. */
  function LogRecord(day: string, clock: string, status: int, url: string, time: real): Json
  {
    JObj(map["@timestamp" := JStr(day + "T" + clock), "status" := JInt(status), "url" := JStr(url), "response_time" := JFloat(time)])
  }

  /** The host's decoder reads the three records and rejects the third line. */
  predicate DecodesLogFile(host: Host)
  {
    && host.loads(LogFile[0]) == Some(LogRecord("2025-06-22", "13:57:32+00:00", 200, "/api/test", 0.05))
    && host.loads(LogFile[1]) == Some(LogRecord("2025-06-23", "10:00:00+00:00", 404, "/api/missing", 0.1))
    && host.loads(LogFile[2]).None?
    && host.loads(LogFile[3]) == Some(LogRecord("2025-06-22", "14:00:00+00:00", 500, "/api/error", 0.2))
  }

  // ---------------------------------------------------------------------
  // The loader tests

  /** Without a filter all four lines are yielded, the undecodable one included. */
  lemma LoaderUnfiltered(host: Host)
    ensures Loaded(host, [LogFile], None) == LogFile
  {
    var s := LogFile;
    assert Concat([s]) == s by { assert [s][1..] == []; }
    LogFileNotBlank();
    forall line | line in s ensures Keep(host, None, line) { }
    KeepLinesAll(host, None, s);
  }

  /** With the filter `2025-06-22` the two records of that day are yielded. */
  lemma LoaderFiltered(host: Host)
    requires DecodesLogFile(host)
    ensures Loaded(host, [LogFile], Some("2025-06-22")) == [LogFile[0], LogFile[3]]
  {
    var s: seq<string> := LogFile;
    assert Concat([s]) == s by { assert [s][1..] == []; }
    LogFileNotBlank();
    var date := "2025-06-22";
    assert "2025-06-22" != "2025-06-23";
    KeepStamped(host, date, s[0], "2025-06-22", "13:57:32+00:00");
    KeepStamped(host, date, s[1], "2025-06-23", "10:00:00+00:00");
    KeepStamped(host, date, s[3], "2025-06-22", "14:00:00+00:00");
    KeepFour(host, Some(date), s);
  }

  lemma LogFileNotBlank()
    ensures forall line :: line in LogFile ==> !IsBlank(line)
  {
    var s := LogFile;
    assert s[0][0] == '{' && s[1][0] == '{' && s[2][0] == 'i' && s[3][0] == '{';
  }

  lemma KeepFour(host: Host, filter: Option<string>, s: seq<string>)
    requires |s| == 4
    requires Keep(host, filter, s[0]) && !Keep(host, filter, s[1])
    requires !Keep(host, filter, s[2]) && Keep(host, filter, s[3])
    ensures KeepLines(host, filter, s) == [s[0], s[3]]
  {
    assert s[1..][1..] == s[2..];
    assert s[2..][1..] == s[3..];
    assert s[3..][1..] == [];
    assert KeepLines(host, filter, s[3..]) == [s[3]];
    assert KeepLines(host, filter, s[2..]) == [s[3]];
    assert KeepLines(host, filter, s[1..]) == [s[3]];
  }

  // ---------------------------------------------------------------------
  // The status report on the sample log

  /** The sample log of the report tests gives `{"200": 2, "404": 1}`. */
  lemma StatusDistribution(host: Host)
    requires DecodesSamples(host)
    ensures StatusReport.Generate(host, Lines) == map["200" := 2, "404" := 1]
  {
    SampleStatuses(host);
    StatusTally(host, Lines);
  }

  /** Lines whose statuses are `200`, `404`, `200` give `{"200": 2, "404": 1}`. */
  lemma StatusTally(host: Host, lines: seq<string>)
    requires StatusReport.Statuses(host, lines) == ["200", "404", "200"]
    ensures Counter.Tally(StatusReport.KeyFn(host), lines) == map["200" := 2, "404" := 1]
  {
    var ks := ["200", "404", "200"];
    assert multiset(ks)["200"] == 2 && multiset(ks)["404"] == 1;
    Counter.TallyFromKeys(StatusReport.KeyFn(host), lines, map["200" := 2, "404" := 1]);
  }

  lemma SampleStatuses(host: Host)
    requires DecodesSamples(host)
    ensures StatusReport.Statuses(host, Lines) == ["200", "404", "200"]
  {
    StatusKeysAll(host);
    Counter.KeysOfPointwise(StatusReport.KeyFn(host), Lines, StatusKeys);
    StatusKeysPresent();
  }

  lemma StatusKeysAll(host: Host)
    requires DecodesSamples(host)
    ensures |Lines| == |StatusKeys|
    ensures forall i :: 0 <= i < |Lines| ==> StatusReport.KeyFn(host)(Lines[i]) == StatusKeys[i]
  {
    forall i | 0 <= i < |Lines| ensures StatusReport.KeyFn(host)(Lines[i]) == StatusKeys[i] {
      StatusKeyAt(host, i);
    }
  }

  lemma StatusKeysPresent()
    ensures Counter.Present(StatusKeys) == ["200", "404", "200"]
  {
  }

  /** What each line of the sample log adds to. */
  const StatusKeys: seq<Option<string>> := [None, None, None, Some("200"), Some("404"), Some("200"), None, None, None]

  lemma StatusKeyAt(host: Host, i: nat)
    requires DecodesSamples(host) && i < |Lines|
    ensures i < |StatusKeys| && StatusReport.KeyFn(host)(Lines[i]) == StatusKeys[i]
  {
    var s := Lines;
    assert host.loads(s[i]) == Some(Records[i]);
    if i == 0 { StatusOfTimed(host, s[i], "/api/test", "0.1"); }
    else if i == 1 { StatusOfTimed(host, s[i], "/api/test", "0.2"); }
    else if i == 2 { StatusOfTimed(host, s[i], "/api/other", "0.3"); }
    else if i == 3 { StatusOfSingle(host, s[i], "status", "200"); }
    else if i == 4 { StatusOfSingle(host, s[i], "status", "404"); }
    else if i == 5 { StatusOfSingle(host, s[i], "status", "200"); }
    else if i == 6 { StatusOfSingle(host, s[i], "http_user_agent", "Mozilla/5.0"); }
    else if i == 7 { StatusOfSingle(host, s[i], "http_user_agent", "curl/7.0"); }
    else { StatusOfSingle(host, s[i], "http_user_agent", "Mozilla/5.0"); }
  }

  /** A record with only a URL and a time has no status. */
  lemma StatusOfTimed(host: Host, line: string, url: string, time: string)
    requires host.loads(line) == Some(Timed(url, time))
    ensures StatusReport.KeyFn(host)(line).None?
  {
    assert "status" !in Timed(url, time).fields;
  }

  /** A record with one text field is counted iff that field is `status`. */
  lemma StatusOfSingle(host: Host, line: string, name: string, value: string)
    requires host.loads(line) == Some(Single(name, value))
    ensures StatusReport.KeyFn(host)(line) == if name == "status" then Some(value) else None
  {
    assert Single(name, value).fields.Keys == {name};
  }

  // ---------------------------------------------------------------------
  // The user-agent report on the sample log

  /** The sample log of the report tests gives `{"Mozilla/5.0": 2, "curl/7.0": 1}`. */
  lemma AgentDistribution(host: Host)
    requires DecodesSamples(host)
    ensures UserAgentReport.Generate(host, Lines) == map[KStr("Mozilla/5.0") := 2, KStr("curl/7.0") := 1]
  {
    SampleAgents(host);
    AgentTally(host, Lines);
  }

  /** Lines whose agents are Mozilla, curl, Mozilla give two and one. */
  lemma AgentTally(host: Host, lines: seq<string>)
    requires UserAgentReport.Agents(host, lines) == [KStr("Mozilla/5.0"), KStr("curl/7.0"), KStr("Mozilla/5.0")]
    ensures Counter.Tally(UserAgentReport.KeyFn(host), lines) == map[KStr("Mozilla/5.0") := 2, KStr("curl/7.0") := 1]
  {
    var ks := [KStr("Mozilla/5.0"), KStr("curl/7.0"), KStr("Mozilla/5.0")];
    assert KStr("Mozilla/5.0") != KStr("curl/7.0");
    assert multiset(ks)[KStr("Mozilla/5.0")] == 2 && multiset(ks)[KStr("curl/7.0")] == 1;
    Counter.TallyFromKeys(UserAgentReport.KeyFn(host), lines, map[KStr("Mozilla/5.0") := 2, KStr("curl/7.0") := 1]);
  }

  lemma SampleAgents(host: Host)
    requires DecodesSamples(host)
    ensures UserAgentReport.Agents(host, Lines) == [KStr("Mozilla/5.0"), KStr("curl/7.0"), KStr("Mozilla/5.0")]
  {
    AgentKeysAll(host);
    Counter.KeysOfPointwise(UserAgentReport.KeyFn(host), Lines, AgentKeys);
    AgentKeysPresent();
  }

  lemma AgentKeysAll(host: Host)
    requires DecodesSamples(host)
    ensures |Lines| == |AgentKeys|
    ensures forall i :: 0 <= i < |Lines| ==> UserAgentReport.KeyFn(host)(Lines[i]) == AgentKeys[i]
  {
    forall i | 0 <= i < |Lines| ensures UserAgentReport.KeyFn(host)(Lines[i]) == AgentKeys[i] {
      AgentKeyAt(host, i);
    }
  }

  lemma AgentKeysPresent()
    ensures Counter.Present(AgentKeys) == [KStr("Mozilla/5.0"), KStr("curl/7.0"), KStr("Mozilla/5.0")]
  {
  }

  /** What each line of the sample log adds to. */
  const AgentKeys: seq<Option<Key>> := [None, None, None, None, None, None, Some(KStr("Mozilla/5.0")), Some(KStr("curl/7.0")), Some(KStr("Mozilla/5.0"))]

  lemma AgentKeyAt(host: Host, i: nat)
    requires DecodesSamples(host) && i < |Lines|
    ensures i < |AgentKeys| && UserAgentReport.KeyFn(host)(Lines[i]) == AgentKeys[i]
  {
    var s := Lines;
    assert host.loads(s[i]) == Some(Records[i]);
    if i == 0 { AgentOfTimed(host, s[i], "/api/test", "0.1"); }
    else if i == 1 { AgentOfTimed(host, s[i], "/api/test", "0.2"); }
    else if i == 2 { AgentOfTimed(host, s[i], "/api/other", "0.3"); }
    else if i == 3 { AgentOfSingle(host, s[i], "status", "200"); }
    else if i == 4 { AgentOfSingle(host, s[i], "status", "404"); }
    else if i == 5 { AgentOfSingle(host, s[i], "status", "200"); }
    else if i == 6 { AgentOfSingle(host, s[i], "http_user_agent", "Mozilla/5.0"); }
    else if i == 7 { AgentOfSingle(host, s[i], "http_user_agent", "curl/7.0"); }
    else { AgentOfSingle(host, s[i], "http_user_agent", "Mozilla/5.0"); }
  }

  /** A record with only a URL and a time has no user agent. */
  lemma AgentOfTimed(host: Host, line: string, url: string, time: string)
    requires host.loads(line) == Some(Timed(url, time))
    ensures UserAgentReport.KeyFn(host)(line).None?
  {
    assert "http_user_agent" !in Timed(url, time).fields;
  }

  /** A record with one non-empty text field is counted iff that field is the user agent. */
  lemma AgentOfSingle(host: Host, line: string, name: string, value: string)
    requires host.loads(line) == Some(Single(name, value))
    requires value != ""
    ensures UserAgentReport.KeyFn(host)(line) == if name == "http_user_agent" then Some(KStr(value)) else None
  {
    assert Single(name, value).fields.Keys == {name};
  }

  // ---------------------------------------------------------------------
  // The average report on the sample log

  /** The host reads the sample log as written, and `float()` reads the three
      response times as the decimals they spell. */
  predicate SampleHost(host: Host)
  {
    && DecodesSamples(host)
    && host.parseFloat("0.1") == Some(0.1)
    && host.parseFloat("0.2") == Some(0.2)
    && host.parseFloat("0.3") == Some(0.3)
  }

  /** The sample log gives `/api/test` two requests averaging 0.15 and
      `/api/other` one request of 0.3. */
  lemma AverageDistribution(host: Host)
    requires SampleHost(host)
    ensures forall line :: line in Lines ==> AverageReport.Safe(host, line)
    ensures AverageReport.Generate(host, Lines)
         == map[KStr("/api/test") := AverageReport.Stat(2, 0.15), KStr("/api/other") := AverageReport.Stat(1, 0.3)]
  {
    AverageSafe(host);
    forall k ensures AverageReport.TimesFor(host, Lines, k) == SampleTimes(k) {
      SampleTimesOf(host, k);
    }
    AverageOfSampleTimes(host, Lines);
  }

  lemma AverageSafe(host: Host)
    requires SampleHost(host)
    ensures forall line :: line in Lines ==> AverageReport.Safe(host, line)
  {
    forall line | line in Lines ensures AverageReport.Safe(host, line) {
      var i :| 0 <= i < |Lines| && Lines[i] == line;
      StepAt(host, i);
    }
  }

  /** Lines with the sample's response times per URL give the sample's report. */
  lemma AverageOfSampleTimes(host: Host, lines: seq<string>)
    requires forall line :: line in lines ==> AverageReport.Safe(host, line)
    requires forall k :: AverageReport.TimesFor(host, lines, k) == SampleTimes(k)
    ensures AverageReport.Generate(host, lines)
         == map[KStr("/api/test") := AverageReport.Stat(2, 0.15), KStr("/api/other") := AverageReport.Stat(1, 0.3)]
  {
    var test, other := KStr("/api/test"), KStr("/api/other");
    var r := AverageReport.Generate(host, lines);
    AverageKeys(host, lines);
    AverageValues(host, lines);
    PairMap(r, test, other);
  }

  /** A map with two keys is the display of its two entries. */
  lemma PairMap<K, V>(r: map<K, V>, a: K, b: K)
    requires r.Keys == {a, b}
    ensures r == map[a := r[a], b := r[b]]
  {
    var m := map[a := r[a], b := r[b]];
    assert m.Keys == {a, b};
    forall k | k in r ensures r[k] == m[k] {
      assert k == a || k == b;
    }
  }

  lemma AverageValues(host: Host, lines: seq<string>)
    requires forall line :: line in lines ==> AverageReport.Safe(host, line)
    requires AverageReport.TimesFor(host, lines, KStr("/api/test")) == [0.1, 0.2]
    requires AverageReport.TimesFor(host, lines, KStr("/api/other")) == [0.3]
    ensures KStr("/api/test") in AverageReport.Generate(host, lines) && AverageReport.Generate(host, lines)[KStr("/api/test")] == AverageReport.Stat(2, 0.15)
    ensures KStr("/api/other") in AverageReport.Generate(host, lines) && AverageReport.Generate(host, lines)[KStr("/api/other")] == AverageReport.Stat(1, 0.3)
  {
    SampleMeans();
    StatOf(host, lines, KStr("/api/test"));
    StatOf(host, lines, KStr("/api/other"));
  }

  lemma AverageKeys(host: Host, lines: seq<string>)
    requires forall line :: line in lines ==> AverageReport.Safe(host, line)
    requires forall k :: AverageReport.TimesFor(host, lines, k) == SampleTimes(k)
    ensures AverageReport.Generate(host, lines).Keys == {KStr("/api/test"), KStr("/api/other")}
  {
    var r := AverageReport.Generate(host, lines);
    forall k ensures k in r <==> k == KStr("/api/test") || k == KStr("/api/other") {
      assert AverageReport.TimesFor(host, lines, k) == SampleTimes(k);
    }
  }

  lemma SampleMeans()
    ensures AverageReport.Mean([0.1, 0.2]) == 0.15
    ensures AverageReport.Mean([0.3]) == 0.3
  {
    assert AverageReport.Sum([0.1, 0.2]) == 0.1 + (0.2 + AverageReport.Sum([]));
    assert AverageReport.Sum([0.3]) == 0.3 + AverageReport.Sum([]);
  }

  function SampleTimes(k: Key): seq<real>
  {
    if k == KStr("/api/test") then [0.1, 0.2]
    else if k == KStr("/api/other") then [0.3]
    else []
  }

  /** What each line of the sample log contributes. */
  const SampleSteps: seq<Option<AverageReport.Timing>> :=
    [Some(AverageReport.Timing(KStr("/api/test"), 0.1)), Some(AverageReport.Timing(KStr("/api/test"), 0.2)),
     Some(AverageReport.Timing(KStr("/api/other"), 0.3)), None, None, None, None, None, None]

  lemma SampleTimesOf(host: Host, k: Key)
    requires SampleHost(host)
    ensures AverageReport.TimesFor(host, Lines, k) == SampleTimes(k)
  {
    SampleStepsAll(host);
    TimesForPointwise(host, Lines, SampleSteps, k);
    SampleStepTimes(k);
  }

  lemma SampleStepsAll(host: Host)
    requires SampleHost(host)
    ensures |Lines| == |SampleSteps|
    ensures forall i :: 0 <= i < |Lines| ==> AverageReport.Step(host, Lines[i]) == SampleSteps[i]
  {
    forall i | 0 <= i < |Lines| ensures AverageReport.Step(host, Lines[i]) == SampleSteps[i] {
      StepAt(host, i);
    }
  }

  lemma SampleStepTimes(k: Key)
    ensures TimesOfSteps(SampleSteps, k) == SampleTimes(k)
  {
    var first, second := Some(AverageReport.Timing(KStr("/api/test"), 0.1)), Some(AverageReport.Timing(KStr("/api/test"), 0.2));
    var third, rest := Some(AverageReport.Timing(KStr("/api/other"), 0.3)), SampleSteps[3..];
    SampleStepsShape();
    NoTimes(rest, k);
    TimesOfStepsAppend([third], rest, k);
    TimesOfStepsAppend([second], [third] + rest, k);
    TimesOfStepsAppend([first], [second] + ([third] + rest), k);
    OneStep(first, k);
    OneStep(second, k);
    OneStep(third, k);
  }

  /** The sample's three timed lines come first; the other six contribute nothing. */
  lemma SampleStepsShape()
    ensures var rest := SampleSteps[3..];
            && (forall i :: 0 <= i < |rest| ==> rest[i].None?)
            && SampleSteps == [Some(AverageReport.Timing(KStr("/api/test"), 0.1))]
                            + ([Some(AverageReport.Timing(KStr("/api/test"), 0.2))]
                            + ([Some(AverageReport.Timing(KStr("/api/other"), 0.3))] + rest))
  {
    assert SampleSteps[3..] == [None, None, None, None, None, None];
  }

  lemma StepAt(host: Host, i: nat)
    requires SampleHost(host) && i < |Lines|
    ensures AverageReport.Safe(host, Lines[i])
    ensures i < |SampleSteps| && AverageReport.Step(host, Lines[i]) == SampleSteps[i]
  {
    var s := Lines;
    assert host.loads(s[i]) == Some(Records[i]);
    if i == 0 { TimedStep(host, s[i], "/api/test", "0.1", 0.1); }
    else if i == 1 { TimedStep(host, s[i], "/api/test", "0.2", 0.2); }
    else if i == 2 { TimedStep(host, s[i], "/api/other", "0.3", 0.3); }
    else if i == 3 { SingleStep(host, s[i], "status", "200"); }
    else if i == 4 { SingleStep(host, s[i], "status", "404"); }
    else if i == 5 { SingleStep(host, s[i], "status", "200"); }
    else if i == 6 { SingleStep(host, s[i], "http_user_agent", "Mozilla/5.0"); }
    else if i == 7 { SingleStep(host, s[i], "http_user_agent", "curl/7.0"); }
    else { SingleStep(host, s[i], "http_user_agent", "Mozilla/5.0"); }
  }

  /** A record with a URL and a time `float()` reads as `t` contributes `t` to that URL. */
  lemma TimedStep(host: Host, line: string, url: string, time: string, t: real)
    requires host.loads(line) == Some(Timed(url, time))
    requires url != "" && host.parseFloat(time) == Some(t)
    ensures AverageReport.Safe(host, line)
    ensures AverageReport.Step(host, line) == Some(AverageReport.Timing(KStr(url), t))
  {
    var obj := Timed(url, time);
    assert Field(obj, "url") == JStr(url);
    assert Field(obj, "response_time") == JStr(time);
  }

  /** A record with one text field other than `url` contributes nothing. */
  lemma SingleStep(host: Host, line: string, name: string, value: string)
    requires host.loads(line) == Some(Single(name, value))
    requires name != "url"
    ensures AverageReport.Safe(host, line)
    ensures AverageReport.Step(host, line).None?
  {
    assert "url" !in Single(name, value).fields;
  }

  // ---------------------------------------------------------------------
  // Response times of the average report, read off each line's contribution

  /** The entry of a URL with response times: their number and their mean. */
  lemma StatOf(host: Host, lines: seq<string>, k: Key)
    requires forall line :: line in lines ==> AverageReport.Safe(host, line)
    requires |AverageReport.TimesFor(host, lines, k)| > 0
    ensures k in AverageReport.Generate(host, lines)
    ensures AverageReport.Generate(host, lines)[k] == AverageReport.Stat(|AverageReport.TimesFor(host, lines, k)|, AverageReport.Mean(AverageReport.TimesFor(host, lines, k)))
  {
  }

  /** The response times for `k` among the contributions `ts`. */
  function TimesOfSteps(ts: seq<Option<AverageReport.Timing>>, k: Key): (r: seq<real>)
    ensures |r| <= |ts|
  {
    if ts == [] then []
    else (match ts[0] case Some(t) => if t.url == k then [t.time] else [] case None => [])
         + TimesOfSteps(ts[1..], k)
  }

  lemma {:induction false} TimesOfStepsAppend(a: seq<Option<AverageReport.Timing>>, b: seq<Option<AverageReport.Timing>>, k: Key)
    ensures TimesOfSteps(a + b, k) == TimesOfSteps(a, k) + TimesOfSteps(b, k)
    decreases |a|
  {
    if a == [] {
      assert a + b == b;
    } else {
      assert (a + b)[0] == a[0];
      assert (a + b)[1..] == a[1..] + b;
      TimesOfStepsAppend(a[1..], b, k);
    }
  }

  lemma OneStep(t: Option<AverageReport.Timing>, k: Key)
    ensures TimesOfSteps([t], k) == if t.Some? && t.value.url == k then [t.value.time] else []
  {
    assert [t][1..] == [];
  }

  lemma {:induction false} NoTimes(ts: seq<Option<AverageReport.Timing>>, k: Key)
    requires forall i :: 0 <= i < |ts| ==> ts[i].None?
    ensures TimesOfSteps(ts, k) == []
    decreases |ts|
  {
    if ts != [] {
      assert ts[0].None?;
      NoTimes(ts[1..], k);
    }
  }

  /** Lines that contribute `ts` have the response times `ts` holds. */
  lemma {:induction false} TimesForPointwise(host: Host, s: seq<string>, ts: seq<Option<AverageReport.Timing>>, k: Key)
    requires |s| == |ts|
    requires forall i :: 0 <= i < |s| ==> AverageReport.Step(host, s[i]) == ts[i]
    ensures AverageReport.TimesFor(host, s, k) == TimesOfSteps(ts, k)
    decreases |s|
  {
    if s != [] {
      assert AverageReport.Step(host, s[0]) == ts[0];
      forall i | 0 <= i < |s[1..]| ensures AverageReport.Step(host, s[1..][i]) == ts[1..][i] {
        assert AverageReport.Step(host, s[i + 1]) == ts[i + 1];
      }
      TimesForPointwise(host, s[1..], ts[1..], k);
    }
  }
}
