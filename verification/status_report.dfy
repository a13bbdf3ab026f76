/**
 * `reports/status_report.py`: how often each status code occurs. A line
 * counts when it decodes to a non-empty object whose `status` is not null;
 * the key is `str(status)`, so `200` and `"200"` are one key.
 */
module StatusReport {
  import opened Wrappers
  import opened JsonData
  import opened Python
  import opened LogParser
  import Counter

  /** The loop never raises on `line`: `obj.get` is reached only on an object. */
  predicate Safe(host: Host, line: string)
  {
    WellShaped(TryParseJson(host, line))
  }

  /** The key `line` adds one to, or `None` when the line is skipped. */
  function StatusKey(host: Host, line: string): (r: Option<string>)
    requires Safe(host, line)
    ensures var obj := TryParseJson(host, line);
            r.Some? <==> Truthy(obj) && !Field(obj, "status").JNull?
    ensures r.Some? ==> r.value == Str(host, Field(TryParseJson(host, line), "status"))
  {
    var obj := TryParseJson(host, line);
    if !Truthy(obj) then None
    else
      var code := Field(obj, "status");
      if code.JNull? then None else Some(Str(host, code))
  }

  /** `StatusKey` as the per-line step of the counting loop. The `else`
      branch is never taken under the precondition of `Generate`. */
  function KeyFn(host: Host): string -> Option<string>
  {
    line => if Safe(host, line) then StatusKey(host, line) else None
  }

  /** The status text of every counted line, in order. */
  function Statuses(host: Host, lines: seq<string>): seq<string>
  {
    Counter.KeysOf(KeyFn(host), lines)
  }

  /** `StatusReport().generate(lines)`. */
  function Generate(host: Host, lines: seq<string>): (r: map<string, nat>)
    requires forall line :: line in lines ==> Safe(host, line)
    ensures forall k :: k in r <==> k in Statuses(host, lines)
    ensures forall k :: k in r ==> r[k] == multiset(Statuses(host, lines))[k] >= 1
    ensures Counter.SumValues(r) == |Statuses(host, lines)|
  {
    var r := Counter.Tally(KeyFn(host), lines);
    Counter.TallyContents(KeyFn(host), lines);
    Counter.TallySum(KeyFn(host), lines);
    r
  }

  /** The counts do not depend on the order of the lines. */
  lemma OrderIndependent(host: Host, a: seq<string>, b: seq<string>)
    requires forall line :: line in a ==> Safe(host, line)
    requires multiset(a) == multiset(b)
    ensures forall line :: line in b ==> Safe(host, line)
    ensures Generate(host, a) == Generate(host, b)
  {
    assert forall line :: line in b ==> line in multiset(a);
    Counter.TallyPermutation(KeyFn(host), a, b);
  }

  /** An undecodable line, or one without a status, changes no count. */
  lemma IgnoresUncounted(host: Host, a: seq<string>, x: string, b: seq<string>)
    requires forall line :: line in a + [x] + b ==> Safe(host, line)
    requires var obj := TryParseJson(host, x); !Truthy(obj) || (obj.JObj? && Field(obj, "status").JNull?)
    ensures forall line :: line in a + b ==> Safe(host, line)
    ensures Generate(host, a + [x] + b) == Generate(host, a + b)
  {
    assert x in a + [x] + b;
    assert forall line :: line in a + b ==> line in a + [x] + b;
    Counter.TallySkips(KeyFn(host), a, x, b);
  }

  /** A status that is present but falsy (`0`, `""`, `false`) is still counted. */
  lemma FalsyStatusCounted(host: Host, line: string, code: Json)
    requires host.loads(line) == Some(JObj(map["status" := code]))
    requires code == JInt(0) || code == JStr("") || code == JBool(false)
    ensures Generate(host, [line]) == map[Str(host, code) := 1]
  {
    StatusOf(host, line, code);
    OneCounted(host, line, Str(host, code));
  }

  /** A single line that adds to `k` gives `{k: 1}`. */
  lemma OneCounted(host: Host, line: string, k: string)
    requires KeyFn(host)(line) == Some(k)
    ensures Counter.Tally(KeyFn(host), [line]) == map[k := 1]
  {
    var f := KeyFn(host);
    Counter.KeysOfPointwise(f, [line], [Some(k)]);
    assert Counter.Present([Some(k)]) == [k] by { assert [Some(k)][1..] == []; }
    assert multiset([k])[k] == 1;
    Counter.TallyFromKeys(f, [line], map[k := 1]);
  }

  /** `200` and `"200"` are counted under one key. */
  lemma NumberAndTextShareKey(host: Host, l1: string, l2: string)
    requires host.loads(l1) == Some(JObj(map["status" := JInt(200)]))
    requires host.loads(l2) == Some(JObj(map["status" := JStr("200")]))
    ensures Generate(host, [l1, l2]) == map["200" := 2]
  {
    PairStatuses(host, l1, l2);
    var ks := ["200", "200"];
    assert multiset(ks)["200"] == 2;
    Counter.TallyFromKeys(KeyFn(host), [l1, l2], map["200" := 2]);
  }

  lemma PairStatuses(host: Host, l1: string, l2: string)
    requires host.loads(l1) == Some(JObj(map["status" := JInt(200)]))
    requires host.loads(l2) == Some(JObj(map["status" := JStr("200")]))
    ensures Statuses(host, [l1, l2]) == ["200", "200"]
  {
    StatusOf(host, l1, JInt(200));
    StatusOf(host, l2, JStr("200"));
    assert Str(host, JInt(200)) == "200" by { assert IntText(200) == "200"; }
    Counter.KeysOfPointwise(KeyFn(host), [l1, l2], [Some("200"), Some("200")]);
    assert Counter.Present([Some("200"), Some("200")]) == ["200", "200"];
  }

  /** A record holding only a non-null status is counted under `str(status)`. */
  lemma StatusOf(host: Host, line: string, code: Json)
    requires host.loads(line) == Some(JObj(map["status" := code]))
    requires !code.JNull?
    ensures KeyFn(host)(line) == Some(Str(host, code))
  {
    assert Field(JObj(map["status" := code]), "status") == code;
  }
}
