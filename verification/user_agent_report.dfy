/**
 * `reports/user_agent_report.py`: how often each user agent occurs. A line
 * counts when it decodes to a non-empty object whose `http_user_agent` is
 * truthy; the key is the value itself, unchanged.
 */
module UserAgentReport {
  import opened Wrappers
  import opened JsonData
  import opened Python
  import opened LogParser
  import Counter

  /** The loop never raises on `line`: `obj.get` is reached only on an
      object, and a truthy user agent can be used as a `dict` key. An empty
      list or object as the agent is skipped before it is used as a key. */
  predicate Safe(host: Host, line: string)
  {
    var obj := TryParseJson(host, line);
    && WellShaped(obj)
    && (Truthy(obj) ==> var ua := Field(obj, "http_user_agent"); Truthy(ua) ==> Hashable(ua))
  }

  /** The key `line` adds one to, or `None` when the line is skipped. */
  function AgentKey(host: Host, line: string): (r: Option<Key>)
    requires Safe(host, line)
    ensures var obj := TryParseJson(host, line);
            r.Some? <==> Truthy(obj) && Truthy(Field(obj, "http_user_agent"))
    ensures var obj := TryParseJson(host, line);
            r.Some? && Field(obj, "http_user_agent").JStr? ==> r.value == KStr(Field(obj, "http_user_agent").s)
  {
    var obj := TryParseJson(host, line);
    if !Truthy(obj) then None
    else
      var ua := Field(obj, "http_user_agent");
      if Truthy(ua) then Some(HashKey(ua)) else None
  }

  /** `AgentKey` as the per-line step of the counting loop. The `else`
      branch is never taken under the precondition of `Generate`. */
  function KeyFn(host: Host): string -> Option<Key>
  {
    line => if Safe(host, line) then AgentKey(host, line) else None
  }

  /** The user agent of every counted line, in order. */
  function Agents(host: Host, lines: seq<string>): seq<Key>
  {
    Counter.KeysOf(KeyFn(host), lines)
  }

  /** `UserAgentReport().generate(lines)`. */
  function Generate(host: Host, lines: seq<string>): (r: map<Key, nat>)
    requires forall line :: line in lines ==> Safe(host, line)
    ensures forall k :: k in r <==> k in Agents(host, lines)
    ensures forall k :: k in r ==> r[k] == multiset(Agents(host, lines))[k] >= 1
    ensures Counter.SumValues(r) == |Agents(host, lines)|
  {
    var r := Counter.Tally(KeyFn(host), lines);
    Counter.TallyContents(KeyFn(host), lines);
    Counter.TallySum(KeyFn(host), lines);
    r
  }

  /** The counts do not depend on the order of the lines. */
  lemma OrderIndependent(host: Host, a: seq<string>, b: seq<string>)
    requires forall line :: line in a ==> Safe(host, line)
    requires multiset(a) == multiset(b)
    ensures forall line :: line in b ==> Safe(host, line)
    ensures Generate(host, a) == Generate(host, b)
  {
    assert forall line :: line in b ==> line in multiset(a);
    Counter.TallyPermutation(KeyFn(host), a, b);
  }

  /** An undecodable line, or one whose user agent is absent, null or empty,
      changes no count. */
  lemma IgnoresUncounted(host: Host, a: seq<string>, x: string, b: seq<string>)
    requires forall line :: line in a + [x] + b ==> Safe(host, line)
    requires var obj := TryParseJson(host, x); !Truthy(obj) || (obj.JObj? && !Truthy(Field(obj, "http_user_agent")))
    ensures forall line :: line in a + b ==> Safe(host, line)
    ensures Generate(host, a + [x] + b) == Generate(host, a + b)
  {
    assert x in a + [x] + b;
    assert forall line :: line in a + b ==> line in a + [x] + b;
    Counter.TallySkips(KeyFn(host), a, x, b);
  }

  /** A non-empty agent and an empty one give `{"Mozilla": 1}`. */
  lemma EmptyAgentExcluded(host: Host, l1: string, l2: string)
    requires host.loads(l1) == Some(JObj(map["http_user_agent" := JStr("Mozilla")]))
    requires host.loads(l2) == Some(JObj(map["http_user_agent" := JStr("")]))
    ensures Generate(host, [l1, l2]) == map[KStr("Mozilla") := 1]
  {
    assert KeyFn(host)(l1) == Some(KStr("Mozilla"));
    assert KeyFn(host)(l2) == None;
    PairAgents(host, l1, l2, [Some(KStr("Mozilla")), None], [KStr("Mozilla")]);
    Counter.TallyFromKeys(KeyFn(host), [l1, l2], map[KStr("Mozilla") := 1]);
  }

  /** An empty list or object as the agent is falsy: the line is skipped
      without raising. */
  lemma EmptyContainerAgentSkipped(host: Host, line: string, ua: Json)
    requires host.loads(line) == Some(JObj(map["http_user_agent" := ua]))
    requires ua == JArr([]) || ua == JObj(map[])
    ensures Safe(host, line) && KeyFn(host)(line).None?
    ensures Generate(host, [line]) == map[]
  {
    assert KeyFn(host)(line).None?;
    var ks: seq<Option<Key>> := [None];
    Counter.KeysOfPointwise(KeyFn(host), [line], ks);
    assert Counter.Present(ks) == [] by { assert ks[1..] == []; }
    assert Generate(host, [line]).Keys == {};
  }

  /** Agents that differ in any character are counted apart. */
  lemma DistinctAgentsApart(host: Host, l1: string, l2: string, a1: string, a2: string)
    requires host.loads(l1) == Some(JObj(map["http_user_agent" := JStr(a1)]))
    requires host.loads(l2) == Some(JObj(map["http_user_agent" := JStr(a2)]))
    requires a1 != "" && a2 != "" && a1 != a2
    ensures Generate(host, [l1, l2]) == map[KStr(a1) := 1, KStr(a2) := 1]
  {
    var ks := [KStr(a1), KStr(a2)];
    assert KeyFn(host)(l1) == Some(KStr(a1));
    assert KeyFn(host)(l2) == Some(KStr(a2));
    PairAgents(host, l1, l2, [Some(KStr(a1)), Some(KStr(a2))], ks);
    assert multiset(ks)[KStr(a1)] == 1 && multiset(ks)[KStr(a2)] == 1;
    Counter.TallyFromKeys(KeyFn(host), [l1, l2], map[KStr(a1) := 1, KStr(a2) := 1]);
  }

  /** The agents of two lines, given what each line adds to. */
  lemma PairAgents(host: Host, l1: string, l2: string, ks: seq<Option<Key>>, agents: seq<Key>)
    requires |ks| == 2 && KeyFn(host)(l1) == ks[0] && KeyFn(host)(l2) == ks[1]
    requires Counter.Present(ks) == agents
    ensures Agents(host, [l1, l2]) == agents
  {
    Counter.KeysOfPointwise(KeyFn(host), [l1, l2], ks);
  }
}
