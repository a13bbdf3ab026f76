/**
 * `reports/average_report.py`: per URL, how many requests there were and
 * their mean response time. A line contributes when it decodes to a
 * non-empty object with a truthy `url` and a non-null `response_time` that
 * `float()` accepts.
 */
module AverageReport {
  import opened Wrappers
  import opened JsonData
  import opened Python
  import opened LogParser

  /** One contributing line: its URL as a `dict` key and its response time. */
  datatype Timing = Timing(url: Key, time: real)

  /** The per-URL accumulator, `{"count": 0, "total_time": 0.0}` when fresh. */
  datatype Acc = Acc(count: nat, total: real)

  /** One row of the result: `{"count": ..., "avg_time": ...}`. */
  datatype Stat = Stat(count: nat, avgTime: real)

  /** The loop never raises anything but the `ValueError` it catches:
      `obj.get` is reached only on an object, `float(rt)` raises neither
      `TypeError` nor `OverflowError`, and a URL whose time converts can
      be used as a key. */
  predicate Safe(host: Host, line: string)
  {
    var obj := TryParseJson(host, line);
    && WellShaped(obj)
    && (Truthy(obj) ==>
          var url, rt := Field(obj, "url"), Field(obj, "response_time");
          Truthy(url) && !rt.JNull? ==>
            Floatable(rt) && (ToFloat(host, rt).Some? ==> Hashable(url)))
  }

  /** What `line` adds to the statistics, or `None` when the loop skips it. */
  function Contribution(host: Host, line: string): (r: Option<Timing>)
    requires Safe(host, line)
    ensures var obj := TryParseJson(host, line);
            r.Some? <==>
              && Truthy(obj)
              && Truthy(Field(obj, "url"))
              && !Field(obj, "response_time").JNull?
              && ToFloat(host, Field(obj, "response_time")).Some?
    ensures var obj := TryParseJson(host, line);
            r.Some? ==>
              && r.value.time == ToFloat(host, Field(obj, "response_time")).value
              && (Field(obj, "url").JStr? ==> r.value.url == KStr(Field(obj, "url").s))
  {
    var obj := TryParseJson(host, line);
    if !Truthy(obj) then None
    else
      var url, rt := Field(obj, "url"), Field(obj, "response_time");
      if !Truthy(url) || rt.JNull? then None
      else match ToFloat(host, rt)
        case None => None
        case Some(time) => Some(Timing(HashKey(url), time))
  }

  /** `Contribution` as the loop body. The `else` branch is never taken under
      the precondition of `Generate`. */
  function Step(host: Host, line: string): Option<Timing>
  {
    if Safe(host, line) then Contribution(host, line) else None
  }

  // ---------------------------------------------------------------------
  // The accumulation loop

  /** `stats[url]["count"] += 1; stats[url]["total_time"] += rt` on a
      `defaultdict` that creates the entry on first use. */
  function Add(m: map<Key, Acc>, t: Timing): (r: map<Key, Acc>)
    ensures r.Keys == m.Keys + {t.url}
    ensures t.url !in m ==> r[t.url] == Acc(1, t.time)
    ensures t.url in m ==> r[t.url] == Acc(m[t.url].count + 1, m[t.url].total + t.time)
    ensures forall k :: k in m && k != t.url ==> r[k] == m[k]
  {
    var a := if t.url in m then m[t.url] else Acc(0, 0.0);
    m[t.url := Acc(a.count + 1, a.total + t.time)]
  }

  /** `stats` after the loop has consumed `lines`. */
  function Accumulate(host: Host, lines: seq<string>): (r: map<Key, Acc>)
    ensures forall k :: k in r ==> r[k].count >= 1
    decreases |lines|
  {
    if lines == [] then map[]
    else
      var m := Accumulate(host, lines[..|lines| - 1]);
      match Step(host, lines[|lines| - 1])
      case None => m
      case Some(t) => Add(m, t)
  }

  /** `AverageReport().generate(lines)`: every accumulated URL with its count
      and `total_time / count`. */
  function Generate(host: Host, lines: seq<string>): (r: map<Key, Stat>)
    requires forall line :: line in lines ==> Safe(host, line)
    ensures forall k :: k in r <==> |TimesFor(host, lines, k)| > 0
    ensures forall k :: k in r ==>
              && r[k].count == |TimesFor(host, lines, k)| >= 1
              && r[k].avgTime == Mean(TimesFor(host, lines, k))
  {
    var acc := Accumulate(host, lines);
    AccumulateSpec(host, lines);
    map k | k in acc :: Stat(acc[k].count, acc[k].total / acc[k].count as real)
  }

  // ---------------------------------------------------------------------
  // Reference definition: the response times of one URL

  /** The response times of the lines that contribute to `k`, in order. */
  function TimesFor(host: Host, lines: seq<string>, k: Key): seq<real>
  {
    if lines == [] then [] else TimeOf(host, lines[0], k) + TimesFor(host, lines[1..], k)
  }

  function TimeOf(host: Host, line: string, k: Key): seq<real>
  {
    match Step(host, line)
    case Some(t) => if t.url == k then [t.time] else []
    case None => []
  }

  function Sum(xs: seq<real>): real
  {
    if xs == [] then 0.0 else xs[0] + Sum(xs[1..])
  }

  function Mean(xs: seq<real>): real
    requires |xs| > 0
  {
    Sum(xs) / |xs| as real
  }

  lemma {:induction false} TimesForAppend(host: Host, a: seq<string>, b: seq<string>, k: Key)
    ensures TimesFor(host, a + b, k) == TimesFor(host, a, k) + TimesFor(host, b, k)
  {
    if a == [] {
      assert a + b == b;
    } else {
      assert (a + b)[1..] == a[1..] + b;
      TimesForAppend(host, a[1..], b, k);
    }
  }

  lemma {:induction false} SumAppend(a: seq<real>, b: seq<real>)
    ensures Sum(a + b) == Sum(a) + Sum(b)
  {
    if a == [] {
      assert a + b == b;
    } else {
      assert (a + b)[1..] == a[1..] + b;
      SumAppend(a[1..], b);
    }
  }

  lemma TimesForSingle(host: Host, x: string, k: Key)
    ensures TimesFor(host, [x], k) == TimeOf(host, x, k)
  {
    assert [x][1..] == [];
  }

  /** The accumulator of `k` holds the number and the sum of `k`'s response times. */
  lemma {:induction false} AccumulateAt(host: Host, lines: seq<string>, k: Key)
    ensures k in Accumulate(host, lines) <==> |TimesFor(host, lines, k)| > 0
    ensures k in Accumulate(host, lines) ==>
              Accumulate(host, lines)[k] == Acc(|TimesFor(host, lines, k)|, Sum(TimesFor(host, lines, k)))
    decreases |lines|
  {
    if lines != [] {
      var p, x := lines[..|lines| - 1], lines[|lines| - 1];
      assert lines == p + [x];
      AccumulateAt(host, p, k);
      TimesForAppend(host, p, [x], k);
      TimesForSingle(host, x, k);
      var tp, tx := TimesFor(host, p, k), TimeOf(host, x, k);
      SumAppend(tp, tx);
      assert TimesFor(host, lines, k) == tp + tx;
      if tx != [] {
        assert Sum(tx) == tx[0] + Sum([]);
      }
    }
  }

  lemma AccumulateSpec(host: Host, lines: seq<string>)
    ensures forall k :: k in Accumulate(host, lines) <==> |TimesFor(host, lines, k)| > 0
    ensures forall k :: k in Accumulate(host, lines) ==>
              Accumulate(host, lines)[k] == Acc(|TimesFor(host, lines, k)|, Sum(TimesFor(host, lines, k)))
  {
    var acc := Accumulate(host, lines);
    forall k
      ensures k in acc <==> |TimesFor(host, lines, k)| > 0
    {
      AccumulateAt(host, lines, k);
    }
    forall k | k in acc
      ensures acc[k] == Acc(|TimesFor(host, lines, k)|, Sum(TimesFor(host, lines, k)))
    {
      AccumulateAt(host, lines, k);
    }
  }

  /** A URL has response times exactly when some line contributes to it. */
  lemma TimesForNonEmpty(host: Host, lines: seq<string>, k: Key)
    ensures |TimesFor(host, lines, k)| > 0 <==>
              exists i :: 0 <= i < |lines| && Step(host, lines[i]).Some? && Step(host, lines[i]).value.url == k
  {
    if |TimesFor(host, lines, k)| > 0 {
      var i := TimesForWitness(host, lines, k);
    }
    if exists i :: 0 <= i < |lines| && Step(host, lines[i]).Some? && Step(host, lines[i]).value.url == k {
      var i :| 0 <= i < |lines| && Step(host, lines[i]).Some? && Step(host, lines[i]).value.url == k;
      TimesForHas(host, lines, k, i);
    }
  }

  /** A line contributing to `k` gives `k` a response time. */
  lemma {:induction false} TimesForHas(host: Host, lines: seq<string>, k: Key, i: nat)
    requires i < |lines| && Step(host, lines[i]).Some? && Step(host, lines[i]).value.url == k
    ensures |TimesFor(host, lines, k)| > 0
    decreases i
  {
    if i == 0 {
      assert |TimeOf(host, lines[0], k)| == 1;
    } else {
      assert lines[1..][i - 1] == lines[i];
      TimesForHas(host, lines[1..], k, i - 1);
    }
  }

  /** A response time of `k` comes from a line contributing to `k`. */
  lemma {:induction false} TimesForWitness(host: Host, lines: seq<string>, k: Key) returns (i: nat)
    requires |TimesFor(host, lines, k)| > 0
    ensures i < |lines| && Step(host, lines[i]).Some? && Step(host, lines[i]).value.url == k
    decreases |lines|
  {
    if Step(host, lines[0]).Some? && Step(host, lines[0]).value.url == k {
      i := 0;
    } else {
      assert TimeOf(host, lines[0], k) == [];
      var j := TimesForWitness(host, lines[1..], k);
      i := j + 1;
      assert lines[i] == lines[1..][j];
    }
  }

  // ---------------------------------------------------------------------
  // Properties

  /** The report's URLs are exactly those of the contributing lines. */
  lemma KeysAreContributingUrls(host: Host, lines: seq<string>)
    requires forall line :: line in lines ==> Safe(host, line)
    ensures forall k :: k in Generate(host, lines) <==>
              exists i :: 0 <= i < |lines| && Step(host, lines[i]).Some? && Step(host, lines[i]).value.url == k
  {
    forall k
      ensures k in Generate(host, lines) <==>
                exists i :: 0 <= i < |lines| && Step(host, lines[i]).Some? && Step(host, lines[i]).value.url == k
    {
      TimesForNonEmpty(host, lines, k);
    }
  }

  /** Two logs give the same report when every URL has the same response times in both. */
  lemma GenerateDeterminedByTimes(host: Host, a: seq<string>, b: seq<string>)
    requires forall line :: line in a ==> Safe(host, line)
    requires forall line :: line in b ==> Safe(host, line)
    requires forall k :: TimesFor(host, a, k) == TimesFor(host, b, k)
    ensures Generate(host, a) == Generate(host, b)
  {
    var ra, rb := Generate(host, a), Generate(host, b);
    forall k
      ensures k in ra <==> k in rb
    {
      assert TimesFor(host, a, k) == TimesFor(host, b, k);
    }
    forall k | k in ra
      ensures ra[k] == rb[k]
    {
      assert TimesFor(host, a, k) == TimesFor(host, b, k);
    }
    assert ra.Keys == rb.Keys;
  }

  /** A line that does not contribute (undecodable, falsy, no URL, null time,
      or a time `float()` rejects) leaves the report as it was. */
  lemma IgnoresNonContributing(host: Host, a: seq<string>, x: string, b: seq<string>)
    requires forall line :: line in a + [x] + b ==> Safe(host, line)
    requires Contribution(host, x).None?
    ensures forall line :: line in a + b ==> Safe(host, line)
    ensures Generate(host, a + [x] + b) == Generate(host, a + b)
  {
    assert x in a + [x] + b;
    assert forall line :: line in a + b ==> line in a + [x] + b;
    forall k
      ensures TimesFor(host, a + [x] + b, k) == TimesFor(host, a + b, k)
    {
      TimesForAppend(host, a + [x], b, k);
      TimesForAppend(host, a, [x], k);
      TimesForSingle(host, x, k);
      TimesForAppend(host, a, b, k);
    }
    GenerateDeterminedByTimes(host, a + [x] + b, a + b);
  }

  /** A response time `float()` rejects gives its URL no entry. */
  lemma UnparsableTimeSkipped(host: Host, line: string, url: string, time: string)
    requires host.loads(line) == Some(JObj(map["url" := JStr(url), "response_time" := JStr(time)]))
    requires host.parseFloat(time).None?
    ensures Generate(host, [line]) == map[]
  {
    assert Step(host, line).None?;
    var r := Generate(host, [line]);
    forall k ensures k !in r {
      TimesForSingle(host, line, k);
    }
    assert r.Keys == {};
  }

  /** An integer time too large for a double makes `float()` raise
      `OverflowError`, which the loop does not catch: such a line is outside
      the precondition of `Generate`. */
  lemma OverflowingTimeExcluded(host: Host, line: string, url: string, i: int)
    requires host.loads(line) == Some(JObj(map["url" := JStr(url), "response_time" := JInt(i)]))
    requires url != "" && (i >= FloatOverflow || -i >= FloatOverflow)
    ensures !Safe(host, line)
  {
    var obj := JObj(map["url" := JStr(url), "response_time" := JInt(i)]);
    assert Field(obj, "url") == JStr(url);
    assert Field(obj, "response_time") == JInt(i);
  }

  /** A falsy but present response time (`0`) is still counted. */
  lemma ZeroTimeCounted(host: Host, line: string, url: string)
    requires host.loads(line) == Some(JObj(map["url" := JStr(url), "response_time" := JInt(0)]))
    requires url != ""
    ensures Generate(host, [line]) == map[KStr(url) := Stat(1, 0.0)]
  {
    FloatOverflowPositive();
    var k := KStr(url);
    assert Step(host, line) == Some(Timing(k, 0.0));
    var r := Generate(host, [line]);
    forall j ensures j in r <==> j == k {
      TimesForSingle(host, line, j);
    }
    TimesForSingle(host, line, k);
    assert Sum([0.0]) == 0.0 + Sum([]);
    assert r.Keys == {k};
  }
}
