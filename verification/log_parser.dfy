/**
 * `utils/log_parser.py`: the best-effort JSON decode every report shares,
 * and the loader that concatenates the log files, drops blank lines and
 * applies the optional date filter.
 */
module LogParser {
  import opened Wrappers
  import opened JsonData
  import opened Python

  /** `_try_parse_json(line)`: never raises. A decode failure and the JSON
      document `null` both come back as `None`. */
  function TryParseJson(host: Host, line: string): (r: Json)
    ensures r.JNull? <==> host.loads(line).None? || host.loads(line) == Some(JNull)
    ensures !r.JNull? ==> host.loads(line) == Some(r)
  {
    match host.loads(line)
    case None => JNull
    case Some(v) => v
  }

  // ---------------------------------------------------------------------
  // The date filter

  /** `if filter_date:` — `None` and the empty string both switch the filter off. */
  predicate FilterActive(filter: Option<string>)
  {
    filter.Some? && filter.value != ""
  }

  /** The filter is off exactly for `None` and `""`. */
  lemma FilterOff(filter: Option<string>)
    ensures !FilterActive(filter) <==> filter == None || filter == Some("")
  {
  }

  /** What the filter asks of a non-blank line: it decodes, and unless the
      record is falsy or its timestamp is, the timestamp's date part is `date`. */
  predicate MatchesDate(host: Host, date: string, line: string)
  {
    var obj := TryParseJson(host, line);
    && !obj.JNull?
    && (Truthy(obj) ==>
          obj.JObj? &&
          var ts := Field(obj, "@timestamp");
          Truthy(ts) ==> ts.JStr? && DatePart(ts.s) == date)
  }

  /** Whether the loader yields `line`. */
  predicate Keep(host: Host, filter: Option<string>, line: string)
  {
    && !IsBlank(line)
    && (FilterActive(filter) ==> MatchesDate(host, filter.value, line))
  }

  /** The filter never raises on `line`: a truthy decoded value is an object
      (it has `get`), and a truthy timestamp is a string (it has `split`). */
  predicate LineSafe(host: Host, filter: Option<string>, line: string)
  {
    FilterActive(filter) && !IsBlank(line) ==>
      var obj := TryParseJson(host, line);
      && WellShaped(obj)
      && (Truthy(obj) ==> var ts := Field(obj, "@timestamp"); Truthy(ts) ==> ts.JStr?)
  }

  ghost predicate InputSafe(host: Host, files: seq<seq<string>>, filter: Option<string>)
  {
    forall f, line :: f in files && line in f ==> LineSafe(host, filter, line)
  }

  // ---------------------------------------------------------------------
  // Reference definition of the loader's output

  /** The lines of the files, file after file. */
  function Concat(files: seq<seq<string>>): (r: seq<string>)
    ensures forall f, line :: f in files && line in f ==> line in r
    ensures forall line :: line in r ==> exists f :: f in files && line in f
  {
    if files == [] then [] else files[0] + Concat(files[1..])
  }

  /** The lines of `lines` the loader keeps, in their order. */
  function KeepLines(host: Host, filter: Option<string>, lines: seq<string>): (r: seq<string>)
    ensures |r| <= |lines|
    ensures forall line :: line in r <==> line in lines && Keep(host, filter, line)
  {
    if lines == [] then []
    else (if Keep(host, filter, lines[0]) then [lines[0]] else []) + KeepLines(host, filter, lines[1..])
  }

  /** What `load_lines(files, filter_date)` yields. */
  function Loaded(host: Host, files: seq<seq<string>>, filter: Option<string>): seq<string>
  {
    KeepLines(host, filter, Concat(files))
  }

  // ---------------------------------------------------------------------
  // Helper facts

  lemma {:induction false} ConcatSnoc(files: seq<seq<string>>, f: seq<string>)
    ensures Concat(files + [f]) == Concat(files) + f
    decreases |files|
  {
    if files == [] {
      assert [f][1..] == [];
    } else {
      assert (files + [f])[1..] == files[1..] + [f];
      ConcatSnoc(files[1..], f);
    }
  }

  lemma {:induction false} KeepLinesAppend(host: Host, filter: Option<string>, a: seq<string>, b: seq<string>)
    ensures KeepLines(host, filter, a + b) == KeepLines(host, filter, a) + KeepLines(host, filter, b)
    decreases |a|
  {
    if a == [] {
      assert a + b == b;
    } else {
      assert (a + b)[1..] == a[1..] + b;
      KeepLinesAppend(host, filter, a[1..], b);
    }
  }

  // ---------------------------------------------------------------------
  // The generator

  /** The body of the generator's inner loop: whether `line` is yielded. */
  method Emits(host: Host, filter: Option<string>, line: string) returns (emit: bool)
    requires LineSafe(host, filter, line)
    ensures emit == Keep(host, filter, line)
  {
    emit := true;
    StripEmptyIffBlank(line);
    if Strip(line) == [] {
      emit := false;
    } else if FilterActive(filter) {
      var obj := TryParseJson(host, line);
      if obj.JNull? {
        emit := false;
      } else if Truthy(obj) {
        var ts := Field(obj, "@timestamp");
        if Truthy(ts) && DatePart(ts.s) != filter.value {
          emit := false;
        }
      }
    }
  }

  /** The inner loop of `load_lines`: the lines one file contributes. */
  method LoadFile(host: Host, filter: Option<string>, lines: seq<string>) returns (out: seq<string>)
    requires forall line :: line in lines ==> LineSafe(host, filter, line)
    ensures out == KeepLines(host, filter, lines)
  {
    out := [];
    var j := 0;
    while j < |lines|
      invariant 0 <= j <= |lines|
      invariant out == KeepLines(host, filter, lines[..j])
    {
      var line := lines[j];
      var emit := Emits(host, filter, line);
      if emit {
        out := out + [line];
      }
      assert lines[..j + 1] == lines[..j] + [line];
      KeepLinesAppend(host, filter, lines[..j], [line]);
      j := j + 1;
    }
    assert lines[..j] == lines;
  }

  /** `load_lines(files, filter_date)`, drained into a list. */
  method LoadLines(host: Host, files: seq<seq<string>>, filter: Option<string>) returns (out: seq<string>)
    requires InputSafe(host, files, filter)
    ensures out == Loaded(host, files, filter)
  {
    out := [];
    var i := 0;
    while i < |files|
      invariant 0 <= i <= |files|
      invariant out == KeepLines(host, filter, Concat(files[..i]))
    {
      var lines := files[i];
      assert lines in files;
      var more := LoadFile(host, filter, lines);
      out := out + more;
      assert files[..i + 1] == files[..i] + [lines];
      ConcatSnoc(files[..i], lines);
      KeepLinesAppend(host, filter, Concat(files[..i]), lines);
      i := i + 1;
    }
    assert files[..i] == files;
  }

  // ---------------------------------------------------------------------
  // Properties of the loader

  lemma {:induction false} KeepLinesIsSubsequence(host: Host, filter: Option<string>, lines: seq<string>)
    ensures IsSubsequence(KeepLines(host, filter, lines), lines)
    decreases |lines|
  {
    if lines != [] {
      var rest := KeepLines(host, filter, lines[1..]);
      KeepLinesIsSubsequence(host, filter, lines[1..]);
      if Keep(host, filter, lines[0]) {
        var r := [lines[0]] + rest;
        assert r[0] == lines[0] && r[1..] == rest;
      } else {
        assert KeepLines(host, filter, lines) == rest;
      }
    }
  }

  /** `a` is `b` with some elements left out, the rest in their order and unchanged. */
  ghost predicate IsSubsequence<T>(a: seq<T>, b: seq<T>)
    decreases |b|
  {
    if a == [] then true
    else if b == [] then false
    else (a[0] == b[0] && IsSubsequence(a[1..], b[1..])) || IsSubsequence(a, b[1..])
  }

  /** The output is the files' lines, file by file and line by line, with some left
      out; a line appears iff it is one of the files' lines and the loader keeps it. */
  lemma LoadedIsOrderedSelection(host: Host, files: seq<seq<string>>, filter: Option<string>)
    ensures IsSubsequence(Loaded(host, files, filter), Concat(files))
    ensures forall line :: line in Loaded(host, files, filter)
                       <==> line in Concat(files) && Keep(host, filter, line)
  {
    KeepLinesIsSubsequence(host, filter, Concat(files));
  }

  /** A blank line is never yielded, whatever the filter. */
  lemma LoadedHasNoBlankLines(host: Host, files: seq<seq<string>>, filter: Option<string>)
    ensures forall line :: line in Loaded(host, files, filter) ==> !IsBlank(line)
  {
  }

  /** Without a filter every non-blank line is yielded, decodable or not,
      as often as it occurs in the files. */
  lemma UnfilteredKeepsNonBlank(host: Host, files: seq<seq<string>>, filter: Option<string>)
    requires !FilterActive(filter)
    ensures forall line :: line in Loaded(host, files, filter) <==> line in Concat(files) && !IsBlank(line)
    ensures forall line :: multiset(Loaded(host, files, filter))[line]
                        == if IsBlank(line) then 0 else multiset(Concat(files))[line]
  {
    KeepLinesCounts(host, filter, Concat(files));
  }

  /** Each kept line appears as often as in the input; every other line not at all. */
  lemma {:induction false} KeepLinesCounts(host: Host, filter: Option<string>, lines: seq<string>)
    ensures forall line :: multiset(KeepLines(host, filter, lines))[line]
                        == if Keep(host, filter, line) then multiset(lines)[line] else 0
    decreases |lines|
  {
    if lines != [] {
      KeepLinesCounts(host, filter, lines[1..]);
      assert lines == [lines[0]] + lines[1..];
    }
  }

  /** How the filter treats one non-blank line. */
  lemma FilterRules(host: Host, date: string, line: string)
    requires date != "" && !IsBlank(line)
    ensures TryParseJson(host, line).JNull? ==> !Keep(host, Some(date), line)
    ensures var obj := TryParseJson(host, line);
            !obj.JNull? && !Truthy(obj) ==> Keep(host, Some(date), line)
    ensures var obj := TryParseJson(host, line);
            obj.JObj? && Truthy(obj) && !Truthy(Field(obj, "@timestamp")) ==> Keep(host, Some(date), line)
    ensures var obj := TryParseJson(host, line);
            obj.JObj? && Truthy(obj) && Field(obj, "@timestamp").JStr? && Truthy(Field(obj, "@timestamp")) ==>
              (Keep(host, Some(date), line) <==> DatePart(Field(obj, "@timestamp").s) == date)
  {
  }

  lemma {:induction false} KeepLinesIdempotent(host: Host, filter: Option<string>, lines: seq<string>)
    ensures KeepLines(host, filter, KeepLines(host, filter, lines)) == KeepLines(host, filter, lines)
    decreases |lines|
  {
    if lines != [] {
      var rest := KeepLines(host, filter, lines[1..]);
      KeepLinesIdempotent(host, filter, lines[1..]);
      if Keep(host, filter, lines[0]) {
        var r := [lines[0]] + rest;
        assert r[0] == lines[0] && r[1..] == rest;
        assert KeepLines(host, filter, r) == [lines[0]] + KeepLines(host, filter, rest);
        assert KeepLines(host, filter, lines) == r;
      } else {
        assert KeepLines(host, filter, lines) == rest;
      }
    }
  }

  /** Loading the loader's output again, with the same filter, changes nothing. */
  lemma LoadIdempotent(host: Host, files: seq<seq<string>>, filter: Option<string>)
    requires InputSafe(host, files, filter)
    ensures InputSafe(host, [Loaded(host, files, filter)], filter)
    ensures Loaded(host, [Loaded(host, files, filter)], filter) == Loaded(host, files, filter)
  {
    var out := Loaded(host, files, filter);
    assert [out][1..] == [];
    assert Concat([out]) == out;
    assert [Concat(files)][1..] == [];
    KeepLinesIdempotent(host, filter, Concat(files));
  }

  /** Under a filter, a non-blank line whose record is stamped `day + "T" + clock`
      is kept iff `day` is the filter's date. */
  lemma KeepStamped(host: Host, date: string, line: string, day: string, clock: string)
    requires date != "" && !IsBlank(line) && 'T' !in day
    requires TryParseJson(host, line).JObj? && Truthy(TryParseJson(host, line))
    requires Field(TryParseJson(host, line), "@timestamp") == JStr(day + "T" + clock)
    ensures Keep(host, Some(date), line) <==> day == date
  {
    DatePartBeforeSeparator(day, clock);
  }

  lemma {:induction false} KeepLinesAll(host: Host, filter: Option<string>, lines: seq<string>)
    requires forall line :: line in lines ==> Keep(host, filter, line)
    ensures KeepLines(host, filter, lines) == lines
    decreases |lines|
  {
    if lines != [] {
      assert lines[0] in lines;
      assert forall line :: line in lines[1..] ==> line in lines;
      KeepLinesAll(host, filter, lines[1..]);
      assert lines == [lines[0]] + lines[1..];
    }
  }
}
