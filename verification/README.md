# Log reports: a Dafny model

This project models the core of a small command-line tool that reads
web-server access logs written as JSON Lines and summarises them. The core has
two parts:

- The loader (`utils/log_parser.py`) concatenates the log files and skips blank
  lines. When a date filter is set, it also drops the lines that fail to decode
  and the records whose `@timestamp` text before the first `T` differs from the
  filter.
- The three reports (`reports/*.py`) each decode every line on their own:
  - the average report gives the request count and mean response time per URL;
  - the status report counts each status code, keyed by its text;
  - the user-agent report counts each exact `http_user_agent` value.

Modules:

- `Wrappers` holds `Option`.
- `JsonData` is the value a JSON decoder returns. It includes Python's truth
  value, and `dict.get`, which treats an absent key as `None`.
- `Python` models the built-ins the code relies on: `str.strip`,
  `str.split("T")[0]`, `str()`, `float()` and dictionary-key identity. It also
  defines `Host`, the services that are not modelled: `json.loads`, the parsing
  of text by `float()`, and `str()` of floats and containers.
- `Counter` is `collections.Counter` filled by one loop. Both distribution
  reports instantiate it.
- `LogParser` models `_try_parse_json` and `load_lines`:
  - the loader is a method with the generator's nested loops;
  - it is proved equal to a reference definition, `Loaded`.
- `AverageReport`, `StatusReport` and `UserAgentReport` model one report each.
  Each report is proved against an independent reference definition: the
  response times of a URL, or the keys the counted lines yield.
- `Samples` holds the test logs, with the record a decoder returns for each
  line, and the proofs of what the loader and the reports give on them.

A record that would make the source raise is excluded by a precondition. The
`Safe` and `LineSafe` predicates state these conditions:

- `.get` on a decoded value that is truthy but not an object;
- `.split` on a truthy timestamp that is not text;
- `float()` of a list or an object (`TypeError`);
- `float()` of an integer too large for a double (`OverflowError`);
- a list or an object used as a dictionary key, where the code reaches
  that use (an empty list or object is skipped by the truth test first).

## Model

| member | source | states |
|---|---|---|
| `LogParser.TryParseJson` | utils/log_parser.py:3-7 | Total, with no precondition. The result is `None` exactly when decoding fails or the document is `null`; otherwise it is the decoded value. |
| `LogParser.KeepLines` | utils/log_parser.py:12-23 | Keeps exactly the lines that are non-blank and pass the filter. Never lengthens the input. |
| `LogParser.Concat` | utils/log_parser.py:10-12 | Every line of every file is in the concatenation, and every line of the concatenation comes from some file. |
| `LogParser.Emits` | utils/log_parser.py:13-23 | The generator's branches for one line yield it exactly when `Keep` holds. |
| `LogParser.LoadFile` | utils/log_parser.py:12-23 | The inner loop over one file yields `KeepLines` of that file's lines. |
| `LogParser.LoadLines` | utils/log_parser.py:9-23 | The whole generator yields `Loaded`: the kept lines of all files, file after file. |
| `LogParser.KeepLinesIsSubsequence` | utils/log_parser.py:12-23 | The kept lines form an ordered subsequence of the input lines. |
| `LogParser.LoadedIsOrderedSelection` | utils/log_parser.py:9-23 | The loader's output is an ordered subsequence of the concatenated files. Each line is unchanged and passes `Keep`. |
| `LogParser.LoadedHasNoBlankLines` | utils/log_parser.py:13-14 | No yielded line is empty or all whitespace, whatever the filter. |
| `LogParser.UnfilteredKeepsNonBlank` | utils/log_parser.py:13-23 | With no filter, or an empty one, a line is yielded iff it is non-blank, as many times as it occurs in the files. Undecodable lines are yielded too. |
| `LogParser.FilterRules` | utils/log_parser.py:15-22 | Under a filter, a non-blank line is treated as follows. An undecodable line is dropped. A falsy decoded value is kept. A record with an absent, null or empty timestamp is kept. A record with a textual timestamp is kept iff its date part equals the filter. |
| `LogParser.KeepStamped` | utils/log_parser.py:19-22 | A record stamped `day + "T" + time` is kept under a filter iff `day` equals the filter date. |
| `LogParser.KeepLinesIdempotent` | utils/log_parser.py:12-23 | Filtering the kept lines again changes nothing. |
| `LogParser.LoadIdempotent` | utils/log_parser.py:9-23 | The loader's output is again safe to load. Loading it with the same filter returns it unchanged. |
| `Samples.LoaderUnfiltered` | tests/test_log_parser.py:78-79 | Without a filter, the four-line test file yields all four lines, the invalid JSON line included. |
| `Samples.LoaderFiltered` | tests/test_log_parser.py:106-109 | With the filter `2025-06-22`, the test file yields exactly its first and fourth lines, the two records of that day. |
| `JsonData.FalsyValues` | reports/average_report.py:67 | `Truthy` is Python's truth test, as in `if not obj`, `if url`, `if ua` and `if ts`: the false values are exactly `None`, `False`, `0`, `0.0`, `""` and the empty list and object. |
| `JsonData.Field` | reports/average_report.py:71-72 | `obj.get(name)` is the field's value when the name is present, and `None` when it is absent. |
| `LogParser.FilterOff` | utils/log_parser.py:15 | `FilterActive` is `if filter_date:`, so the filter is off exactly when the date is `None` or `""`. |
| `LogParser.KeepLinesCounts` | utils/log_parser.py:12-23 | Each line passing `Keep` appears in the output exactly as often as in the input; any other line does not appear. |
| `Python.Strip` | utils/log_parser.py:13 | `line.strip()` is no longer than the line, and neither starts nor ends with a character `str.isspace` accepts (the Unicode whitespace set of `IsSpace`). |
| `Python.StripIsTrimmedSlice` | utils/log_parser.py:13 | `line.strip()` is a contiguous slice of the line, and everything before and after that slice is whitespace. With `Strip`'s own contract, this means exactly the leading and trailing whitespace is removed. |
| `Python.StripEmptyIffBlank` | utils/log_parser.py:13 | `not line.strip()` holds exactly when every character of the line is whitespace, the empty line included. |
| `Python.DatePart` | utils/log_parser.py:21 | `split("T")[0]` is the longest prefix without a `T`. It is followed by a `T` unless it is the whole text. |
| `Python.DatePartBeforeSeparator` | utils/log_parser.py:21 | The date part of `d + "T" + rest` is `d` when `d` holds no `T`. |
| `Python.Str` | reports/status_report.py:68 | `str()` returns text unchanged. `str()` of an integer reads back as that integer. |
| `Python.IntTextRoundTrip` | reports/status_report.py:68 | Parsing the decimal text of any integer gives that integer back. |
| `Python.IntTextInjective` | reports/status_report.py:68 | Two integers with the same `str()` text are equal, so distinct codes get distinct keys. |
| `Python.ToFloat` | reports/average_report.py:78 | `float()` of a bool is 1 or 0, and of an integer or a float is its value. `float()` of text is the host's parse, where `None` is the caught `ValueError`. Integers of magnitude 2^1024 - 2^970 or more, which raise `OverflowError`, are outside its precondition. |
| `Python.HashKey` | reports/user_agent_report.py:71 | A text value is keyed by exactly its characters. Only text is keyed as text. |
| `Python.HashKeyIsPythonEquality` | reports/user_agent_report.py:71 | Two hashable values are the same dictionary key iff Python's `==` holds between them, so `True`, `1` and `1.0` are one key. |
| `Counter.Inc` | reports/status_report.py:68 | `counter[k] += 1` adds `k` if it is missing, raises its count by one, and leaves every other count unchanged. |
| `Counter.Tally` | reports/status_report.py:54-71 | After the loop, every count is at least 1. |
| `Counter.TallyContents` | reports/status_report.py:54-71 | The counter holds exactly the keys of the counted elements, each with its number of occurrences among them. |
| `Counter.TallySum` | reports/status_report.py:54-71 | The counts add up to the number of counted elements. |
| `Counter.TallyPermutation` | reports/status_report.py:57-68 | Reordering the input does not change the counter. |
| `Counter.TallySkips` | reports/status_report.py:58-66 | An element that yields no key can be removed from any position without changing the counter. |
| `Counter.TallyFromKeys` | reports/status_report.py:54-71 | A map holding each key of the counted elements with its occurrence count is the counter. |
| `StatusReport.StatusKey` | reports/status_report.py:58-68 | A line is counted iff it decodes to a non-empty object whose `status` is not null. The key is `str(status)`. |
| `StatusReport.Generate` | reports/status_report.py:54-71 | Each key is the text of a counted status. Its value is the number of counted lines with that text, at least 1. The values sum to the number of counted lines. |
| `StatusReport.OrderIndependent` | reports/status_report.py:57-68 | Permuting the lines gives the same report. |
| `StatusReport.IgnoresUncounted` | reports/status_report.py:58-66 | An undecodable or falsy line, or an object without a status, changes no count wherever it sits. |
| `StatusReport.FalsyStatusCounted` | reports/status_report.py:66-68 | A present but falsy status (`0`, `""`, `false`) is counted once under its text. |
| `StatusReport.NumberAndTextShareKey` | reports/status_report.py:68 | Status `200` and status `"200"` give `{"200": 2}`. |
| `Samples.StatusDistribution` | tests/test_reports.py:72-79 | The shared sample log gives exactly `{"200": 2, "404": 1}`. |
| `UserAgentReport.AgentKey` | reports/user_agent_report.py:61-71 | A line is counted iff it decodes to a non-empty object with a truthy `http_user_agent`. A text agent is keyed by its exact text. |
| `UserAgentReport.Generate` | reports/user_agent_report.py:56-74 | Each key is a counted agent, with its number of occurrences, at least 1. The values sum to the number of counted lines. |
| `UserAgentReport.OrderIndependent` | reports/user_agent_report.py:59-71 | Permuting the lines gives the same report. |
| `UserAgentReport.IgnoresUncounted` | reports/user_agent_report.py:61-69 | An undecodable or falsy line, or an object whose agent is absent, null or empty, changes no count. |
| `UserAgentReport.EmptyContainerAgentSkipped` | reports/user_agent_report.py:66-71 | An agent that is an empty list or object is falsy: the line raises nothing and is not counted. |
| `UserAgentReport.EmptyAgentExcluded` | reports/user_agent_report.py:69-71 | Agents `"Mozilla"` and `""` give `{"Mozilla": 1}`. |
| `UserAgentReport.DistinctAgentsApart` | reports/user_agent_report.py:71 | Two different non-empty agents are counted under two keys, once each. |
| `Samples.AgentDistribution` | tests/test_reports.py:93-101 | The shared sample log gives exactly `{"Mozilla/5.0": 2, "curl/7.0": 1}`. |
| `AverageReport.Contribution` | reports/average_report.py:66-83 | A line contributes iff it decodes to a non-empty object with a truthy `url`, a non-null `response_time`, and a time `float()` accepts. It contributes that float. |
| `AverageReport.Add` | reports/average_report.py:61-80 | The `defaultdict` update creates a URL's entry at count 1 on first use. Later it adds one to the count and the time to the total. Other URLs are untouched. |
| `AverageReport.Accumulate` | reports/average_report.py:64-83 | After the loop, every accumulated URL has a count of at least 1. |
| `AverageReport.AccumulateSpec` | reports/average_report.py:64-83 | A URL is accumulated iff it has response times. Its entry is their number and their sum. |
| `AverageReport.Generate` | reports/average_report.py:86-92 | A URL is in the result iff some line contributes to it. Its count is the number of its response times, at least 1. `avg_time` is their mean. |
| `AverageReport.TimesForNonEmpty` | reports/average_report.py:64-83 | A URL has response times exactly when some line contributes to it. |
| `AverageReport.KeysAreContributingUrls` | reports/average_report.py:86-92 | The result's keys are exactly the URLs of the contributing lines. |
| `AverageReport.GenerateDeterminedByTimes` | reports/average_report.py:86-92 | Two logs with the same response times for every URL give the same report. |
| `AverageReport.IgnoresNonContributing` | reports/average_report.py:67-83 | A non-contributing line changes nothing wherever it sits. This covers a line that is undecodable, falsy, missing its URL, has a null time, or has a time `float()` rejects. |
| `AverageReport.UnparsableTimeSkipped` | reports/average_report.py:81-83 | A line whose time `float()` rejects creates no entry for its URL. |
| `AverageReport.OverflowingTimeExcluded` | reports/average_report.py:75-81 | A line with a truthy URL and an integer time of magnitude at least 2^1024 - 2^970 makes `float()` raise the uncaught `OverflowError`, so it is outside `Safe`. |
| `AverageReport.ZeroTimeCounted` | reports/average_report.py:75-80 | A present but falsy time (`0`) is still counted, with time 0. |
| `Samples.AverageDistribution` | tests/test_reports.py:61-70 | The shared sample log gives `/api/test` a count of 2 with mean 0.15, and `/api/other` a count of 1 with mean 0.3. This assumes `float()` reads the times as the decimals they spell. |

## Left out

- `main.py` is not part of this model: argument parsing, report selection, `tabulate` tables, `round(..., 3)` and printing.
- `reports/base.py` is not part of this model. It is an abstract base class with one method; each report here is a plain function.
- `json.loads` is not modelled; it is `Host.loads`, where `None` stands for any exception it raises.
- Parsing text in `float()` is not modelled; it is `Host.parseFloat`.
- `str()` of floats, lists and objects is not modelled; it is `Host.showOther`. `str()` of `None`, booleans, integers and text is modelled.
- Decoded strings holding a lone surrogate (U+D800 to U+DFFF, which `json.loads` accepts as a `\ud800` escape) cannot be represented: a Dafny `char` excludes those code points. The host's `loads` cannot return such a string, so a line carrying one is not keyed under that string in the reports the model computes.
- File I/O is not modelled: opening, UTF-8 decoding, `IOError`. A file is the sequence of its lines as `for line in f` produces them, newlines included.
- Generator laziness is not modelled: `LoadLines` returns the whole sequence at once.
- IEEE floating point, rounding, NaN and infinities are not modelled: times are exact reals, and `avg_time` is exact division. The tests' `pytest.approx` becomes exact equality.
- Results are unordered: the insertion order of the result dictionaries is not modelled.
- The crash paths are not modelled; preconditions (`Safe`, `LineSafe`) exclude them. These are `AttributeError` from `.get` or `.split`, `TypeError` and `OverflowError` from `float()`, and `TypeError` from an unhashable key.
- Report input is text only. The report docstrings also allow already-decoded dictionaries; the code passes such a value to `json.loads`, whose `TypeError` is caught, so the line is skipped. The model takes lines as text.
- `_try_parse_json` does not turn a decoded non-object into `None`; it returns whatever `json.loads` produced. The model follows the code:
  - a falsy scalar or an empty list is skipped by `if not obj`;
  - a truthy non-object would raise, and is excluded by precondition.
- `_try_parse_json` returns `None` both for a failed decode and for the JSON document `null`. The model keeps that ambiguity: under a filter, a `null` line is dropped like an invalid one.
