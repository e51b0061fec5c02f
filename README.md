# TB clustering WebGIS: data loader and configuration, in Dafny

The WebGIS shows, per district (*kecamatan*) of Makassar and Gowa, the TB-contact
cluster a district falls in under six clustering scenarios. Its `DataLoader`
(data-validator.js) reads three CSV files: the cluster map, the per-district
interpretations and the per-district contact profiles. It parses them with a
quote-aware line scanner and projects the rows into three dictionaries keyed by
district. It then answers read-only queries over them and checks their quality.
config.js holds the constant scenario and aspect tables and the `ConfigUtils`
helpers that read them.

The model is organised as follows:

- `Strings` holds the JavaScript string operations the code uses: `trim`,
  one-character `split`, `replace(/"/g, "")`, `includes` and an ASCII
  `toLowerCase`. It also defines `Join`, which the code does not call. `Join`
  states what `split` and the line scanner compute.
- `Dict` models a JavaScript object used as a dictionary. It keeps its key
  order, so `Object.keys` order and "assigning an existing key keeps its place"
  are modelled.
- `Csv` holds `parseCSVLine` and `parseCSV`. Each is a method with its loop,
  proved equal to a recursive specification, and the properties are proved about
  that specification.
- `Projection` holds the projection step of `loadData` and one whole ingestion,
  as values.
- `Loader` holds the `DataLoader` class. Its fields are the three dictionaries,
  `isDataLoaded`, `loadingCallbacks`, and a log of the callback calls made. It
  also holds the specification of `validateData` and its properties.
- `Config` holds the tables and the `ConfigUtils` functions.

`parseInt` and `parseFloat` are parameters of the model (`NumberParsers`), with
`None` standing for NaN.

Behaviour of the code worth noting:

- The header line is split with a plain `split(",")`, not with the quote-aware
  scanner (data-validator.js:21). A quoted header containing a comma therefore
  yields more header names than the data lines yield fields.
- Every `"` is removed from headers and cells, not one enclosing pair
  (data-validator.js:21, 29).
- A new ingestion does not clear the dictionaries (only the flag, at
  data-validator.js:70). Districts from an earlier ingestion that are absent
  from the new files survive.
- A text with fewer than two lines makes `parseCSV` throw. `loadData` catches
  this and returns `false` (data-validator.js:159-166), before any dictionary is
  written.

## Model

| member | source | states |
|---|---|---|
| Strings.TrimOffset | data-validator.js:16 | the length of the leading whitespace: everything before it is whitespace and the character at it is not |
| Strings.TrimLimit | data-validator.js:16 | the end of the text without its trailing whitespace: everything from it on is whitespace and the character before it is not |
| Strings.Trim | data-validator.js:16 | the result is the slice of the input after its leading whitespace, with only whitespace cut off either end, and neither starts nor ends with whitespace |
| Strings.TrimSubset | config.js:301 | trimming never introduces a character (used to show short names hold no comma) |
| Strings.Split | data-validator.js:16 | at least one piece, and no piece contains the separator |
| Strings.JoinSplit | data-validator.js:21 | joining the pieces of a split with the separator gives back the string |
| Strings.SplitJoin | data-validator.js:21 | splitting a join of separator-free pieces gives back the pieces |
| Strings.SplitCount | data-validator.js:16 | a split has one more piece than the string has separators |
| Strings.SplitFirst | config.js:301 | the first piece is the text before the first separator, or the whole string when there is none |
| Strings.RemoveQuotes | data-validator.js:21 | the result holds no `"`, keeps every other character as often as it occurred, is shorter by the number of quotes, and is the input when it had none |
| Strings.RemoveQuotesSnoc | data-validator.js:21 | removing quotes from a text with one more character drops that character exactly when it is `"` |
| Strings.RemoveQuotesAppend | data-validator.js:21 | removing quotes distributes over concatenation, so it keeps the order of the remaining characters |
| Strings.Includes | config.js:296 | true exactly when the needle occurs at some position |
| Strings.ToLower | config.js:258 | same length, each ASCII capital lowered, every other character kept |
| Dict.Dict.Get | data-validator.js:194-196 | a value exactly for the keys present (`undefined` otherwise), and that value is the one stored under the key |
| Dict.Dict.Put | data-validator.js:96 | the assigned key maps to the new value, other keys are kept, old keys keep their order, and a present key does not move |
| Dict.Empty | data-validator.js:6-8 | an empty, well-formed dictionary |
| Dict.SizeIsCount | data-validator.js:139 | `Object.keys(d).length` is the number of keys holding a value |
| Dict.PutAll | data-validator.js:94-107 | assigning a sequence of pairs keeps the dictionary well formed and the old key order as a prefix |
| Dict.PutAllEntries | data-validator.js:94-107 | after the assignments each key holds its last assigned value, or its old value when unassigned |
| Dict.MapOfKeys | data-validator.js:94-107 | the keys assigned are exactly the keys of some pair |
| Dict.PutAllPresent | data-validator.js:94-107 | assignments to keys already present leave the key order unchanged |
| Dict.PutAllIdempotent | data-validator.js:94-107 | replaying the same assignments changes nothing |
| Csv.SplitLine | data-validator.js:44-64 | a line always has at least one field |
| Csv.ParseLine | data-validator.js:44-64 | the character loop computes exactly the fields of the two-state scanner specification |
| Csv.ScanInQuotes | data-validator.js:52-53 | the scanner is inside quotes exactly after an odd number of `"` |
| Csv.SplitLineNoQuotes | data-validator.js:52-59 | no field contains `"` |
| Csv.SplitLineJoin | data-validator.js:44-64 | joining the fields with `,` gives back the line with every `"` removed |
| Csv.SplitLineCount | data-validator.js:49-62 | the field count is one plus the number of commas preceded by an even number of quotes |
| Csv.SplitLineUnquoted | data-validator.js:44-64 | a line without quotes splits exactly like `split(",")` |
| Csv.QuotedField | data-validator.js:52-59 | a quote-wrapped text is one field whatever commas it holds |
| Csv.Headers | data-validator.js:21 | one header name per comma-separated piece of the header line, each the piece with its quotes removed and then trimmed, so quote-free and without surrounding whitespace |
| Csv.Cell | data-validator.js:29 | a missing or empty field gives the empty cell; any other field gives the field with its quotes removed and then trimmed, which holds no `"` and has no surrounding whitespace |
| Csv.BuildRow | data-validator.js:27-30 | the header loop builds exactly the row of the specification |
| Csv.RowKeys | data-validator.js:28-30 | a row's keys are exactly the header names |
| Csv.RowValue | data-validator.js:28-30 | a header's value is the cleaned field at its last position |
| Csv.RowIgnoresExtra | data-validator.js:26-30 | fields beyond the header count are ignored |
| Csv.DataRows | data-validator.js:24-33 | at most one row per data line |
| Csv.DataRowsAppend | data-validator.js:24-33 | rows come out in line order: the rows of two blocks of lines are the rows of each block in turn |
| Csv.DataRowsStep | data-validator.js:24-33 | one more data line adds its row, when long enough, at the end |
| Csv.DataRowsSingle | data-validator.js:26-32 | a line gives its row when it has at least as many fields as the header, and nothing otherwise |
| Csv.DataRowsKeys | data-validator.js:27-31 | every row has exactly the header names as keys |
| Csv.Lines | data-validator.js:16 | the trimmed text has at least one line |
| Csv.Parse | data-validator.js:14-41 | failure, with the too-few-lines error, exactly when the trimmed text has fewer than two lines; on success at most one row per data line |
| Csv.ParseCsv | data-validator.js:14-41 | the line loop computes exactly the specification's result or failure |
| Csv.ParseFails | data-validator.js:16-19 | parsing fails exactly when the trimmed text has no line break, the empty text included |
| Csv.ParseRows | data-validator.js:16-33 | on success at most one row per data line, each keyed by exactly the header names |
| Projection.Clustering.Cluster | data-validator.js:203-204 | a cluster id for scenarios 1..6 and `undefined` for any other number |
| Projection.OrZero | data-validator.js:99 | `parseInt(x) \|\| 0`: NaN gives 0, a number gives itself |
| Projection.RealOrZero | data-validator.js:122 | `parseFloat(x) \|\| 0`: NaN gives 0, a number gives itself |
| Projection.ClusteringEntry | data-validator.js:95-105 | an entry exactly when `alamat`, `latitude` and `longitude` are non-empty, keyed by `alamat`, with coordinates as parsed (not defaulted) and each cluster id defaulted to 0 |
| Projection.InterpretasiEntry | data-validator.js:112-114 | an entry exactly when `Kecamatan` and the interpretation text are non-empty, keyed and valued by them |
| Projection.KontakEntry | data-validator.js:120-134 | an entry exactly when `alamat` is non-empty, keyed by it, with each of the twelve fields read from its own column and an unparsable number becoming 0 |
| Projection.Collect | data-validator.js:94-136 | at most one assignment per row |
| Projection.CollectKeys | data-validator.js:94-107 | a key is assigned exactly when some row yields it, and ends with a value some row gave it |
| Projection.CollectHas | data-validator.js:94-107 | every row that yields a key leaves that key assigned |
| Projection.CollectValues | data-validator.js:94-107 | the value a key ends with is the one some row yielded for it |
| Projection.CollectStep | data-validator.js:94-107 | each row's assignment is applied after those of the rows before it |
| Projection.CollectLastWins | data-validator.js:94-107 | for a repeated key the last row yielding it wins |
| Projection.EmptyStore | data-validator.js:5-11 | the initial store is well formed and empty |
| Projection.Ingest | data-validator.js:88-166 | an ingestion reports success exactly when it carries no error |
| Projection.IngestProjects | data-validator.js:88-136 | when all three texts parse, ingestion writes their rows into the three dictionaries, whatever the clustering dictionary ends up holding |
| Projection.Project | data-validator.js:94-136 | writing the rows of the three files keeps every dictionary's old keys, in their order, as a prefix of its new keys |
| Projection.ProjectValid | data-validator.js:94-136 | writing rows keeps keys non-empty, interpretations non-empty and dictionaries well formed |
| Projection.IngestValid | data-validator.js:88-166 | ingestion keeps the store well formed |
| Projection.IngestSucceeds | data-validator.js:139-158 | success exactly when all three texts parse and the clustering dictionary is non-empty afterwards |
| Projection.IngestParseFailure | data-validator.js:88-90 | a text that does not parse leaves all three dictionaries unchanged and reports the parse error |
| Projection.IngestWritesAll | data-validator.js:109-145 | when the texts parse, interpretations and contacts are written even when the clustering dictionary stays empty, which is then the error |
| Projection.IngestKeepsKeys | data-validator.js:70-136 | no key is ever removed and old keys keep their order (the dictionaries are not cleared) |
| Projection.IngestClusteringKeys | data-validator.js:94-107 | after an ingestion a district has a clustering entry exactly when it had one before or some row names it with non-empty coordinates |
| Projection.ClusteringKeys | data-validator.js:94-107 | writing clustering rows adds exactly the districts of the rows with non-empty name, latitude and longitude |
| Projection.IngestClusteringLastWins | data-validator.js:94-107 | a district's clustering entry is the one from its last usable row |
| Projection.ProjectIdempotent | data-validator.js:94-136 | writing the same rows a second time leaves all three dictionaries as the first time left them |
| Projection.IngestIdempotent | data-validator.js:88-166 | ingesting the same texts twice gives the same store and result as once |
| Loader.WriteRows | data-validator.js:94-136 | the `forEach` loop performs exactly the row assignments of the specification, in order |
| Loader.IngestTexts | data-validator.js:88-147 | parsing, the three projections and the empty check compute exactly the ingestion outcome |
| Loader.Notify | data-validator.js:156-164 | one call per pending callback, in order, each given the same success flag and error (the `true` calls of line 156 and the `false, error` calls of line 164) |
| Loader.DataLoader.constructor | data-validator.js:5-11 | empty dictionaries, not loaded, no callbacks |
| Loader.DataLoader.LoadData | data-validator.js:70-166 | the dictionaries and the flag become those of the ingestion, the result is its success, and every pending callback is called once, in order, with that success and error |
| Loader.DataLoader.OnLoadComplete | data-validator.js:171-177 | when loaded, one immediate `true` call and the callback is not kept; otherwise the callback is appended and nothing else changes |
| Loader.DataLoader.GetClusterStatistics | data-validator.js:180-190 | one count per cluster id present, each the number of districts holding it (so at least 1), the counts summing to the number of districts |
| Loader.CountClusters | data-validator.js:183-189 | the counting loop builds exactly the statistics map of the scenario's cluster column |
| Loader.Bump | data-validator.js:186 | `clusters[c] = (clusters[c] \|\| 0) + 1`: the key `c` is added if missing, its count goes up by one, and every other count is kept |
| Loader.Counts | data-validator.js:183-189 | every key of the statistics map is a value seen, with a count of at least 1 |
| Loader.CountsHas | data-validator.js:183-189 | every value seen is a key of the statistics map |
| Loader.CountsMultiplicity | data-validator.js:183-189 | each value's count is its number of occurrences |
| Loader.CountsTotal | data-validator.js:183-189 | the counts add up to the number of values |
| Loader.CountsExact | data-validator.js:183-189 | a statistics map holds exactly the values seen, each counted as often as it occurs, with counts summing to the number of values |
| Loader.DataLoader.GetKecamatanDetail | data-validator.js:193-216 | `null` exactly for a district without clustering entry; otherwise its coordinates and cluster, its interpretation or the placeholder, and the contact profile stored under the district or `null` |
| Loader.DataLoader.GetKecamatanByCluster | data-validator.js:219-222 | exactly the districts whose scenario cluster equals the id, without duplicates |
| Loader.FilterByCluster | data-validator.js:221 | the filter keeps exactly the matching keys and keeps distinct keys distinct |
| Loader.SeqMin | data-validator.js:241 | `Math.min` over a non-empty list: an element no larger than any other |
| Loader.SeqMax | data-validator.js:240 | `Math.max` over a non-empty list: an element no smaller than any other |
| Loader.DataLoader.ClusterRange | data-validator.js:239-241 | nothing for no id; otherwise the least and greatest id, both among the ids |
| Loader.CoordinateIssues | data-validator.js:229-234 | at most one coordinate issue per district |
| Loader.RangeIssue | data-validator.js:237-246 | a range issue is about its own scenario |
| Loader.CheckCoordinates | data-validator.js:229-234 | the coordinate loop computes exactly the coordinate issues of the specification, in key order |
| Loader.DataLoader.CheckClusterRange | data-validator.js:237-246 | the statistics-based range check of one scenario computes exactly the specification's range issue |
| Loader.DataLoader.ValidateData | data-validator.js:225-257 | the report is the specification's report, changes nothing, and `valid` holds exactly when there is no issue |
| Loader.RangeMatches | data-validator.js:238-245 | the range taken from the statistics keys equals the least and greatest cluster id of the districts |
| Loader.OutOfArea | data-validator.js:231 | a reported district fails `isValidCoordinate`; with two numeric coordinates the two checks agree; a NaN coordinate is never the reason for a report, so with one NaN coordinate the district is reported exactly when the other is out of range, and with two nothing is reported |
| Loader.CoordinateIssuesExact | data-validator.js:229-234 | exactly one coordinate issue per district with a numeric latitude outside [-6,-4] or a numeric longitude outside [119,121], carrying its coordinates (a NaN coordinate never raises an issue) |
| Loader.RangeIssueExact | data-validator.js:237-246 | a scenario is reported exactly when some cluster id leaves 0..10, with the least and greatest id as bounds |
| Loader.PresentExact | data-validator.js:243-245 | the reported issues are exactly the issues found |
| Loader.PresentScenarios | data-validator.js:237-246 | issues come in strictly increasing scenario order |
| Loader.PresentPrefix | data-validator.js:243-245 | each scenario's issue, when there is one, is appended after those of the scenarios before it |
| Loader.RangeIssuesOrdered | data-validator.js:237-246 | at most one range issue per scenario, in scenario order, and every scenario with one has it reported |
| Loader.CoordinateIssuesNone | data-validator.js:229-234 | no coordinate issue exactly when no district fails the test at data-validator.js:231, that is, no numeric coordinate lies outside its range (a NaN coordinate never raises an issue) |
| Loader.RangeIssuesNone | data-validator.js:237-246 | no range issue exactly when every cluster id of every scenario is within 0..10 |
| Loader.Validation | data-validator.js:225-257 | `valid` exactly when there is no issue; at most one coordinate issue per district plus one range issue per scenario; the summary counts the keys of each dictionary |
| Loader.ValidationValid | data-validator.js:248 | valid exactly when no district fails the test at data-validator.js:231 (no numeric coordinate outside its range; NaN never counts) and all cluster ids are in 0..10; the empty store is valid |
| Loader.ValidationSummary | data-validator.js:250-255 | the summary counts the districts of each dictionary |
| Loader.DataLoader.ExportData | data-validator.js:260-267 | the three dictionaries and the flag as they are |
| Loader.DataLoader.Reset | data-validator.js:270-277 | empty dictionaries, not loaded, no pending callback |
| Loader.TotalPick | data-validator.js:186 | the sum of counts does not depend on the key taken first |
| Loader.TotalIncrement | data-validator.js:186 | counting one more occurrence adds one to the sum |
| Config.GetScenario | config.js:232-234 | a scenario exactly for 1..6, and it is that number's entry of the scenario table, with one colour and one interpretation per cluster id |
| Config.GetAspect | config.js:237-239 | an aspect exactly for the six names of `aspectMapping`, and it is that name's entry of the aspect table |
| Config.GetClusterColor | config.js:242-245 | "#cccccc" for an unknown scenario; for a known one a colour exactly for ids within its cluster count, `undefined` past it |
| Config.GetClusterInterpretation | config.js:248-251 | the table text exactly for a known scenario and an id within its cluster count, "Tidak ada interpretasi" otherwise |
| Config.GetStatusColor | config.js:254-260 | "#95a5a6" exactly for an unknown aspect, an empty status or an unlisted lower-cased status; otherwise the listed colour |
| Config.GetRegionType | config.js:295-297 | "Kabupaten Gowa" exactly when the address contains it, "Kota Makassar" otherwise |
| Config.GetShortName | config.js:300-302 | the trimmed text before the first comma (all of it without a comma), never containing a comma |
| Config.IsValidCoordinate | config.js:263-267 | true exactly when both coordinates are numbers with -6 ≤ lat ≤ -4 and 119 ≤ lng ≤ 121, bounds included; a NaN coordinate is never valid |
| Config.IsValidCluster | config.js:270-273 | true exactly when 0 ≤ n ≤ 10, bounds included |
| Config.ScenarioTablesComplete | config.js:24-108 | every in-range cluster id of every scenario has a colour and a non-fallback interpretation |
| Config.AspectMappingBijective | config.js:112-119 | the six aspects map one-to-one onto scenarios 1..6 |
| Config.AspectNamesAgree | config.js:112-189 | the numbered aspects are exactly the aspects with a status table |
| Config.StatusColorCaseInsensitive | config.js:254-260 | a status and its lower case get the same colour |

## Left out

- Fetching the three files (`fetch`, `Promise.all`, `response.ok`, `response.text()`, data-validator.js:73-85) is left out; `LoadData` starts from the three texts. A failed fetch, which also ends in the `catch` block, is not modelled.
- Loader.DataLoader.LoadData: runs data-validator.js:70 and 88-166 as one step. In the source `isDataLoaded` is `false` while the fetches are pending, so a callback registered with `onLoadComplete` during a reload is queued and called when that reload ends. The model has no such intermediate state.
- The callbacks are opaque handles. Calling one is recorded as a `Notification` in the `notifications` log rather than run. A callback that throws is not modelled. If it throws during the success calls (data-validator.js:156), `loadData` enters its `catch` block (data-validator.js:158-166) once. That block sets `isDataLoaded` to `false` and calls every callback again with `(false, error)`. If it throws during those failure calls (data-validator.js:164), the exception escapes `loadData` as a rejected promise.
- All `console` output and the `window`/`module.exports` blocks are left out.
- `parseInt` and `parseFloat` are parameters, not implementations. Coordinates are `Option<real>`, without the ±Infinity and -0 that `parseFloat` can return.
- `formatNumber` and `formatPercentage` (locale formatting of floats), `generateId` (clock and randomness) and `parseFieldLabel` (regular expressions) are left out, as are the map, display and message settings of `CONFIG`.
- The `icon` of each aspect (display only) is not part of `Config.Aspect`.
- Non-string arguments are not modelled: a scenario number given as a string, or a non-string `status` in `getStatusColor`.
- JavaScript objects list integer-like keys first. `Dict` keeps plain insertion order, which differs only for district names that are canonical integers.
- Inherited object properties are not modelled. A district or column named like an `Object.prototype` member (`constructor`, `__proto__`) would read as present in the source.
- Config.GetAspect, Config.GetStatusColor, Config.GetScenario: the tables are looked up as plain maps, without inherited properties. In the source `getAspect("toString")` returns a function rather than `null`, and `getStatusColor("constructor", "x")` throws a `TypeError` at config.js:259, because `statusColors` of that inherited value is `undefined`.
- Strings.ToLower, Config.GetStatusColor, Config.StatusColorCaseInsensitive: `toLowerCase` is modelled for ASCII letters only. For example, for `getStatusColor("akses", "bai\u212A")` (ending in the Kelvin sign) JavaScript lowercases the status to "baik" and returns "#2ecc71", while the model returns "#95a5a6".
- `validateData` builds message strings. The model keeps their ingredients in the `Issue` datatype instead of formatting text.
- `getClusterStatistics` returns a map keyed by `Option<int>`. The source's property names are the ids as strings, with `"undefined"` for a scenario outside 1..6. `validateData` turns them back with `parseInt`. The model uses the stored ids directly. This agrees with the source as long as every id is below 10^21 in magnitude, where its string form is plain decimal.
- Projection.ClusteringEntry, Loader.RangeIssue: cluster ids are unbounded integers in the model but doubles in the source. From 1e21 on their string form is exponential (`"1e+21"`), and `parseInt` of it gives 1. For such an id the model reports a range issue that the source's `validateData` misses.
- Loader.DataLoader.ExportData: the source returns the live objects, so a caller could mutate the store through them. The model returns values, so this aliasing is not captured.
