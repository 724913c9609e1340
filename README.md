# CemMind-AI core, modelled in Dafny

CemMind-AI monitors a cement plant. The part modelled here is its decision
logic:

- the rule-based plant analysis (`analyze_plant`) that turns one reading of
  five process metrics into operator suggestions, a text report and a
  severity level for each of the five process stages (Raw, Preheat, Clinker,
  Grind, Sustain);
- the colour and edge logic of the stage diagram drawn from those
  severities (`render_process_diagram`);
- the drift detector that compares a recent rolling mean of a metric with a
  longer baseline (`detect_drift`);
- the dashboard's traffic-light icon for each KPI tile
  (`get_severity_icon`);
- the energy optimiser's heuristic set-point actions (`optimize_energy`);
- the deterministic parts of the synthetic batch generator: the one-minute
  timestamp grid, the clip of the alternative-fuel rate, the column layout
  and the cloud-storage destination URI;
- the ingestion service's in-memory buffer, with `/ingest` and `/latest`.

One Dafny module per source file:

| file | module | source |
|---|---|---|
| `cem_agent.dfy` | `CemAgent` | agents/cem_agent.py |
| `anomaly_detector.dfy` | `AnomalyDetector` | ai_models/anomaly_detector.py |
| `kpis.dfy` | `Kpis` | dashboard/kpis.py |
| `optimizer.dfy` | `Optimizer` | ai_models/optimizer.py |
| `batch_generator.dfy` | `BatchGenerator` | simulation/batch_generator.py |
| `ingest_api.dfy` | `IngestApi` | services/api/app.py |
| `metrics.dfy` | `Metrics` | the metric names read by `CemAgent` and `Optimizer` and used as column names by `BatchGenerator`, and `dict.get` with a default |
| `wrappers.dfy` | `Wrappers` | `Option`, for the detector's `None` result |

Each module follows the form of its source file:

- `analyze_plant` appends to a local list and assigns into a local dict,
  step by step. It is a method that does the same, and it is proved equal to
  declarative functions (`SeverityMap`, `Suggestions`, `ReportText`). The
  properties of the analysis are lemmas about those functions.
- `render_process_diagram` loops over the stages, so it is a method with a
  loop.
- `optimize_energy` appends actions conditionally, so it is a method.
- The ingest buffer is module-level state mutated in place, so it is a class
  whose `readings` field the ingest method reassigns.
- The detector, the icon choice and the generator's path and timestamp logic
  are single expressions, so they are functions.

## Model

| member | source | states |
|---|---|---|
| Metrics.GetOr | ai_models/optimizer.py:5 | `d.get(key, default)`: the stored value when the key is present, the default otherwise |
| CemAgent.KilnLevel | agents/cem_agent.py:52-57 | Preheat is critical iff kiln temperature > 1500, warning iff 1450 < t <= 1500 (so 1500 is warning), normal otherwise |
| CemAgent.AfLevel | agents/cem_agent.py:60-65 | the AF rule fires critical iff AF rate < 3, warning iff 3 <= AF < 5, nothing otherwise |
| CemAgent.FreeLimeLevel | agents/cem_agent.py:68-73 | Clinker is critical iff free lime > 4, warning iff 2.5 < free lime <= 4, normal otherwise |
| CemAgent.Co2Level | agents/cem_agent.py:76-81 | the CO2 rule fires critical iff CO2 > 1000, warning iff 800 < CO2 <= 1000, nothing otherwise |
| CemAgent.MillLevel | agents/cem_agent.py:84-89 | Grind is critical iff mill power > 6000, warning iff 5000 < p <= 6000, normal otherwise |
| CemAgent.SustainLevel | agents/cem_agent.py:60-81 | last writer wins: Sustain is critical iff CO2 > 1000 or (CO2 <= 800 and AF < 3), warning iff 800 < CO2 <= 1000 or (CO2 <= 800 and 3 <= AF < 5), normal iff CO2 <= 800 and AF >= 5 |
| CemAgent.StageLevels.AsMap | agents/cem_agent.py:49 | the severity dict has exactly the five stage keys |
| CemAgent.SeverityMap | agents/cem_agent.py:49-89 | exactly the keys Raw, Preheat, Clinker, Grind, Sustain; Raw is always normal; every value is normal, warning or critical |
| CemAgent.GroupSuggestion | agents/cem_agent.py:52-57 | a rule group contributes one message iff its level is not normal: exactly the critical message for critical, exactly the warning message for warning |
| CemAgent.Suggestions | agents/cem_agent.py:48-89 | one entry per rule group that fired, at most five, each one of the ten fixed messages; the groups are concatenated in block order kiln, AF, free lime, CO2, mill by definition |
| CemAgent.SuggestionsFollowBlockOrder | agents/cem_agent.py:51-89 | for every input, a fired kiln rule's message is the first suggestion and a fired mill rule's message the last |
| CemAgent.Report | agents/cem_agent.py:40-46 | the five-line echo of the readings starts with `Kiln Temp: ` and ends with ` kg/ton` and a newline |
| CemAgent.ReportText | agents/cem_agent.py:40-92 | the returned text starts with the report; when no rule fired, what follows the report is exactly the fallback line |
| CemAgent.KilnRule | agents/cem_agent.py:51-57 | the kiln block appends its group's suggestion and sets Preheat only when the rule fires |
| CemAgent.AfRule | agents/cem_agent.py:59-65 | the AF block appends its suggestion and sets Sustain only when the rule fires |
| CemAgent.FreeLimeRule | agents/cem_agent.py:67-73 | the free-lime block appends its suggestion and sets Clinker only when the rule fires |
| CemAgent.Co2Rule | agents/cem_agent.py:75-81 | the CO2 block appends its suggestion and overwrites Sustain only when the rule fires |
| CemAgent.MillRule | agents/cem_agent.py:83-89 | the mill block appends its suggestion and sets Grind only when the rule fires |
| CemAgent.AnalyzePlant | agents/cem_agent.py:32-94 | the returned severity is `SeverityMap` and the text is `ReportText` of the five metrics read from the input |
| CemAgent.SuggestionsMatchRaisedStages | agents/cem_agent.py:48-89 | the number of suggestions equals the number of stages raised above normal, plus one when the AF and CO2 rules both fired (they share Sustain) |
| CemAgent.NoSuggestionsIffAllNormal | agents/cem_agent.py:48-92 | there are no suggestions iff every stage of the severity map is normal |
| CemAgent.MessagesOutlastFallback | agents/cem_agent.py:53-92 | every suggestion message is longer than the fallback text |
| CemAgent.Join | agents/cem_agent.py:92 | `sep.join(parts)`: empty for no parts; otherwise it starts with the first part and its length is the parts' total length plus one separator between each pair of neighbours |
| CemAgent.JoinAfterPrefix | agents/cem_agent.py:92 | after a prefix, a non-empty join starts with the prefix and then its first line |
| CemAgent.ReportTextShape | agents/cem_agent.py:40-46 | the text starts with the five-line report; it is the report followed by the fallback iff no suggestion fired; otherwise the first suggestion follows the report directly, with no blank line |
| CemAgent.KilnBoundaryIsWarning | agents/cem_agent.py:52-57 | a kiln temperature of exactly 1500 gives Preheat warning, not critical |
| CemAgent.SustainLastWriterWins | agents/cem_agent.py:60-81 | AF 2 with CO2 850 gives Sustain warning although the AF rule on its own gives critical |
| CemAgent.AllWarningsScenario | agents/cem_agent.py:48-89 | a reading that trips every warning band gives five warning suggestions in rule order |
| CemAgent.LevelColor | agents/cem_agent.py:102-109 | normal is palegreen, warning gold, critical lightcoral, and any other level lightgrey |
| CemAgent.StageColor | agents/cem_agent.py:108-109 | a stage missing from the severity dict is coloured as normal |
| CemAgent.Chain | agents/cem_agent.py:110 | the edges join each stage to the next one |
| CemAgent.RenderProcessDiagram | agents/cem_agent.py:97-111 | one node per stage, in order, with its label and its severity colour; edges Raw to Preheat to Clinker to Grind to Sustain |
| CemAgent.EvaluationColorsAreKnown | agents/cem_agent.py:49-109 | for a severity map produced by the analysis, Raw is palegreen and no stage is lightgrey |
| AnomalyDetector.Mean | ai_models/anomaly_detector.py:6 | `Series.mean()` of a non-empty column: the mean times the length is the sum |
| AnomalyDetector.Trailing | ai_models/anomaly_detector.py:5-6 | the last `count` values of the column, for count at most its length |
| AnomalyDetector.BaselineLength | ai_models/anomaly_detector.py:6 | the baseline spans 3 windows when the column is that long, the whole column otherwise |
| AnomalyDetector.RecentMean | ai_models/anomaly_detector.py:5 | the recent mean times the window is the sum of the last `window` values |
| AnomalyDetector.BaselineMean | ai_models/anomaly_detector.py:6 | with at least 3 windows of history, the baseline times 3 * window is the sum of the last 3 * window values; with less, it is the mean of the whole column |
| AnomalyDetector.DetectDrift | ai_models/anomaly_detector.py:3-10 | None iff the column is shorter than the window; otherwise delta is the recent mean minus the baseline mean, and anomaly holds iff abs(delta) > threshold, strictly |
| AnomalyDetector.SumConcat | ai_models/anomaly_detector.py:5-6 | the sum over a concatenation is the sum of the sums |
| AnomalyDetector.SumConstant | ai_models/anomaly_detector.py:5-6 | n copies of c sum to n * c |
| AnomalyDetector.MeanConstant | ai_models/anomaly_detector.py:5-6 | the mean of a constant column is that constant |
| AnomalyDetector.ConstantHistoryNoDrift | ai_models/anomaly_detector.py:5-10 | a constant history gives delta 0 and no anomaly for any threshold >= 0 |
| AnomalyDetector.FullWindowNoDrift | ai_models/anomaly_detector.py:4-10 | a history exactly one window long gives delta 0 and no anomaly for any threshold >= 0 |
| AnomalyDetector.MeanOfTwoParts | ai_models/anomaly_detector.py:6-7 | the mean of two parts relates to the parts' means by their counts |
| AnomalyDetector.DeltaAgainstEarlierPart | ai_models/anomaly_detector.py:5-7 | delta is the recent mean minus the mean of the earlier part of the baseline, scaled by that part's share of the baseline |
| Kpis.Contains | dashboard/kpis.py:21 | Python's substring test: true only when the key word fits in the title, and always true for the empty key word |
| Kpis.ContainsAt | dashboard/kpis.py:21 | a match at a position makes the substring test true |
| Kpis.MissingFirstCharacter | dashboard/kpis.py:21-46 | a title lacking the first character of a key word does not contain it |
| Kpis.KilnBand | dashboard/kpis.py:22-24 | green iff 1430 <= v <= 1470; orange iff 1400 <= v < 1430 or 1470 < v <= 1500; red otherwise |
| Kpis.MillBand | dashboard/kpis.py:27-29 | green iff v < 4200, orange iff 4200 <= v < 4600, red iff v >= 4600 |
| Kpis.AfRateBand | dashboard/kpis.py:32-34 | green iff v >= 15, orange iff 10 <= v < 15, red iff v < 10 |
| Kpis.FreeLimeBand | dashboard/kpis.py:37-39 | green iff v < 1.5, orange iff 1.5 <= v < 2.5, red iff v >= 2.5 |
| Kpis.Co2Band | dashboard/kpis.py:42-44 | green iff v < 850, orange iff 850 <= v < 900, red iff v >= 900 |
| Kpis.SeverityIcon | dashboard/kpis.py:20-46 | unknown icon iff the title contains none of Kiln, Mill, AF Rate, Free Lime, CO2; otherwise the band of the first key word it contains, in that order |
| Kpis.MillTitleNamesMill | dashboard/kpis.py:10 | the mill tile's title contains Mill and not Kiln |
| Kpis.AfRateTitleNamesAfRate | dashboard/kpis.py:12 | the AF tile's title contains AF Rate and neither Kiln nor Mill |
| Kpis.FreeLimeTitleNamesFreeLime | dashboard/kpis.py:14 | the free-lime tile's title contains Free Lime and none of the earlier key words |
| Kpis.Co2TitleNamesCo2 | dashboard/kpis.py:16 | the CO2 tile's title contains CO2 and none of the earlier key words |
| Kpis.KilnTileUsesKilnBand | dashboard/kpis.py:8-24 | the kiln tile's icon is the kiln band of its value |
| Kpis.MillTileUsesMillBand | dashboard/kpis.py:10-29 | the mill tile's icon is the mill band of its value |
| Kpis.AfRateTileUsesAfRateBand | dashboard/kpis.py:12-34 | the AF tile's icon is the AF band of its value |
| Kpis.FreeLimeTileUsesFreeLimeBand | dashboard/kpis.py:14-39 | the free-lime tile's icon is the free-lime band of its value |
| Kpis.Co2TileUsesCo2Band | dashboard/kpis.py:16-44 | the CO2 tile's icon is the CO2 band of its value |
| Optimizer.OptimizeEnergy | ai_models/optimizer.py:2-9 | mill action iff mill power (default 0) > 4300; fuel action iff AF rate (default 0) < 20; no other actions; mill before fuel; a missing mill key gives no mill action and a missing AF key gives the fuel action; estimated savings always 1.2 |
| BatchGenerator.Timestamps | simulation/batch_generator.py:19 | n timestamps, the first equal to start, consecutive ones exactly one minute apart |
| BatchGenerator.TimestampsIncrease | simulation/batch_generator.py:19 | the timestamps are strictly increasing |
| BatchGenerator.ClipAfRate | simulation/batch_generator.py:24 | the result is in [0, 40]; in-range values are unchanged, values below 0 become 0 and values above 40 become 40 |
| BatchGenerator.GenerateData | simulation/batch_generator.py:17-27 | every column has n rows; timestamps from the grid; AF column is the clipped draws, all in [0, 40]; the other columns are the draws |
| BatchGenerator.ColumnsMatchLoadSchema | simulation/batch_generator.py:20-27 | the declared column-name list equals the warehouse load schema's field list (services/cloud/bigquery_client.py:19-26) |
| BatchGenerator.Basename | simulation/batch_generator.py:37 | the basename has no '/', is a suffix of the path, and is preceded by '/' when shorter than the path |
| BatchGenerator.DestinationBlob | simulation/batch_generator.py:37 | the blob name starts with the prefix and a '/', and its basename is the local file's basename |
| BatchGenerator.UploadUri | simulation/batch_generator.py:41 | the URI starts with `gs://`, the bucket and a '/', and the rest of it is the destination blob |
| BatchGenerator.BasenameAfterSlash | simulation/batch_generator.py:37 | the basename of dir + "/" + name is name when name has no '/' |
| BatchGenerator.UploadUriShape | simulation/batch_generator.py:37-41 | the URI starts with gs://bucket/prefix/ and its basename is the local file's basename |
| IngestApi.Newest | services/api/app.py:26-28 | empty iff the buffer is empty; otherwise the last reading appended |
| IngestApi.ReadingBuffer.constructor | services/api/app.py:17 | the buffer starts empty |
| IngestApi.ReadingBuffer.IngestReading | services/api/app.py:19-22 | the reading is appended at the end, earlier entries unchanged; status ok with the new length, the old length plus one |
| IngestApi.ReadingBuffer.LatestReading | services/api/app.py:24-28 | the newest reading, or empty for an empty buffer; declares no `modifies`, so the buffer is unchanged |
| IngestApi.ReplayIngests | services/api/app.py:19-28 | after k ingests into an empty buffer the acknowledged lengths are 1, 2, ..., k and `/latest` returns the last reading sent |

## Left out

- Graphviz presentation attributes (direction, size, shapes) of
  `render_process_diagram`: the model keeps only node names, labels, fill
  colours and edges.
- Float formatting in the report: `str(float)` is the parameter `format` of
  `CemAgent.AnalyzePlant`, uninterpreted.
- Floating point: readings are `real`. Rounding, NaN and pandas rolling-window
  NaN semantics are not modelled.
- CemAgent.AnalyzePlant: requires the five metric keys. With a key missing the
  source's `.get` returns None and the first comparison that reads the missing
  value raises TypeError; that failure is not modelled.
- CemAgent.AnalyzePlant: the input is a Dafny map, an immutable value, so "the
  input mapping is not modified" holds by construction.
- CemAgent.AnalyzePlant: the severity dict is kept as a record
  (`StageLevels`) and turned into a map once at the end. Each source rule block
  is a helper method (`KilnRule` ... `MillRule`) called in source order.
- AnomalyDetector.DetectDrift: the column is passed as a sequence of values
  rather than a DataFrame and a column name. The defaults (`column`
  clinker free lime, `window` 30, `threshold` 0.5) are left to callers.
- AnomalyDetector.DetectDrift: requires window >= 1. A negative window raises
  ValueError in pandas `rolling`, and a zero window gives a NaN delta; neither
  path is modelled.
- Random draws in `generate_data` are inputs (`Draws`). The clock reading
  (`utcnow`) is the parameter `start`, as whole microseconds.
- CSV writing, the storage-client upload and the progress prints in
  simulation/batch_generator.py; only the path arithmetic is modelled.
- BatchGenerator.Basename: POSIX paths only.
- BatchGenerator.GenerateData: takes n as a natural number, so the
  ValueError that `np.random.normal` raises for a negative n is not modelled.
- BatchGenerator.GenerateData: the `pd.to_datetime` re-assignment is a type
  conversion with no effect on values.
- Environment configuration (`NUM_ROWS` with its fallback 1440, bucket and
  prefix variables) and the `n=NUM_ROWS` default of `generate_data`: callers
  of `GenerateData` always pass the row count.
- FastAPI routing, pydantic validation, `async` and the dict conversion of a
  reading in services/api/app.py; the buffer stores the reading record.
- The Streamlit UI, polling loops, agent streaming, cloud clients,
  credentials, the realtime simulator and the generative controller are
  outside the modelled core.

## Notes

- The report ends with a newline, and the joined suggestions follow it
  directly; only the fallback text starts with its own newline, which gives
  a blank line in that case alone (agents/cem_agent.py:40-46, 92).
- `generate_data(0)` returns an empty table, so `GenerateData` accepts n = 0.
- A missing metric key makes `analyze_plant` raise TypeError at the first
  comparison that reads it, so the five keys are a precondition of
  `AnalyzePlant`.
