# Code Nexus data processors, streams and pipeline, in Dafny

This project models the three exercises of the Code Nexus module:

- **Data processors** (`ex0/stream_processor.py`), in `processors.dfy`:
  - the numeric processor counts, sums and averages a list of integers and checks that `int()` accepts every element;
  - the text processor counts characters and whitespace-separated words and says whether the text is *not* an integer;
  - the log processor reports the level announced by an entry's first token, followed by the remaining tokens.
- **Polymorphic streams** (`ex1/data_stream.py`), in `streams.dfy`:
  - sensor, transaction and event streams reset and recount their counters on every batch;
  - each stream has its own `filter_data`;
  - the `StreamProcessor` routes a dict of batches to the registered streams by stream id.
- **The Nexus pipeline** (`ex2/nexus_pipeline.py`), in `nexus.dfy`:
  - a pipeline threads a value through its stages and gives `None` as soon as a stage raises;
  - the JSON, CSV and Stream adapters differ only in what their `process` returns;
  - the `NexusManager` registers pipelines by name and chains them, skipping unknown names.

The Python semantics these rely on are modelled explicitly in `text.dfy`:

- `str.split()` splits on Python whitespace, which is the Unicode space set, not only ASCII.
- `str.split(sep)` splits on a single character.
- `int()` on a string accepts one optional sign and ASCII digits with single underscores between digits. Whitespace around the literal is stripped, but this is a narrower set than `str.split()` uses: the ASCII separator controls U+001C to U+001F are not stripped.
- `str()` of an integer.

Python values are the `Values.Value` datatype. `seqs.dfy` holds the order-preserving filter `Keep` that every `filter_data` loop computes.

Where Python mutates objects, the model uses classes:

- `Nexus.Pipeline`, `Nexus.Manager`, the three stream classes and `Streams.StreamProcessor` are classes with `modifies` frames.
- Loops in the source are `for`/`while` loops proved against specification functions (`RunResult`, `ChainResult`, `NetFlow`, `Keep`, `LogEntry`).

Two behaviours of the code are modelled as the code has them:

- `run` returns `None` when a stage raises.
- A stream's counters only exist after its first `process_batch`. Before that, `get_stats` raises `AttributeError`, which the model returns as `None`.

## Model

| member | source | states |
|---|---|---|
| Processors.FormatOutput | ex0/stream_processor.py:20-22 | the result is the input with exactly one double quote added at each end |
| Processors.TotalAppend | ex0/stream_processor.py:29-33 | the running sum of a concatenation is the sum of the parts |
| Processors.NumericProcess | ex0/stream_processor.py:28-36 | count is the list length, sum is the total, average times count is the sum, and the average is 0 for an empty list |
| Processors.NumericValidate | ex0/stream_processor.py:38-45 | True exactly when `int()` accepts every element (integers, booleans, and strings spelling an integer) |
| Processors.TextProcess | ex0/stream_processor.py:51-62 | characters is the string length; words is the number of maximal runs of non-whitespace |
| Processors.TextValidate | ex0/stream_processor.py:64-70 | True exactly when `int(data)` raises ValueError |
| Processors.TextValidateSpec | ex0/stream_processor.py:64-70 | the decimal form of any integer is rejected; any string holding a character foreign to integer literals is accepted |
| Processors.LogProcess | ex0/stream_processor.py:76-101 | the loop builds exactly the log line `LogEntry` defines: header of the first token's level, then the remaining tokens joined by one space |
| Processors.Headers | ex0/stream_processor.py:83-91 | ERROR level gives "[ALERT] ERROR level detected: ", INFO gives "[INFO] INFO level detected: ", and the two differ |
| Processors.BlankLogEntry | ex0/stream_processor.py:77-80 | an empty or all-whitespace entry gives "[INFO] Empty log entry" |
| Processors.LogEntryShape | ex0/stream_processor.py:77-101 | a non-blank entry gives the ERROR header exactly when its first token is "ERROR:", followed by a message whose tokens are exactly the entry's tokens after the first |
| Processors.DemoEntry | ex0/stream_processor.py:93-101 | a three-token entry gives the first token's header followed by the other two tokens separated by one space |
| Processors.DemoErrorEntry | ex0/stream_processor.py:133-137 | "ERROR: Connection timeout" gives "[ALERT] ERROR level detected: Connection timeout" |
| Processors.DemoInfoEntry | ex0/stream_processor.py:146 | "INFO: System ready" gives "[INFO] INFO level detected: System ready" |
| Processors.LogValidate | ex0/stream_processor.py:103-105 | every log entry is valid |
| Text.Words | ex0/stream_processor.py:52 | `str.split()`: every piece is a non-empty run of non-whitespace characters |
| Text.WordCountIsRunCount | ex0/stream_processor.py:52-56 | the number of pieces of `str.split()` is the number of maximal non-whitespace runs |
| Text.WordsOfBlank | ex0/stream_processor.py:77-80 | a string of whitespace only splits into no pieces |
| Text.WordsOfNonBlank | ex0/stream_processor.py:77-80 | a string with a non-whitespace character splits into at least one piece |
| Text.WordsOfJoin | ex0/stream_processor.py:93-99 | joining tokens with single spaces and splitting again gives back the tokens |
| Text.JoinSnoc | ex0/stream_processor.py:95-99 | appending a token to a joined message adds one separator and the token |
| Text.Split | ex1/data_stream.py:73 | `str.split(":")` gives at least one piece, none holding the separator |
| Text.JoinSplit | ex1/data_stream.py:73 | joining the pieces of `str.split(sep)` with `sep` gives back the string |
| Text.SplitAtFirst | ex1/data_stream.py:73-74 | splitting `a + sep + b`, where `a` holds no separator, gives `a` and then the pieces of `b` |
| Text.SplitWithoutSep | ex1/data_stream.py:48-49 | a string without the separator splits into itself alone |
| Text.ParseInt | ex0/stream_processor.py:67 | `int()` succeeds exactly when the text, stripped of `int()` whitespace, is an optionally signed digit group, and gives a negative number only after a minus sign; the value is pinned by `ParseIntSpaced`, `ParseLiteral`, `DigitsValueUnderscore`, `DigitsValueLeadingZero` and `DigitsValueOfShowNat` |
| Text.ParseIntSpaced | ex1/data_stream.py:76 | whitespace around a literal does not change what `int()` returns |
| Text.ParseLiteral | ex1/data_stream.py:76 | a digit group reads as the number its digits spell; with a plus sign as that number, with a minus sign as its negation |
| Text.SignedLiteral | ex1/data_stream.py:76 | a signed digit group reads as the signed value of its digits |
| Text.DigitsValueUnderscore | ex1/data_stream.py:76 | an underscore between digits does not change the value read |
| Text.DigitsValueLeadingZero | ex1/data_stream.py:76 | a leading zero does not change the value read |
| Text.SplitFirst | ex1/data_stream.py:73-74 | the first piece of `str.split(sep)` is the text before the first separator, or the whole string |
| Text.SeparatorControls | ex1/data_stream.py:76 | a separator control (U+001C to U+001F) before a literal is whitespace to `str.split()` but makes `int()` fail |
| Text.ParseShowInt | ex1/data_stream.py:76 | `int(str(n)) == n` for every integer |
| Text.ParseIntRejectsForeign | ex0/stream_processor.py:67 | `int()` raises on any string with a character that is not whitespace, digit, underscore or sign |
| Text.DigitsValueOfShowNat | ex1/data_stream.py:76 | the digits of `str(n)` spell `n` |
| Text.StripKeeps | ex1/data_stream.py:76 | stripping keeps the middle of the string in place, shifted by the leading whitespace, and every non-whitespace character lies in that middle |
| Text.ShowNat | ex0/stream_processor.py:62 | `str()` of a counter is non-empty and made of digits only; `DigitsValueOfShowNat` and `ParseShowInt` pin its value |
| Seqs.KeepAppend | ex1/data_stream.py:46-51 | filtering a concatenation is filtering the parts, so kept items stay in their order |
| Seqs.KeepOccurrences | ex1/data_stream.py:46-51 | each item is kept as often as it occurs when it matches, and never otherwise |
| Seqs.KeepMembership | ex1/data_stream.py:46-51 | an item is in the filtered list exactly when it is in the batch and matches |
| Seqs.KeepIdempotent | ex1/data_stream.py:46-51 | filtering the filtered list again with the same criteria changes nothing |
| Seqs.KeepAll | ex1/data_stream.py:46-51 | when every item matches, nothing is dropped |
| Streams.Tag | ex1/data_stream.py:73-74 | the transaction type is a colon-free prefix of the item, followed by the first colon or the end of the item |
| Streams.Amount | ex1/data_stream.py:75-82 | an item without a colon (IndexError) has amount 0; with `MalformedItem`, so does an item whose text after the colon is not an integer (ValueError) |
| Streams.MalformedItem | ex1/data_stream.py:75-86 | `tag:rest` whose piece after the colon `int()` rejects keeps its tag, has amount 0 and adds nothing to the net flow |
| Streams.BaseFilter | ex1/data_stream.py:14-15 | the base filter returns what both overrides return without criteria: the whole batch |
| Streams.TaggedItem | ex1/data_stream.py:73-82 | the item "tag:n" has tag `tag` and amount `n` |
| Streams.NetFlowIsBuysMinusSells | ex1/data_stream.py:83-86 | the net flow is the total amount of "buy" items minus that of "sell" items |
| Streams.DemoNetFlow | ex1/data_stream.py:169-171 | the batch buy:100, sell:150, buy:75 has net flow 25 |
| Streams.ErrorCountIsOccurrences | ex1/data_stream.py:115-118 | the number of "error" events is the number of occurrences of "error" |
| Streams.FilterByTag | ex1/data_stream.py:45-51 | the loop returns exactly the items whose tag matches the criteria, in order |
| Streams.FilterByValue | ex1/data_stream.py:121-126 | the loop returns exactly the items equal to the criteria, in order |
| Streams.FiltersWithoutCriteria | ex1/data_stream.py:14-15 | without criteria the base filter and both overrides return the whole batch |
| Streams.TagFilterSpec | ex1/data_stream.py:90-96 | the tag filter keeps only items with that tag, each as often as it occurs, and never lengthens the batch |
| Streams.ValueFilterSpec | ex1/data_stream.py:121-126 | the event filter returns the criteria repeated once per occurrence, and filtering again changes nothing |
| Streams.EventErrorsBounded | ex1/data_stream.py:112-119 | a batch never has more errors than events |
| Streams.SensorStream.constructor | ex1/data_stream.py:22-23 | a new stream has its id and no counters yet |
| Streams.SensorStream.ProcessBatch | ex1/data_stream.py:26-31 | the reading count is the batch length, whatever earlier batches were |
| Streams.SensorStream.FilterData | ex1/data_stream.py:45-51 | items whose tag matches the criteria, in order |
| Streams.SensorStream.GetStats | ex1/data_stream.py:53-57 | the stats exist exactly after a batch and hold the reading count |
| Streams.TransactionStream.constructor | ex1/data_stream.py:64-65 | a new stream has its id and no counters yet |
| Streams.TransactionStream.ProcessBatch | ex1/data_stream.py:67-88 | operations is the batch length and the net flow is `NetFlow` of this batch alone |
| Streams.TransactionStream.FilterData | ex1/data_stream.py:90-96 | items whose tag matches the criteria, in order |
| Streams.TransactionStream.GetStats | ex1/data_stream.py:98-102 | the stats exist exactly after a batch and hold operations and net flow |
| Streams.EventStream.constructor | ex1/data_stream.py:109-110 | a new stream has its id and no counters yet |
| Streams.EventStream.ProcessBatch | ex1/data_stream.py:112-119 | events is the batch length; errors is the number of "error" items, and never more than the events |
| Streams.EventStream.FilterData | ex1/data_stream.py:121-126 | items equal to the criteria, in order |
| Streams.EventStream.GetStats | ex1/data_stream.py:128-132 | the stats exist exactly after a batch and hold events and errors |
| Streams.Stream.ProcessBatch | ex1/data_stream.py:148 | dispatches the batch to whichever kind of stream the entry holds |
| Streams.StreamProcessor.constructor | ex1/data_stream.py:139-140 | a new processor holds no streams |
| Streams.StreamProcessor.AddStream | ex1/data_stream.py:142-143 | the stream goes after the ones already added |
| Streams.StreamProcessor.ProcessAll | ex1/data_stream.py:145-148 | every stream whose id is a key gets that batch's counters; every other stream keeps its own |
| Nexus.Validated | ex2/nexus_pipeline.py:29-30 | a dict gains `validated` = True and keeps every other entry; any other value is unchanged |
| Nexus.Apply | ex2/nexus_pipeline.py:14-37 | the built-in stages never raise; InputStage and OutputStage return their input; TransformStage returns the validated value, so its None guard changes nothing |
| Nexus.PassThroughStages | ex2/nexus_pipeline.py:14-19 | InputStage and OutputStage return what they are given, None included, and never raise |
| Nexus.TransformStageSpec | ex2/nexus_pipeline.py:22-32 | TransformStage never raises, keeps None and non-dicts, marks dicts as validated, and is idempotent |
| Nexus.Invoked | ex2/nexus_pipeline.py:48-55 | `run` never calls more stages than the pipeline has |
| Nexus.RunWithoutStages | ex2/nexus_pipeline.py:48-55 | with no stages, `run` returns its input |
| Nexus.ExecAppend | ex2/nexus_pipeline.py:49-51 | stages apply in list order, each fed the previous one's output |
| Nexus.RaisingStageEndsRun | ex2/nexus_pipeline.py:50-54 | once a stage raises, `run` returns None and no later stage is called |
| Nexus.NoRaiseRunsAll | ex2/nexus_pipeline.py:49-55 | when no stage raises, every stage is called |
| Nexus.StandardRun | ex2/nexus_pipeline.py:138-141 | input, transform and output stages give the validated value after three stage calls |
| Nexus.CallerView | ex2/nexus_pipeline.py:29-30 | the caller's value after a run is either unchanged or the validated version of itself |
| Nexus.CallerViewUnchanged | ex2/nexus_pipeline.py:86-103 | a non-dict, or a run with no TransformStage, leaves the caller's value unchanged |
| Nexus.AdapterResults | ex2/nexus_pipeline.py:73-103 | JSONAdapter returns `run`'s result; CSVAdapter and StreamAdapter return their own input, which only TransformStage's in-place mark can alter |
| Nexus.Pipeline.constructor | ex2/nexus_pipeline.py:42-43 | a new pipeline has no stages |
| Nexus.Pipeline.AddStage | ex2/nexus_pipeline.py:45-46 | the stage is appended, and runs after every earlier stage on its output |
| Nexus.Pipeline.Run | ex2/nexus_pipeline.py:48-55 | the loop returns `RunResult` and calls exactly `Invoked` stages |
| Nexus.Pipeline.Process | ex2/nexus_pipeline.py:73-103 | each adapter returns what `AdapterResult` gives for its kind |
| Nexus.ChainAppend | ex2/nexus_pipeline.py:114-119 | chaining `a + b` is chaining `b` on the result of chaining `a` |
| Nexus.ChainSkipsUnregistered | ex2/nexus_pipeline.py:115-117 | chaining through any names is chaining through only the registered ones |
| Nexus.MissingNameIsSkipped | ex2/nexus_pipeline.py:116-117 | an unknown name anywhere in the chain changes nothing, and an empty chain returns its input |
| Nexus.Manager.constructor | ex2/nexus_pipeline.py:108-109 | a new manager has no pipelines |
| Nexus.Manager.Register | ex2/nexus_pipeline.py:111-112 | the name now maps to the pipeline, and no other entry changes |
| Nexus.Manager.Chain | ex2/nexus_pipeline.py:114-119 | the loop returns `ChainResult` for the current registry |

## Left out

- Printing is not modelled: every `print` call, the `main`/`test` demonstration drivers, and `trigger_errors`, which only prints.
- The return strings of `process_batch` are not modelled: they embed Python's display of the batch list (`repr`).
- `format_stats` is not modelled: it only builds a sentence around the counter that `GetStats` already returns, and its only caller prints it.
- `NumericProcess` returns the count, the sum and the average as three numbers and does not build the sentence `process` returns, because that sentence shows the average as a Python float (or the integer 0 for an empty list); the average here is an exact real, and float rounding is not captured.
- Streams.SensorStream.GetStats: the map has no "avg temp" key. Sensor `avg temp` is not modelled. It is a float that `float()` parses from the first reading, or the text "N/A"; the model keeps only the reading count.
- `NumericValidate`: requires every element to be an integer, a boolean or a string. Python's `int()` raises `TypeError` for other values (None, lists, dicts), and `validate` does not catch that exception, so that path is not modelled.
- `Text.ParseInt` accepts ASCII digits only and any number of them. Python's `int()` also accepts other Unicode decimal digits, which the model rejects, and from Python 3.11 on it raises ValueError on literals of more than 4300 digits, which the model accepts.
- Custom stages (any object with a `process` method) are functions of their input: they are taken not to mutate the dict they receive and to return a different object. `Nexus.CallerView` relies on this.
- The same object registered under several names, or added twice to a `StreamProcessor`, is processed each time; nothing more about aliasing between pipelines is modelled.
- `Values.Value` has no floats, tuples or dicts with non-string keys, so the demonstration input `{"sensor": "temp", "value": 23.5}` cannot be written as it is. Every stage treats such values like any other non-dict or dict value, so no stage behaviour depends on them.
- The abstract base classes and the `ProcessingStage` protocol are not modelled as types. The stream kinds are a datatype over the three classes, and stages are a datatype of the three built-ins plus a custom stage.
