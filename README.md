# D&D monster pipeline — a Dafny model of its data-shaping core

The pipeline takes the catalog of monsters published by the D&D 5e API, picks
a sample of them seeded by today's date, fetches each sampled monster's full
record, projects it onto four fields (`name`, `hit_points`, `armor_class`,
`actions`), validates it against the `Monster`/`Action` schema and keeps the
records that pass, in sample order (the filter as its comment describes it;
see "Left out"). This project models that core in Dafny and
proves what it promises:

- `wrappers.dfy` — `Option` and `Result`.
- `pyjson.dfy` — decoded JSON values (`Json`), the Python operations applied to
  them (subscript, `dict.get`, truthiness) and the exceptions they raise.
- `schema.dfy` — the `Action` and `Monster` models: what `Monster(**d)` accepts
  (`IsMonster`, `MonsterFromJson`) and what `model_dump()` returns.
- `sampler.dfy` — `select_random_monsters`: the `%Y-%m-%d` seed string and the
  sample drawn with it. The generator is a parameter `draw` known only by its
  contract (`SamplerContract`: k pairwise-distinct positions below n).
- `transform.dfy` — `transform_monster_data`, with Python's left-to-right
  evaluation and the exceptions its subscripts raise, and an
  independent description (`Transformable`) of the records it accepts.
- `flow.dfy` — `validate_data` and `main_flow`: url extraction, fetch then
  projection per url, validation, and the removal of rejected records.
- `detail_cache.dfy` — the caching and retry contract on
  `fetch_monster_details`. The class `DetailFetcher` holds the result store
  (keyed by the url, no expiry) and a request counter. Its method runs at most
  `1 + retries = 3` attempts in a loop. Failures are never stored. The request
  function `net` answers each request by its url and its position among all
  requests issued, so answers may change from one request to the next.

The `fetch` parameter of `MainFlow` stands for one
`DetailFetcher.FetchMonsterDetails` call per url. Each such call returns
`Resolve` of the store and the request count as they were before that call.
`flow.dfy` does not relate the two formally: the store and the count change
from one call of a run to the next (see "Left out").

Behaviour worth noting, as the code has it:

- A count below 0 or above the catalog size raises `ValueError`. The catalog is
  not returned whole.
- There is no per-item failure list. A sampled record whose fetch or projection
  raises fails the whole run (`OneFailureFailsRun`). Only schema rejections are
  dropped quietly, and only as the intent of the filter at
  `src/pipeline.py:157-158` describes (see "Left out").
- There is no range check on `hit_points` or `armor_class`.

## Model

| member | source | states |
|---|---|---|
| Schema.ActionFromJson | src/pydantic_classes.py:4-6 | an `Action` is built exactly when both `name` and `desc` are strings |
| Schema.ActionsFromJson | src/pydantic_classes.py:12 | a list of actions validates iff every element is a valid action; the result has one action per element, in order |
| Schema.MonsterFromJson | src/pydantic_classes.py:8-12 | `Monster(**d)` succeeds iff `name` is a string, `hit_points` an integer, `armor_class` an integer or null, and `actions` a list of valid actions (both directions); the monster carries the dictionary's values field for field, with `None` armor exactly for null |
| Schema.ActionToJson | src/pipeline.py:125 | an action dumps to a dictionary with exactly `name` and `desc`, which validates back to the same action |
| Schema.MonsterToJson | src/pipeline.py:125 | `model_dump()` output meets the schema and has exactly the model's fields |
| Schema.DumpIsSchemaView | src/pipeline.py:123-125 | validating then dumping a conforming dictionary keeps `name`, `hit_points` and `armor_class` and each action's `name` and `desc`, and drops every other key |
| Schema.DumpThenValidate | src/pydantic_classes.py:8-12 | round trip: validating a dumped monster gives the same monster |
| Schema.ValidateThenDump | src/pipeline.py:123-125 | round trip: a conforming dictionary with only the schema's fields is dumped back unchanged |
| Schema.NoActionsIsValid | src/pydantic_classes.py:8-12 | a dictionary whose other fields meet the schema and whose `actions` is `[]` validates, to a monster with no actions |
| Schema.OneBadActionSpoilsMonster | src/pydantic_classes.py:12 | one invalid action makes the whole monster invalid |
| Sampler.DigitsRoundTrip | src/pipeline.py:49 | a zero-padded decimal field reads back as the number it encodes |
| Sampler.DateSeed | src/pipeline.py:49 | the seed string is ten characters with `-` at positions 4 and 7 |
| Sampler.DateSeedRoundTrip | src/pipeline.py:49 | the `%Y-%m-%d` string of a date parses back to that date |
| Sampler.DistinctDaysDistinctSeeds | src/pipeline.py:49-50 | two different days give two different seeds (daily rotation) |
| Sampler.SelectRandomMonsters | src/pipeline.py:36-53 | `ValueError` iff count is negative or exceeds the list; otherwise exactly `count` entries, the list read at `count` pairwise-distinct positions, each an entry of the list |
| Sampler.SameDaySameSample | src/pipeline.py:37-40 | two runs on the same calendar date give the same sample, whatever the time of day |
| Sampler.PickDistinctSubMultiset | src/pipeline.py:51 | entries taken at pairwise-distinct positions form a sub-multiset of the list |
| Sampler.SampleIsSubMultiset | src/pipeline.py:50-51 | the sample never holds an entry more often than the catalog does |
| Sampler.SampleHasNoDuplicates | src/pipeline.py:50-51 | a catalog without repeats gives a sample without repeats |
| Transform.MapAll | src/pipeline.py:102-105 | a comprehension succeeds iff every element succeeds, keeps length and order, and otherwise raises the exception of the first element that fails |
| Transform.ProjectAction | src/pipeline.py:103 | an action projects iff it is a dictionary with `name` and `desc`; the output has exactly those two keys, copied |
| Transform.ArmorClass | src/pipeline.py:101 | the `armor_class` expression succeeds iff the value read by `get` is falsy or is a non-empty list whose first entry is a dictionary with `value`; it gives null for a falsy value and that `value` otherwise |
| Transform.Actions | src/pipeline.py:102-105 | the comprehension succeeds iff the `actions` value read by `get` (default `[]`) is a list of dictionaries with `name` and `desc`, or an empty string or empty dictionary (giving `[]`); for a list it gives the projections one for one |
| Transform.TransformMonsterData | src/pipeline.py:98-106 | succeeds iff the record is `Transformable`; a non-dictionary is a `TypeError`, a missing `name` or `hit_points` a `KeyError` in that order; the output has exactly the four keys, with `name` and `hit_points` copied |
| Transform.TransformArmorClass | src/pipeline.py:101 | `armor_class` is the first entry's `value` when the raw value is a non-empty list, and null when the key is absent or its value is falsy |
| Transform.ArmorClassWithoutValue | src/pipeline.py:101 | a first armor entry lacking `value` raises `KeyError('value')` |
| Transform.TransformActions | src/pipeline.py:102-105 | output actions match the raw actions one for one, in order, keeping only `name` and `desc`; no `actions` key gives `[]` |
| Transform.ActionWithoutKeysFails | src/pipeline.py:103-104 | an action lacking `name` or `desc` makes the projection raise |
| Flow.ValidateData | src/pipeline.py:109-129 | raises `AttributeError` exactly for a non-dictionary (from the handler's `.get`); otherwise `Some` iff the record meets the schema, and the result is the record's schema fields, field for field; on a record with only the schema's fields it returns the record itself |
| Flow.TransformedHasOnlySchemaFields | src/pipeline.py:98-106 | every projected record has exactly the schema's fields, each action exactly `name` and `desc` |
| Flow.ValidateTransformed | src/pipeline.py:154-155 | validating a projected record returns it unchanged when it meets the schema and `None` otherwise |
| Flow.DropNones | src/pipeline.py:158 | the filtered list is no longer than its input and holds only values that were `Some` |
| Flow.DropNonesAppend | src/pipeline.py:158 | the `None` filter keeps order: it distributes over concatenation |
| Flow.DropNonesKeepsValues | src/pipeline.py:158 | a value is in the filtered list iff it was present as `Some` |
| Flow.KeepValid | src/pipeline.py:155-158 | the reference aggregate holds only records of the input that meet the schema, no more of them than the input |
| Flow.AggregateValid | src/pipeline.py:155-158 | validating every record and filtering succeeds iff every record is a dictionary; what is kept meets the schema, with no more records than the input |
| Flow.AggregateIsKeepValid | src/pipeline.py:155-158 | validating and dropping `None`s equals keeping the schema-conforming projected records in order |
| Flow.ExtractUrls | src/pipeline.py:151 | succeeds iff every sampled entry is a dictionary with `url`; the urls follow the sample order |
| Flow.FetchAndTransform | src/pipeline.py:153-154 | an item succeeds iff its fetch and its projection do; the result has exactly the schema's fields |
| Flow.SampledUrls | src/pipeline.py:148-151 | `ValueError` for an out-of-range count; succeeds iff the sample succeeds and every sampled entry is a dictionary with `url`; the urls are the `url` fields of the catalog entries at `num_monsters` pairwise-distinct positions, in sample order |
| Flow.MainFlow | src/pipeline.py:146-160 | the run succeeds iff the sample, its urls and every item succeed; its records are the projected records that meet the schema, in sample order, at most `num_monsters` of them |
| Flow.EmptyAsk | src/pipeline.py:149-158 | asking for zero monsters gives an empty result |
| Flow.OneFailureFailsRun | src/pipeline.py:153-158 | one item whose fetch or projection raises fails the whole run |
| DetailCache.Retry | src/pipeline.py:55-57 | the outcome is the answer to one of at most three attempts; a failure only after the last attempt |
| DetailCache.RetryEarlierFailed | src/pipeline.py:55-57 | every attempt before the one that ended the retries failed |
| DetailCache.Resolve | src/pipeline.py:55-62 | a stored url gives its record; otherwise a failure means all three requests failed, and a success is the answer to one of the three |
| DetailCache.StoredRecordIgnoresNetwork | src/pipeline.py:55-65 | with no expiry, a stored record is returned whatever the network would answer and however many requests came before |
| DetailCache.FailureThenSuccess | src/pipeline.py:55-61 | a failed call stores nothing: a later call for the same url requests afresh and can succeed |
| DetailCache.DetailFetcher.FetchMonsterDetails | src/pipeline.py:55-86 | returns `Resolve` of the store and request count before the call; a hit issues no request and leaves the store alone; a miss issues exactly the attempts the retry policy used, at most three, and stores the record only on success |
| DetailCache.FetchTwice | src/pipeline.py:55-65 | after a successful first fetch the second returns the same record with no further request; after a failed one, nothing was stored and the second call requests afresh, after the first call's three requests |
| PyJson.Truthy | src/pipeline.py:101 | exactly `None`, `False`, `0`, `""`, `[]` and `{}` are falsy |
| PyJson.SubscriptErrors | src/pipeline.py:99-103 | a subscript raises `KeyError` only on a dictionary and only of the key asked for, `IndexError` only on a list or string, and succeeds only on those three kinds of value |
| PyJson.SubscriptListPositions | src/pipeline.py:101 | a list position is readable exactly from `-len` to `len - 1`, otherwise `IndexError`; a negative position reads from the end |
| PyJson.GetIsSubscriptWithDefault | src/pipeline.py:101-104 | `d.get(k, default)` is `d[k]` when that succeeds and the default when it raises, which it does exactly with `KeyError(k)` for a missing key |
| PyJson.TruthyGetIsPresent | src/pipeline.py:101 | a truthy `raw_data.get("armor_class")` means `raw_data["armor_class"]` succeeds and reads the same value |

## Left out

- The HTTP requests (`fetch_monster_list` and the request inside `fetch_monster_details`): the catalog list is an input, and the detail request is a parameter (`fetch` in `Flow.MainFlow`, `net` in `DetailCache`).
- The Mersenne Twister behind `random.Random(seed).sample`: the draw is the parameter `draw`, specified only by its contract.
- `datetime.now()` and its time zone: the clock reading is the parameter `now`.
- Sampler.DateSeed: `%Y` is written as four zero-padded digits. Years before 1000 are padded differently on some platforms, and that difference is not modelled.
- Orchestration runtime behaviour: retry delays, persisted results, the one-day expiry and three retries of `fetch_monster_list`, and the parallel execution of `.map`. The flow is modelled over resolved values, sequentially.
- The retries on `transform_monster_data` are not modelled. The projection is deterministic, so a retry raises again.
- Flow.MainFlow: when several items raise, the run reports the first failing item in sample order. Which error the runtime actually surfaces is not modelled.
- Flow.MainFlow: the fetch outcomes are an input, one per url. How they arise from `DetailCache.DetailFetcher` calls made in parallel (the store's state and the order of the requests within one run) is not threaded through a run.
- Flow.MainFlow: the filter at `src/pipeline.py:158` iterates over the futures that `validate_data.map` returns, and a future is never `None`, so as written it drops nothing. The model follows the intent stated in the comment at line 157: it filters the resolved values. It likewise passes resolved values from one `.map` to the next.
- Sampler.ValidDate: dates follow the proleptic Gregorian calendar of years 1 to 9999, as `datetime` does.
- The cache key also hashes the decorated function's own code. For a fixed program this is keyed by the url alone, and the model keys by the url only.
- Pydantic's lax coercions (numeric strings, integral floats or booleans accepted as `int`): type checks are strict. JSON floating-point numbers are not modelled.
- The key order of output dictionaries is not modelled, because Dafny maps are unordered.
- `write_output` (file writing), the log messages, and the command-line entry point (`src/main.py`).
