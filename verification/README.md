# Timing attribution in the interface's logger, and its chain constants

This project models three files of the interface repository and proves properties of the model.

- `src/utils/logger/measure.ts` is the timing engine.
  - `timeCallback` looks up the nearest `LoggingState` of the current zone, falling back to the inert `DEFAULT_STATE`. It works out a parent name and runs the callback. It then rewrites the metadata from the outcome. If the state is still logging when the callback settles, it appends one measurement.
  - `timeAndLogCallback` forks a zone that carries a fresh logging state and runs `timeCallback` in it. When the callback settles, it switches logging off and hands the list to `onMeasures`, exactly once.
  - `squelch` wraps a callback so that it runs in a fork whose state never logs.
- `src/utils/logger/index.ts` builds `time`, `wrap` and `fetch` from that engine. It also has the classifier `errorOn5xx`, which marks the 5xx "Server Error" class of section 15.6 of RFC 9110.
- `src/constants/chains.ts` holds:
  - the numeric enum `SupportedChainId`;
  - the names table;
  - the guard `isSupportedChain`;
  - the id lists derived from them.

Files:

- `options.dfy`: `Option`. An `undefined` becomes `None`.
- `measure.dfy`, module `Measure`. zone.js is replaced by an explicit `Zone` tree: `Root`, or a `Fork` with a name, a parent and optionally its own logging state.
  - A callback is a scripted `Task`. It can:
    - settle after some clock ticks;
    - await a sub-callback, where a rejection propagates;
    - detach a continuation that outlives it;
    - make a nested timed call;
    - invoke a squelched sub-callback.
  - `LoggingState` is a class whose fields are updated in place. Zones share it by reference.
  - `Runtime` holds the monotone clock `now` and `DEFAULT_STATE`. Its methods run tasks and change the states step by step, as the source does.
  - Each method is proved against the ghost specification `Records`. `Records` is the list of measurements a run appends to the logging state of its zone. The properties of what gets recorded are lemmas about `Records`.
- `logger.dfy`, module `Logger`: `time`, `wrap`, `fetch` and `errorOn5xx`.
  - The consumer of a flush is a `Sink`. It records every list it receives, which stands for `send`. In debug mode it also records the last measurement of the list, which the console headline reads.
- `chains.dfy`, module `Chains`: the enum, with its numbers and its reverse mapping from number to name.
  - `Object.values` of the enum object is modelled in JavaScript's property order: first the names under the integer-like keys, ascending; then the numbers under the name keys, in declaration order.
  - It is then filtered to the numbers.
- `scenarios.dfy`: the scenarios of `src/utils/logger/measure.test.ts`, as verified client methods of the model. Every scenario of that file is replayed except the squelch "rejects" one (see "Left out"). Two more scenarios cover a rejection with `undefined` or `null`.

Read as "the nearest enclosing zone whose name differs from the timing's", the parent rule would differ from the code at `src/utils/logger/measure.ts:36`, which skips one level only. The model follows the code and relates it to that reading:

- `ParentIsNearestDistinct` shows that, in any forked zone, the two agree unless the zone and its parent share the timing's name.
- `ParentSkipsOneLevelOnly` shows that in that case the recorded parent is the timing's own name.
- `ParentAtRootIsRootName` shows that in the root zone itself the code records `<root>`, while the other reading records no parent.

A callback that rejects with `undefined` or `null` makes `error.toString()` throw inside the `catch` at `src/utils/logger/measure.ts:44`. So `timeCallback` rejects with that TypeError instead, and the timing is recorded without an `error` key.

## Model

| member | source | states |
|---|---|---|
| Measure.Nearest | src/utils/logger/measure.ts:35 | The state found is one set on the zone or an ancestor. A zone that sets its own state finds that one, and a zone that does not finds its parent's. None is found exactly when no zone on the path sets one, and then `DEFAULT_STATE` is used. |
| Measure.SiteOf | src/utils/logger/measure.ts:36 | The parent rule reads the zone's name (`<root>` for the root) and its parent's name, which is absent when the parent is the root or there is no parent. |
| Measure.ParentName | src/utils/logger/measure.ts:36 | A zone whose name differs from the timing's is the parent. No parent is recorded only when the names match and the zone's parent is the root. The timing's own name is recorded only when the zone's parent has it too. |
| Measure.ParentAtRootIsRootName | src/utils/logger/measure.ts:36 | In the root zone, a timing records `<root>` as its parent. |
| Measure.ToStringFailure | src/utils/logger/measure.ts:44 | Calling `toString()` on `undefined` or `null` throws a TypeError with a message. |
| Measure.Rethrown | src/utils/logger/measure.ts:39-46 | `timeCallback` resolves exactly when its callback does. It resolves or rejects with the same value, except that a nullish rejection becomes the TypeError, so it never rejects with `undefined` or `null`. |
| Measure.ParentIsNearestDistinct | src/utils/logger/measure.ts:36 | The parent is the zone's name when it differs from the timing's name. Otherwise it is the parent zone's name, or absent under the root. This never equals the timing's own name unless two nested zones share it. |
| Measure.ParentSkipsOneLevelOnly | src/utils/logger/measure.ts:36 | Under two nested zones both called `name`, a timing called `name` records `name` as its parent. |
| Measure.LoggingState.constructor | src/utils/logger/measure.ts:12-20 | A new state has the given flag and an empty list. |
| Measure.LoggingState.Push | src/utils/logger/measure.ts:51 | Appends exactly the measurement and leaves the flag alone. |
| Measure.LoggingState.StopLogging | src/utils/logger/measure.ts:71 | Clears the flag and leaves the list alone. |
| Measure.Settled | src/utils/logger/measure.ts:39-45 | On success the metadata is `onResult(result, metadata)`, or undefined without `onResult`, so the supplied metadata is dropped. On failure it is the supplied keys with their values, plus `error` set to the error's string form, and no other key. On a nullish failure the supplied metadata is kept unchanged. |
| Measure.Detail | src/utils/logger/measure.ts:49 | `parent` is present exactly when a parent was computed, with that value. Every other key is present exactly when it is in the metadata, with the same value. |
| Measure.RecordsWithinRun | src/utils/logger/measure.ts:38-47 | Every recorded measurement starts no earlier than the run and ends no later than the run's end, with its start no later than its end. |
| Measure.RecordsInCompletionOrder | src/utils/logger/measure.ts:46-52 | Measurements are appended as the timed calls settle: their end times never decrease along the list. |
| Measure.RecordsCarryParent | src/utils/logger/measure.ts:36-49 | Every recorded measurement's `parent` is what the parent rule gives for its name in the zone it ran in. |
| Measure.RecordsAreExposed | src/utils/logger/measure.ts:78-81 | Only timed calls that no squelch encloses are recorded. |
| Measure.NothingExposedNothingRecorded | src/utils/logger/measure.ts:79-80 | A callback whose every timed call sits under a squelch records nothing into the enclosing state. |
| Measure.OnlyOwnMeasurement | src/utils/logger/measure.ts:46-52 | A timed call whose callback exposes no timed call records exactly one measurement, its own, with its name, its times and its detail. This covers a timed call wrapping a squelched callback. |
| Measure.OwnMeasurementLast | src/utils/logger/measure.ts:68-73 | Of a timed call, the last recorded measurement is its own, so a root's flushed list is never empty. |
| Measure.Sink.constructor | src/utils/logger/service.ts:17-19 | A new consumer has received nothing. |
| Measure.Sink.Receive | src/utils/logger/index.ts:23-31 | Records the list it is handed. In debug mode it also records the list's last element; the source indexes that element unguarded, so it requires a non-empty list. |
| Measure.Squelcher.constructor | src/utils/logger/measure.ts:78-81 | `squelch` allocates one inert, empty state per wrapper, when the wrapper is created. |
| Measure.Runtime.constructor | src/utils/logger/measure.ts:22 | `DEFAULT_STATE` starts inert and empty. |
| Measure.Runtime.RunTask | src/utils/logger/measure.ts:40 | Running a callback settles it as its script says and advances the clock by its elapsed time. No flag changes. Only the nearest state, and only when it is logging, gains measurements, and they are exactly `Records`. `DEFAULT_STATE` stays inert and empty. Every detached continuation either sees the same nearest state or an inert one. |
| Measure.Runtime.TimeCallback | src/utils/logger/measure.ts:28-54 | `timeCallback` returns or rethrows exactly the callback's outcome, except that a nullish rejection becomes the TypeError. It appends to the nearest state when, and only when, that state logs at completion, and what it appends is the nested timings followed by its own measurement. Everything else is left unchanged. |
| Measure.Runtime.Invoke | src/utils/logger/measure.ts:80 | A squelched callback yields the callback's outcome, changes no enclosing state, and leaves the squelch state inert and empty. Everything it detaches runs against an inert state. |
| Measure.Runtime.RunDetached | src/utils/logger/measure.ts:70-71 | A continuation that runs in a zone that no longer records settles as its script says and changes no state its zone can see. |
| Measure.Runtime.RunStragglers | src/utils/logger/measure.ts:70-71 | Running the continuations that outlived their root changes no state they can see, because all of those states have stopped logging. |
| Measure.Runtime.TimeAndLogCallback | src/utils/logger/measure.ts:57-75 | `timeAndLogCallback` settles as its inner `timeCallback` does. The fresh root state ends non-logging and holds exactly `Records` of the root timing. `onMeasures` is called exactly once, with that list. The enclosing zones' states are untouched. |
| Logger.Wrapped | src/utils/logger/index.ts:22 | The optionally squelched callback settles like the callback and takes as long. When squelched it exposes no timed call, and otherwise it is the callback itself. |
| Logger.Time | src/utils/logger/index.ts:19-35 | `time` settles as its inner `timeCallback` does and hands exactly one list to `send`. With `squelch` that list holds only the root measurement. With `debug` the headline is the root measurement, whose duration is the callback's elapsed time. |
| Logger.Wrap | src/utils/logger/index.ts:56-58 | `wrap` is `timeCallback` with the optionally squelched callback and the options' metadata and `onResult`. It records nothing outside a logging root, and with `squelch` it records exactly one measurement. |
| Logger.NatToString | src/utils/logger/index.ts:63 | `status.toString()` is a non-empty string of decimal digits with no leading zero. |
| Logger.NatToStringRoundTrip | src/utils/logger/index.ts:63 | Reading the status string back as a decimal gives the status. |
| Logger.NatToStringInjective | src/utils/logger/index.ts:63 | Distinct statuses give distinct status strings. |
| Logger.ErrorOn5xx | src/utils/logger/index.ts:61-64 | `status` is always present. It is the status's decimal string, which reads back as the status code. `error` is present exactly for 500 to 599, and then it is the status text. |
| Logger.ErrorOn5xxOn4xx | src/utils/logger/index.test.ts:5-8 | A 400 response gives `{status: '400'}`. |
| Logger.ErrorOn5xxOn5xx | src/utils/logger/index.test.ts:10-13 | A 500 response gives `{status: '500', error: 'Internal Server Error'}`. |
| Logger.UrlOf | src/utils/logger/index.ts:51 | A string input is its own URL, and a `Request` gives its `url`. |
| Logger.OnResponseOf | src/utils/logger/index.ts:52 | A supplied `onResponse` is used as it is, and an omitted one is `errorOn5xx`. |
| Logger.AsOnResult | src/utils/logger/index.ts:49 | The `onResult` passed to `timeCallback` gives `onResponse(response)` whatever metadata it is handed. |
| Logger.Fetch | src/utils/logger/index.ts:45-53 | `fetch` settles as the network request does (a nullish rejection becoming the TypeError), hands exactly one list to `send`, never prints, and times the request seeded with `{url}` and classified by `onResponse`, or by `errorOn5xx` when that is omitted. |
| Logger.FetchDetail | src/utils/logger/index.ts:49-52 | On a response, the recorded detail is exactly what `onResponse` derived, plus the parent, so the seeded `url` is gone. On a network failure, it is exactly `url` and `error`, plus the parent, or `url` alone plus the parent when the rejection is nullish. |
| Logger.FetchDefaultFlagsServerErrors | src/utils/logger/index.ts:49-64 | With the default classifier, a response's detail has no `url`, and it keeps the status. It carries `error` exactly for a 5xx status. |
| Chains.DeclaredListsEveryMember | src/constants/chains.ts:9-27 | The declaration order lists each of the twelve members exactly once. |
| Chains.ByValueSortsDeclared | src/constants/chains.ts:9-27 | The integer-key enumeration order lists every member once, by strictly ascending number. |
| Chains.ValueInjective | src/constants/chains.ts:9-27 | No two members share a number. |
| Chains.FromValue | src/constants/chains.ts:52 | The reverse mapping finds the member with that number, and finds nothing exactly when no member has it. |
| Chains.NameValues | src/constants/chains.ts:47 | The values under the integer-like keys are the members' names, one for each key, in key order. |
| Chains.NumberValues | src/constants/chains.ts:47 | The values under the name keys are the members' numbers, one for each key, in key order. |
| Chains.EnumValues | src/constants/chains.ts:47 | `Object.values` of the enum object lists the names in ascending number order, then the numbers in declaration order, and nothing else. |
| Chains.Numbers | src/constants/chains.ts:47-49 | The `typeof id === 'number'` filter keeps a number exactly when it is among the values, and never lengthens the list. |
| Chains.NumbersDistributes | src/constants/chains.ts:47-49 | Filtering to numbers distributes over concatenation. |
| Chains.NoNumberAmongNames | src/constants/chains.ts:47-49 | The names under the integer keys are all filtered out. |
| Chains.NumbersOfNumberValues | src/constants/chains.ts:47-49 | The numbers under the name keys are all kept, in order. |
| Chains.AllSupportedChainIdsAreTheNumbers | src/constants/chains.ts:47-49 | `ALL_SUPPORTED_CHAIN_IDS` is the members' numbers in declaration order, with none of the reverse-mapped names. |
| Chains.DeclaredNumbers | src/constants/chains.ts:9-27 | The members' numbers in declaration order are 1, 5, 42161, 421613, 10, 420, 137, 80001, 42220, 44787, 288, 2888. |
| Chains.TwelveIds | src/constants/chains.ts:9-27 | Those twelve numbers are distinct, and a number is among them exactly when the reverse mapping knows it. |
| Chains.AllSupportedChainIdsListed | src/constants/chains.ts:47-49 | `ALL_SUPPORTED_CHAIN_IDS` is exactly the twelve ids, once each, and a number is on it exactly when it is a member's. |
| Chains.Lookup | src/constants/chains.ts:52 | `SupportedChainId[chainId]` is defined exactly for the members' numbers, and then it is the member's non-empty name. |
| Chains.IsSupportedChain | src/constants/chains.ts:51-53 | The guard holds exactly for a number that the reverse mapping knows. |
| Chains.IsSupportedChainExactly | src/constants/chains.ts:51-53 | `isSupportedChain` accepts a value exactly when it is a number that some member has, that is, one of the ids on `ALL_SUPPORTED_CHAIN_IDS`. |
| Chains.IsSupportedChainRejectsFalsy | src/constants/chains.ts:51-53 | `null`, `undefined` and `0` are rejected. |
| Chains.MembersSupported | src/constants/chains.ts:51-53 | Every member's number passes the guard. |
| Chains.ChainNamesTotalAndDistinct | src/constants/chains.ts:29-42 | The constant `CHAIN_IDS_TO_NAMES` has a name for every member's number and for nothing else, and no two ids share a name. |
| Chains.L1AndL2Partition | src/constants/chains.ts:90-112 | Of the constants `L1_CHAIN_IDS` and `L2_CHAIN_IDS`: every chain is on exactly one of `L1_CHAIN_IDS` and `L2_CHAIN_IDS`. Neither list repeats an id, and together they have the twelve ids. |
| Chains.DerivedListsWellFormed | src/constants/chains.ts:55-83 | The constants `TESTNET_CHAIN_IDS`, `SUPPORTED_GAS_ESTIMATE_CHAIN_IDS` and `UNSUPPORTED_V2POOL_CHAIN_IDS` name only ids that pass the guard, each at most once. |

## Left out

- zone.js itself (`src/utils/logger/measure.ts:1`): the current zone is an explicit parameter. Continuations are scheduled without being awaited, and they run one after the other once the root that spawned them has flushed. Interleavings where a continuation runs before the root settles are not modelled.
- Time: `performance.now` floating-point timestamps are a natural-number clock that only moves forward. `performance.measure` is the constructor `Measurement`, and a measurement's duration is `end - start`.
- Metadata: values are kept in serialized string form. A `parent` that is `undefined` is treated as absent, as serialization and the tests' `toEqual` treat it. A thrown value other than `undefined` and `null` is represented by its `toString()` text. The TypeError that `toString()` on `undefined` or `null` throws carries V8's message text; other engines word it differently.
- `onResult` and `onResponse` are total functions. An `onResult` that throws is not modelled.
- `LOGGING_KEY` is implicit: a `Fork` carries its logging-key property as its `state` field. Zone properties other than the logging state are not modelled.
- A `Task` runs its steps one after the other. Awaited siblings cannot overlap, as in `Promise.all([wrap(a), wrap(b)])`. A rejection cannot be caught and execution continued, as in `try { await wrap(a) } catch {}`. So the model never records a failed measurement followed by a successful sibling in the same callback, and never interleaves the measurements of concurrent siblings.
- A callback cannot itself start a new logged root (`timeAndLogCallback` or `time` inside a scripted callback). Only `timeCallback` (`wrap`) and `squelch` can be nested.
- A `Squelched` node builds its wrapper when it runs. Reusing one wrapper across invocations is still modelled by `Measure.Runtime.Invoke`, which may be called repeatedly on the same `Squelcher`. The wrapper's state provably stays inert and empty, so sharing it is not observable.
- The console output of `time`'s debug mode (`src/utils/logger/index.ts:24-28`) is I/O. Only the measurement its headline reads is recorded.
- `send` and the swappable timings service (`src/utils/logger/service.ts`) are represented by the `Sink` each call receives. The service's own promise is fire-and-forget and is not modelled.
- `window.fetch` is network I/O. It is a scripted `Task<Response>`. `init` only reaches it and is not modelled. Of a `Response`, only `status` and `statusText` are modelled.
- Measure.Runtime.TimeAndLogCallback: the clock is only bounded below after the call (`now >= old(now) + elapsed`), because the detached continuations also advance it.
- Chains.IsSupportedChainExactly: only integer arguments are modelled. Fractional numbers and `NaN` are not, and neither is a number whose string form would name a property other than a reverse mapping.
- The types `SupportedTestnetChainId`, `SupportedL1ChainId` and `SupportedL2ChainId` are compile-time only. They are represented by the lists they are derived from.
- The squelch "rejects" test (`src/utils/logger/measure.test.ts:163-165`) passes the wrapper without invoking it, so no property is derived from it.
