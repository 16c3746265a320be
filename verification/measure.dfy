/**
 * The timing-attribution engine of src/utils/logger/measure.ts.
 *
 * zone.js is replaced by an explicit `Zone` value: the zone that is current while a callback
 * runs is passed to it, and forking a zone builds a `Fork` node whose parent is the current
 * zone.  A callback is a scripted `Task`, so the timings it triggers in turn (nested timed
 * calls, squelched sub-callbacks, detached continuations) are part of the model.  The
 * performance clock is the natural number `Runtime.now`, which only moves forward.
 */
module Measure {
  import opened Options

  /** Metadata of a timing; every value is kept in its serialized (string) form. */
  type Metadata = map<string, string>

  /**
   * A thrown value: one whose `toString()` yields `description`, or `undefined` or `null`,
   * which have no `toString` to call.
   */
  datatype Thrown = Described(description: string) | Undefined | Null

  /** The TypeError that calling `toString()` on `undefined` or `null` throws, in V8's wording. */
  function ToStringFailure(e: Thrown): (f: Thrown)
    requires !e.Described?
    ensures f.Described?
  {
    if e.Undefined? then Described("TypeError: Cannot read properties of undefined (reading 'toString')")
    else Described("TypeError: Cannot read properties of null (reading 'toString')")
  }

  /** How a callback settles: it resolves with a value or rejects with a thrown value. */
  datatype Outcome<+T> = Ok(value: T) | Err(error: Thrown)

  /** The optional `onResult(result, metadata)` hook, which derives the metadata from a result. */
  type OnResult<!T> = (T, Option<Metadata>) -> Metadata

  /** What `performance.measure(name, {detail, end, start})` builds. */
  datatype Measurement = Measurement(name: string, start: nat, end: nat, detail: Metadata)

  /** The name zone.js gives its root zone. */
  const RootName := "<root>"

  // ---------------------------------------------------------------------------------------
  // Zones: a parent-linked tree with nearest-ancestor lookup of the logging state
  // ---------------------------------------------------------------------------------------

  /**
   * A zone: the root zone, or a zone forked from `parent` with a name and, when the fork
   * set the logging key, the logging state it carries as its own property.
   */
  datatype Zone = Root | Fork(name: string, parent: Zone, state: Option<LoggingState>)

  function NameOf(z: Zone): string {
    if z.Root? then RootName else z.name
  }

  /** Every logging state set on `z` or one of its ancestors. */
  ghost function States(z: Zone): set<LoggingState> {
    match z
    case Root => {}
    case Fork(_, parent, state) => (if state.Some? then {state.value} else {}) + States(parent)
  }

  /** The logging states a zone refers to were allocated before any later state of the heap. */
  twostate lemma {:induction false} StatesAllocated(z: Zone)
    ensures forall s :: s in States(z) ==> old(allocated(s))
  {
    match z
    case Root =>
    case Fork(_, parent, _) => StatesAllocated(parent);
  }

  /** `zone.get(LOGGING_KEY)`: the logging state of the nearest zone, itself included, that sets one. */
  function Nearest(z: Zone): (s: Option<LoggingState>)
    ensures s.Some? ==> s.value in States(z)
    ensures s.None? <==> States(z) == {}
    ensures z.Fork? && z.state.Some? ==> s == z.state
    ensures z.Fork? && z.state.None? ==> s == Nearest(z.parent)
  {
    match z
    case Root => None
    case Fork(_, parent, state) => if state.Some? then state else Nearest(parent)
  }

  /** Whether a timing that completes now in zone `z` is recorded. */
  ghost predicate Recording(z: Zone)
    reads States(z)`isLogging
  {
    Nearest(z).Some? && Nearest(z).value.isLogging
  }

  /** What the parent rule reads of a zone: its name, and its parent's name unless that parent is the root. */
  datatype Site = Site(name: string, above: Option<string>)

  function SiteOf(z: Zone): (s: Site)
    ensures s.name == NameOf(z)
    ensures s.above.Some? <==> z.Fork? && z.parent.Fork?
    ensures s.above.Some? ==> s.above.value == z.parent.name
  {
    match z
    case Root => Site(RootName, None)   // the root's parent is null, not the root
    case Fork(name, parent, _) => Site(name, if parent.Root? then None else Some(parent.name))
  }

  /** The `parent` recorded for a timing called `name` that runs at `site`. */
  function ParentName(site: Site, name: string): (p: Option<string>)
    ensures site.name != name ==> p == Some(site.name)
    ensures p.None? ==> site.name == name && site.above.None?
    ensures p == Some(name) ==> site.above == Some(name)
  {
    if site.name != name then Some(site.name) else site.above
  }

  /** An alternative reading of the parent rule: the nearest enclosing forked zone whose name differs from `name`. */
  ghost function NearestDistinct(z: Zone, name: string): Option<string> {
    match z
    case Root => None
    case Fork(n, parent, _) => if n != name then Some(n) else NearestDistinct(parent, name)
  }

  /** In a forked zone, the parent rule and the nearest-distinct reading agree, except when a zone and its parent share the timing's name. */
  lemma ParentIsNearestDistinct(z: Zone, name: string)
    requires z.Fork?
    requires z.name == name && z.parent.Fork? ==> z.parent.name != name
    ensures ParentName(SiteOf(z), name) == NearestDistinct(z, name)
    ensures ParentName(SiteOf(z), name) != Some(name)
  {
  }

  /** At the root zone itself the two readings differ: the code records the root's name, the other reading nothing. */
  lemma ParentAtRootIsRootName(name: string)
    requires name != RootName
    ensures ParentName(SiteOf(Root), name) == Some(RootName)
    ensures NearestDistinct(Root, name) == None
  {
  }

  /** The parent rule skips one level only: under two zones both named `name`, the parent is `name` itself. */
  lemma ParentSkipsOneLevelOnly(name: string, grand: Zone)
    ensures ParentName(SiteOf(Fork(name, Fork(name, grand, None), None)), name) == Some(name)
  {
  }

  // ---------------------------------------------------------------------------------------
  // The logging state, shared by reference by every zone under the one that carries it
  // ---------------------------------------------------------------------------------------

  class LoggingState {
    /** Cleared once the owning root has settled; a squelch state is never logging. */
    var isLogging: bool
    var measures: seq<Measurement>

    constructor (isLogging: bool)
      ensures this.isLogging == isLogging && measures == []
    {
      this.isLogging := isLogging;
      measures := [];
    }

    /** `state.measures.push(measure)` */
    method Push(m: Measurement)
      modifies this
      ensures isLogging == old(isLogging)
      ensures measures == old(measures) + [m]
    {
      measures := measures + [m];
    }

    /** `state.isLogging = false` */
    method StopLogging()
      modifies this
      ensures !isLogging
      ensures measures == old(measures)
    {
      isLogging := false;
    }
  }

  // ---------------------------------------------------------------------------------------
  // Callbacks
  // ---------------------------------------------------------------------------------------

  /**
   * A scripted asynchronous callback.
   *  - Settle(outcome, elapsed): resolves or rejects after `elapsed` clock ticks;
   *  - Await(first, rest): awaits `first` run in the current zone; a rejection is rethrown,
   *    otherwise the callback goes on with `rest`;
   *  - Detach(spawned, rest): schedules `spawned` without awaiting it, then goes on with `rest`;
   *  - Timed(name, body, metadata, onResult): the callback `() => timeCallback(name, body, metadata, onResult)`;
   *  - Squelched(name, body): the callback `squelch(name, body)`.
   */
  datatype Task<!T> =
    | Settle(outcome: Outcome<T>, elapsed: nat)
    | Await(first: Task<T>, rest: Task<T>)
    | Detach(spawned: Task<T>, rest: Task<T>)
    | Timed(name: string, body: Task<T>, metadata: Option<Metadata>, onResult: Option<OnResult<T>>)
    | Squelched(name: string, body: Task<T>)

  /** A detached continuation, with the zone that was current when it was scheduled. */
  datatype Straggler<!T> = Straggler(zone: Zone, task: Task<T>)

  /** Every logging state the zones of `stragglers` refer to. */
  ghost function StragglerStates<T>(stragglers: seq<Straggler<T>>): set<LoggingState> {
    set i, s | 0 <= i < |stragglers| && s in States(stragglers[i].zone) :: s
  }

  lemma {:induction false} ZoneAllocated(z: Zone)
    ensures forall s :: s in States(z) ==> allocated(s)
  {
    match z
    case Root =>
    case Fork(_, parent, _) => ZoneAllocated(parent);
  }

  lemma StragglersAllocated<T>(stragglers: seq<Straggler<T>>)
    ensures forall s :: s in StragglerStates(stragglers) ==> allocated(s)
  {
    forall s | s in StragglerStates(stragglers) ensures allocated(s) {
      var i :| 0 <= i < |stragglers| && s in States(stragglers[i].zone);
      ZoneAllocated(stragglers[i].zone);
    }
  }

  twostate lemma StragglerStatesAllocated<T>(stragglers: seq<Straggler<T>>)
    ensures forall s :: s in StragglerStates(stragglers) ==> old(allocated(s))
  {
    forall s | s in StragglerStates(stragglers) ensures old(allocated(s)) {
      var i :| 0 <= i < |stragglers| && s in States(stragglers[i].zone);
      StatesAllocated(stragglers[i].zone);
    }
  }

  function Size<T>(t: Task<T>): nat {
    match t
    case Settle(_, _) => 1
    case Await(first, rest) => 1 + Size(first) + Size(rest)
    case Detach(spawned, rest) => 1 + Size(spawned) + Size(rest)
    case Timed(_, body, _, _) => 1 + Size(body)
    case Squelched(_, body) => 1 + Size(body)
  }

  /**
   * How `timeCallback` settles once its callback has settled with `outcome`: with the same
   * value or error, except that a nullish error makes `error.toString()` in the `catch`
   * throw, and that TypeError is what propagates.
   */
  function Rethrown<T>(outcome: Outcome<T>): (r: Outcome<T>)
    ensures r.Ok? <==> outcome.Ok?
    ensures outcome.Ok? || outcome.error.Described? ==> r == outcome
    ensures r.Err? ==> r.error.Described?
  {
    if outcome.Err? && !outcome.error.Described? then Err(ToStringFailure(outcome.error)) else outcome
  }

  /** How the callback settles; logging plays no part in it. */
  function Result<T>(t: Task<T>): Outcome<T> {
    match t
    case Settle(outcome, _) => outcome
    case Await(first, rest) => if Result(first).Err? then Result(first) else Result(rest)
    case Detach(_, rest) => Result(rest)
    case Timed(_, body, _, _) => Rethrown(Result(body))
    case Squelched(_, body) => Result(body)
  }

  /** The clock ticks that pass between calling the callback and its settling. */
  function Elapsed<T>(t: Task<T>): nat {
    match t
    case Settle(_, elapsed) => elapsed
    case Await(first, rest) => Elapsed(first) + (if Result(first).Err? then 0 else Elapsed(rest))
    case Detach(_, rest) => Elapsed(rest)
    case Timed(_, body, _, _) => Elapsed(body)
    case Squelched(_, body) => Elapsed(body)
  }

  /** `{...metadata}`: spreading `undefined` gives the empty object. */
  function Spread(metadata: Option<Metadata>): Metadata {
    if metadata.Some? then metadata.value else map[]
  }

  /**
   * The metadata once the callback has settled: `onResult?.(result, metadata)` on success
   * (so, with no `onResult`, the supplied metadata is dropped), and the supplied metadata
   * plus `error` on failure.  When the error is nullish, `error.toString()` throws before
   * the assignment, so the supplied metadata is kept as it is.
   */
  function Settled<T>(outcome: Outcome<T>, metadata: Option<Metadata>, onResult: Option<OnResult<T>>): (m: Option<Metadata>)
    ensures outcome.Ok? && onResult.None? ==> m.None?
    ensures outcome.Ok? && onResult.Some? ==> m == Some(onResult.value(outcome.value, metadata))
    ensures outcome.Err? && outcome.error.Described? ==>
      m.Some? && "error" in m.value && m.value["error"] == outcome.error.description
    ensures outcome.Err? && outcome.error.Described? ==>
      forall k :: k in Spread(metadata) && k != "error" ==> k in m.value && m.value[k] == Spread(metadata)[k]
    ensures outcome.Err? && outcome.error.Described? ==> m.value.Keys == Spread(metadata).Keys + {"error"}
    ensures outcome.Err? && !outcome.error.Described? ==> m == metadata
  {
    match outcome
    case Ok(v) => if onResult.Some? then Some(onResult.value(v, metadata)) else None
    case Err(e) => if e.Described? then Some(Spread(metadata)["error" := e.description]) else metadata
  }

  /** `{...metadata, parent}`; a `parent` that is `undefined` is absent from the serialized detail. */
  function Detail(metadata: Option<Metadata>, parent: Option<string>): (d: Metadata)
    ensures "parent" in d <==> parent.Some?
    ensures parent.Some? ==> d["parent"] == parent.value
    ensures forall k :: k != "parent" ==> (k in d <==> k in Spread(metadata))
    ensures forall k :: k != "parent" && k in d ==> d[k] == Spread(metadata)[k]
  {
    if parent.Some? then Spread(metadata)["parent" := parent.value] else Spread(metadata) - {"parent"}
  }

  /** The `parent` field of a recorded detail. */
  function ParentField(detail: Metadata): Option<string> {
    if "parent" in detail then Some(detail["parent"]) else None
  }

  /**
   * The measurements that running `t` at `site`, starting at clock `clock`, appends to the
   * logging state of that zone when that state is logging, in completion order.  Timings
   * under a squelch go to the squelch's own inert state and are never among them.
   */
  ghost function Records<T>(site: Site, t: Task<T>, clock: nat): seq<Measurement> {
    match t
    case Settle(_, _) => []
    case Await(first, rest) =>
      Records(site, first, clock) + (if Result(first).Err? then [] else Records(site, rest, clock + Elapsed(first)))
    case Detach(_, rest) => Records(site, rest, clock)
    case Timed(name, body, metadata, onResult) =>
      Records(site, body, clock)
        + [Measurement(name, clock, clock + Elapsed(body), Detail(Settled(Result(body), metadata, onResult), ParentName(site, name)))]
    case Squelched(_, _) => []
  }

  /** The names of the timed calls in `t` that no squelch encloses. */
  ghost function Exposed<T>(t: Task<T>): set<string> {
    match t
    case Settle(_, _) => {}
    case Await(first, rest) => Exposed(first) + Exposed(rest)
    case Detach(_, rest) => Exposed(rest)
    case Timed(name, body, _, _) => {name} + Exposed(body)
    case Squelched(_, _) => {}
  }

  // ---------------------------------------------------------------------------------------
  // Properties of what gets recorded
  // ---------------------------------------------------------------------------------------

  /** Every measurement lies inside the run that produced it, with its start no later than its end. */
  lemma {:induction false} RecordsWithinRun<T>(site: Site, t: Task<T>, clock: nat)
    ensures forall m :: m in Records(site, t, clock) ==> clock <= m.start <= m.end <= clock + Elapsed(t)
  {
    match t
    case Settle(_, _) =>
    case Await(first, rest) =>
      RecordsWithinRun(site, first, clock);
      if Result(first).Ok? {
        RecordsWithinRun(site, rest, clock + Elapsed(first));
      }
    case Detach(_, rest) =>
      RecordsWithinRun(site, rest, clock);
    case Timed(_, body, _, _) =>
      RecordsWithinRun(site, body, clock);
    case Squelched(_, _) =>
  }

  /** Measurements are appended in completion order: their ends never decrease along the list. */
  lemma {:induction false} RecordsInCompletionOrder<T>(site: Site, t: Task<T>, clock: nat)
    ensures forall i, j :: 0 <= i < j < |Records(site, t, clock)| ==>
      Records(site, t, clock)[i].end <= Records(site, t, clock)[j].end
  {
    match t
    case Settle(_, _) =>
    case Await(first, rest) =>
      RecordsInCompletionOrder(site, first, clock);
      RecordsWithinRun(site, first, clock);
      if Result(first).Ok? {
        RecordsInCompletionOrder(site, rest, clock + Elapsed(first));
        RecordsWithinRun(site, rest, clock + Elapsed(first));
        var a: seq<Measurement>, b: seq<Measurement> := Records(site, first, clock), Records(site, rest, clock + Elapsed(first));
        assert Records(site, t, clock) == a + b;
        forall i, j | 0 <= i < j < |a + b| ensures (a + b)[i].end <= (a + b)[j].end {
          if j < |a| {
          } else if i < |a| {
            assert a[i] in a && b[j - |a|] in b;
          }
        }
      }
    case Detach(_, rest) =>
      RecordsInCompletionOrder(site, rest, clock);
    case Timed(_, body, _, _) =>
      RecordsInCompletionOrder(site, body, clock);
      RecordsWithinRun(site, body, clock);
      var a: seq<Measurement> := Records(site, body, clock);
      forall i | 0 <= i < |a| ensures a[i].end <= clock + Elapsed(body) {
        assert a[i] in a;
      }
    case Squelched(_, _) =>
  }

  /** Every measurement carries the parent the parent rule gives for its own name at this site. */
  lemma {:induction false} RecordsCarryParent<T>(site: Site, t: Task<T>, clock: nat)
    ensures forall m :: m in Records(site, t, clock) ==> ParentField(m.detail) == ParentName(site, m.name)
  {
    match t
    case Settle(_, _) =>
    case Await(first, rest) =>
      RecordsCarryParent(site, first, clock);
      if Result(first).Ok? {
        RecordsCarryParent(site, rest, clock + Elapsed(first));
      }
    case Detach(_, rest) =>
      RecordsCarryParent(site, rest, clock);
    case Timed(_, body, _, _) =>
      RecordsCarryParent(site, body, clock);
    case Squelched(_, _) =>
  }

  /** Only timed calls outside every squelch are recorded. */
  lemma {:induction false} RecordsAreExposed<T>(site: Site, t: Task<T>, clock: nat)
    ensures forall m :: m in Records(site, t, clock) ==> m.name in Exposed(t)
  {
    match t
    case Settle(_, _) =>
    case Await(first, rest) =>
      RecordsAreExposed(site, first, clock);
      if Result(first).Ok? {
        RecordsAreExposed(site, rest, clock + Elapsed(first));
      }
    case Detach(_, rest) =>
      RecordsAreExposed(site, rest, clock);
    case Timed(_, body, _, _) =>
      RecordsAreExposed(site, body, clock);
    case Squelched(_, _) =>
  }

  /** A timed call whose callback times nothing outside a squelch records exactly one measurement, its own. */
  lemma {:induction false} OnlyOwnMeasurement<T>(site: Site, name: string, body: Task<T>, metadata: Option<Metadata>,
                                                  onResult: Option<OnResult<T>>, clock: nat)
    requires Exposed(body) == {}
    ensures Records(site, Timed(name, body, metadata, onResult), clock)
      == [Measurement(name, clock, clock + Elapsed(body), Detail(Settled(Result(body), metadata, onResult), ParentName(site, name)))]
  {
    NothingExposedNothingRecorded(site, body, clock);
  }

  lemma {:induction false} NothingExposedNothingRecorded<T>(site: Site, t: Task<T>, clock: nat)
    requires Exposed(t) == {}
    ensures Records(site, t, clock) == []
  {
    match t
    case Settle(_, _) =>
    case Await(first, rest) =>
      NothingExposedNothingRecorded(site, first, clock);
      NothingExposedNothingRecorded(site, rest, clock + Elapsed(first));
    case Detach(_, rest) =>
      NothingExposedNothingRecorded(site, rest, clock);
    case Timed(_, _, _, _) =>
      assert false;
    case Squelched(_, _) =>
  }

  /** Of a timed call, the last measurement is its own, so a root's flushed list is never empty. */
  lemma OwnMeasurementLast<T>(site: Site, name: string, body: Task<T>, metadata: Option<Metadata>,
                              onResult: Option<OnResult<T>>, clock: nat)
    ensures var rs := Records(site, Timed(name, body, metadata, onResult), clock);
      |rs| > 0 && rs[|rs| - 1].name == name && rs[|rs| - 1].start == clock && rs[|rs| - 1].end == clock + Elapsed(body)
  {
  }

  // ---------------------------------------------------------------------------------------
  // The consumer of flushed measurements, and squelch wrappers
  // ---------------------------------------------------------------------------------------

  /**
   * An `onMeasures` consumer that records every list it is handed.  When `debug` is set it
   * also reads the list's last element, as the console summary of `time` does.
   */
  class Sink {
    const debug: bool
    var batches: seq<seq<Measurement>>
    var headlines: seq<Measurement>

    constructor (debug: bool)
      ensures this.debug == debug && batches == [] && headlines == []
    {
      this.debug := debug;
      batches := [];
      headlines := [];
    }

    method Receive(measures: seq<Measurement>)
      requires debug ==> |measures| > 0
      modifies this
      ensures batches == old(batches) + [measures]
      ensures headlines == if debug then old(headlines) + [measures[|measures| - 1]] else old(headlines)
    {
      if debug {
        headlines := headlines + [measures[|measures| - 1]];
      }
      batches := batches + [measures];
    }
  }

  /** The wrapper `squelch(name, callback)` returns; its inert state is allocated once, with the wrapper. */
  class Squelcher<T> {
    const name: string
    const callback: Task<T>
    const state: LoggingState

    ghost predicate Valid()
      reads state
    {
      !state.isLogging && state.measures == []
    }

    constructor (name: string, callback: Task<T>)
      ensures this.name == name && this.callback == callback
      ensures fresh(state) && Valid()
    {
      this.name := name;
      this.callback := callback;
      state := new LoggingState(false);
    }
  }

  // ---------------------------------------------------------------------------------------
  // The engine
  // ---------------------------------------------------------------------------------------

  /** The globals measure.ts relies on: the performance clock and `DEFAULT_STATE`. */
  class Runtime {
    var now: nat
    const defaultState: LoggingState

    ghost predicate Valid()
      reads defaultState
    {
      !defaultState.isLogging && defaultState.measures == []
    }

    constructor ()
      ensures Valid() && now == 0
    {
      now := 0;
      defaultState := new LoggingState(false);
    }

    /** Runs the callback `t` with `z` as the current zone. */
    method RunTask<T>(z: Zone, t: Task<T>) returns (r: Outcome<T>, stragglers: seq<Straggler<T>>)
      requires Valid()
      modifies this, States(z)
      decreases Size(t), 0
      ensures Valid()
      ensures r == Result(t)
      ensures now == old(now) + Elapsed(t)
      ensures forall s :: s in States(z) ==> old(allocated(s))
      ensures forall s :: s in States(z) ==> s.isLogging == old(s.isLogging)
      ensures forall s :: s in States(z) && !(old(Recording(z)) && Nearest(z) == Some(s)) ==> s.measures == old(s.measures)
      ensures old(Recording(z)) ==> Nearest(z).value.measures == old(Nearest(z).value.measures) + Records(SiteOf(z), t, old(now))
      ensures forall i :: 0 <= i < |stragglers| ==> Size(stragglers[i].task) < Size(t)
      ensures forall i :: 0 <= i < |stragglers| ==> Nearest(stragglers[i].zone) == Nearest(z) || (Nearest(stragglers[i].zone).None? || !Nearest(stragglers[i].zone).value.isLogging)
      ensures forall i, s :: 0 <= i < |stragglers| && s in States(stragglers[i].zone) ==> s in States(z) || fresh(s)
    {
      StatesAllocated(z);
      match t
      case Settle(outcome, elapsed) =>
        now := now + elapsed;
        r, stragglers := outcome, [];
      case Await(first, rest) =>
        var r1, s1 := RunTask(z, first);
        if r1.Err? {
          r, stragglers := r1, s1;
        } else {
          StragglersAllocated(s1);
          ghost var flags := map st | st in StragglerStates(s1) :: st.isLogging;
          var r2, s2 := RunTask(z, rest);
          r, stragglers := r2, s1 + s2;
          // running `rest` changes no flag, so what `first` left behind stays as inert as it was
          forall i | 0 <= i < |s1|
            ensures Nearest(s1[i].zone) == Nearest(z) || (Nearest(s1[i].zone).None? || !Nearest(s1[i].zone).value.isLogging)
          {
            var sz := s1[i].zone;
            if Nearest(sz) != Nearest(z) && Nearest(sz).Some? {
              var st := Nearest(sz).value;
              assert st in States(sz);
              assert st in StragglerStates(s1);
              assert st.isLogging == flags[st];
            }
          }
        }
      case Detach(spawned, rest) =>
        var s2;
        r, s2 := RunTask(z, rest);
        stragglers := [Straggler(z, spawned)] + s2;
      case Timed(name, body, metadata, onResult) =>
        r, stragglers := TimeCallback(z, name, body, metadata, onResult);
      case Squelched(name, body) =>
        var wrapper := new Squelcher(name, body);
        r, stragglers := Invoke(wrapper, z);
    }

    /** `timeCallback(name, callback, metadata, onResult)`, called with `z` as the current zone. */
    method TimeCallback<T>(z: Zone, name: string, callback: Task<T>, metadata: Option<Metadata>, onResult: Option<OnResult<T>>)
        returns (r: Outcome<T>, stragglers: seq<Straggler<T>>)
      requires Valid()
      modifies this, States(z)
      decreases Size(callback), 1
      ensures Valid()
      ensures r == Rethrown(Result(callback))
      ensures now == old(now) + Elapsed(callback)
      ensures forall s :: s in States(z) ==> old(allocated(s))
      ensures forall s :: s in States(z) ==> s.isLogging == old(s.isLogging)
      ensures forall s :: s in States(z) && !(old(Recording(z)) && Nearest(z) == Some(s)) ==> s.measures == old(s.measures)
      ensures old(Recording(z)) ==>
        Nearest(z).value.measures == old(Nearest(z).value.measures) + Records(SiteOf(z), Timed(name, callback, metadata, onResult), old(now))
      ensures forall i :: 0 <= i < |stragglers| ==> Size(stragglers[i].task) < Size(callback)
      ensures forall i :: 0 <= i < |stragglers| ==> Nearest(stragglers[i].zone) == Nearest(z) || (Nearest(stragglers[i].zone).None? || !Nearest(stragglers[i].zone).value.isLogging)
      ensures forall i, s :: 0 <= i < |stragglers| && s in States(stragglers[i].zone) ==> s in States(z) || fresh(s)
    {
      StatesAllocated(z);
      var state := if Nearest(z).Some? then Nearest(z).value else defaultState;
      var parent := ParentName(SiteOf(z), name);
      var start := now;
      r, stragglers := RunTask(z, callback);
      var md := metadata;
      match r {
        case Ok(v) =>
          md := if onResult.Some? then Some(onResult.value(v, md)) else None;
        case Err(e) =>
          if e.Described? {
            md := Some(Spread(md)["error" := e.description]);
          } else {
            // `error.toString()` throws: the metadata keeps its value and the TypeError propagates
            r := Err(ToStringFailure(e));
          }
      }
      var end := now;
      label Settled:
      if state.isLogging {
        state.Push(Measurement(name, start, end, Detail(md, parent)));
      }
      forall i | 0 <= i < |stragglers|
        ensures Nearest(stragglers[i].zone) == Nearest(z) || (Nearest(stragglers[i].zone).None? || !Nearest(stragglers[i].zone).value.isLogging)
      {
        var sz := stragglers[i].zone;
        if Nearest(sz) != Nearest(z) && Nearest(sz).Some? {
          var st := Nearest(sz).value;
          assert st in States(sz);
          assert st in States(z) || fresh(st);
          assert old@Settled(allocated(st));
          assert st.isLogging == old@Settled(st.isLogging);
        }
      }
    }

    /** Invokes a squelch wrapper with `z` as the current zone: the callback runs in a fork carrying the inert state. */
    method Invoke<T>(wrapper: Squelcher<T>, z: Zone) returns (r: Outcome<T>, stragglers: seq<Straggler<T>>)
      requires Valid() && wrapper.Valid()
      modifies this, wrapper.state, States(z)
      decreases Size(wrapper.callback), 1
      ensures Valid() && wrapper.Valid()
      ensures r == Result(wrapper.callback)
      ensures now == old(now) + Elapsed(wrapper.callback)
      ensures forall s :: s in States(z) ==> old(allocated(s))
      ensures forall s :: s in States(z) ==> s.isLogging == old(s.isLogging) && s.measures == old(s.measures)
      ensures forall i :: 0 <= i < |stragglers| ==> Size(stragglers[i].task) < Size(wrapper.callback)
      ensures forall i :: 0 <= i < |stragglers| ==> (Nearest(stragglers[i].zone).None? || !Nearest(stragglers[i].zone).value.isLogging)
      ensures forall i, s :: 0 <= i < |stragglers| && s in States(stragglers[i].zone) ==> s in States(z) || s == wrapper.state || fresh(s)
    {
      StatesAllocated(z);
      var zone := Fork(wrapper.name, z, Some(wrapper.state));
      assert States(zone) == {wrapper.state} + States(z);
      r, stragglers := RunTask(zone, wrapper.callback);
      forall i, s | 0 <= i < |stragglers| && s in States(stragglers[i].zone)
        ensures s in States(z) || s == wrapper.state || fresh(s)
      {
        assert s in States(zone) || fresh(s);
      }
    }

    /** Runs a detached continuation in a zone that no longer records, with whatever it detaches in turn. */
    method RunDetached<T>(z: Zone, t: Task<T>) returns (r: Outcome<T>)
      requires Valid() && !Recording(z)
      modifies this, States(z)
      decreases Size(t), 1
      ensures Valid()
      ensures r == Result(t)
      ensures now >= old(now)
      ensures forall s :: s in States(z) ==> old(allocated(s))
      ensures forall s :: s in States(z) ==> s.isLogging == old(s.isLogging) && s.measures == old(s.measures)
    {
      StatesAllocated(z);
      var stragglers;
      r, stragglers := RunTask(z, t);
      RunStragglers(stragglers, Size(t));
    }

    /** Runs detached continuations one after the other, each in a zone that no longer records. */
    method RunStragglers<T>(stragglers: seq<Straggler<T>>, ghost bound: nat)
      requires Valid()
      requires forall i :: 0 <= i < |stragglers| ==> Size(stragglers[i].task) < bound
      requires forall i :: 0 <= i < |stragglers| ==> (Nearest(stragglers[i].zone).None? || !Nearest(stragglers[i].zone).value.isLogging)
      modifies this, StragglerStates(stragglers)
      decreases bound, 0
      ensures Valid()
      ensures now >= old(now)
      ensures forall s :: s in StragglerStates(stragglers) ==> old(allocated(s))
      ensures forall s :: s in StragglerStates(stragglers) ==> s.isLogging == old(s.isLogging) && s.measures == old(s.measures)
    {
      StragglerStatesAllocated(stragglers);
      var i := 0;
      while i < |stragglers|
        invariant 0 <= i <= |stragglers|
        invariant Valid()
        invariant now >= old(now)
        invariant forall s :: s in StragglerStates(stragglers) ==> s.isLogging == old(s.isLogging) && s.measures == old(s.measures)
        invariant forall j :: i <= j < |stragglers| ==> (Nearest(stragglers[j].zone).None? || !Nearest(stragglers[j].zone).value.isLogging)
      {
        StragglersAllocated(stragglers);
        var _ := RunDetached(stragglers[i].zone, stragglers[i].task);
        i := i + 1;
      }
    }

    /**
     * `timeAndLogCallback(name, callback, onMeasures, metadata, onResult)`, called with `z`
     * as the current zone.  `state` is the fresh logging state of the root zone.
     */
    method TimeAndLogCallback<T>(z: Zone, name: string, callback: Task<T>, onMeasures: Sink,
                                 metadata: Option<Metadata>, onResult: Option<OnResult<T>>)
        returns (r: Outcome<T>, ghost state: LoggingState)
      requires Valid()
      modifies this, onMeasures, States(z)
      ensures Valid()
      ensures r == Rethrown(Result(callback))
      ensures now >= old(now) + Elapsed(callback)
      ensures fresh(state) && !state.isLogging
      ensures state.measures == Records(SiteOf(Fork(name, z, None)), Timed(name, callback, metadata, onResult), old(now))
      ensures onMeasures.batches == old(onMeasures.batches) + [state.measures]
      ensures onMeasures.headlines == if onMeasures.debug then old(onMeasures.headlines) + [state.measures[|state.measures| - 1]] else old(onMeasures.headlines)
      ensures forall s :: s in States(z) ==> old(allocated(s))
      ensures forall s :: s in States(z) ==> s.isLogging == old(s.isLogging) && s.measures == old(s.measures)
    {
      StatesAllocated(z);
      var root := new LoggingState(true);
      var zone := Fork(name, z, Some(root));
      var start := now;
      var stragglers;
      r, stragglers := TimeCallback(zone, name, callback, metadata, onResult);
      // finally: stop logging, then flush once
      label Settled:
      root.StopLogging();
      OwnMeasurementLast(SiteOf(zone), name, callback, metadata, onResult, start);
      onMeasures.Receive(root.measures);
      forall i | 0 <= i < |stragglers|
        ensures Nearest(stragglers[i].zone).None? || !Nearest(stragglers[i].zone).value.isLogging
      {
        var sz := stragglers[i].zone;
        if Nearest(sz).Some? && Nearest(sz).value != root {
          var st := Nearest(sz).value;
          assert st in States(sz);
          assert st in States(zone) || fresh(st);
          assert old@Settled(allocated(st));
          assert st.isLogging == old@Settled(st.isLogging);
        }
      }
      // the detached continuations run later, against the now inert state
      RunStragglers(stragglers, Size(callback));
      state := root;
    }
  }
}
