/**
 * The scenarios of src/utils/logger/measure.test.ts, replayed against the model: each
 * method builds the zones and callbacks of one scenario and asserts what the test expects.
 */
module Scenarios {
  import opened Options
  import opened Measure

  const Parent := "parent"

  method TimeCallbackSettlesAsItsCallback() {
    var rt := new Runtime();
    var resolved, _ := rt.TimeCallback(Root, "resolves", Settle(Ok(7), 1), None, None);
    assert resolved == Ok(7);
    var rejected, _ := rt.TimeCallback<int>(Root, "rejects", Settle(Err(Described("error")), 1), None, None);
    assert rejected == Err(Described("error"));
  }

  /** `Promise.reject()`: `error.toString()` throws in the `catch`, so the call rejects with that TypeError. */
  method RejectingWithUndefinedThrowsTypeError() {
    var rt := new Runtime();
    var rejected, _ := rt.TimeCallback<int>(Root, "rejects", Settle(Err(Undefined), 1), None, None);
    assert ToStringFailure(Undefined) == Described("TypeError: Cannot read properties of undefined (reading 'toString')");
    assert rejected == Err(Described("TypeError: Cannot read properties of undefined (reading 'toString')"));
  }

  /** The timing of a callback rejecting with `null` is recorded with its metadata and no `error` key. */
  method NullRejectionRecordsNoError() {
    var rt := new Runtime();
    var state := new LoggingState(true);
    var zone := Fork(Parent, Root, Some(state));
    assert States(zone) == {state};
    var callback := Settle(Err(Null), 1);
    var metadata := Some(map["a" := "a"]);
    var _, _ := rt.TimeCallback<int>(zone, "rejects", callback, metadata, None);
    assert SiteOf(zone) == Site(Parent, None);
    assert Settled(Result(callback), metadata, None) == metadata;
    assert Records(Site(Parent, None), Timed("rejects", callback, metadata, None), 0)
      == [Measurement("rejects", 0, 1, Detail(metadata, Some(Parent)))];
    assert state.measures == [Measurement("rejects", 0, 1, map["a" := "a", "parent" := Parent])];
  }

  method DoesNotLogInNonLoggingZone() {
    var rt := new Runtime();
    var state := new LoggingState(false);
    var zone := Fork(Parent, Root, Some(state));
    assert States(zone) == {state};
    var _, _ := rt.TimeCallback(zone, "test", Settle(Ok(0), 1), None, None);
    assert state.measures == [];
  }

  method LogsInLoggingZone() {
    var rt := new Runtime();
    var state := new LoggingState(true);
    var zone := Fork(Parent, Root, Some(state));
    assert States(zone) == {state};
    var _, _ := rt.TimeCallback(zone, "test", Settle(Ok(0), 3), None, None);
    assert state.measures == [Measurement("test", 0, 3, map["parent" := Parent])];
  }

  method LogsMetadata() {
    var rt := new Runtime();
    var state := new LoggingState(true);
    var onResult := (result: int, metadata: Option<Metadata>) => Spread(metadata)["c" := "c"];
    var zone := Fork(Parent, Root, Some(state));
    assert States(zone) == {state};
    var _, _ := rt.TimeCallback(zone, "test", Settle(Ok(0), 1), Some(map["a" := "a", "b" := "b"]), Some(onResult));
    assert |state.measures| == 1;
    var detail := state.measures[0].detail;
    assert "a" in detail && detail["a"] == "a";
    assert "b" in detail && detail["b"] == "b";
    assert "c" in detail && detail["c"] == "c";
  }

  method TimeAndLogCallbackResolves() {
    var rt := new Runtime();
    var onMeasures := new Sink(false);
    var resolved, _ := rt.TimeAndLogCallback(Root, "resolves", Settle(Ok(7), 1), onMeasures, None, None);
    assert resolved == Ok(7);
  }

  method RootLogsItself() {
    var rt := new Runtime();
    var onMeasures := new Sink(false);
    var _, _ := rt.TimeAndLogCallback(Root, "test", Settle(Ok(0), 2), onMeasures, None, None);
    assert onMeasures.batches == [Records(SiteOf(Fork("test", Root, None)), Timed("test", Settle(Ok(0), 2), None, None), 0)];
    assert SiteOf(Fork("test", Root, None)) == Site("test", None);
    assert Records(Site("test", None), Timed("test", Settle(Ok(0), 2), None, None), 0) == [Measurement("test", 0, 2, Detail(Settled(Ok(0), None, None), None))];
    assert Detail(None, None) == map[];
    assert onMeasures.batches == [[Measurement("test", 0, 2, map[])]];
  }

  method RootLogsTheParentZone() {
    var rt := new Runtime();
    var state := new LoggingState(true);
    var onMeasures := new Sink(false);
    var zone := Fork(Parent, Root, Some(state));
    assert States(zone) == {state};
    var _, _ := rt.TimeAndLogCallback(zone, "test", Settle(Ok(0), 2), onMeasures, None, None);
    assert SiteOf(Fork("test", zone, None)) == Site("test", Some(Parent));
    assert Records(Site("test", Some(Parent)), Timed("test", Settle(Ok(0), 2), None, None), 0)
      == [Measurement("test", 0, 2, Detail(Settled(Ok(0), None, None), Some(Parent)))];
    assert onMeasures.batches == [[Measurement("test", 0, 2, map["parent" := Parent])]];
    assert state.measures == [];
  }

  method RootLogsMetadata() {
    var rt := new Runtime();
    var onMeasures := new Sink(false);
    var onResult := (result: int, metadata: Option<Metadata>) => Spread(metadata)["c" := "c"];
    var callback := Settle(Ok(0), 1);
    var metadata := Some(map["a" := "a", "b" := "b"]);
    var _, _ := rt.TimeAndLogCallback(Root, "test", callback, onMeasures, metadata, Some(onResult));
    assert SiteOf(Fork("test", Root, None)) == Site("test", None);
    assert onMeasures.batches == [Records(Site("test", None), Timed("test", callback, metadata, Some(onResult)), 0)];
    assert |onMeasures.batches| == 1 && |onMeasures.batches[0]| == 1;
    var detail := onMeasures.batches[0][0].detail;
    assert "a" in detail && detail["a"] == "a";
    assert "b" in detail && detail["b"] == "b";
    assert "c" in detail && detail["c"] == "c";
  }

  /**
   * The callback runs in a zone named after the timing whose state is logging: a timing
   * made inside it is recorded, with that zone's name as its parent.
   */
  method CreatesALoggingZone() {
    var rt := new Runtime();
    var onMeasures := new Sink(false);
    var child := Timed("child", Settle(Ok(0), 1), None, None);
    var _, _ := rt.TimeAndLogCallback(Root, "test", child, onMeasures, None, None);
    assert SiteOf(Fork("test", Root, None)) == Site("test", None);
    assert Records(Site("test", None), child, 0) == [Measurement("child", 0, 1, map["parent" := "test"])];
    assert Records(Site("test", None), Timed("test", child, None, None), 0)
      == [Measurement("child", 0, 1, map["parent" := "test"]), Measurement("test", 0, 1, map[])];
    assert onMeasures.batches == [[Measurement("child", 0, 1, map["parent" := "test"]), Measurement("test", 0, 1, map[])]];
  }

  /** A continuation detached by the callback runs after the flush and records nothing. */
  method StopsLoggingAfterResolving() {
    var rt := new Runtime();
    var onMeasures := new Sink(false);
    var late := Timed("child", Settle(Ok(0), 1), None, None);
    var _, state := rt.TimeAndLogCallback(Root, "test", Detach(late, Settle(Ok(0), 0)), onMeasures, None, None);
    assert !state.isLogging;
    assert SiteOf(Fork("test", Root, None)) == Site("test", None);
    assert Records(Site("test", None), Timed("test", Detach(late, Settle(Ok(0), 0)), None, None), 0)
      == [Measurement("test", 0, 0, Detail(Settled(Ok(0), None, None), None))];
    assert Detail(None, None) == map[];
    assert onMeasures.batches == [[Measurement("test", 0, 0, map[])]];
  }

  method SquelchResolves() {
    var rt := new Runtime();
    var squelcher := new Squelcher("resolves", Settle(Ok(7), 1));
    var resolved, _ := rt.Invoke(squelcher, Root);
    assert resolved == Ok(7);
  }

  method SquelchDoesNotLogChildren() {
    var rt := new Runtime();
    var state := new LoggingState(true);
    var child := Timed("child", Settle(Ok(0), 1), None, None);
    var zone := Fork(Parent, Root, Some(state));
    assert States(zone) == {state};
    var _, _ := rt.TimeCallback(zone, "test", Squelched("squelch", child), None, None);
    assert state.measures == [Measurement("test", 0, 1, map["parent" := Parent])];
  }
}
