/**
 * How application code drives a synchronous instrument over time: a script
 * of direct recordings and of bound sessions (bind to a label set, record
 * through the bound instrument, then `Unbind`). Running a script collects
 * the calls that reach the backend, so that the delegation facts of the
 * wrappers can be stated over whole sequences of use.
 */
module Usage {
  import opened Wrappers
  import opened Values
  import opened Sync

  /** One value to record through a bound instrument. */
  datatype Sample = Sample(ctx: Context, number: Number)

  /** One use of an unbound synchronous instrument. */
  datatype Step =
    | Record(ctx: Context, number: Number, labels: Labels)
    | BoundSession(labels: Labels, samples: seq<Sample>)

  /** The calls reaching a backend when each sample is recorded through `h`, in order. */
  function RecordAll(h: SyncBoundInstrument, samples: seq<Sample>): seq<Call>
  {
    if samples == [] then []
    else h.DirectRecord(samples[0].ctx, samples[0].number) + RecordAll(h, samples[1..])
  }

  /** Bind `s` to `labels`, record every sample through the bound instrument, then unbind it. */
  function Session(s: SyncInstrument, labels: Labels, samples: seq<Sample>): seq<Call>
  {
    var (h, bindCalls) := s.Bind(labels);
    bindCalls + RecordAll(h, samples) + h.Unbind()
  }

  /** The calls reaching a backend when `script` is run against `s`, in order. */
  function Run(s: SyncInstrument, script: seq<Step>): seq<Call>
  {
    if script == [] then []
    else
      var first := match script[0]
        case Record(ctx, n, labels) => s.DirectRecord(ctx, n, labels)
        case BoundSession(labels, samples) => Session(s, labels, samples);
      first + Run(s, script[1..])
  }

  /** `script` with every bound session replaced by direct recordings carrying its labels. */
  function DirectScript(script: seq<Step>): seq<Step>
  {
    if script == [] then []
    else
      var first := match script[0]
        case Record(ctx, n, labels) => [script[0]]
        case BoundSession(labels, samples) => DirectSteps(labels, samples);
      first + DirectScript(script[1..])
  }

  function DirectSteps(labels: Labels, samples: seq<Sample>): seq<Step>
  {
    if samples == [] then []
    else [Record(samples[0].ctx, samples[0].number, labels)] + DirectSteps(labels, samples[1..])
  }

  /** The number of bound sessions in `script`. */
  function Sessions(script: seq<Step>): nat
  {
    if script == [] then 0
    else (if script[0].BoundSession? then 1 else 0) + Sessions(script[1..])
  }

  function CountBinds(calls: seq<Call>): nat
  {
    if calls == [] then 0 else (if calls[0].BindCall? then 1 else 0) + CountBinds(calls[1..])
  }

  function CountUnbinds(calls: seq<Call>): nat
  {
    if calls == [] then 0 else (if calls[0].UnbindCall? then 1 else 0) + CountUnbinds(calls[1..])
  }

  lemma {:induction false} RunAppend(s: SyncInstrument, a: seq<Step>, b: seq<Step>)
    ensures Run(s, a + b) == Run(s, a) + Run(s, b)
  {
    if a == [] {
      assert a + b == b;
    } else {
      assert (a + b)[0] == a[0];
      assert (a + b)[1..] == a[1..] + b;
      RunAppend(s, a[1..], b);
    }
  }

  lemma {:induction false} CountsAppend(a: seq<Call>, b: seq<Call>)
    ensures CountBinds(a + b) == CountBinds(a) + CountBinds(b)
    ensures CountUnbinds(a + b) == CountUnbinds(a) + CountUnbinds(b)
  {
    if a == [] {
      assert a + b == b;
    } else {
      assert (a + b)[0] == a[0];
      assert (a + b)[1..] == a[1..] + b;
      CountsAppend(a[1..], b);
    }
  }

  /** Recording through a bound instrument never binds or unbinds. */
  lemma {:induction false} RecordAllCounts(h: SyncBoundInstrument, samples: seq<Sample>)
    ensures CountBinds(RecordAll(h, samples)) == 0
    ensures CountUnbinds(RecordAll(h, samples)) == 0
  {
    if samples != [] {
      var c := h.DirectRecord(samples[0].ctx, samples[0].number);
      RecordAllCounts(h, samples[1..]);
      CountsAppend(c, RecordAll(h, samples[1..]));
      assert CountBinds(c) == 0 && CountUnbinds(c) == 0;
    }
  }

  /**
   * Through a bound instrument, each sample reaches the backend as it would
   * by recording directly with the labels the instrument was bound to.
   */
  lemma {:induction false} RecordAllDeliversAsDirect(s: SyncInstrument, labels: Labels, samples: seq<Sample>)
    ensures Delivered(RecordAll(s.Bind(labels).0, samples)) == Delivered(Run(s, DirectSteps(labels, samples)))
  {
    if samples != [] {
      var h := s.Bind(labels).0;
      var steps := DirectSteps(labels, samples);
      RecordAllDeliversAsDirect(s, labels, samples[1..]);
      DeliveredAppend(h.DirectRecord(samples[0].ctx, samples[0].number), RecordAll(h, samples[1..]));
      assert steps[0] == Record(samples[0].ctx, samples[0].number, labels);
      assert steps[1..] == DirectSteps(labels, samples[1..]);
      DeliveredAppend(s.DirectRecord(samples[0].ctx, samples[0].number, labels), Run(s, steps[1..]));
      BindThenRecordIsDirectRecord(s, labels, samples[0].ctx, samples[0].number);
    }
  }

  /** Recording through a backend's bound instrument delivers one bound call per sample, in order. */
  lemma {:induction false} RecordAllShape(id: nat, labels: Labels, samples: seq<Sample>)
    ensures var calls := RecordAll(SyncBoundInstrument(BoundBackend(id, labels)), samples);
      |calls| == |samples| &&
      forall i :: 0 <= i < |samples| ==>
        calls[i] == BoundRecordOneCall(id, labels, samples[i].ctx, samples[i].number)
  {
    if samples != [] {
      RecordAllShape(id, labels, samples[1..]);
    }
  }

  /**
   * A bound session against a backend follows the bound instrument's life:
   * first the `Bind`, then one bound `RecordOne` per sample in order, and
   * last the `Unbind`, all for the labels bound.
   */
  lemma SessionShape(id: nat, labels: Labels, samples: seq<Sample>)
    ensures var calls := Session(SyncInstrument(SyncBackend(id)), labels, samples);
      |calls| == |samples| + 2 &&
      calls[0] == BindCall(id, labels) &&
      calls[|calls| - 1] == UnbindCall(id, labels) &&
      forall i :: 1 <= i <= |samples| ==>
        calls[i] == BoundRecordOneCall(id, labels, samples[i - 1].ctx, samples[i - 1].number)
  {
    RecordAllShape(id, labels, samples);
  }

  /**
   * An instrument holding the no-op implementation (what the safety net
   * substitutes for nil) lets every script run to completion without any
   * call reaching a backend.
   */
  lemma {:induction false} NoopRunIsSilent(script: seq<Step>)
    ensures Run(SyncInstrument(NoopSync), script) == []
  {
    if script != [] {
      NoopRunIsSilent(script[1..]);
      if script[0].BoundSession? {
        NoopRecordAllIsSilent(script[0].samples);
      }
    }
  }

  lemma {:induction false} NoopRecordAllIsSilent(samples: seq<Sample>)
    ensures RecordAll(SyncBoundInstrument(NoopBound), samples) == []
  {
    if samples != [] {
      NoopRecordAllIsSilent(samples[1..]);
    }
  }

  /**
   * A backend receives exactly one `Unbind` per `Bind`, one pair per bound
   * session of the script.
   */
  lemma {:induction false} BindsMatchUnbinds(id: nat, script: seq<Step>)
    ensures CountBinds(Run(SyncInstrument(SyncBackend(id)), script)) == Sessions(script)
    ensures CountUnbinds(Run(SyncInstrument(SyncBackend(id)), script)) == Sessions(script)
  {
    var s := SyncInstrument(SyncBackend(id));
    if script != [] {
      var first := match script[0]
        case Record(ctx, n, labels) => s.DirectRecord(ctx, n, labels)
        case BoundSession(labels, samples) => Session(s, labels, samples);
      BindsMatchUnbinds(id, script[1..]);
      CountsAppend(first, Run(s, script[1..]));
      match script[0]
      case Record(ctx, n, labels) =>
      case BoundSession(labels, samples) =>
        var (h, bindCalls) := s.Bind(labels);
        RecordAllCounts(h, samples);
        CountsAppend(bindCalls, RecordAll(h, samples));
        CountsAppend(bindCalls + RecordAll(h, samples), h.Unbind());
    }
  }

  /**
   * Whatever mix of bound sessions and direct recordings a script uses, the
   * backend receives the same recorded values, in the same order, as when
   * every session is replaced by direct recordings with its labels.
   */
  lemma {:induction false} BoundSessionsDeliverAsDirect(s: SyncInstrument, script: seq<Step>)
    ensures Delivered(Run(s, script)) == Delivered(Run(s, DirectScript(script)))
  {
    if script != [] {
      var rest := script[1..];
      BoundSessionsDeliverAsDirect(s, rest);
      match script[0]
      case Record(ctx, n, labels) =>
        assert DirectScript(script) == [script[0]] + DirectScript(rest);
        RunAppend(s, [script[0]], DirectScript(rest));
        assert Run(s, [script[0]]) == s.DirectRecord(ctx, n, labels);
        DeliveredAppend(s.DirectRecord(ctx, n, labels), Run(s, rest));
        DeliveredAppend(s.DirectRecord(ctx, n, labels), Run(s, DirectScript(rest)));
      case BoundSession(labels, samples) =>
        var (h, bindCalls) := s.Bind(labels);
        var steps := DirectSteps(labels, samples);
        assert DirectScript(script) == steps + DirectScript(rest);
        RunAppend(s, steps, DirectScript(rest));
        RecordAllDeliversAsDirect(s, labels, samples);
        DeliveredAppend(bindCalls, RecordAll(h, samples));
        DeliveredAppend(bindCalls + RecordAll(h, samples), h.Unbind());
        assert Delivered(bindCalls) == [];
        assert Delivered(h.Unbind()) == [];
        DeliveredAppend(Session(s, labels, samples), Run(s, rest));
        DeliveredAppend(Run(s, steps), Run(s, DirectScript(rest)));
    }
  }

  /**
   * A counter constructed from a backend, bound to {"k": "v"}, recording the
   * integer 5 once and then unbound: the backend sees one `Bind`, one
   * `RecordOne` carrying 5 and one `Unbind`, in that order, and construction
   * reports no error.
   */
  lemma CounterSessionScenario(id: nat, ctx: Context)
    ensures var (counter, err) := WrapInt64CounterInstrument(Some(SyncBackend(id)), None);
      var labels := [KeyValue("k", "v")];
      err == None &&
      Session(counter.syncInstrument, labels, [Sample(ctx, Int64Number(5))]) ==
        [BindCall(id, labels), BoundRecordOneCall(id, labels, ctx, Int64Number(5)), UnbindCall(id, labels)]
  {
    var labels := [KeyValue("k", "v")];
    var samples := [Sample(ctx, Int64Number(5))];
    var h := SyncBoundInstrument(BoundBackend(id, labels));
    assert RecordAll(h, samples[1..]) == [];
    assert RecordAll(h, samples) == [BoundRecordOneCall(id, labels, ctx, Int64Number(5))];
  }

  /**
   * A counter whose backend constructor returned nil and no error records
   * without any effect, and its construction reported the sentinel error.
   */
  lemma NilCounterScenario(ctx: Context, value: int64, labels: Labels)
    ensures var (counter, err) := WrapInt64CounterInstrument(None, None);
      err == Some(ErrSDKReturnedNilImpl) &&
      counter.syncInstrument.DirectRecord(ctx, Int64Number(value), labels) == []
  {
  }
}
