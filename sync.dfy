/**
 * The synchronous and asynchronous instrument wrappers of the metric API:
 * the construction safety net that never hands a nil interface to the
 * application, the typed constructors built on it, measurements and
 * observations, and the calls the wrappers forward to the backend.
 *
 * Backend implementations are opaque: a real backend is known only by an
 * identity, and what reaches it is described by the list of `Call`s a
 * forwarding operation delivers. The no-op implementations deliver nothing.
 */
module Sync {
  import opened Wrappers
  import opened Values

  /** A backend's synchronous instrument, or the built-in no-op one. */
  datatype SyncImpl = SyncBackend(id: nat) | NoopSync

  /** A backend's asynchronous instrument, or the built-in no-op one. */
  datatype AsyncImpl = AsyncBackend(id: nat) | NoopAsync

  /** What a synchronous instrument's `Bind` returns: a handle fixed to one label set. */
  datatype BoundSyncImpl = BoundBackend(id: nat, labels: Labels) | NoopBound

  /** A Go `error`: the facade's sentinel, or anything a backend reports. */
  datatype Error = SDKReturnedNilImpl | Reported(message: string)

  /** The error used when a backend constructor returns a nil implementation and no error. */
  const ErrSDKReturnedNilImpl: Error := SDKReturnedNilImpl

  /** A call that reaches a real backend instrument. */
  datatype Call =
    | RecordOneCall(backend: nat, ctx: Context, number: Number, labels: Labels)
    | BindCall(backend: nat, labels: Labels)
    | BoundRecordOneCall(backend: nat, labels: Labels, ctx: Context, number: Number)
    | UnbindCall(backend: nat, labels: Labels)

  /** A recorded value as the backend sees it, whichever path delivered it. */
  datatype Delivery = Delivery(backend: nat, ctx: Context, number: Number, labels: Labels)

  /** The recorded values among `calls`, in order; binding and unbinding deliver no value. */
  function Delivered(calls: seq<Call>): seq<Delivery>
  {
    if calls == [] then []
    else
      var rest := Delivered(calls[1..]);
      match calls[0]
      case RecordOneCall(b, ctx, n, labels) => [Delivery(b, ctx, n, labels)] + rest
      case BoundRecordOneCall(b, labels, ctx, n) => [Delivery(b, ctx, n, labels)] + rest
      case _ => rest
  }

  lemma {:induction false} DeliveredAppend(a: seq<Call>, b: seq<Call>)
    ensures Delivered(a + b) == Delivered(a) + Delivered(b)
  {
    if a == [] {
      assert a + b == b;
    } else {
      assert (a + b)[0] == a[0];
      assert (a + b)[1..] == a[1..] + b;
      DeliveredAppend(a[1..], b);
    }
  }

  /**
   * The model of a backend's `SyncImpl.Bind`: a real backend hands out a
   * bound instrument of its own carrying the labels; the no-op hands out
   * the no-op bound instrument.
   */
  function BindImpl(impl: SyncImpl, labels: Labels): BoundSyncImpl
  {
    match impl
    case SyncBackend(id) => BoundBackend(id, labels)
    case NoopSync => NoopBound
  }

  // ---------------------------------------------------------------------
  // Measurements and observations

  /** One synchronous value, with the instrument that produced it. */
  datatype Measurement = Measurement(number: Number, instrument: SyncImpl) {

    /** The instrument that created this measurement. */
    function SyncImpl(): SyncImpl { instrument }

    /** The number recorded in this measurement. */
    function Number(): Number { number }
  }

  /** One asynchronous value, with the instrument that produced it. */
  datatype Observation = Observation(number: Number, instrument: AsyncImpl) {

    /** The instrument that created this observation. */
    function AsyncImpl(): AsyncImpl { instrument }

    /** The number recorded in this observation. */
    function Number(): Number { number }
  }

  /** Reading a new measurement gives back exactly what went in. */
  function NewMeasurement(instrument: SyncImpl, number: Number): (m: Measurement)
    ensures m.Number() == number && m.SyncImpl() == instrument
  {
    Measurement(number, instrument)
  }

  /** A measurement is determined by its two accessors. */
  lemma MeasurementEta(m: Measurement)
    ensures NewMeasurement(m.SyncImpl(), m.Number()) == m
  {
  }

  /** An observation is determined by its two accessors, and they return its parts. */
  lemma ObservationAccessors(number: Number, instrument: AsyncImpl, o: Observation)
    ensures Observation(number, instrument).Number() == number
    ensures Observation(number, instrument).AsyncImpl() == instrument
    ensures Observation(o.Number(), o.AsyncImpl()) == o
  {
  }

  // ---------------------------------------------------------------------
  // Wrappers

  /** A bound synchronous instrument: the backend's bound handle. */
  datatype SyncBoundInstrument = SyncBoundInstrument(boundInstrument: BoundSyncImpl) {

    /** Forwards `RecordOne(ctx, number)` to the bound handle; returns what reaches a backend. */
    function DirectRecord(ctx: Context, number: Number): (calls: seq<Call>)
      ensures boundInstrument == NoopBound ==> calls == []
      ensures boundInstrument.BoundBackend? ==>
        calls == [BoundRecordOneCall(boundInstrument.id, boundInstrument.labels, ctx, number)]
    {
      match boundInstrument
      case BoundBackend(id, labels) => [BoundRecordOneCall(id, labels, ctx, number)]
      case NoopBound => []
    }

    /** Forwards `Unbind()` to the bound handle; returns what reaches a backend. */
    function Unbind(): (calls: seq<Call>)
      ensures boundInstrument == NoopBound ==> calls == []
      ensures boundInstrument.BoundBackend? ==>
        calls == [UnbindCall(boundInstrument.id, boundInstrument.labels)]
    {
      match boundInstrument
      case BoundBackend(id, labels) => [UnbindCall(id, labels)]
      case NoopBound => []
    }
  }

  function NewSyncBoundInstrument(boundInstrument: BoundSyncImpl): SyncBoundInstrument
  {
    SyncBoundInstrument(boundInstrument)
  }

  /** An unbound synchronous instrument. */
  datatype SyncInstrument = SyncInstrument(instrument: SyncImpl) {

    /** The implementation object of this instrument. */
    function SyncImpl(): SyncImpl { instrument }

    /**
     * Binds the instrument to `labels`: the result wraps exactly what the
     * implementation's `Bind` returns, and a real backend receives one
     * `Bind` call with those labels.
     */
    function Bind(labels: Labels): (r: (SyncBoundInstrument, seq<Call>))
      ensures r.0 == NewSyncBoundInstrument(BindImpl(instrument, labels))
      ensures instrument == NoopSync ==> r.1 == []
      ensures instrument.SyncBackend? ==> r.1 == [BindCall(instrument.id, labels)]
    {
      var calls := match instrument
        case SyncBackend(id) => [BindCall(id, labels)]
        case NoopSync => [];
      (NewSyncBoundInstrument(BindImpl(instrument, labels)), calls)
    }

    /** An int64-tagged measurement of `value` belonging to this instrument. */
    function Int64Measurement(value: int64): (m: Measurement)
      ensures m.Number() == Int64Number(value) && m.Number().asInt64 == value
      ensures m.SyncImpl() == instrument
    {
      NewMeasurement(instrument, Int64Number(value))
    }

    /** A float64-tagged measurement of `value` belonging to this instrument. */
    function Float64Measurement(value: Float64): (m: Measurement)
      ensures m.Number() == Float64Number(value) && m.Number().asFloat64 == value
      ensures m.SyncImpl() == instrument
    {
      NewMeasurement(instrument, Float64Number(value))
    }

    /** Forwards `RecordOne(ctx, number, labels)`; returns what reaches a backend. */
    function DirectRecord(ctx: Context, number: Number, labels: Labels): (calls: seq<Call>)
      ensures instrument == NoopSync ==> calls == []
      ensures instrument.SyncBackend? ==> calls == [RecordOneCall(instrument.id, ctx, number, labels)]
    {
      match instrument
      case SyncBackend(id) => [RecordOneCall(id, ctx, number, labels)]
      case NoopSync => []
    }
  }

  /** An asynchronous instrument. */
  datatype AsyncInstrument = AsyncInstrument(instrument: AsyncImpl) {

    /** The implementation object of this instrument. */
    function AsyncImpl(): AsyncImpl { instrument }
  }

  /**
   * Binding to `labels` and recording through the bound instrument delivers
   * to the backend exactly what recording directly with `labels` delivers.
   */
  lemma BindThenRecordIsDirectRecord(s: SyncInstrument, labels: Labels, ctx: Context, number: Number)
    ensures Delivered(s.Bind(labels).0.DirectRecord(ctx, number)) == Delivered(s.DirectRecord(ctx, number, labels))
  {
  }

  // ---------------------------------------------------------------------
  // The construction safety net

  /**
   * Validates what a backend constructor returned. The wrapper never holds
   * nil: a nil implementation becomes the no-op, and the sentinel error is
   * supplied if the backend gave none. A present implementation is kept and
   * its error, nil or not, passes through.
   */
  function CheckNewAsync(instrument: Option<AsyncImpl>, err: Option<Error>): (r: (AsyncInstrument, Option<Error>))
    ensures instrument.Some? ==> r.0.AsyncImpl() == instrument.value && r.1 == err
    ensures instrument.None? ==> r.0.AsyncImpl() == NoopAsync
    ensures instrument.None? && err.None? ==> r.1 == Some(ErrSDKReturnedNilImpl)
    ensures instrument.None? && err.Some? ==> r.1 == err
  {
    var (impl, e) :=
      if instrument.None? then
        (NoopAsync, if err.None? then Some(ErrSDKReturnedNilImpl) else err)
      else (instrument.value, err);
    (AsyncInstrument(impl), e)
  }

  /** The synchronous counterpart of `CheckNewAsync`, substituting `NoopSync`. */
  function CheckNewSync(instrument: Option<SyncImpl>, err: Option<Error>): (r: (SyncInstrument, Option<Error>))
    ensures instrument.Some? ==> r.0.SyncImpl() == instrument.value && r.1 == err
    ensures instrument.None? ==> r.0.SyncImpl() == NoopSync
    ensures instrument.None? && err.None? ==> r.1 == Some(ErrSDKReturnedNilImpl)
    ensures instrument.None? && err.Some? ==> r.1 == err
  {
    var (impl, e) :=
      if instrument.None? then
        (NoopSync, if err.None? then Some(ErrSDKReturnedNilImpl) else err)
      else (instrument.value, err);
    (SyncInstrument(impl), e)
  }

  /** The error returned is nil exactly when the backend returned an implementation and no error. */
  lemma CheckNewSyncErrorIsNil(instrument: Option<SyncImpl>, err: Option<Error>)
    ensures CheckNewSync(instrument, err).1.None? <==> instrument.Some? && err.None?
  {
  }

  /** As `CheckNewSyncErrorIsNil`, for asynchronous instruments. */
  lemma CheckNewAsyncErrorIsNil(instrument: Option<AsyncImpl>, err: Option<Error>)
    ensures CheckNewAsync(instrument, err).1.None? <==> instrument.Some? && err.None?
  {
  }

  /**
   * Checking again what the check produced changes nothing: its output is
   * a valid, non-nil construction result.
   */
  lemma CheckNewSyncIdempotent(instrument: Option<SyncImpl>, err: Option<Error>)
    ensures var r := CheckNewSync(instrument, err);
      CheckNewSync(Some(r.0.SyncImpl()), r.1) == r
  {
  }

  /** As `CheckNewSyncIdempotent`, for asynchronous instruments. */
  lemma CheckNewAsyncIdempotent(instrument: Option<AsyncImpl>, err: Option<Error>)
    ensures var r := CheckNewAsync(instrument, err);
      CheckNewAsync(Some(r.0.AsyncImpl()), r.1) == r
  {
  }

  // ---------------------------------------------------------------------
  // Typed instruments and their constructors

  datatype Int64Counter = Int64Counter(syncInstrument: SyncInstrument)
  datatype Float64Counter = Float64Counter(syncInstrument: SyncInstrument)
  datatype Int64Measure = Int64Measure(syncInstrument: SyncInstrument)
  datatype Float64Measure = Float64Measure(syncInstrument: SyncInstrument)
  datatype Int64Observer = Int64Observer(asyncInstrument: AsyncInstrument)
  datatype Float64Observer = Float64Observer(asyncInstrument: AsyncInstrument)

  /** An `Int64Counter` embedding exactly the checked wrapper, with the check's error. */
  function WrapInt64CounterInstrument(syncInst: Option<SyncImpl>, err: Option<Error>): (r: (Int64Counter, Option<Error>))
    ensures (r.0.syncInstrument, r.1) == CheckNewSync(syncInst, err)
  {
    var (common, e) := CheckNewSync(syncInst, err);
    (Int64Counter(common), e)
  }

  /** A `Float64Counter` embedding exactly the checked wrapper, with the check's error. */
  function WrapFloat64CounterInstrument(syncInst: Option<SyncImpl>, err: Option<Error>): (r: (Float64Counter, Option<Error>))
    ensures (r.0.syncInstrument, r.1) == CheckNewSync(syncInst, err)
  {
    var (common, e) := CheckNewSync(syncInst, err);
    (Float64Counter(common), e)
  }

  /** An `Int64Measure` embedding exactly the checked wrapper, with the check's error. */
  function WrapInt64MeasureInstrument(syncInst: Option<SyncImpl>, err: Option<Error>): (r: (Int64Measure, Option<Error>))
    ensures (r.0.syncInstrument, r.1) == CheckNewSync(syncInst, err)
  {
    var (common, e) := CheckNewSync(syncInst, err);
    (Int64Measure(common), e)
  }

  /** A `Float64Measure` embedding exactly the checked wrapper, with the check's error. */
  function WrapFloat64MeasureInstrument(syncInst: Option<SyncImpl>, err: Option<Error>): (r: (Float64Measure, Option<Error>))
    ensures (r.0.syncInstrument, r.1) == CheckNewSync(syncInst, err)
  {
    var (common, e) := CheckNewSync(syncInst, err);
    (Float64Measure(common), e)
  }

  /** An `Int64Observer` embedding exactly the checked wrapper, with the check's error. */
  function WrapInt64ObserverInstrument(asyncInst: Option<AsyncImpl>, err: Option<Error>): (r: (Int64Observer, Option<Error>))
    ensures (r.0.asyncInstrument, r.1) == CheckNewAsync(asyncInst, err)
  {
    var (common, e) := CheckNewAsync(asyncInst, err);
    (Int64Observer(common), e)
  }

  /** A `Float64Observer` embedding exactly the checked wrapper, with the check's error. */
  function WrapFloat64ObserverInstrument(asyncInst: Option<AsyncImpl>, err: Option<Error>): (r: (Float64Observer, Option<Error>))
    ensures (r.0.asyncInstrument, r.1) == CheckNewAsync(asyncInst, err)
  {
    var (common, e) := CheckNewAsync(asyncInst, err);
    (Float64Observer(common), e)
  }

  /**
   * Whatever the backend constructor returned, every typed wrapper holds a
   * non-nil implementation: the backend's own when it gave one, the no-op
   * otherwise, and its error is nil only when nothing went wrong.
   */
  lemma WrappedInstrumentsAreUsable(syncInst: Option<SyncImpl>, asyncInst: Option<AsyncImpl>, err: Option<Error>)
    ensures WrapInt64CounterInstrument(syncInst, err).0.syncInstrument.SyncImpl() == syncInst.GetOr(NoopSync)
    ensures WrapFloat64CounterInstrument(syncInst, err).0.syncInstrument.SyncImpl() == syncInst.GetOr(NoopSync)
    ensures WrapInt64MeasureInstrument(syncInst, err).0.syncInstrument.SyncImpl() == syncInst.GetOr(NoopSync)
    ensures WrapFloat64MeasureInstrument(syncInst, err).0.syncInstrument.SyncImpl() == syncInst.GetOr(NoopSync)
    ensures WrapInt64ObserverInstrument(asyncInst, err).0.asyncInstrument.AsyncImpl() == asyncInst.GetOr(NoopAsync)
    ensures WrapFloat64ObserverInstrument(asyncInst, err).0.asyncInstrument.AsyncImpl() == asyncInst.GetOr(NoopAsync)
    ensures WrapInt64CounterInstrument(syncInst, err).1.None? <==> syncInst.Some? && err.None?
    ensures WrapFloat64CounterInstrument(syncInst, err).1.None? <==> syncInst.Some? && err.None?
    ensures WrapInt64MeasureInstrument(syncInst, err).1.None? <==> syncInst.Some? && err.None?
    ensures WrapFloat64MeasureInstrument(syncInst, err).1.None? <==> syncInst.Some? && err.None?
    ensures WrapInt64ObserverInstrument(asyncInst, err).1.None? <==> asyncInst.Some? && err.None?
    ensures WrapFloat64ObserverInstrument(asyncInst, err).1.None? <==> asyncInst.Some? && err.None?
  {
  }
}
