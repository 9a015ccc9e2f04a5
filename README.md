# Metric instrument facade: construction safety net and wrappers

This project models `api/metric/sync.go` of the OpenTelemetry Go metric API.
That file is the part of the facade that sits between application code and a
pluggable metrics backend (the SDK). It covers:

- **The construction safety net.** `checkNewSync` and `checkNewAsync` take what a backend
  constructor returned: an implementation that may be nil and an error that may be nil.
  They always give back a wrapper whose implementation interface is non-nil. A nil implementation
  becomes the built-in no-op. The sentinel `ErrSDKReturnedNilImpl` is supplied only when
  the implementation was nil and no error came with it. In every other case the error
  passes through unchanged.
- **The typed constructors.** The six `wrap*Instrument` functions each run the safety net
  and re-tag its result as an `Int64Counter`, `Float64Counter`, `Int64Measure`,
  `Float64Measure`, `Int64Observer` or `Float64Observer`.
- **Measurements and observations.** These are immutable pairs of a `Number` and the
  instrument that produced it, with accessors.
- **Delegation.** `bind`, the two `directRecord`s and `Unbind` forward to the backend.

The files:

- `wrappers.dfy`: `Option`. It stands for a Go value that may be nil: an interface
  implementation or an `error`.
- `values.dfy`: the values the facade carries without looking inside them. `Number` is a
  tagged union of an `int64` and a `float64`; the `float64` is kept as its bit pattern.
  The file also defines a `Context` token and the `[]kv.KeyValue` label list, whose values are
  reduced to strings.
- `sync.dfy`: the model of `sync.go`. Backend implementations are opaque. A real one is
  known only by an identity (`SyncBackend(id)`, `AsyncBackend(id)`). Every forwarding
  operation returns the list of `Call`s that reach a real backend. The no-op
  implementations receive calls but have no observable effect, so they contribute no
  `Call`. `BindImpl` models the backend's `Bind`: a real backend returns its own bound
  instrument for those labels, and the no-op returns the no-op bound instrument.
- `usage.dfy`: application code using one synchronous instrument over time. A script is a
  sequence of direct recordings and bound sessions; a bound session is bind, record
  through the bound instrument, then `Unbind`. The delegation facts of `sync.go` are
  proved over whole scripts:
  - a no-op instrument never reaches a backend;
  - every `Bind` is matched by exactly one `Unbind`;
  - recording through a bound instrument delivers the same values, in the same order, as
    recording directly with the bound labels.

The accessors `Measurement.SyncImpl`/`Number`, `Observation.AsyncImpl`/`Number`,
`syncInstrument.SyncImpl`, `asyncInstrument.AsyncImpl` and `newSyncBoundInstrument` are
modelled as plain functions. Their meaning is stated in the contracts that use them
(`NewMeasurement`, `MeasurementEta`, `CheckNewSync`, `CheckNewAsync`, `Bind`), so they
have no rows of their own.

## Model

| member | source | states |
|---|---|---|
| Sync.CheckNewSync | api/metric/sync.go:129-143 | The three cases. If the implementation is present, the wrapper holds exactly it and the input error is returned unchanged, nil or not. If the implementation is nil, the wrapper holds `NoopSync`. The error is then the sentinel when the input error was nil, and exactly the input error otherwise. The wrapper's type has no nil, so it never holds one. |
| Sync.CheckNewAsync | api/metric/sync.go:114-124 | The same three cases for asynchronous instruments, with `NoopAsync` substituted for nil. |
| Sync.CheckNewSyncErrorIsNil | api/metric/sync.go:129-143 | Both directions: the returned error is nil exactly when the backend gave an implementation and no error. |
| Sync.CheckNewAsyncErrorIsNil | api/metric/sync.go:114-124 | The same if-and-only-if for asynchronous instruments. |
| Sync.CheckNewSyncIdempotent | api/metric/sync.go:129-143 | Feeding the check's output back into the check returns the same output, so the result is already a valid construction result. |
| Sync.CheckNewAsyncIdempotent | api/metric/sync.go:114-124 | The same fixpoint property for asynchronous instruments. |
| Sync.NewMeasurement | api/metric/sync.go:152-157 | Reading a new measurement gives back what went in: `Number()` is the number given and `SyncImpl()` is the instrument given. |
| Sync.MeasurementEta | api/metric/sync.go:55-62 | The other direction of the round trip: any measurement equals the one rebuilt from its two accessors. |
| Sync.ObservationAccessors | api/metric/sync.go:64-74 | An observation's accessors return its parts, and an observation is determined by them. |
| Sync.SyncInstrument.Int64Measurement | api/metric/sync.go:94-96 | The result is an int64-tagged measurement of exactly `value`, belonging to the wrapper's own instrument. |
| Sync.SyncInstrument.Float64Measurement | api/metric/sync.go:90-92 | The result is a float64-tagged measurement of exactly `value`, belonging to the wrapper's own instrument. |
| Sync.SyncInstrument.Bind | api/metric/sync.go:86-88 | The bound wrapper holds exactly what the implementation's `Bind` returned for these labels. A real backend receives exactly one `Bind` call with those labels; the no-op gives none. |
| Sync.SyncInstrument.DirectRecord | api/metric/sync.go:98-100 | `RecordOne` is forwarded with the same context, number and labels, once, to a real backend. The no-op gives no call. |
| Sync.SyncBoundInstrument.DirectRecord | api/metric/sync.go:102-104 | The bound `RecordOne` is forwarded with the same context and number to the bound handle, once. A no-op bound handle gives no call. |
| Sync.SyncBoundInstrument.Unbind | api/metric/sync.go:106-109 | `Unbind` is forwarded once to the bound handle. A no-op bound handle gives no call. |
| Sync.BindThenRecordIsDirectRecord | api/metric/sync.go:86-104 | Under `BindImpl`, binding to `labels` and recording through the bound instrument delivers to the backend exactly what recording directly with `labels` delivers. |
| Sync.WrapInt64CounterInstrument | api/metric/sync.go:163-166 | The counter embeds exactly the wrapper `checkNewSync` produced and returns exactly its error, so every case of the check carries over. |
| Sync.WrapFloat64CounterInstrument | api/metric/sync.go:172-175 | The same for `Float64Counter`. |
| Sync.WrapInt64MeasureInstrument | api/metric/sync.go:181-184 | The same for `Int64Measure`. |
| Sync.WrapFloat64MeasureInstrument | api/metric/sync.go:190-193 | The same for `Float64Measure`. |
| Sync.WrapInt64ObserverInstrument | api/metric/sync.go:199-202 | The observer embeds exactly the wrapper `checkNewAsync` produced and returns exactly its error. |
| Sync.WrapFloat64ObserverInstrument | api/metric/sync.go:208-211 | The same for `Float64Observer`. |
| Sync.WrappedInstrumentsAreUsable | api/metric/sync.go:159-211 | Every typed wrapper holds the backend's implementation when it was given and the no-op otherwise. Its error is nil exactly when the backend gave an implementation and no error. |
| Usage.RecordAllShape | api/metric/sync.go:102-104 | Recording a list of samples through a backend's bound instrument delivers one bound `RecordOne` per sample, in order, with the bound labels. |
| Usage.SessionShape | api/metric/sync.go:86-109 | Under `BindImpl`, a bound session against a backend is exactly: the `Bind`, then one bound `RecordOne` per sample in order, then the `Unbind`, all for the bound labels. |
| Usage.RecordAllDeliversAsDirect | api/metric/sync.go:86-104 | Under `BindImpl`, recording samples through a bound instrument delivers the same values, in the same order, as recording each directly with the bound labels. |
| Usage.BoundSessionsDeliverAsDirect | api/metric/sync.go:86-109 | Under `BindImpl`, for any script the backend receives the same recorded values, in the same order, as from the script with every bound session replaced by direct recordings carrying its labels. |
| Usage.NoopRunIsSilent | api/metric/sync.go:129-143 | An instrument holding the no-op that the safety net substitutes runs any script to completion, and no call reaches a backend. |
| Usage.BindsMatchUnbinds | api/metric/sync.go:86-109 | Under `BindImpl`, against a backend, any script produces exactly one `Unbind` per `Bind`: one pair per bound session. The pairing comes from the script always unbinding what it bound, as callers are expected to; the facade itself contributes only one `Bind` per `bind` and one `Unbind` per `Unbind`, and does not enforce the pairing. |
| Usage.CounterSessionScenario | api/metric/sync.go:163-166 | Take an int64 counter built from a backend with no error. Bind it to {"k": "v"}, record 5 once, then unbind. Construction reports no error, and the backend sees exactly a `Bind`, a bound `RecordOne` carrying 5, and an `Unbind`, in that order. |
| Usage.NilCounterScenario | api/metric/sync.go:129-143 | A counter whose backend constructor returned nil and no error reports the sentinel error, and recording through it reaches no backend. |

## Left out

- `Number`'s representation and arithmetic: in Go it is an untagged 64-bit word whose kind is carried by the instrument's descriptor. It is defined in `number.go`, which is not part of this model. Here it is a tagged union, the `float64` is an uninterpreted bit pattern, and the 64-bit atomic-alignment requirement of `Measurement.number` is not modelled.
- `context.Context` and `kv.KeyValue` labels are passed through unexamined. A context is an opaque token. A label is a key and a string value; Go's `kv.Value` is a typed variant (bool, integers, floats, string), which the model does not distinguish.
- What a backend does with `RecordOne`, `Bind` and `Unbind` is foreign code. The model records only that each call reaches the backend with the same arguments. `BindImpl` is an assumption about backends: a real backend's `Bind` returns its own bound instrument for those labels, and the no-op's `Bind` returns the no-op bound instrument (defined in `noop.go`, not part of this model). A backend whose `Bind` returns nil is not modelled: `BoundSyncImpl` has no nil, and `bind` does not replace a nil as construction does, so the later `RecordOne` or `Unbind` on it would call a method on nil.
- Error identity. A reported error is identified by its message: two distinct Go errors with the same text (which Go compares by pointer) are one `Reported` value here.
- Go's `==` on interfaces. An implementation is compared by its identity in the model. The check only compares the interface with nil: a non-nil interface holding a nil pointer passes through unchanged, and `SyncBackend(id)` / `AsyncBackend(id)` cannot represent it.
- The alternate handling of duplicate instrument names mentioned in a comment in `checkNewSync`. It is not implemented in the source.
- The typed instruments' public methods (`Add`, `Record`, `Measurement`, `Bind`, `Observation`) and the construction of `Observation`. They live in other files of the package that are not part of this model.
- Concurrency. Nothing in `sync.go` synchronises, and the model is sequential.
