# cocaine12 trace propagation and logging client, in Dafny

This project models two components of the Go cocaine framework client
(`cocaine12`):

- **Trace-context propagation** (`cocaine12/trace.go`). A request context is
  an immutable chain of layers — the empty root (`Background`), a `traced`
  layer holding a `TraceInfo` (trace, span, parent identifiers) and a start
  time, and a `context.WithValue` layer. Lookup by key answers from the
  innermost layer that binds the key and falls through otherwise. On top of
  it sit `getTraceInfo`, `AttachTraceInfo`, `BeginNewTraceContext`,
  `CleanTraceInfo` and `WithTrace`. `WithTrace` derives a child span, sends
  an Info-level "start" record and returns a closer that sends an "end"
  record with the elapsed microseconds each time it is called.
- **The logging client** (`cocaine12/clogger.go`). `cocaineLogger` is a class
  with a verbosity cache (`severity`, with `-100` meaning unset), the
  service's session counter and an append-only record of the emit messages
  it sends and the service requests it makes. `formatFields` turns the
  record's fields into a sequence of name/value pairs in arbitrary order.

Files: `wrappers.dfy` (Option), `values.dfy` (Go values, the symbolic result
of `fmt.Sprint`/`fmt.Sprintf`, `%x` rendering, Go's truncating division and
the saturation of `time.Time.Sub`), `clogger.dfy` (module `CLogger`),
`trace.dfy` (module `Trace`).

Inputs that the Go code gets from the environment are parameters here:
the random value `rand.Int63()` is `draw: Int63` (so `0 <= draw < 2^63`),
`time.Now()` is a nanosecond reading `now: int`, the success of
`NewService` is `connected: bool`, and the outcome of the three-step
`verbosity` fetch (call, get, extract) is a `VerbosityReply`. The network
send `sendMsg` appends to the ghost sequence `sent`; `Service.Call` appends
to the ghost sequence `calls`. The process-wide `traceLog()` logger is passed
to `WithTrace` and to the closer as an explicit `CocaineLogger`.

Assumptions about code outside the two files: the severity constants are
`DebugLevel = 0`, `InfoLevel = 1`, `WarnLevel = 2`, `ErrorLevel = 3`;
`sessions.Next()` increments the counter and returns the new value;
`Entry.Infof` forwards to the logger's `log` with the entry's fields;
`defaults.AppName` and `defaultFields` are fixed values given when the
logger is built.

`V` compares against the raw cache, not against what `Verbosity` returns.
So while the cache is unset, every level `>= -100` is enabled, even though
`Verbosity` would answer `DebugLevel` after a failed fetch.

## Model

| member | source | states |
|---|---|---|
| Trace.ValueIsInnermostBinding | cocaine12/trace.go:59-68 | Context lookup returns the value of the innermost layer binding the key (a traced layer binds the trace-info and start-time keys), and nil when no layer binds it |
| Trace.Value | cocaine12/trace.go:59-68 | The root context yields nil; a traced layer answers the trace-info key with its own info and the start-time key with its own start time, a WithValue layer (as made at trace.go:97) answers its own key, and every other key is passed to the enclosing context |
| Trace.GetTraceInfo | cocaine12/trace.go:34-39 | Present exactly when the trace-info lookup yields a `TraceInfo` (nil or any other value means absent), and then it is that info |
| Trace.AttachTraceInfo | cocaine12/trace.go:82-92 | The result yields exactly the attached info and the given start time; every other key falls through to the context, or to `Background` when it is nil |
| Trace.BeginNewTraceContext | cocaine12/trace.go:71-78 | The attached info has trace == span == the drawn value (below 2^63) and parent 0; other keys fall through |
| Trace.CleanTraceInfo | cocaine12/trace.go:96-98 | Trace info is absent afterwards (the key maps to nil) even if an ancestor had one; every other key is unchanged |
| Trace.Started | cocaine12/trace.go:104-145 | Nil context gives `Background` and the dummy closer; no trace info gives the same context and the dummy closer; otherwise the child has the parent's trace, the parent's span as parent and the draw as span, carries the start time, passes other keys through, and sits over the unchanged parent |
| Trace.WithTrace | cocaine12/trace.go:104-145 | Returns what `Started` describes; on the no-op paths the logger is untouched; otherwise exactly one Info-level "start" record with the child's ids, the RPC name and the start timestamp is sent under the next session number |
| Trace.InvokeCloser | cocaine12/trace.go:147-158 | The dummy closer sends nothing; a span closer sends exactly one Info-level record per call with the span's ids, the RPC name, the current timestamp and the duration in microseconds, its message formatted as `Infof` does |
| Trace.SpanClosedTwice | cocaine12/trace.go:147-158 | Calling a span's closer twice is not guarded: three consecutive Info records are sent under the next three session numbers, the start record with the child's span fields at the start time, then two end records with the child's ids and the durations to each closing time |
| Trace.SpanFields | cocaine12/trace.go:133-139 | A span record carries exactly the keys trace_id, span_id, parent_id, timestamp and RPC: the three ids rendered with `%x`, the given timestamp and the RPC name |
| Trace.EndFields | cocaine12/trace.go:150-157 | The end record has the span keys plus duration, where duration is the elapsed microseconds and the other keys are as in a span record at the end time |
| Trace.Micros | cocaine12/trace.go:148-155 | The duration is the elapsed nanoseconds divided by 1000 rounding toward zero, with the difference saturated to int64 |
| Trace.NestedSpansKeepTrace | cocaine12/trace.go:126-131 | Along any chain of nested spans the trace id stays that of the root and each span's parent is the span of the one enclosing it |
| Trace.UntracedStaysUntraced | cocaine12/trace.go:113-119 | A context without trace info is returned unchanged by any chain of `WithTrace` calls: no ancestor trace, no span |
| Trace.SiblingSpans | cocaine12/trace.go:130-136 | Two spans started on one context share its trace and have its span as parent; their span_id strings differ exactly when the draws differ |
| Trace.SpanRecordIds | cocaine12/trace.go:134-136 | The trace_id, span_id and parent_id strings of a span record decode back to the span's identifiers |
| Values.ParseHexOfHex | cocaine12/trace.go:134-136 | The `%x` rendering of an identifier decodes back to it |
| Values.HexInjective | cocaine12/trace.go:134-136 | Two identifiers render to the same `%x` string exactly when they are equal |
| Values.Hex | cocaine12/trace.go:134-136 | `%x` gives a non-empty string of lowercase hex digits with no leading zero (just "0" for zero) |
| Values.GoDiv | cocaine12/trace.go:155 | Integer division rounds toward zero for both signs of the dividend |
| Values.Saturate64 | cocaine12/trace.go:149 | A time difference is clamped into the int64 range and kept when it fits |
| CLogger.FormatFields | cocaine12/clogger.go:22-29 | The result has one pair per field, each with its field's value, no name twice |
| CLogger.FormattedCoversFields | cocaine12/clogger.go:22-29 | The names of a formatting are exactly the field keys and every entry appears as a pair |
| CLogger.FormattedPairsAreEntries | cocaine12/clogger.go:22-29 | The set of pairs of a formatting equals the set of entries of the fields |
| CLogger.FormattingUniqueUpToOrder | cocaine12/clogger.go:22-29 | Any two formattings of the same fields are permutations of each other |
| CLogger.NewCocaineLogger | cocaine12/clogger.go:31-46 | A logger is returned exactly when the service connects; it is new, its cache is unset (-100) and nothing has been sent or requested |
| CLogger.CocaineLogger.constructor | cocaine12/clogger.go:41-45 | The cache starts unset (-100), so every level >= -100 is enabled, with nothing sent and nothing requested |
| CLogger.CocaineLogger.SetVerbosity | cocaine12/clogger.go:52-55 | Requests set_verbosity with the level and resets the cache to unset whatever it held, so every level >= -100 is enabled again; sends no record |
| CLogger.CocaineLogger.Verbosity | cocaine12/clogger.go:57-85 | Cache set: returns it with no request and no change. Cache unset: one verbosity request; a failed call, get or extract returns `DebugLevel` and leaves the cache unset; a reply of level L caches and returns L. Whenever the cache ends up set, `V(l)` holds exactly for `l >=` the returned level |
| CLogger.CocaineLogger.V | cocaine12/clogger.go:87-89 | Enabled exactly when the level is at least the raw cached value, so every level >= -100 while unset; reads state only |
| CLogger.UnsetCacheEnablesBelowDebug | cocaine12/clogger.go:57-89 | After a failed fetch on an unset cache, `Verbosity` answers `DebugLevel` while `V` still enables -100 and every level between it and `DebugLevel` |
| CLogger.CocaineLogger.WithFields | cocaine12/clogger.go:91-96 | An entry holding this logger and the given fields; the logger is not changed |
| CLogger.CocaineLogger.Log | cocaine12/clogger.go:98-114 | Sends exactly one emit message (method 0) under the next session number with payload level, app name, `Sprintf(msg, args)` when there are args and `msg` verbatim otherwise, and a formatting of the fields; nothing else changes and session numbers stay increasing |
| CLogger.CocaineLogger.Debug | cocaine12/clogger.go:116-118 | One Debug record with the default fields and the `Sprint` of the arguments verbatim |
| CLogger.CocaineLogger.Debugf | cocaine12/clogger.go:120-122 | One Debug record with the default fields and the format applied to the arguments when there are any |
| CLogger.CocaineLogger.Info | cocaine12/clogger.go:124-126 | One Info record with the default fields and the `Sprint` of the arguments verbatim |
| CLogger.CocaineLogger.Infof | cocaine12/clogger.go:128-130 | One Info record with the default fields and the format applied to the arguments when there are any |
| CLogger.CocaineLogger.Warn | cocaine12/clogger.go:132-134 | One Warn record with the default fields and the `Sprint` of the arguments verbatim |
| CLogger.CocaineLogger.Warnf | cocaine12/clogger.go:136-138 | One Warn record with the default fields and the format applied to the arguments when there are any |
| CLogger.CocaineLogger.Err | cocaine12/clogger.go:140-142 | One Error record with the default fields and the `Sprint` of the arguments verbatim |
| CLogger.CocaineLogger.Errf | cocaine12/clogger.go:144-146 | One Error record with the default fields and the format applied to the arguments when there are any |

## Left out

- The RPC service (`NewService`, `Service.Call`, `channel.Get`, `result.Extract`, `sendMsg`, `Close`) is foreign network code: its outcomes are parameters and its effects are the ghost sequences `sent` and `calls`.
- SetVerbosity, Verbosity: the model assumes `Service.Call` uses no session number, so both leave the session counter as it is; if `Call` draws from the same counter, the session numbers of emit messages are still increasing but no longer consecutive.
- CleanTraceInfo: takes a non-nil context. Go passes a nil context straight to `context.WithValue`, which panics ("cannot create context from nil parent") in current Go and, in older versions, builds a layer whose fall-through dereferences nil; that failure is not modelled.
- Values carried by `Fields`, by context layers and by the `...interface{}` arguments of the log calls and the closer are limited to strings, integers and nil; Go allows any value there, and no contract depends on which one it is.
- Context keys are `interface{}` in Go and the key switch compares dynamic types too; the model's keys are strings, so a key of a user-defined string type spelled "trace.traceinfo" would pass through a traced layer in Go but is answered by it in the model.
- The 5-second connection timeout of `newCocaineLogger`: only its outcome (`connected`) is modelled.
- `traceLog`'s `sync.Once` lazy initialisation and its panic on failure: the trace logger is an explicit parameter.
- The atomicity of the severity cache's get and set, which exists for concurrent callers; the model is sequential.
- `math/rand` and `time.Now`: their readings are parameters; the monotonic clock and wall clock are one nanosecond integer.
- The text of `fmt.Sprint` and `fmt.Sprintf` output: kept as symbolic terms recording their inputs.
- Go map iteration order: `FormatFields` picks keys in an arbitrary order and is specified up to permutation.
- Widths of `Severity` (int), of the session counter and of `UnixNano` are not modelled; integers are unbounded there.
- `Close` of the logger, which only closes the service.
