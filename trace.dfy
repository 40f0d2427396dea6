/**
  Trace-context propagation: an immutable chain of context layers carrying
  (trace, span, parent) identifiers and a start time, and the span lifecycle
  that derives a child span, logs its start and hands back a closer that logs
  its end.
*/
module Trace {
  import opened Wrappers
  import opened Values
  import CLogger

  /** The two well-known context keys. */
  const TraceInfoValue: string := "trace.traceinfo"
  const TraceStartTimeValue: string := "trace.starttime"

  type U64 = x: int | 0 <= x < 0x1_0000_0000_0000_0000

  /** What `rand.Int63` returns, reinterpreted as `uint64`. */
  type Int63 = x: int | 0 <= x < 0x8000_0000_0000_0000

  datatype TraceInfo = TraceInfo(trace: U64, span: U64, parent: U64)

  /** What `Context.Value` can hand back; `NilValue` is Go's nil. */
  datatype CtxValue = NilValue | TraceInfoVal(info: TraceInfo) | TimeVal(ns: int) | UserVal(v: NonNil)

  /** A user value other than nil: Go's nil is `NilValue` alone. */
  type NonNil = v: Value | !v.Nil? witness Int(0)

  /**
    A request-scoped context: the empty root, a `traced` layer, or a
    `context.WithValue` layer. Clock readings are nanoseconds.
  */
  datatype Context =
    | Background
    | Traced(parent: Context, traceInfo: TraceInfo, startTime: int)
    | WithValue(parent: Context, key: string, val: CtxValue)

  // ----- The chain of layers as a stack of bindings: a reference for Value -----

  /** The keys one layer binds, and to what. */
  function Layer(ctx: Context): map<string, CtxValue> {
    match ctx
    case Background => map[]
    case Traced(_, info, start) => map[TraceInfoValue := TraceInfoVal(info), TraceStartTimeValue := TimeVal(start)]
    case WithValue(_, k, val) => map[k := val]
  }

  /** The layers of a context, innermost first. */
  function Frames(ctx: Context): seq<map<string, CtxValue>> {
    match ctx
    case Background => []
    case Traced(parent, _, _) => [Layer(ctx)] + Frames(parent)
    case WithValue(parent, _, _) => [Layer(ctx)] + Frames(parent)
  }

  /** Frame `i` is the innermost one binding `key`. */
  ghost predicate InnermostAt(fs: seq<map<string, CtxValue>>, key: string, i: int) {
    0 <= i < |fs| && key in fs[i] && forall j :: 0 <= j < i ==> key !in fs[j]
  }

  /** `v` is the value of the innermost binding of `key`, or nil when no frame binds it. */
  ghost predicate InnermostBinding(fs: seq<map<string, CtxValue>>, key: string, v: CtxValue) {
    || (exists i :: InnermostAt(fs, key, i) && fs[i][key] == v)
    || (v == NilValue && forall i :: 0 <= i < |fs| ==> key !in fs[i])
  }

  /** `Value` answers with the innermost layer that binds the key, and nil when none does. */
  lemma {:induction false} ValueIsInnermostBinding(ctx: Context, key: string)
    ensures InnermostBinding(Frames(ctx), key, Value(ctx, key))
  {
    if !ctx.Background? {
      var fs, rest := Frames(ctx), Frames(ctx.parent);
      assert fs == [Layer(ctx)] + rest;
      if key in Layer(ctx) {
        assert InnermostAt(fs, key, 0);
      } else {
        ValueIsInnermostBinding(ctx.parent, key);
        assert Value(ctx, key) == Value(ctx.parent, key);
        if i :| InnermostAt(rest, key, i) && rest[i][key] == Value(ctx.parent, key) {
          assert InnermostAt(fs, key, i + 1);
        } else {
          forall i | 0 <= i < |fs| ensures key !in fs[i] {
            if i > 0 { assert fs[i] == rest[i - 1]; }
          }
        }
      }
    }
  }

  /**
    Key lookup: the root yields nil; a layer answers the keys it binds (a
    `traced` layer the trace-info and start-time keys, a `WithValue` layer its
    key) and passes every other key to its parent.
  */
  function Value(ctx: Context, key: string): (v: CtxValue)
    ensures ctx.Background? ==> v == NilValue
    ensures !ctx.Background? && key in Layer(ctx) ==> v == Layer(ctx)[key]
    ensures !ctx.Background? && key !in Layer(ctx) ==> v == Value(ctx.parent, key)
  {
    match ctx
    case Background => NilValue
    case Traced(parent, info, start) =>
      if key == TraceInfoValue then TraceInfoVal(info)
      else if key == TraceStartTimeValue then TimeVal(start)
      else Value(parent, key)
    case WithValue(parent, k, val) =>
      if k == key then val else Value(parent, key)
  }

  /** `getTraceInfo`: the trace info the context holds, absent unless the lookup yields one. */
  function GetTraceInfo(ctx: Context): (r: Option<TraceInfo>)
    ensures r.Some? <==> Value(ctx, TraceInfoValue).TraceInfoVal?
    ensures r.Some? ==> Value(ctx, TraceInfoValue) == TraceInfoVal(r.value)
  {
    match Value(ctx, TraceInfoValue)
    case TraceInfoVal(info) => Some(info)
    case _ => None
  }

  /** The context a nil-able argument stands for: nil becomes `Background`. */
  function OrBackground(ctx: Option<Context>): Context {
    if ctx.None? then Background else ctx.value
  }

  /** `AttachTraceInfo`: `now` is the clock reading taken as the start time. */
  function AttachTraceInfo(ctx: Option<Context>, traceInfo: TraceInfo, now: int): (r: Context)
    ensures GetTraceInfo(r) == Some(traceInfo)
    ensures Value(r, TraceStartTimeValue) == TimeVal(now)
    ensures forall k :: k != TraceInfoValue && k != TraceStartTimeValue ==>
      Value(r, k) == Value(OrBackground(ctx), k)
  {
    Traced(OrBackground(ctx), traceInfo, now)
  }

  /** `BeginNewTraceContext`: `draw` is the random value, `now` the clock reading. */
  function BeginNewTraceContext(ctx: Option<Context>, draw: Int63, now: int): (r: Context)
    ensures GetTraceInfo(r).Some?
    ensures GetTraceInfo(r).value.trace == GetTraceInfo(r).value.span == draw
    ensures GetTraceInfo(r).value.parent == 0
    ensures GetTraceInfo(r).value.trace < 0x8000_0000_0000_0000
    ensures forall k :: k != TraceInfoValue && k != TraceStartTimeValue ==>
      Value(r, k) == Value(OrBackground(ctx), k)
  {
    var ts := draw;
    AttachTraceInfo(ctx, TraceInfo(ts, ts, 0), now)
  }

  /** `CleanTraceInfo`: shadows any trace info with nil and keeps every other key. */
  function CleanTraceInfo(ctx: Context): (r: Context)
    ensures GetTraceInfo(r) == None
    ensures Value(r, TraceInfoValue) == NilValue
    ensures forall k :: k != TraceInfoValue ==> Value(r, k) == Value(ctx, k)
  {
    WithValue(ctx, TraceInfoValue, NilValue)
  }

  // ----- Spans -----

  /** The closure `WithTrace` returns: the dummy one, or one capturing the span. */
  datatype CloseSpan = DummySpan | SpanCloser(info: TraceInfo, startTime: int, rpcName: string)

  /** Whether `WithTrace` on this context starts a span: only when it carries trace info. */
  predicate StartsSpan(ctx: Option<Context>) {
    ctx.Some? && GetTraceInfo(ctx.value).Some?
  }

  /** Fields of a span record, shared by its start and end records. */
  function SpanFields(info: TraceInfo, timestamp: int, rpcName: string): (f: Fields)
    ensures f.Keys == {"trace_id", "span_id", "parent_id", "timestamp", "RPC"}
    ensures f["trace_id"] == Str(Hex(info.trace)) && f["span_id"] == Str(Hex(info.span))
    ensures f["parent_id"] == Str(Hex(info.parent))
    ensures f["timestamp"] == Int(timestamp) && f["RPC"] == Str(rpcName)
  {
    map[
      "trace_id" := Str(Hex(info.trace)),
      "span_id" := Str(Hex(info.span)),
      "parent_id" := Str(Hex(info.parent)),
      "timestamp" := Int(timestamp),
      "RPC" := Str(rpcName)
    ]
  }

  /** Elapsed microseconds between two nanosecond readings: `now.Sub(start).Nanoseconds() / 1000`. */
  function Micros(startTime: int, now: int): (d: int)
    ensures 0 <= now - startTime <= MaxInt64 ==> d * 1000 <= now - startTime < d * 1000 + 1000
    ensures MinInt64 <= now - startTime < 0 ==> d * 1000 - 1000 < now - startTime <= d * 1000
    ensures now - startTime > MaxInt64 ==> d == MaxInt64 / 1000
    ensures now - startTime < MinInt64 ==> d == -(MaxInt64 / 1000)
  {
    GoDiv(Saturate64(now - startTime), 1000)
  }

  /** Fields of the end record: the span fields at `now`, plus the duration. */
  function EndFields(info: TraceInfo, startTime: int, now: int, rpcName: string): (f: Fields)
    ensures f.Keys == SpanFields(info, now, rpcName).Keys + {"duration"}
    ensures f["duration"] == Int(Micros(startTime, now))
    ensures forall k :: k in f && k != "duration" ==> f[k] == SpanFields(info, now, rpcName)[k]
  {
    SpanFields(info, now, rpcName)["duration" := Int(Micros(startTime, now))]
  }

  /** The context and the closer `WithTrace` returns. */
  function Started(ctx: Option<Context>, rpcName: string, draw: Int63, now: int): (r: (Context, CloseSpan))
    ensures ctx.None? ==> r == (Background, DummySpan)
    ensures ctx.Some? && !StartsSpan(ctx) ==> r == (ctx.value, DummySpan)
    ensures StartsSpan(ctx) ==>
      var p := GetTraceInfo(ctx.value).value;
      && GetTraceInfo(r.0) == Some(TraceInfo(p.trace, draw, p.span))
      && Value(r.0, TraceStartTimeValue) == TimeVal(now)
      && (forall k :: k != TraceInfoValue && k != TraceStartTimeValue ==> Value(r.0, k) == Value(ctx.value, k))
      && r.1 == SpanCloser(TraceInfo(p.trace, draw, p.span), now, rpcName)
      && r.0.Traced? && r.0.parent == ctx.value && GetTraceInfo(r.0.parent) == Some(p)
  {
    if ctx.None? then (Background, DummySpan)
    else match GetTraceInfo(ctx.value)
      case None => (ctx.value, DummySpan)
      case Some(p) =>
        var child := TraceInfo(p.trace, draw, p.span);
        (Traced(ctx.value, child, now), SpanCloser(child, now, rpcName))
  }

  /**
    `WithTrace`. With a nil context or one without trace info nothing is
    logged and the dummy closer is returned. Otherwise the child span takes
    the parent's span as its parent and `draw` as its span, one Info-level
    "start" record is sent, and the child layer is put over `ctx`.
  */
  method WithTrace(traceLog: CLogger.CocaineLogger, ctx: Option<Context>, rpcName: string, draw: Int63, now: int)
    returns (newCtx: Context, closer: CloseSpan)
    requires traceLog.Valid()
    modifies traceLog
    ensures (newCtx, closer) == Started(ctx, rpcName, draw, now)
    ensures !StartsSpan(ctx) ==> unchanged(traceLog)
    ensures StartsSpan(ctx) ==>
      traceLog.Sends(CLogger.InfoLevel, SpanFields(closer.info, now, rpcName), Raw("start"))
  {
    if ctx.None? {
      return Background, DummySpan;
    }
    var found := GetTraceInfo(ctx.value);
    if found.None? {
      return ctx.value, DummySpan;
    }
    var startTime := now;
    var traceInfo := found.value;
    traceInfo := traceInfo.(parent := traceInfo.span);
    traceInfo := traceInfo.(span := draw);
    var entry := traceLog.WithFields(SpanFields(traceInfo, startTime, rpcName));
    entry.logger.Log(CLogger.InfoLevel, entry.fields, Raw("start"), []);
    newCtx := Traced(ctx.value, traceInfo, startTime);
    closer := SpanCloser(traceInfo, startTime, rpcName);
  }

  /**
    Calls a closer at clock reading `now`. The dummy closer does nothing;
    a span closer sends one Info-level record with the span's ids and the
    elapsed microseconds, on every call.
  */
  method InvokeCloser(closer: CloseSpan, traceLog: CLogger.CocaineLogger, now: int, format: string, args: seq<Value>)
    requires traceLog.Valid()
    modifies traceLog
    ensures closer.DummySpan? ==> unchanged(traceLog)
    ensures closer.SpanCloser? ==>
      traceLog.Sends(CLogger.InfoLevel, EndFields(closer.info, closer.startTime, now, closer.rpcName),
                     if |args| > 0 then Sprintf(Raw(format), args) else Raw(format))
  {
    match closer
    case DummySpan =>
    case SpanCloser(traceInfo, startTime, rpcName) =>
      var entry := traceLog.WithFields(EndFields(traceInfo, startTime, now, rpcName));
      entry.logger.Log(CLogger.InfoLevel, entry.fields, Raw(format), args);
  }

  // ----- Properties across calls -----

  /** One `WithTrace` call of a chain. */
  datatype Call = Call(rpcName: string, draw: Int63, now: int)

  /** The context after nesting the calls, each inside the previous one. */
  function Nest(ctx: Context, calls: seq<Call>): Context
    decreases |calls|
  {
    if calls == [] then ctx
    else Nest(Started(Some(ctx), calls[0].rpcName, calls[0].draw, calls[0].now).0, calls[1..])
  }

  /**
    Along nested spans the trace id never changes and each span's parent is
    the span of the one enclosing it.
  */
  lemma {:induction false} NestedSpansKeepTrace(ctx: Context, calls: seq<Call>, p: TraceInfo)
    requires GetTraceInfo(ctx) == Some(p) && |calls| > 0
    ensures GetTraceInfo(Nest(ctx, calls)) ==
      Some(TraceInfo(p.trace, calls[|calls| - 1].draw,
                     if |calls| == 1 then p.span else calls[|calls| - 2].draw))
    decreases |calls|
  {
    var c := calls[0];
    var child := Started(Some(ctx), c.rpcName, c.draw, c.now).0;
    assert GetTraceInfo(child) == Some(TraceInfo(p.trace, c.draw, p.span));
    if |calls| > 1 {
      NestedSpansKeepTrace(child, calls[1..], TraceInfo(p.trace, c.draw, p.span));
    }
  }

  /** A context without trace info stays as it is whatever is nested in it: no trace, no spans. */
  lemma {:induction false} UntracedStaysUntraced(ctx: Context, calls: seq<Call>)
    requires GetTraceInfo(ctx) == None
    ensures Nest(ctx, calls) == ctx
    decreases |calls|
  {
    if calls != [] {
      UntracedStaysUntraced(ctx, calls[1..]);
    }
  }

  /**
    Two spans started on the same context share its trace and have its span
    as parent; their rendered span ids differ exactly when the draws do.
  */
  lemma SiblingSpans(ctx: Context, a: Call, b: Call)
    requires GetTraceInfo(ctx).Some?
    ensures var p := GetTraceInfo(ctx).value;
      var sa := Started(Some(ctx), a.rpcName, a.draw, a.now).1;
      var sb := Started(Some(ctx), b.rpcName, b.draw, b.now).1;
      && sa.SpanCloser? && sb.SpanCloser?
      && sa.info.trace == sb.info.trace == p.trace
      && sa.info.parent == sb.info.parent == p.span
      && (SpanFields(sa.info, a.now, a.rpcName)["span_id"] == SpanFields(sb.info, b.now, b.rpcName)["span_id"]
          <==> a.draw == b.draw)
  {
    HexInjective(a.draw, b.draw);
  }

  /** The ids in a span record read back as the span's identifiers. */
  lemma SpanRecordIds(info: TraceInfo, timestamp: int, rpcName: string)
    ensures var f := SpanFields(info, timestamp, rpcName);
      && f["trace_id"].Str? && ParseHex(f["trace_id"].s) == info.trace
      && f["span_id"].Str? && ParseHex(f["span_id"].s) == info.span
      && f["parent_id"].Str? && ParseHex(f["parent_id"].s) == info.parent
  {
    ParseHexOfHex(info.trace);
    ParseHexOfHex(info.span);
    ParseHexOfHex(info.parent);
  }

  /**
    A span's closer has no guard against repeats: calling it twice sends two
    end records, after the one start record.
  */
  method SpanClosedTwice(traceLog: CLogger.CocaineLogger, ctx: Context, rpcName: string, draw: Int63,
                         t0: int, t1: int, t2: int)
    requires traceLog.Valid() && GetTraceInfo(ctx).Some?
    modifies traceLog
    ensures traceLog.Valid()
    ensures |traceLog.sent| == |old(traceLog.sent)| + 3
    ensures traceLog.sent[..|old(traceLog.sent)|] == old(traceLog.sent)
    ensures var n, s, p := |old(traceLog.sent)|, old(traceLog.sessions), GetTraceInfo(ctx).value;
      var child := TraceInfo(p.trace, draw, p.span);
      && traceLog.IsRecord(traceLog.sent[n], s + 1, CLogger.InfoLevel, SpanFields(child, t0, rpcName), Raw("start"))
      && traceLog.IsRecord(traceLog.sent[n + 1], s + 2, CLogger.InfoLevel, EndFields(child, t0, t1, rpcName), Raw("done"))
      && traceLog.IsRecord(traceLog.sent[n + 2], s + 3, CLogger.InfoLevel, EndFields(child, t0, t2, rpcName), Raw("done"))
  {
    var newCtx, closer := WithTrace(traceLog, Some(ctx), rpcName, draw, t0);
    InvokeCloser(closer, traceLog, t1, "done", []);
    InvokeCloser(closer, traceLog, t2, "done", []);
  }
}
