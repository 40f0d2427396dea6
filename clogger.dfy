/**
  The logging client of the cocaine framework: a logger bound to the remote
  logging service, with a cached verbosity and one emit message per record.
*/
module CLogger {
  import opened Wrappers
  import opened Values

  /** Method number of the logging service's `emit` call. */
  const LoggerEmit: int := 0

  /** Sentinel of the severity cache meaning "no verbosity fetched yet". */
  const Unset: int := -100

  // Severity levels, in the logging protocol's order.
  const DebugLevel: int := 0
  const InfoLevel: int := 1
  const WarnLevel: int := 2
  const ErrorLevel: int := 3

  /** One transmitted attribute: Go's `attrPair`. */
  datatype AttrPair = AttrPair(name: string, value: Value)

  ghost predicate DistinctNames(attrs: seq<AttrPair>) {
    forall i, j :: 0 <= i < j < |attrs| ==> attrs[i].name != attrs[j].name
  }

  /**
    `attrs` is a transmission order of the fields `f`: one pair per entry,
    each carrying its entry's value, no name twice. Go's map iteration order
    is unspecified, so no order is imposed.
  */
  ghost predicate FormatsFields(attrs: seq<AttrPair>, f: Fields) {
    && |attrs| == |f|
    && DistinctNames(attrs)
    && forall i :: 0 <= i < |attrs| ==> attrs[i].name in f && attrs[i].value == f[attrs[i].name]
  }

  /** Turns the fields into a sequence of pairs by visiting the keys in an arbitrary order. */
  method FormatFields(f: Fields) returns (formatted: seq<AttrPair>)
    ensures FormatsFields(formatted, f)
  {
    formatted := [];
    var rest := f.Keys;
    while rest != {}
      invariant rest <= f.Keys
      invariant |formatted| + |rest| == |f|
      invariant DistinctNames(formatted)
      invariant forall i :: 0 <= i < |formatted| ==>
        formatted[i].name in f && formatted[i].name !in rest && formatted[i].value == f[formatted[i].name]
      decreases |rest|
    {
      var k :| k in rest;
      formatted := formatted + [AttrPair(k, f[k])];
      rest := rest - {k};
    }
  }

  /** The set of names in a sequence of pairs. */
  function Names(attrs: seq<AttrPair>): (names: set<string>)
    ensures forall i :: 0 <= i < |attrs| ==> attrs[i].name in names
    ensures forall n :: n in names ==> exists i :: 0 <= i < |attrs| && attrs[i].name == n
  {
    if attrs == [] then {} else {attrs[0].name} + Names(attrs[1..])
  }

  lemma {:induction false} DistinctNamesCount(attrs: seq<AttrPair>)
    requires DistinctNames(attrs)
    ensures |Names(attrs)| == |attrs|
  {
    if attrs != [] {
      DistinctNamesCount(attrs[1..]);
      assert attrs[0].name !in Names(attrs[1..]);
    }
  }

  lemma SubsetOfEqualSize<T>(a: set<T>, b: set<T>)
    requires a <= b && |a| == |b|
    ensures a == b
  {
    assert b == a + (b - a);
    assert |b - a| == 0;
  }

  /** Every entry of the fields is transmitted. */
  lemma FormattedCoversFields(attrs: seq<AttrPair>, f: Fields)
    requires FormatsFields(attrs, f)
    ensures Names(attrs) == f.Keys
    ensures forall k :: k in f ==> exists i :: 0 <= i < |attrs| && attrs[i] == AttrPair(k, f[k])
  {
    DistinctNamesCount(attrs);
    SubsetOfEqualSize(Names(attrs), f.Keys);
    forall k | k in f
      ensures exists i :: 0 <= i < |attrs| && attrs[i] == AttrPair(k, f[k])
    {
      assert k in Names(attrs);
      var i :| 0 <= i < |attrs| && attrs[i].name == k;
      assert attrs[i] == AttrPair(k, f[k]);
    }
  }

  /** The transmitted pairs are exactly the entries of the fields. */
  lemma FormattedPairsAreEntries(attrs: seq<AttrPair>, f: Fields)
    requires FormatsFields(attrs, f)
    ensures (set i | 0 <= i < |attrs| :: attrs[i]) == (set k | k in f :: AttrPair(k, f[k]))
  {
    FormattedCoversFields(attrs, f);
  }

  /** Dropping one pair formats the fields without that entry. */
  lemma RemovePair(b: seq<AttrPair>, j: nat, f: Fields)
    requires FormatsFields(b, f) && j < |b|
    ensures FormatsFields(b[..j] + b[j + 1..], f - {b[j].name})
  {
  }

  /** Any two formattings of the same fields differ only in order. */
  lemma {:induction false} FormattingUniqueUpToOrder(a: seq<AttrPair>, b: seq<AttrPair>, f: Fields)
    requires FormatsFields(a, f) && FormatsFields(b, f)
    ensures multiset(a) == multiset(b)
  {
    if a != [] {
      var x := a[0];
      var j := IndexOfName(b, f, x.name);
      var a', b' := a[1..], b[..j] + b[j + 1..];
      RemovePair(a, 0, f);
      assert a[..0] + a[1..] == a';
      RemovePair(b, j, f);
      FormattingUniqueUpToOrder(a', b', f - {x.name});
      assert b[j] == x;
      calc {
        multiset(b);
        { assert b == b[..j] + [b[j]] + b[j + 1..]; }
        multiset(b[..j]) + multiset{x} + multiset(b[j + 1..]);
        multiset(b') + multiset{x};
        multiset(a') + multiset{x};
        { assert a == [x] + a'; }
        multiset(a);
      }
    }
  }

  /** Where a key's pair sits in a formatting. */
  lemma IndexOfName(b: seq<AttrPair>, f: Fields, k: string) returns (j: nat)
    requires FormatsFields(b, f) && k in f
    ensures j < |b| && b[j] == AttrPair(k, f[k])
  {
    FormattedCoversFields(b, f);
    j :| 0 <= j < |b| && b[j] == AttrPair(k, f[k]);
  }

  /** The positional arguments of an emit message: level, source name, message, attributes. */
  datatype Payload = Payload(level: int, appName: string, message: Text, attrs: seq<AttrPair>)

  /** A message on the logging service's channel: session number, method number, arguments. */
  datatype Message = Message(session: nat, methodId: int, args: Payload)

  /** A request to the logging service issued through `Service.Call`. */
  datatype ServiceCall = SetVerbosityCall(level: int) | VerbosityCall

  /** How the `verbosity` request ended: the call, the reply or its decoding failed, or it gave a level. */
  datatype VerbosityReply = CallFailed | GetFailed | ExtractFailed | Reply(level: int)

  /** A bound emitter: the logger with the fields every record it writes carries. */
  datatype Entry = Entry(logger: CocaineLogger, fields: Fields)

  /**
    `cocaineLogger`. `severity` is the verbosity cache; `sessions` is the
    service's session counter; `sent` records what `sendMsg` hands to the
    channel and `calls` the requests made with `Service.Call`.
  */
  class CocaineLogger {
    /** `defaults.AppName`, the process-wide source name. */
    const appName: string
    /** `defaultFields`, the attributes of the per-level wrappers. */
    const defaultFields: Fields

    var severity: int
    var sessions: nat
    ghost var sent: seq<Message>
    ghost var calls: seq<ServiceCall>

    /** Every message sent is an emit with its own session number, in increasing order. */
    ghost predicate Valid()
      reads this
    {
      && (forall i :: 0 <= i < |sent| ==> sent[i].methodId == LoggerEmit && 0 < sent[i].session <= sessions)
      && (forall i, j :: 0 <= i < j < |sent| ==> sent[i].session < sent[j].session)
    }

    /** `m` is the emit message for one record under the given session number. */
    ghost predicate IsRecord(m: Message, session: nat, level: int, fields: Fields, text: Text) {
      && m.session == session
      && m.methodId == LoggerEmit
      && m.args.level == level
      && m.args.appName == appName
      && m.args.message == text
      && FormatsFields(m.args.attrs, fields)
    }

    /**
      The call sent exactly one record, under the next session number, and
      changed nothing else.
    */
    twostate predicate Sends(level: int, fields: Fields, text: Text)
      reads this
    {
      && Valid()
      && severity == old(severity)
      && calls == old(calls)
      && sessions == old(sessions) + 1
      && |sent| == |old(sent)| + 1
      && sent[..|old(sent)|] == old(sent)
      && IsRecord(sent[|old(sent)|], sessions, level, fields, text)
    }

    /** The logger set up once the service is connected: the cache starts unset. */
    constructor (appName: string, defaultFields: Fields)
      ensures this.appName == appName && this.defaultFields == defaultFields
      ensures severity == Unset && sessions == 0 && sent == [] && calls == []
      ensures Valid()
      ensures forall l :: l >= Unset ==> V(l)
    {
      this.appName := appName;
      this.defaultFields := defaultFields;
      severity := Unset;
      sessions := 0;
      sent := [];
      calls := [];
    }

    /** Asks the service to change its verbosity and forgets the cached value. */
    method SetVerbosity(level: int)
      modifies this
      ensures severity == Unset
      ensures forall l :: l >= Unset ==> V(l)
      ensures calls == old(calls) + [SetVerbosityCall(level)]
      ensures sent == old(sent) && sessions == old(sessions)
      ensures Valid() <==> old(Valid())
    {
      calls := calls + [SetVerbosityCall(level)];
      severity := Unset;
    }

    /**
      The cached verbosity, or else the one fetched from the service (and
      then cached), or else `DebugLevel`. `reply` is how the fetch went.
    */
    method Verbosity(reply: VerbosityReply) returns (level: int)
      modifies this
      ensures sent == old(sent) && sessions == old(sessions)
      ensures Valid() <==> old(Valid())
      ensures old(severity) != Unset ==>
        level == old(severity) && severity == old(severity) && calls == old(calls)
      ensures old(severity) == Unset ==> calls == old(calls) + [VerbosityCall]
      ensures old(severity) == Unset && !reply.Reply? ==> level == DebugLevel && severity == Unset
      ensures old(severity) == Unset && reply.Reply? ==> level == reply.level && severity == reply.level
      ensures severity != Unset ==> forall l :: V(l) <==> l >= level
    {
      level := DebugLevel;
      var lvl := severity;
      if lvl != Unset {
        return lvl;
      }
      calls := calls + [VerbosityCall];
      if reply.CallFailed? {
        return;
      }
      if reply.GetFailed? {
        return;
      }
      if reply.ExtractFailed? {
        return;
      }
      severity := reply.level;
      return reply.level;
    }

    /** Whether `level` passes the raw cached threshold (no fetch, no fallback). */
    function V(level: int): (enabled: bool)
      reads this
      ensures enabled <==> level >= severity
      ensures severity == Unset ==> (enabled <==> level >= Unset)
    {
      level >= severity
    }

    /** An emitter bound to `fields`; the logger itself is left as it is. */
    function WithFields(fields: Fields): (e: Entry)
      ensures e.logger == this && e.fields == fields
    {
      Entry(this, fields)
    }

    /**
      Sends one record: the message is `Sprintf(msg, args)` when there are
      arguments and `msg` verbatim otherwise.
    */
    method Log(level: int, fields: Fields, msg: Text, args: seq<Value>)
      requires Valid()
      modifies this
      ensures Sends(level, fields, if |args| > 0 then Sprintf(msg, args) else msg)
    {
      var methodArgs;
      if |args| > 0 {
        var attrs := FormatFields(fields);
        methodArgs := Payload(level, appName, Sprintf(msg, args), attrs);
      } else {
        var attrs := FormatFields(fields);
        methodArgs := Payload(level, appName, msg, attrs);
      }
      sessions := sessions + 1;
      var loggermsg := Message(sessions, LoggerEmit, methodArgs);
      sent := sent + [loggermsg];
    }

    method Debug(args: seq<Value>)
      requires Valid()
      modifies this
      ensures Sends(DebugLevel, defaultFields, Sprint(args))
    {
      Log(DebugLevel, defaultFields, Sprint(args), []);
    }

    method Debugf(msg: string, args: seq<Value>)
      requires Valid()
      modifies this
      ensures Sends(DebugLevel, defaultFields, if |args| > 0 then Sprintf(Raw(msg), args) else Raw(msg))
    {
      Log(DebugLevel, defaultFields, Raw(msg), args);
    }

    method Info(args: seq<Value>)
      requires Valid()
      modifies this
      ensures Sends(InfoLevel, defaultFields, Sprint(args))
    {
      Log(InfoLevel, defaultFields, Sprint(args), []);
    }

    method Infof(msg: string, args: seq<Value>)
      requires Valid()
      modifies this
      ensures Sends(InfoLevel, defaultFields, if |args| > 0 then Sprintf(Raw(msg), args) else Raw(msg))
    {
      Log(InfoLevel, defaultFields, Raw(msg), args);
    }

    method Warn(args: seq<Value>)
      requires Valid()
      modifies this
      ensures Sends(WarnLevel, defaultFields, Sprint(args))
    {
      Log(WarnLevel, defaultFields, Sprint(args), []);
    }

    method Warnf(msg: string, args: seq<Value>)
      requires Valid()
      modifies this
      ensures Sends(WarnLevel, defaultFields, if |args| > 0 then Sprintf(Raw(msg), args) else Raw(msg))
    {
      Log(WarnLevel, defaultFields, Raw(msg), args);
    }

    method Err(args: seq<Value>)
      requires Valid()
      modifies this
      ensures Sends(ErrorLevel, defaultFields, Sprint(args))
    {
      Log(ErrorLevel, defaultFields, Sprint(args), []);
    }

    method Errf(msg: string, args: seq<Value>)
      requires Valid()
      modifies this
      ensures Sends(ErrorLevel, defaultFields, if |args| > 0 then Sprintf(Raw(msg), args) else Raw(msg))
    {
      Log(ErrorLevel, defaultFields, Raw(msg), args);
    }
  }

  /**
    `newCocaineLogger`: `connected` is whether the service could be reached
    within the connection timeout; only then is a logger returned.
  */
  method NewCocaineLogger(connected: bool, appName: string, defaultFields: Fields)
    returns (logger: Option<CocaineLogger>)
    ensures logger.Some? <==> connected
    ensures logger.Some? ==>
      && fresh(logger.value)
      && logger.value.appName == appName && logger.value.defaultFields == defaultFields
      && logger.value.severity == Unset && logger.value.sent == [] && logger.value.calls == []
      && logger.value.Valid()
  {
    if !connected {
      return None;
    }
    var c := new CocaineLogger(appName, defaultFields);
    return Some(c);
  }

  /**
    `V` reads the raw cache, not what `Verbosity` answers: after a failed
    fetch the cache is still unset, so `V` enables -100 although the
    verbosity reported is `DebugLevel`.
  */
  method UnsetCacheEnablesBelowDebug(logger: CocaineLogger, reply: VerbosityReply) returns (level: int)
    requires logger.severity == Unset && !reply.Reply?
    modifies logger
    ensures level == DebugLevel
    ensures logger.V(Unset) && Unset < level
    ensures forall l :: Unset <= l < level ==> logger.V(l)
  {
    level := logger.Verbosity(reply);
  }
}
