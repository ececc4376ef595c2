/** The server-side call adapters that the service builder emits for every
    operation of a contract: each turns the request message (or the inbound
    stream reader) plus the server call context into one call on the service
    method, then packs what the method returns into the response message (or
    writes it to the outbound stream writer). The four handlers below follow the
    four delegate shapes UnaryServerMethod, ServerStreamingServerMethod,
    ClientStreamingServerMethod and DuplexStreamingServerMethod. */
module ServerCallAdapters {
  import opened Wrappers
  import opened Messages
  import opened CallShapes

  /** A cancellation token, carried only as an opaque value. */
  datatype CancellationToken = CancellationToken(id: nat)

  /** default(CancellationToken) */
  const DefaultToken := CancellationToken(0)

  /** The parts of a server call context the adapters read: its identity, its
      cancellation token, and the request headers, already decoded into the
      values of the operation's header-bound data parameters in declared order. */
  datatype ServerCallContext = ServerCallContext(id: nat, cancellationToken: CancellationToken, requestHeaders: seq<Value>)

  /** One argument as the service method receives it. The headers of a
      CallOptionsArg stand for the request Metadata the CallOptions carry; the
      model identifies that Metadata with the header values it decodes to. */
  datatype Arg =
    | DataArg(value: Value)
    | TokenArg(token: CancellationToken)
    | CallContextArg(serverCallContext: ServerCallContext)
    | ServerCallContextArg(context: ServerCallContext)
    | CallOptionsArg(cancellationToken: CancellationToken, headers: seq<Value>)
    | StreamArg(items: seq<Value>)

  /** The cancellation token a service method can observe through an argument. */
  function TokenOf(a: Arg): Option<CancellationToken>
  {
    match a
    case TokenArg(t) => Some(t)
    case CallContextArg(c) => Some(c.cancellationToken)
    case ServerCallContextArg(c) => Some(c.cancellationToken)
    case CallOptionsArg(t, _) => Some(t)
    case _ => None
  }

  /** The server call context an argument gives access to, if any. */
  function ServerContextOf(a: Arg): Option<ServerCallContext>
  {
    match a
    case CallContextArg(c) => Some(c)
    case ServerCallContextArg(c) => Some(c)
    case _ => None
  }

  /** The argument for a context-typed parameter: a CallContext or the
      ServerCallContext itself wraps the call's context; CallOptions are built
      from the call's token and headers. */
  function ContextArgument(kind: ContextKind, context: ServerCallContext): (a: Arg)
    ensures TokenOf(a) == Some(context.cancellationToken)
    ensures ServerContextOf(a) == if kind == CallOptionsKind then None else Some(context)
    ensures a.CallOptionsArg? ==> a.headers == context.requestHeaders
  {
    match kind
    case CallContextKind => CallContextArg(context)
    case ServerCallContextKind => ServerCallContextArg(context)
    case CallOptionsKind => CallOptionsArg(context.cancellationToken, context.requestHeaders)
  }

  /** The argument list of the service method, in declared order: data
      parameters take the message values in order, header-bound data
      parameters the header values in order, and every other parameter is
      resolved from the call. */
  function Reassemble(ps: seq<ParameterRole>, data: seq<Value>, headers: seq<Value>,
                      inbound: seq<Value>, context: ServerCallContext): (args: seq<Arg>)
    requires |data| == CountOf(ps, DataParam)
    requires |headers| == CountOf(ps, HeaderParam)
    ensures |args| == |ps|
    decreases |ps|
  {
    if |ps| == 0 then []
    else [Slot(ps[0], data, headers, inbound, context)]
         + Reassemble(ps[1..], Unused(ps[0], DataParam, data), Unused(ps[0], HeaderParam, headers), inbound, context)
  }

  /** The argument for one parameter: the next message value, the next header
      value, or what the call itself supplies. */
  function Slot(p: ParameterRole, data: seq<Value>, headers: seq<Value>,
                inbound: seq<Value>, context: ServerCallContext): Arg
    requires p == DataParam ==> |data| > 0
    requires p == HeaderParam ==> |headers| > 0
  {
    match p
    case DataParam => DataArg(data[0])
    case HeaderParam => DataArg(headers[0])
    case CancellationParam => TokenArg(context.cancellationToken)
    case ContextParam(kind) => ContextArgument(kind, context)
    case StreamParam => StreamArg(inbound)
  }

  /** Slot by slot: the i-th argument is the next unused message value for a data
      parameter, the next unused header value for a header-bound parameter, the
      call's token, context or inbound stream otherwise. */
  lemma ReassembleAt(ps: seq<ParameterRole>, data: seq<Value>, headers: seq<Value>,
                     inbound: seq<Value>, context: ServerCallContext, i: nat)
    requires |data| == CountOf(ps, DataParam)
    requires |headers| == CountOf(ps, HeaderParam)
    requires i < |ps|
    ensures var args := Reassemble(ps, data, headers, inbound, context);
            && (ps[i] == DataParam ==>
                  CountOf(ps[..i], DataParam) < |data| && args[i] == DataArg(data[CountOf(ps[..i], DataParam)]))
            && (ps[i] == HeaderParam ==>
                  CountOf(ps[..i], HeaderParam) < |headers| && args[i] == DataArg(headers[CountOf(ps[..i], HeaderParam)]))
            && (ps[i] == CancellationParam ==> args[i] == TokenArg(context.cancellationToken))
            && (ps[i].ContextParam? ==> args[i] == ContextArgument(ps[i].kind, context))
            && (ps[i] == StreamParam ==> args[i] == StreamArg(inbound))
  {
    if ps[i] == DataParam {
      DataSlotAt(ps, data, headers, inbound, context, i);
    } else if ps[i] == HeaderParam {
      HeaderSlotAt(ps, data, headers, inbound, context, i);
    } else {
      CallSlotAt(ps, data, headers, inbound, context, i);
    }
  }

  lemma {:induction false} DataSlotAt(ps: seq<ParameterRole>, data: seq<Value>, headers: seq<Value>,
                                      inbound: seq<Value>, context: ServerCallContext, i: nat)
    requires |data| == CountOf(ps, DataParam)
    requires |headers| == CountOf(ps, HeaderParam)
    requires i < |ps| && ps[i] == DataParam
    ensures CountOf(ps[..i], DataParam) < |data|
    ensures Reassemble(ps, data, headers, inbound, context)[i] == DataArg(data[CountOf(ps[..i], DataParam)])
  {
    if i == 0 {
      assert ps[..0] == [];
    } else {
      var data', headers' := Unused(ps[0], DataParam, data), Unused(ps[0], HeaderParam, headers);
      ReassembleTail(ps, data, headers, inbound, context);
      assert ps[1..][i - 1] == ps[i];
      DataSlotAt(ps[1..], data', headers', inbound, context, i - 1);
      CountOfPrefixStep(ps, i, DataParam);
      ghost var k := CountOf(ps[1..][..i - 1], DataParam);
      ghost var args := Reassemble(ps, data, headers, inbound, context);
      assert args[i] == args[1..][i - 1];
      assert args[1..][i - 1] == DataArg(data'[k]);
      if ps[0] == DataParam {
        assert data'[k] == data[k + 1];
      } else {
        assert data' == data;
      }
    }
  }

  lemma {:induction false} HeaderSlotAt(ps: seq<ParameterRole>, data: seq<Value>, headers: seq<Value>,
                                        inbound: seq<Value>, context: ServerCallContext, i: nat)
    requires |data| == CountOf(ps, DataParam)
    requires |headers| == CountOf(ps, HeaderParam)
    requires i < |ps| && ps[i] == HeaderParam
    ensures CountOf(ps[..i], HeaderParam) < |headers|
    ensures Reassemble(ps, data, headers, inbound, context)[i] == DataArg(headers[CountOf(ps[..i], HeaderParam)])
  {
    if i == 0 {
      assert ps[..0] == [];
    } else {
      var data', headers' := Unused(ps[0], DataParam, data), Unused(ps[0], HeaderParam, headers);
      ReassembleTail(ps, data, headers, inbound, context);
      assert ps[1..][i - 1] == ps[i];
      HeaderSlotAt(ps[1..], data', headers', inbound, context, i - 1);
      CountOfPrefixStep(ps, i, HeaderParam);
      ghost var k := CountOf(ps[1..][..i - 1], HeaderParam);
      ghost var args := Reassemble(ps, data, headers, inbound, context);
      assert args[i] == args[1..][i - 1];
      assert args[1..][i - 1] == DataArg(headers'[k]);
      if ps[0] == HeaderParam {
        assert headers'[k] == headers[k + 1];
      } else {
        assert headers' == headers;
      }
    }
  }

  lemma {:induction false} CallSlotAt(ps: seq<ParameterRole>, data: seq<Value>, headers: seq<Value>,
                                      inbound: seq<Value>, context: ServerCallContext, i: nat)
    requires |data| == CountOf(ps, DataParam)
    requires |headers| == CountOf(ps, HeaderParam)
    requires i < |ps| && ps[i] != DataParam && ps[i] != HeaderParam
    ensures var a := Reassemble(ps, data, headers, inbound, context)[i];
            && (ps[i] == CancellationParam ==> a == TokenArg(context.cancellationToken))
            && (ps[i].ContextParam? ==> a == ContextArgument(ps[i].kind, context))
            && (ps[i] == StreamParam ==> a == StreamArg(inbound))
  {
    if i > 0 {
      var data', headers' := Unused(ps[0], DataParam, data), Unused(ps[0], HeaderParam, headers);
      ReassembleTail(ps, data, headers, inbound, context);
      assert ps[1..][i - 1] == ps[i];
      CallSlotAt(ps[1..], data', headers', inbound, context, i - 1);
    }
  }

  /** Counting over a non-empty prefix: its head, then the rest. */
  lemma CountOfPrefixStep(ps: seq<ParameterRole>, i: nat, role: ParameterRole)
    requires 0 < i <= |ps|
    ensures CountOf(ps[..i], role) == (if ps[0] == role then 1 else 0) + CountOf(ps[1..][..i - 1], role)
  {
    assert ps[..i][0] == ps[0];
    assert ps[..i][1..] == ps[1..][..i - 1];
  }

  /** The values left for the remaining parameters once parameter `p` took its own. */
  function Unused(p: ParameterRole, role: ParameterRole, vs: seq<Value>): seq<Value>
  {
    if p == role && |vs| > 0 then vs[1..] else vs
  }

  lemma ReassembleTail(ps: seq<ParameterRole>, data: seq<Value>, headers: seq<Value>,
                       inbound: seq<Value>, context: ServerCallContext)
    requires |data| == CountOf(ps, DataParam)
    requires |headers| == CountOf(ps, HeaderParam)
    requires |ps| > 0
    ensures |Unused(ps[0], DataParam, data)| == CountOf(ps[1..], DataParam)
    ensures |Unused(ps[0], HeaderParam, headers)| == CountOf(ps[1..], HeaderParam)
    ensures Reassemble(ps, data, headers, inbound, context)[1..]
         == Reassemble(ps[1..], Unused(ps[0], DataParam, data), Unused(ps[0], HeaderParam, headers), inbound, context)
  {
  }

  /** The arguments at the parameters with role `role`, in declared order. */
  function ArgsWithRole(ps: seq<ParameterRole>, args: seq<Arg>, role: ParameterRole): (r: seq<Arg>)
    requires |ps| == |args|
    ensures |r| == CountOf(ps, role)
  {
    if |ps| == 0 then []
    else (if ps[0] == role then [args[0]] else []) + ArgsWithRole(ps[1..], args[1..], role)
  }

  /** The values as data arguments. */
  function AsData(vs: seq<Value>): (r: seq<Arg>)
    ensures |r| == |vs|
    ensures forall i :: 0 <= i < |vs| ==> r[i] == DataArg(vs[i])
  {
    seq(|vs|, i requires 0 <= i < |vs| => DataArg(vs[i]))
  }

  lemma AsDataCons(vs: seq<Value>)
    requires |vs| > 0
    ensures AsData(vs) == [DataArg(vs[0])] + AsData(vs[1..])
  {
  }

  /** Picking the arguments of one role, one parameter at a time. */
  lemma ArgsWithRoleCons(ps: seq<ParameterRole>, args: seq<Arg>, role: ParameterRole)
    requires |ps| == |args| && |ps| > 0
    ensures ArgsWithRole(ps, args, role) == (if ps[0] == role then [args[0]] else []) + ArgsWithRole(ps[1..], args[1..], role)
  {
  }

  /** The request message's values reach the data parameters in message order. */
  lemma {:induction false} DataInOrder(ps: seq<ParameterRole>, data: seq<Value>, headers: seq<Value>,
                                       inbound: seq<Value>, context: ServerCallContext)
    requires |data| == CountOf(ps, DataParam)
    requires |headers| == CountOf(ps, HeaderParam)
    ensures ArgsWithRole(ps, Reassemble(ps, data, headers, inbound, context), DataParam) == AsData(data)
  {
    if |ps| > 0 {
      ghost var args := Reassemble(ps, data, headers, inbound, context);
      var data', headers' := Unused(ps[0], DataParam, data), Unused(ps[0], HeaderParam, headers);
      ReassembleTail(ps, data, headers, inbound, context);
      DataInOrder(ps[1..], data', headers', inbound, context);
      ArgsWithRoleCons(ps, args, DataParam);
      if ps[0] == DataParam {
        AsDataCons(data);
      }
    } else {
      assert AsData(data) == [];
    }
  }

  /** The header values reach the header-bound parameters in declared order. */
  lemma {:induction false} HeadersInOrder(ps: seq<ParameterRole>, data: seq<Value>, headers: seq<Value>,
                                          inbound: seq<Value>, context: ServerCallContext)
    requires |data| == CountOf(ps, DataParam)
    requires |headers| == CountOf(ps, HeaderParam)
    ensures ArgsWithRole(ps, Reassemble(ps, data, headers, inbound, context), HeaderParam) == AsData(headers)
  {
    if |ps| > 0 {
      ghost var args := Reassemble(ps, data, headers, inbound, context);
      var data', headers' := Unused(ps[0], DataParam, data), Unused(ps[0], HeaderParam, headers);
      ReassembleTail(ps, data, headers, inbound, context);
      HeadersInOrder(ps[1..], data', headers', inbound, context);
      ArgsWithRoleCons(ps, args, HeaderParam);
      if ps[0] == HeaderParam {
        AsDataCons(headers);
      }
    } else {
      assert AsData(headers) == [];
    }
  }

  /** Every cancellation or context parameter observes the call's own token, and
      a CallContext or ServerCallContext parameter the call's own context. */
  lemma MetadataSeesCall(ps: seq<ParameterRole>, data: seq<Value>, headers: seq<Value>,
                         inbound: seq<Value>, context: ServerCallContext, i: nat)
    requires |data| == CountOf(ps, DataParam)
    requires |headers| == CountOf(ps, HeaderParam)
    requires i < |ps| && (ps[i] == CancellationParam || ps[i].ContextParam?)
    ensures var args := Reassemble(ps, data, headers, inbound, context);
            && TokenOf(args[i]) == Some(context.cancellationToken)
            && (ps[i] == ContextParam(CallContextKind) || ps[i] == ContextParam(ServerCallContextKind) ==>
                  ServerContextOf(args[i]) == Some(context))
  {
    ReassembleAt(ps, data, headers, inbound, context, i);
  }

  /** What the service method hands back, with any Task/ValueTask already resolved. */
  datatype Returned =
    | Immediate(result: Option<Value>)       // T, or void (None)
    | Completed(result: Option<Value>)       // Task, Task<T>, ValueTask, ValueTask<T>
    | Items(items: seq<Value>)               // IAsyncEnumerable<T>
    | CompletedItems(items: seq<Value>)      // Task<IAsyncEnumerable<T>>, ValueTask<IAsyncEnumerable<T>>

  function KindOf(r: Returned): ReturnKind
  {
    match r
    case Immediate(_) => PlainValue
    case Completed(_) => DeferredValue
    case Items(_) => PlainStream
    case CompletedItems(_) => DeferredStream
  }

  /** The service implementation behind one operation: it answers every call by
      `respond` and records the arguments of every call it receives (what the
      strict mock with VerifyAll checks). */
  class Target {
    const respond: seq<Arg> -> Returned
    var calls: seq<seq<Arg>>

    constructor (respond: seq<Arg> -> Returned)
      ensures this.respond == respond && calls == []
    {
      this.respond := respond;
      calls := [];
    }

    /** The operation is declared with return idiom `kind`. */
    ghost predicate Yields(kind: ReturnKind)
    {
      forall args :: KindOf(respond(args)) == kind
    }

    method Invoke(args: seq<Arg>) returns (r: Returned)
      modifies this
      ensures calls == old(calls) + [args]
      ensures r == respond(args)
    {
      calls := calls + [args];
      r := respond(args);
    }
  }

  /** The inbound stream (IAsyncStreamReader<Message<T>>): the messages the
      transport delivers, the number already moved past, the Current message,
      and the token of every MoveNext call so far. */
  class StreamReader {
    const messages: seq<Message>
    var position: nat
    var current: Option<Message>
    var pulls: seq<CancellationToken>

    ghost predicate Valid()
      reads this
    {
      position <= |messages|
    }

    constructor (messages: seq<Message>)
      ensures Valid() && this.messages == messages
      ensures position == 0 && current == None && pulls == []
    {
      this.messages := messages;
      position := 0;
      current := None;
      pulls := [];
    }

    /** The messages not yet moved past. */
    ghost function Remaining(): seq<Message>
      reads this
      requires Valid()
    {
      messages[position..]
    }

    method MoveNext(token: CancellationToken) returns (more: bool)
      requires Valid()
      modifies this
      ensures Valid()
      ensures more <==> old(position) < |messages|
      ensures position == if more then old(position) + 1 else old(position)
      ensures current == if more then Some(messages[old(position)]) else old(current)
      ensures pulls == old(pulls) + [token]
    {
      pulls := pulls + [token];
      more := position < |messages|;
      if more {
        current := Some(messages[position]);
        position := position + 1;
      }
    }
  }

  /** The outbound stream (IServerStreamWriter<Message<T>>): what was written, in order. */
  class StreamWriter {
    var written: seq<Message>

    constructor ()
      ensures written == []
    {
      written := [];
    }

    method WriteAsync(m: Message)
      modifies this
      ensures written == old(written) + [m]
    {
      written := written + [m];
    }
  }

  /** n copies of one token. */
  function Repeat(token: CancellationToken, n: nat): (r: seq<CancellationToken>)
    ensures |r| == n && forall i :: 0 <= i < n ==> r[i] == token
  {
    seq(n, _ => token)
  }

  /** Pulls the inbound stream to its end with the call's token, unpacking the
      single value of every message, in order. */
  method ReadAll(reader: StreamReader, token: CancellationToken) returns (items: seq<Value>)
    requires reader.Valid() && SingleValued(reader.Remaining())
    modifies reader
    ensures reader.Valid() && reader.position == |reader.messages|
    ensures items == InboundValues(old(reader.Remaining()))
    ensures reader.pulls == old(reader.pulls) + Repeat(token, |old(reader.Remaining())| + 1)
  {
    ghost var start := reader.position;
    items := [];
    while true
      invariant reader.Valid() && start <= reader.position
      invariant SingleValued(reader.messages[start..])
      invariant items == InboundValues(reader.messages[start..reader.position])
      invariant reader.pulls == old(reader.pulls) + Repeat(token, reader.position - start)
      decreases |reader.messages| - reader.position
    {
      var more := reader.MoveNext(token);
      if !more {
        break;
      }
      assert reader.messages[start..reader.position] == reader.messages[start..reader.position - 1] + [reader.messages[reader.position - 1]];
      assert reader.messages[reader.position - 1] == reader.messages[start..][reader.position - 1 - start];
      items := items + [reader.current.value.value1];
    }
  }

  /** Writes one message per element of the stream, in order. */
  method WriteAll(writer: StreamWriter, items: seq<Value>)
    modifies writer
    ensures writer.written == old(writer.written) + Responses(items)
  {
    for i := 0 to |items|
      invariant writer.written == old(writer.written) + Responses(items[..i])
    {
      assert Responses(items[..i + 1]) == Responses(items[..i]) + [Message1(items[i])];
      writer.WriteAsync(Message1(items[i]));
    }
    assert items[..|items|] == items;
  }

  /** Unary: unpack the request, call the method once, pack its (awaited) result. */
  method UnaryHandler(m: MethodDescriptor, target: Target, request: Message, context: ServerCallContext)
    returns (response: Message)
    requires WellFormed(m) && ShapeOf(m) == Unary
    requires |Values(request)| == CountOf(m.parameters, DataParam)
    requires target.Yields(m.returnKind)
    modifies target
    ensures var args := Reassemble(m.parameters, Values(request), [], [], context);
            && target.calls == old(target.calls) + [args]
            && response == Response(target.respond(args).result)
  {
    var args := Reassemble(m.parameters, Values(request), [], [], context);
    var r := target.Invoke(args);
    response := Response(r.result);
  }

  /** Server streaming: unpack the request, call the method once, write every
      element of the (awaited) stream it returns. */
  method ServerStreamingHandler(m: MethodDescriptor, target: Target, request: Message,
                                writer: StreamWriter, context: ServerCallContext)
    requires WellFormed(m) && ShapeOf(m) == ServerStreaming
    requires |Values(request)| == CountOf(m.parameters, DataParam)
    requires target.Yields(m.returnKind)
    modifies target, writer
    ensures var args := Reassemble(m.parameters, Values(request), [], [], context);
            && target.calls == old(target.calls) + [args]
            && writer.written == old(writer.written) + Responses(target.respond(args).items)
  {
    var args := Reassemble(m.parameters, Values(request), [], [], context);
    var r := target.Invoke(args);
    WriteAll(writer, r.items);
  }

  /** Client streaming: present the inbound values as the stream argument, the
      header values as the other data arguments, call the method once, pack its
      (awaited) result. */
  method ClientStreamingHandler(m: MethodDescriptor, target: Target, reader: StreamReader,
                                context: ServerCallContext)
    returns (response: Message)
    requires WellFormed(m) && ShapeOf(m) == ClientStreaming
    requires |context.requestHeaders| == CountOf(m.parameters, HeaderParam)
    requires reader.Valid() && SingleValued(reader.Remaining())
    requires target.Yields(m.returnKind)
    modifies target, reader
    ensures reader.Valid() && reader.position == |reader.messages|
    ensures reader.pulls == old(reader.pulls) + Repeat(context.cancellationToken, |old(reader.Remaining())| + 1)
    ensures var args := Reassemble(m.parameters, [], context.requestHeaders, InboundValues(old(reader.Remaining())), context);
            && target.calls == old(target.calls) + [args]
            && response == Response(target.respond(args).result)
  {
    var inbound := ReadAll(reader, context.cancellationToken);
    var args := Reassemble(m.parameters, [], context.requestHeaders, inbound, context);
    var r := target.Invoke(args);
    response := Response(r.result);
  }

  /** Duplex streaming: the inbound side as in client streaming, the outbound
      side as in server streaming. */
  method DuplexStreamingHandler(m: MethodDescriptor, target: Target, reader: StreamReader,
                                writer: StreamWriter, context: ServerCallContext)
    requires WellFormed(m) && ShapeOf(m) == DuplexStreaming
    requires |context.requestHeaders| == CountOf(m.parameters, HeaderParam)
    requires reader.Valid() && SingleValued(reader.Remaining())
    requires target.Yields(m.returnKind)
    modifies target, reader, writer
    ensures reader.Valid() && reader.position == |reader.messages|
    ensures reader.pulls == old(reader.pulls) + Repeat(context.cancellationToken, |old(reader.Remaining())| + 1)
    ensures var args := Reassemble(m.parameters, [], context.requestHeaders, InboundValues(old(reader.Remaining())), context);
            && target.calls == old(target.calls) + [args]
            && writer.written == old(writer.written) + Responses(target.respond(args).items)
  {
    var inbound := ReadAll(reader, context.cancellationToken);
    var args := Reassemble(m.parameters, [], context.requestHeaders, inbound, context);
    var r := target.Invoke(args);
    WriteAll(writer, r.items);
  }
}
