/** The unit tests of the service builder, one method per test (or per family
    of tests that differ only in the Task/ValueTask wrapper): each builds the
    operation's descriptor, a recording target that answers as the test's mock
    does, the request or inbound stream and the call context, runs the handler,
    and promises what the test asserts. */
module ServiceBuilderScenarios {
  import opened Wrappers
  import opened Messages
  import opened CallShapes
  import opened ServerCallAdapters

  const Token := CancellationToken(7)

  /** A server call context with the test's token and the given decoded headers. */
  function Context(headers: seq<Value>): ServerCallContext
  {
    ServerCallContext(1, Token, headers)
  }

  /** A server call context whose token is default(CancellationToken), as the
      header-parameter tests set up, with the given decoded headers. */
  function DefaultContext(headers: seq<Value>): ServerCallContext
  {
    ServerCallContext(1, DefaultToken, headers)
  }

  /** The wrapper a test's mock puts around a single result. */
  function Single(kind: ReturnKind, result: Option<Value>): Returned
  {
    if kind == PlainValue then Immediate(result) else Completed(result)
  }

  /** The wrapper a test's mock puts around a result stream. */
  function Many(kind: ReturnKind, items: seq<Value>): Returned
  {
    if kind == PlainStream then Items(items) else CompletedItems(items)
  }

  /** Empty, EmptyAsync, EmptyValueTaskAsync: void Empty(), Task EmptyAsync(),
      ValueTask EmptyValueTaskAsync(); called once with no arguments, the
      response is the (non-null) empty message. */
  method Empty(kind: ReturnKind) returns (calls: seq<seq<Arg>>, response: Message)
    requires kind == PlainValue || kind == DeferredValue
    ensures calls == [[]]
    ensures response == Message0
  {
    var m := MethodDescriptor("Empty", [], kind);
    var target := new Target(args => Single(kind, None));
    assert target.Yields(kind);
    response := UnaryHandler(m, target, Message0, Context([]));
    calls := target.calls;
  }

  /** EmptyContext: void EmptyContext(CallContext); the CallContext wraps the
      call's own ServerCallContext. */
  method EmptyContext() returns (calls: seq<seq<Arg>>, response: Message)
    ensures calls == [[CallContextArg(Context([]))]]
    ensures ServerContextOf(calls[0][0]) == Some(Context([]))
    ensures response == Message0
  {
    var m := MethodDescriptor("EmptyContext", [ContextParam(CallContextKind)], PlainValue);
    var target := new Target(args => Immediate(None));
    assert target.Yields(PlainValue);
    ghost var args := Reassemble(m.parameters, [], [], [], Context([]));
    assert args == [CallContextArg(Context([]))];
    response := UnaryHandler(m, target, Message0, Context([]));
    calls := target.calls;
  }

  /** EmptyTokenAsync: Task EmptyTokenAsync(CancellationToken); the token is the call's. */
  method EmptyTokenAsync() returns (calls: seq<seq<Arg>>, response: Message)
    ensures calls == [[TokenArg(Token)]]
    ensures response == Message0
  {
    var m := MethodDescriptor("EmptyTokenAsync", [CancellationParam], DeferredValue);
    var target := new Target(args => Completed(None));
    assert target.Yields(DeferredValue);
    ghost var args := Reassemble(m.parameters, [], [], [], Context([]));
    assert args == [TokenArg(Token)];
    response := UnaryHandler(m, target, Message0, Context([]));
    calls := target.calls;
  }

  /** ReturnString ("a"), ReturnStringAsync(ServerCallContext) ("a"),
      ReturnValueTaskBoolAsync (true): the result is Value1 of the response. */
  method ReturnValue(kind: ReturnKind, ps: seq<ParameterRole>, result: Value) returns (calls: seq<seq<Arg>>, response: Message)
    requires kind == PlainValue || kind == DeferredValue
    requires ps == [] || ps == [ContextParam(ServerCallContextKind)]
    ensures calls == [if ps == [] then [] else [ServerCallContextArg(Context([]))]]
    ensures response == Message1(result)
  {
    var m := MethodDescriptor("ReturnValue", ps, kind);
    var target := new Target(args => Single(kind, Some(result)));
    assert target.Yields(kind);
    ghost var args := Reassemble(m.parameters, [], [], [], Context([]));
    assert args == if ps == [] then [] else [ServerCallContextArg(Context([]))];
    response := UnaryHandler(m, target, Message0, Context([]));
    calls := target.calls;
  }

  /** OneParameterContext: void OneParameterContext(CallOptions, int) called with
      Message<int>(3): the options carry the call's token and come before 3. */
  method OneParameterContext() returns (calls: seq<seq<Arg>>, response: Message)
    ensures calls == [[CallOptionsArg(Token, []), DataArg(Int(3))]]
    ensures TokenOf(calls[0][0]) == Some(Token)
    ensures response == Message0
  {
    var m := MethodDescriptor("OneParameterContext", [ContextParam(CallOptionsKind), DataParam], PlainValue);
    var target := new Target(args => Immediate(None));
    assert target.Yields(PlainValue);
    ghost var args := Reassemble(m.parameters, [Int(3)], [], [], Context([]));
    assert args == [CallOptionsArg(Token, []), DataArg(Int(3))];
    response := UnaryHandler(m, target, Message1(Int(3)), Context([]));
    calls := target.calls;
  }

  /** OneParameterAsync: Task OneParameterAsync(double) with Message<double>(3.5):
      called once with 3.5, the response is the empty message. */
  method OneParameterAsync() returns (calls: seq<seq<Arg>>, response: Message)
    ensures calls == [[DataArg(Opaque(35))]]
    ensures response == Message0
  {
    var m := MethodDescriptor("OneParameterAsync", [DataParam], DeferredValue);
    var target := new Target(args => Completed(None));
    assert target.Yields(DeferredValue);
    ghost var args := Reassemble(m.parameters, [Opaque(35)], [], [], Context([]));
    assert args == [DataArg(Opaque(35))];
    response := UnaryHandler(m, target, Message1(Opaque(35)), Context([]));
    calls := target.calls;
  }

  /** AddTwoValues: double AddTwoValues(int, double) with Message<int, double>(1, 3.5)
      returning 4.5; the doubles are opaque payloads here. */
  method AddTwoValues() returns (calls: seq<seq<Arg>>, response: Message)
    ensures calls == [[DataArg(Int(1)), DataArg(Opaque(35))]]
    ensures response == Message1(Opaque(45))
  {
    var m := MethodDescriptor("AddTwoValues", [DataParam, DataParam], PlainValue);
    var target := new Target(args => Immediate(Some(Opaque(45))));
    assert target.Yields(PlainValue);
    ghost var args := Reassemble(m.parameters, [Int(1), Opaque(35)], [], [], Context([]));
    assert args == [DataArg(Int(1)), DataArg(Opaque(35))];
    response := UnaryHandler(m, target, Message2(Int(1), Opaque(35)), Context([]));
    calls := target.calls;
  }

  /** ConcatThreeValueAsync: Task<string> ConcatThreeValueAsync(int, string,
      CancellationToken, long) with Message<int, string, long>(1, "a", 3): the
      message values fill the data slots in order around the token. */
  method ConcatThreeValueAsync() returns (calls: seq<seq<Arg>>, response: Message)
    ensures calls == [[DataArg(Int(1)), DataArg(Str("a")), TokenArg(Token), DataArg(Int(3))]]
    ensures response == Message1(Str("1a3"))
  {
    var ps := [DataParam, DataParam, CancellationParam, DataParam];
    var m := MethodDescriptor("ConcatThreeValueAsync", ps, DeferredValue);
    assert CountOf(ps, DataParam) == 3 && StreamParam !in ps && HeaderParam !in ps;
    var target := new Target(args => Completed(Some(Str("1a3"))));
    assert target.Yields(DeferredValue);
    ConcatThreeArguments();
    response := UnaryHandler(m, target, Message3(Int(1), Str("a"), Int(3)), Context([]));
    calls := target.calls;
  }

  /** The argument list of ConcatThreeValueAsync, slot by slot. */
  lemma ConcatThreeArguments()
    ensures Reassemble([DataParam, DataParam, CancellationParam, DataParam], [Int(1), Str("a"), Int(3)], [], [], Context([]))
         == [DataArg(Int(1)), DataArg(Str("a")), TokenArg(Token), DataArg(Int(3))]
  {
    var ps := [DataParam, DataParam, CancellationParam, DataParam];
    assert Reassemble(ps[3..], [Int(3)], [], [], Context([])) == [DataArg(Int(3))];
    assert Reassemble(ps[2..], [Int(3)], [], [], Context([])) == [TokenArg(Token), DataArg(Int(3))];
    assert Reassemble(ps[1..], [Str("a"), Int(3)], [], [], Context([])) == [DataArg(Str("a")), TokenArg(Token), DataArg(Int(3))];
  }

  /** EmptyServerStreaming: IAsyncEnumerable<int> EmptyServerStreaming()
      with the empty request: the target is called with no arguments and the
      writer receives exactly 1, 2, 3. */
  method EmptyServerStreaming() returns (calls: seq<seq<Arg>>, written: seq<Message>)
    ensures calls == [[]]
    ensures written == [Message1(Int(1)), Message1(Int(2)), Message1(Int(3))]
  {
    var m := MethodDescriptor("EmptyServerStreaming", [], PlainStream);
    var target := new Target(args => Items([Int(1), Int(2), Int(3)]));
    assert target.Yields(PlainStream);
    var writer := new StreamWriter();
    assert Responses([Int(1), Int(2), Int(3)]) == [Message1(Int(1)), Message1(Int(2)), Message1(Int(3))];
    ServerStreamingHandler(m, target, Message0, writer, Context([]));
    calls := target.calls;
    written := writer.written;
  }

  /** ServerStreamingRepeatValue, ...Async and ...ValueTaskAsync: (int, int,
      CancellationToken) with Message<int, int>(1, 2); the target sees 1, 2
      and the call's token, and the writer receives exactly 1, 2, 3. */
  method ServerStreamingRepeatValue(kind: ReturnKind) returns (calls: seq<seq<Arg>>, written: seq<Message>)
    requires kind == PlainStream || kind == DeferredStream
    ensures calls == [[DataArg(Int(1)), DataArg(Int(2)), TokenArg(Token)]]
    ensures written == [Message1(Int(1)), Message1(Int(2)), Message1(Int(3))]
  {
    var ps := [DataParam, DataParam, CancellationParam];
    var m := MethodDescriptor("ServerStreamingRepeatValue", ps, kind);
    assert CountOf(ps, DataParam) == 2 && StreamParam !in ps && HeaderParam !in ps;
    var target := new Target(args => Many(kind, [Int(1), Int(2), Int(3)]));
    assert target.Yields(kind);
    var writer := new StreamWriter();
    ghost var args := Reassemble(ps, [Int(1), Int(2)], [], [], Context([]));
    assert args == [DataArg(Int(1)), DataArg(Int(2)), TokenArg(Token)];
    assert Responses([Int(1), Int(2), Int(3)]) == [Message1(Int(1)), Message1(Int(2)), Message1(Int(3))];
    ServerStreamingHandler(m, target, Message2(Int(1), Int(2)), writer, Context([]));
    calls := target.calls;
    written := writer.written;
  }

  /** The inbound stream of the client- and duplex-streaming tests: one
      Message<int>(2). */
  method InboundTwo() returns (reader: StreamReader)
    ensures fresh(reader)
    ensures reader.Valid() && reader.position == 0 && reader.pulls == []
    ensures reader.Remaining() == [Message1(Int(2))] && SingleValued(reader.Remaining())
    ensures InboundValues(reader.Remaining()) == [Int(2)]
  {
    reader := new StreamReader([Message1(Int(2))]);
    assert reader.Remaining() == [Message1(Int(2))];
    assert InboundValues([Message1(Int(2))]) == [Int(2)];
  }

  /** ClientStreamingEmpty: Task (IAsyncEnumerable<int>); the reader yields
      Message<int>(2) and then ends; it is pulled twice with the call's token,
      the target sees exactly [2], and the response is the empty message. */
  method ClientStreamingEmpty() returns (calls: seq<seq<Arg>>, pulls: seq<CancellationToken>, response: Message)
    ensures calls == [[StreamArg([Int(2)])]]
    ensures pulls == [Token, Token]
    ensures response == Message0
  {
    var ps := [StreamParam];
    var m := MethodDescriptor("ClientStreamingEmpty", ps, DeferredValue);
    assert CountOf(ps, HeaderParam) == 0 && CountOf(ps, StreamParam) == 1;
    var target := new Target(args => Completed(None));
    assert target.Yields(DeferredValue);
    var reader := InboundTwo();
    ghost var args := Reassemble(ps, [], [], [Int(2)], Context([]));
    assert args == [StreamArg([Int(2)])];
    response := ClientStreamingHandler(m, target, reader, Context([]));
    calls := target.calls;
    pulls := reader.pulls;
  }

  /** ClientStreamingSumValues: Task<string> (IAsyncEnumerable<int>,
      CancellationToken); the reader yields Message<int>(2) and then ends; it
      is pulled twice with the call's token, the target sees [2] and the
      token, and its result "2" is the response. */
  method ClientStreamingSumValues() returns (calls: seq<seq<Arg>>, pulls: seq<CancellationToken>, response: Message)
    ensures calls == [[StreamArg([Int(2)]), TokenArg(Token)]]
    ensures pulls == [Token, Token]
    ensures response == Message1(Str("2"))
  {
    var ps := [StreamParam, CancellationParam];
    var m := MethodDescriptor("ClientStreamingSumValues", ps, DeferredValue);
    assert CountOf(ps, HeaderParam) == 0 && CountOf(ps, StreamParam) == 1;
    var target := new Target(args => Completed(Some(Str("2"))));
    assert target.Yields(DeferredValue);
    var reader := InboundTwo();
    ghost var args := Reassemble(ps, [], [], [Int(2)], Context([]));
    assert args == [StreamArg([Int(2)]), TokenArg(Token)];
    response := ClientStreamingHandler(m, target, reader, Context([]));
    calls := target.calls;
    pulls := reader.pulls;
  }

  /** ClientStreamingHeaderParameters: Task<string> (IAsyncEnumerable<int>, int m,
      string p) with headers carrying 1 and "prefix" and the default token: the
      reader is pulled twice with the default token and the arguments are
      (stream, 1, "prefix"). */
  method ClientStreamingHeaderParameters() returns (calls: seq<seq<Arg>>, pulls: seq<CancellationToken>, response: Message)
    ensures calls == [[StreamArg([Int(2)]), DataArg(Int(1)), DataArg(Str("prefix"))]]
    ensures pulls == [DefaultToken, DefaultToken]
    ensures response == Message1(Str("2"))
  {
    var ps := [StreamParam, HeaderParam, HeaderParam];
    var m := MethodDescriptor("ClientStreamingHeaderParameters", ps, DeferredValue);
    assert CountOf(ps, HeaderParam) == 2 && CountOf(ps, StreamParam) == 1;
    var target := new Target(args => Completed(Some(Str("2"))));
    assert target.Yields(DeferredValue);
    var reader := InboundTwo();
    var headers := [Int(1), Str("prefix")];
    ghost var args := Reassemble(ps, [], headers, [Int(2)], DefaultContext(headers));
    assert args == [StreamArg([Int(2)]), DataArg(Int(1)), DataArg(Str("prefix"))];
    response := ClientStreamingHandler(m, target, reader, DefaultContext(headers));
    calls := target.calls;
    pulls := reader.pulls;
  }

  /** DuplexStreamingConvert, ...Async and ...ValueTaskAsync: the stream and
      the token; inbound [2], the target returns ["2"] (directly or wrapped in
      a Task/ValueTask), the reader is pulled twice with the call's token and
      the writer receives exactly "2". */
  method DuplexStreamingConvert(kind: ReturnKind) returns (calls: seq<seq<Arg>>, pulls: seq<CancellationToken>, written: seq<Message>)
    requires kind == PlainStream || kind == DeferredStream
    ensures calls == [[StreamArg([Int(2)]), TokenArg(Token)]]
    ensures pulls == [Token, Token]
    ensures written == [Message1(Str("2"))]
  {
    var ps := [StreamParam, CancellationParam];
    var m := MethodDescriptor("DuplexStreamingConvert", ps, kind);
    assert CountOf(ps, HeaderParam) == 0 && CountOf(ps, StreamParam) == 1;
    var target := new Target(args => Many(kind, [Str("2")]));
    assert target.Yields(kind);
    var reader := InboundTwo();
    var writer := new StreamWriter();
    ghost var args := Reassemble(ps, [], [], [Int(2)], Context([]));
    assert args == [StreamArg([Int(2)]), TokenArg(Token)];
    assert Responses([Str("2")]) == [Message1(Str("2"))];
    DuplexStreamingHandler(m, target, reader, writer, Context([]));
    calls := target.calls;
    pulls := reader.pulls;
    written := writer.written;
  }

  /** DuplexStreamingHeaderParameters: IAsyncEnumerable<string>
      (IAsyncEnumerable<int>, int m, string p) with headers carrying 1 and
      "prefix" and the default token: the reader is pulled twice with the
      default token, the arguments are (stream, 1, "prefix") and the writer
      receives exactly "2". */
  method DuplexStreamingHeaderParameters() returns (calls: seq<seq<Arg>>, pulls: seq<CancellationToken>, written: seq<Message>)
    ensures calls == [[StreamArg([Int(2)]), DataArg(Int(1)), DataArg(Str("prefix"))]]
    ensures pulls == [DefaultToken, DefaultToken]
    ensures written == [Message1(Str("2"))]
  {
    var ps := [StreamParam, HeaderParam, HeaderParam];
    var m := MethodDescriptor("DuplexStreamingHeaderParameters", ps, PlainStream);
    assert CountOf(ps, HeaderParam) == 2 && CountOf(ps, StreamParam) == 1;
    var target := new Target(args => Items([Str("2")]));
    assert target.Yields(PlainStream);
    var reader := InboundTwo();
    var writer := new StreamWriter();
    var headers := [Int(1), Str("prefix")];
    ghost var args := Reassemble(ps, [], headers, [Int(2)], DefaultContext(headers));
    assert args == [StreamArg([Int(2)]), DataArg(Int(1)), DataArg(Str("prefix"))];
    assert Responses([Str("2")]) == [Message1(Str("2"))];
    DuplexStreamingHandler(m, target, reader, writer, DefaultContext(headers));
    calls := target.calls;
    pulls := reader.pulls;
    written := writer.written;
  }
}
