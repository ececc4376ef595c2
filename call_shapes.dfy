/** Method descriptors of the service contract as the server adapters see them:
    the role of every declared parameter, the return idiom, and the call shape
    that the two together select. */
module CallShapes {
  import Messages

  /** The three context types an operation may declare (CallContext,
      ServerCallContext, CallOptions); CancellationToken has a role of its own. */
  datatype ContextKind = CallContextKind | ServerCallContextKind | CallOptionsKind

  /** The role of one declared parameter. `HeaderParam` is a data parameter whose
      value travels in the request headers (the extra data parameters of a
      client- or duplex-streaming operation); `StreamParam` is the
      IAsyncEnumerable<T> parameter that receives the inbound stream. */
  datatype ParameterRole =
    | DataParam
    | CancellationParam
    | ContextParam(kind: ContextKind)
    | HeaderParam
    | StreamParam

  /** The return idioms: T or void; Task, Task<T>, ValueTask, ValueTask<T>;
      IAsyncEnumerable<T>; Task<IAsyncEnumerable<T>>, ValueTask<IAsyncEnumerable<T>>. */
  datatype ReturnKind = PlainValue | DeferredValue | PlainStream | DeferredStream

  datatype MethodDescriptor = MethodDescriptor(name: string, parameters: seq<ParameterRole>, returnKind: ReturnKind)

  datatype CallShape = Unary | ServerStreaming | ClientStreaming | DuplexStreaming

  /** How many declared parameters have role `role`. */
  function CountOf(ps: seq<ParameterRole>, role: ParameterRole): (n: nat)
    ensures n <= |ps|
    ensures n == 0 <==> role !in ps
  {
    if |ps| == 0 then 0
    else (if ps[0] == role then 1 else 0) + CountOf(ps[1..], role)
  }

  /** Counting over a prefix one element longer. */
  lemma {:induction false} CountOfSnoc(ps: seq<ParameterRole>, i: nat, role: ParameterRole)
    requires i < |ps|
    ensures CountOf(ps[..i + 1], role) == CountOf(ps[..i], role) + (if ps[i] == role then 1 else 0)
  {
    if i > 0 {
      assert ps[..i + 1][1..] == ps[1..][..i];
      assert ps[..i][1..] == ps[1..][..i - 1];
      CountOfSnoc(ps[1..], i - 1, role);
    }
  }

  predicate IsOutboundStream(k: ReturnKind)
  {
    k == PlainStream || k == DeferredStream
  }

  /** The decision table: an inbound stream parameter makes the call client- or
      duplex-streaming, a stream return makes it server- or duplex-streaming. */
  function ShapeOf(m: MethodDescriptor): (s: CallShape)
    ensures (s == ClientStreaming || s == DuplexStreaming) <==> StreamParam in m.parameters
    ensures (s == ServerStreaming || s == DuplexStreaming) <==> IsOutboundStream(m.returnKind)
  {
    var inbound := StreamParam in m.parameters;
    var outbound := m.returnKind in {PlainStream, DeferredStream};
    if inbound && outbound then DuplexStreaming
    else if inbound then ClientStreaming
    else if outbound then ServerStreaming
    else Unary
  }

  /** The descriptors the adapter builder accepts: at most one inbound stream;
      beside a stream every data parameter travels in the headers, otherwise
      every data parameter travels in the request message, which has room for
      at most three values. */
  predicate WellFormed(m: MethodDescriptor)
  {
    var ps := m.parameters;
    && CountOf(ps, StreamParam) <= 1
    && (StreamParam in ps ==> DataParam !in ps)
    && (StreamParam !in ps ==> HeaderParam !in ps && CountOf(ps, DataParam) <= Messages.MaxArity)
  }
}
