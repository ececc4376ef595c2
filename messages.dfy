/** The fixed-arity message family (Message, Message<T1>, Message<T1, T2>,
    Message<T1, T2, T3>) that carries a call's data values on the wire, and the
    packing of a single result or of a stream of results into response messages. */
module Messages {
  import opened Wrappers

  /** A payload value. The adapters never look inside a payload; `Opaque`
      stands for payloads of any other type (double, long, user contracts). */
  datatype Value = Int(i: int) | Str(s: string) | Bool(b: bool) | Opaque(id: nat)

  datatype Message =
    | Message0
    | Message1(value1: Value)
    | Message2(value1: Value, value2: Value)
    | Message3(value1: Value, value2: Value, value3: Value)

  /** The largest arity of the message family. */
  const MaxArity: nat := 3

  /** The values of a message in positional order (Value1, Value2, Value3). */
  function Values(m: Message): (vs: seq<Value>)
    ensures |vs| <= MaxArity
  {
    match m
    case Message0 => []
    case Message1(a) => [a]
    case Message2(a, b) => [a, b]
    case Message3(a, b, c) => [a, b, c]
  }

  /** Packs values, in declared order, into the message of matching arity;
      there is none beyond the largest arity. */
  function Pack(vs: seq<Value>): (m: Option<Message>)
    ensures m.Some? <==> |vs| <= MaxArity
    ensures m.Some? ==> Values(m.value) == vs
  {
    if |vs| == 0 then Some(Message0)
    else if |vs| == 1 then Some(Message1(vs[0]))
    else if |vs| == 2 then Some(Message2(vs[0], vs[1]))
    else if |vs| == 3 then Some(Message3(vs[0], vs[1], vs[2]))
    else None
  }

  /** Unpacking then packing gives the message back. */
  lemma PackValues(m: Message)
    ensures Pack(Values(m)) == Some(m)
  {
  }

  /** The response message of a call with one logical result: the empty
      message for a void method, Message<T> carrying the result otherwise. */
  function Response(result: Option<Value>): (m: Message)
    ensures Values(m) == if result.Some? then [result.value] else []
  {
    match result
    case None => Message0
    case Some(v) => Message1(v)
  }

  /** The outbound messages of a stream of results, one per element and in order. */
  function Responses(items: seq<Value>): (ms: seq<Message>)
    ensures |ms| == |items|
    ensures forall i :: 0 <= i < |ms| ==> Values(ms[i]) == [items[i]]
  {
    seq(|items|, i requires 0 <= i < |items| => Message1(items[i]))
  }

  /** Every message of an inbound stream carries exactly one value. */
  predicate SingleValued(ms: seq<Message>)
  {
    forall i :: 0 <= i < |ms| ==> ms[i].Message1?
  }

  /** The values an inbound stream of single-valued messages delivers, in order. */
  function InboundValues(ms: seq<Message>): (vs: seq<Value>)
    requires SingleValued(ms)
    ensures |vs| == |ms|
    ensures forall i :: 0 <= i < |ms| ==> [vs[i]] == Values(ms[i])
  {
    seq(|ms|, i requires 0 <= i < |ms| => ms[i].value1)
  }

  /** What one side writes as a stream, the other side reads back unchanged. */
  lemma StreamRoundTrip(items: seq<Value>)
    ensures SingleValued(Responses(items))
    ensures InboundValues(Responses(items)) == items
  {
    var ms := Responses(items);
    forall i | 0 <= i < |ms| ensures ms[i].Message1? && ms[i].value1 == items[i] {
      assert Values(ms[i]) == [items[i]];
    }
  }
}
