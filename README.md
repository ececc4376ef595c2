# ServiceModel.Grpc: server call adapters, type-name rendering and generated-file assembly

ServiceModel.Grpc lets a .NET service be described as a plain C# interface. The
library emits the gRPC glue for it. This project models three parts of it in
Dafny and proves what they promise.

1. **Server call adapters** (`messages.dfy`, `call_shapes.dfy`,
   `server_call_adapters.dfy`, `service_builder_scenarios.dfy`).
   - For every operation, the service builder emits a static adapter. The
     adapter turns a request `Message<…>` (or an inbound stream reader), plus
     the `ServerCallContext`, into one call of the service method. It then
     packs the result into a response message, or writes it to the outbound
     stream writer.
   - The emitted IL is pinned down test by test in `GrpcServiceBuilderTest.cs`.
   - The model describes:
     - an operation by the roles of its parameters (data, header-bound data,
       cancellation token, context, inbound stream) and its return idiom;
     - the four adapters as methods over a recording `Target` class, a
       `StreamReader` class (messages plus a cursor) and a `StreamWriter`
       class (an appended sequence);
     - each test as a method whose `ensures` is what the test asserts.
   - `Reassemble` defines the argument list. Lemmas prove that:
     - message values reach the data slots in message order;
     - header values reach the header-bound slots in declared order;
     - every token or context slot sees the call's own token or context.

2. **Type names and type classification** (`syntax_tools.dfy`, over
   `strings.dfy`).
   - Covers the design-time generator's helpers in `SyntaxTools`:
     - rendering a type as C# text (`GetFullName`, both `WriteTypeFullName`
       overloads, `SimplifyTypeName`);
     - namespace text (`GetNamespace`, `ExpandNamespace`);
     - method signatures (`GetSignature`);
     - classification (`IsMatch`, `IsTask`, `IsValueTask`,
       `IsAsyncEnumerable`, `IsValueTuple`, `IsAssignableFrom`);
     - member and attribute lookup (`ExpandInterface`, `GetInstanceMethods`,
       `GetCustomAttribute`).
   - Roslyn's symbols become a `TypeSymbol` datatype.
   - The loops of the source (`StringBuilder.Insert(0, …)`, the `BaseType`
     walk, the separator loops, the `HashSet` fill) are methods. Each is
     proved equal to a recursive function, and the properties are proved
     about that function.

3. **Generated-file assembly** (`compilation_unit.dfy`, over
   `ordinal_sort.dfy`).
   - `CompilationUnit` is a class over a `CodeBuilder`. The builder holds
     the lines written so far (each with its indentation level) and the text
     inserted at the front of its buffer.
   - `DeclareClass` opens one level per owner.
   - `GetSourceText` closes the levels.
   - `InsertImports` inserts the distinct imports in ascending ordinal order.
   - `InsertComment` puts the normalised auto-generated comment in front.

Source paths below are relative to the repository root:

| short name | file |
|---|---|
| `GrpcServiceBuilderTest.cs` | `Sources/ServiceModel.Grpc.Test/Internal/Emit/` |
| `SyntaxTools.cs` | `Sources/ServiceModel.Grpc.DesignTime/Generator/Internal/` |
| `CompilationUnit.cs` | `Sources/ServiceModel.Grpc.DesignTime/Generator/` |

## Model

| member | source | states |
|---|---|---|
| Messages.Pack | Sources/ServiceModel.Grpc.Test/Internal/Emit/GrpcServiceBuilderTest.cs:291-312 | values fit a message exactly when there are at most three; the packed message holds them in order |
| Messages.PackValues | Sources/ServiceModel.Grpc.Test/Internal/Emit/GrpcServiceBuilderTest.cs:291-312 | unpacking a message and packing its values gives the same message back |
| Messages.Response | Sources/ServiceModel.Grpc.Test/Internal/Emit/GrpcServiceBuilderTest.cs:160-213 | a void result gives the empty message; any other result is Value1 of a one-value message |
| Messages.Responses | Sources/ServiceModel.Grpc.Test/Internal/Emit/GrpcServiceBuilderTest.cs:328-337 | one outbound message per stream element, in order, each carrying exactly that element |
| Messages.InboundValues | Sources/ServiceModel.Grpc.Test/Internal/Emit/GrpcServiceBuilderTest.cs:473-481 | the values of an inbound stream of one-value messages, one per message, in order |
| Messages.StreamRoundTrip | Sources/ServiceModel.Grpc.Test/Internal/Emit/GrpcServiceBuilderTest.cs:315-349 | a written stream read back gives exactly the original elements |
| CallShapes.ShapeOf | Sources/ServiceModel.Grpc.Test/Internal/Emit/GrpcServiceBuilderTest.cs:583-587 | the call is client- or duplex-streaming exactly when a stream parameter is declared, and server- or duplex-streaming exactly when a stream is returned |
| CallShapes.CountOf | Sources/ServiceModel.Grpc.Test/Internal/Emit/GrpcServiceBuilderTest.cs:291-312 | the number of parameters of a role is zero exactly when no parameter has that role |
| ServerCallAdapters.ContextArgument | Sources/ServiceModel.Grpc.Test/Internal/Emit/GrpcServiceBuilderTest.cs:113-157 | every context argument carries the call's token; CallContext and ServerCallContext give the call's context; CallOptions give none, and carry the call's headers |
| ServerCallAdapters.ReassembleAt | Sources/ServiceModel.Grpc.Test/Internal/Emit/GrpcServiceBuilderTest.cs:291-312 | per argument slot: a data parameter gets the message value at the count of earlier data parameters, a header parameter likewise from the headers; token, context and stream parameters get the call's own |
| ServerCallAdapters.DataInOrder | Sources/ServiceModel.Grpc.Test/Internal/Emit/GrpcServiceBuilderTest.cs:291-312 | the data arguments, taken in declared order, are exactly the request values in message order |
| ServerCallAdapters.HeadersInOrder | Sources/ServiceModel.Grpc.Test/Internal/Emit/GrpcServiceBuilderTest.cs:539-580 | the header-bound arguments, taken in declared order, are exactly the header values in order |
| ServerCallAdapters.MetadataSeesCall | Sources/ServiceModel.Grpc.Test/Internal/Emit/GrpcServiceBuilderTest.cs:113-157 | every token or context argument observes the call's own token; a CallContext or ServerCallContext argument observes the call's own context |
| ServerCallAdapters.Target.Invoke | Sources/ServiceModel.Grpc.Test/Internal/Emit/GrpcServiceBuilderTest.cs:60-74 | the call is recorded after all earlier ones, and the answer is the operation's answer for these arguments |
| ServerCallAdapters.StreamReader.MoveNext | Sources/ServiceModel.Grpc.Test/Internal/Emit/GrpcServiceBuilderTest.cs:473-481 | moves to the next message and makes it Current, exactly when one is left; every pull's token is recorded |
| ServerCallAdapters.StreamWriter.WriteAsync | Sources/ServiceModel.Grpc.Test/Internal/Emit/GrpcServiceBuilderTest.cs:328-337 | the message is appended after everything written so far |
| ServerCallAdapters.ReadAll | Sources/ServiceModel.Grpc.Test/Internal/Emit/GrpcServiceBuilderTest.cs:473-481 | the reader ends at its last message; the values are exactly those of the messages not yet read, in order; there is one pull with the call's token per message plus the final pull that returns false |
| ServerCallAdapters.WriteAll | Sources/ServiceModel.Grpc.Test/Internal/Emit/GrpcServiceBuilderTest.cs:328-337 | the writer receives exactly one message per element, in order, after what it held |
| ServerCallAdapters.UnaryHandler | Sources/ServiceModel.Grpc.Test/Internal/Emit/GrpcServiceBuilderTest.cs:60-312 | the target is called exactly once, with the reassembled arguments; the response packs its result |
| ServerCallAdapters.ServerStreamingHandler | Sources/ServiceModel.Grpc.Test/Internal/Emit/GrpcServiceBuilderTest.cs:315-457 | the target is called exactly once, with the reassembled arguments; the writer receives exactly its stream's elements in order |
| ServerCallAdapters.ClientStreamingHandler | Sources/ServiceModel.Grpc.Test/Internal/Emit/GrpcServiceBuilderTest.cs:460-580 | the inbound stream is read to its end with the call's token; the target is called exactly once, with the inbound values as the stream argument and the header values as the other data; the response packs its result |
| ServerCallAdapters.DuplexStreamingHandler | Sources/ServiceModel.Grpc.Test/Internal/Emit/GrpcServiceBuilderTest.cs:583-792 | the inbound side works as in client streaming; the writer receives exactly the returned stream's elements in order |
| ServiceBuilderScenarios.Empty | Sources/ServiceModel.Grpc.Test/Internal/Emit/GrpcServiceBuilderTest.cs:60-110 | a void, Task or ValueTask operation without parameters is called once with no arguments; the response is the empty message |
| ServiceBuilderScenarios.EmptyContext | Sources/ServiceModel.Grpc.Test/Internal/Emit/GrpcServiceBuilderTest.cs:113-133 | the CallContext argument wraps the call's own ServerCallContext |
| ServiceBuilderScenarios.EmptyTokenAsync | Sources/ServiceModel.Grpc.Test/Internal/Emit/GrpcServiceBuilderTest.cs:136-157 | the CancellationToken argument is the call's token |
| ServiceBuilderScenarios.ReturnValue | Sources/ServiceModel.Grpc.Test/Internal/Emit/GrpcServiceBuilderTest.cs:160-213 | a plain or awaited result is Value1 of the response; a ServerCallContext parameter receives the call's context |
| ServiceBuilderScenarios.OneParameterContext | Sources/ServiceModel.Grpc.Test/Internal/Emit/GrpcServiceBuilderTest.cs:216-252 | the CallOptions argument carries the call's token and comes before the data value 3 |
| ServiceBuilderScenarios.OneParameterAsync | Sources/ServiceModel.Grpc.Test/Internal/Emit/GrpcServiceBuilderTest.cs:255-270 | the one message value is the one argument; the response is the empty message |
| ServiceBuilderScenarios.AddTwoValues | Sources/ServiceModel.Grpc.Test/Internal/Emit/GrpcServiceBuilderTest.cs:273-288 | the two message values are the arguments in order; the result is Value1 |
| ServiceBuilderScenarios.ConcatThreeValueAsync | Sources/ServiceModel.Grpc.Test/Internal/Emit/GrpcServiceBuilderTest.cs:291-312 | Message(1, "a", 3) gives the arguments (1, "a", token, 3); the awaited result is Value1 |
| ServiceBuilderScenarios.ConcatThreeArguments | Sources/ServiceModel.Grpc.Test/Internal/Emit/GrpcServiceBuilderTest.cs:291-312 | the argument list for (int, string, CancellationToken, long) and Message(1, "a", 3), slot by slot |
| ServiceBuilderScenarios.EmptyServerStreaming | Sources/ServiceModel.Grpc.Test/Internal/Emit/GrpcServiceBuilderTest.cs:315-349 | the target is called once with no arguments; the writer receives exactly 1, 2, 3 |
| ServiceBuilderScenarios.ServerStreamingRepeatValue | Sources/ServiceModel.Grpc.Test/Internal/Emit/GrpcServiceBuilderTest.cs:352-457 | a plain, Task or ValueTask stream: the target sees 1, 2 and the call's token; the writer receives exactly 1, 2, 3 |
| ServiceBuilderScenarios.ClientStreamingEmpty | Sources/ServiceModel.Grpc.Test/Internal/Emit/GrpcServiceBuilderTest.cs:460-496 | the reader is pulled twice with the call's token; the target sees exactly [2]; the response is empty |
| ServiceBuilderScenarios.ClientStreamingSumValues | Sources/ServiceModel.Grpc.Test/Internal/Emit/GrpcServiceBuilderTest.cs:499-536 | the target sees [2] and the call's token; its result "2" is Value1 of the response |
| ServiceBuilderScenarios.ClientStreamingHeaderParameters | Sources/ServiceModel.Grpc.Test/Internal/Emit/GrpcServiceBuilderTest.cs:539-580 | with the default token, the reader is pulled twice with that token; the arguments are (stream, 1, "prefix"), the last two taken from the headers |
| ServiceBuilderScenarios.DuplexStreamingConvert | Sources/ServiceModel.Grpc.Test/Internal/Emit/GrpcServiceBuilderTest.cs:583-736 | plain, Task or ValueTask: inbound [2] is read with two pulls; the target sees [2] and the token; the writer receives exactly "2" |
| ServiceBuilderScenarios.DuplexStreamingHeaderParameters | Sources/ServiceModel.Grpc.Test/Internal/Emit/GrpcServiceBuilderTest.cs:739-792 | with the default token, the reader is pulled twice with that token; the arguments are (stream, 1, "prefix"); the writer receives exactly "2" |
| Strings.OrdinalIrreflexive | Sources/ServiceModel.Grpc.DesignTime/Generator/CompilationUnit.cs:81 | ordinal comparison: no string precedes itself |
| Strings.OrdinalAsymmetric | Sources/ServiceModel.Grpc.DesignTime/Generator/CompilationUnit.cs:81 | ordinal comparison: no two strings precede each other |
| Strings.OrdinalTransitive | Sources/ServiceModel.Grpc.DesignTime/Generator/CompilationUnit.cs:81 | ordinal comparison is transitive |
| Strings.OrdinalTotal | Sources/ServiceModel.Grpc.DesignTime/Generator/CompilationUnit.cs:81 | of two different strings, one precedes the other |
| Strings.IndexOf | Sources/ServiceModel.Grpc.DesignTime/Generator/Internal/SyntaxTools.cs:275 | the position of the first occurrence of the character |
| Strings.JoinSnoc | Sources/ServiceModel.Grpc.DesignTime/Generator/Internal/SyntaxTools.cs:136-144 | joining one part more appends the separator and the part, unless nothing came before |
| Strings.ReplaceSkips | Sources/ServiceModel.Grpc.DesignTime/Generator/CompilationUnit.cs:69-71 | text without the pattern's characters is copied unchanged by Replace |
| Strings.ReplaceJoin | Sources/ServiceModel.Grpc.DesignTime/Generator/CompilationUnit.cs:69-71 | replacing a join's separator joins the same parts with the replacement |
| Strings.ReplaceAbsent | Sources/ServiceModel.Grpc.DesignTime/Generator/CompilationUnit.cs:70 | Replace leaves text without the pattern's first character unchanged |
| Strings.JoinBalanced | Sources/ServiceModel.Grpc.DesignTime/Generator/Internal/SyntaxTools.cs:342-354 | joining texts with as many '<' as '>' gives such a text |
| Strings.JoinAvoids | Sources/ServiceModel.Grpc.DesignTime/Generator/CompilationUnit.cs:69-71 | a character in neither the parts nor the separator is not in the join |
| OrdinalSort.NotLessTransitive | Sources/ServiceModel.Grpc.DesignTime/Generator/CompilationUnit.cs:81 | "not ordinally greater" is transitive |
| OrdinalSort.InsertDescending | Sources/ServiceModel.Grpc.DesignTime/Generator/CompilationUnit.cs:81 | inserting into a descending sequence keeps it descending and adds exactly that element |
| OrdinalSort.SortDescending | Sources/ServiceModel.Grpc.DesignTime/Generator/CompilationUnit.cs:81 | OrderByDescending with StringComparer.Ordinal: a descending permutation of the imports |
| OrdinalSort.InsertAscending | Sources/ServiceModel.Grpc.DesignTime/Generator/CompilationUnit.cs:80-89 | inserting into a strictly ascending sequence keeps it strictly ascending, with the element added once |
| OrdinalSort.SortedDistinct | Sources/ServiceModel.Grpc.DesignTime/Generator/CompilationUnit.cs:76-90 | strictly ascending, with exactly the strings of the input |
| OrdinalSort.AscendingUnique | Sources/ServiceModel.Grpc.DesignTime/Generator/CompilationUnit.cs:76-90 | two strictly ascending sequences with the same strings are equal, so the using block is determined by the set of imports |
| SyntaxTools.Chain | Sources/ServiceModel.Grpc.DesignTime/Generator/Internal/SyntaxTools.cs:290-298 | the chain is empty exactly when there is no start namespace or it is the global one |
| SyntaxTools.ChainLinks | Sources/ServiceModel.Grpc.DesignTime/Generator/Internal/SyntaxTools.cs:290-298 | the chain starts at the start namespace; each namespace contains the one before it; none is global; it stops where the global namespace or nothing comes next |
| SyntaxTools.ExpandNamespace | Sources/ServiceModel.Grpc.DesignTime/Generator/Internal/SyntaxTools.cs:290-298 | the walk yields exactly the chain |
| SyntaxTools.GetNamespace | Sources/ServiceModel.Grpc.DesignTime/Generator/Internal/SyntaxTools.cs:92-119 | the text built by inserting at the front is the namespace text of the type |
| SyntaxTools.PrependNamespaces | Sources/ServiceModel.Grpc.DesignTime/Generator/Internal/SyntaxTools.cs:108-116 | the loop puts each namespace's name, with a dot when needed, in front of what was built |
| SyntaxTools.PrependAllJoins | Sources/ServiceModel.Grpc.DesignTime/Generator/Internal/SyntaxTools.cs:108-116 | prepending a chain innermost first is joining its names outermost first with dots |
| SyntaxTools.NamespaceJoinsSegments | Sources/ServiceModel.Grpc.DesignTime/Generator/Internal/SyntaxTools.cs:92-119 | the segments (namespaces outermost first, then the containing type's name) joined with "."; empty for a top-level type in the global namespace |
| SyntaxTools.OneContainingTypeLevel | Sources/ServiceModel.Grpc.DesignTime/Generator/Internal/SyntaxTools.cs:96-106 | only one level of containing type is named: C in B in A in N gives "N.B" |
| SyntaxTools.GenericNames | Sources/ServiceModel.Grpc.DesignTime/Generator/Internal/SyntaxTools.cs:275 | the names before the backtick of Nullable`1, Task`1 and ValueTask`1 |
| SyntaxTools.TaskClassification | Sources/ServiceModel.Grpc.DesignTime/Generator/Internal/SyntaxTools.cs:208-219 | IsTask holds exactly for System.Threading.Tasks types: Task or ValueTask with no type arguments (exact name), or with one (name ignoring case); every ValueTask is a Task |
| SyntaxTools.MatchCaseSensitivity | Sources/ServiceModel.Grpc.DesignTime/Generator/Internal/SyntaxTools.cs:266-286 | IsMatch compares a non-generic name exactly, and a generic name ignoring case with equal arity |
| SyntaxTools.ClassifiersExclusive | Sources/ServiceModel.Grpc.DesignTime/Generator/Internal/SyntaxTools.cs:208-238 | no type is two of task, async enumerable and value tuple |
| SyntaxTools.SimplifyTypeName | Sources/ServiceModel.Grpc.DesignTime/Generator/Internal/SyntaxTools.cs:384-462 | each of the fifteen System names maps to its C# keyword; every other name is unchanged |
| SyntaxTools.SimplifyIdempotent | Sources/ServiceModel.Grpc.DesignTime/Generator/Internal/SyntaxTools.cs:384-462 | simplifying twice is simplifying once |
| SyntaxTools.QualifiedName | Sources/ServiceModel.Grpc.DesignTime/Generator/Internal/SyntaxTools.cs:358-382 | System gives the simplified name; the five imported namespaces give the bare name; another non-empty namespace gives ns.name; the empty namespace gives the name |
| SyntaxTools.RankSpecifier | Sources/ServiceModel.Grpc.DesignTime/Generator/Internal/SyntaxTools.cs:316-323 | "[" then rank - 1 commas then "]" |
| SyntaxTools.ArrayFullNameLevels | Sources/ServiceModel.Grpc.DesignTime/Generator/Internal/SyntaxTools.cs:304-324 | collecting the ranks while descending, then writing the innermost element, is the element's text followed by the ranks so far and the remaining levels |
| SyntaxTools.ArrayRendering | Sources/ServiceModel.Grpc.DesignTime/Generator/Internal/SyntaxTools.cs:302-327 | an array is its innermost element type's text, then one rank specifier per level, outermost first |
| SyntaxTools.NullableRendering | Sources/ServiceModel.Grpc.DesignTime/Generator/Internal/SyntaxTools.cs:329-335 | Nullable<T> is T's text followed by "?" |
| SyntaxTools.GenericRendering | Sources/ServiceModel.Grpc.DesignTime/Generator/Internal/SyntaxTools.cs:337-355 | any other generic type is its qualified name, then "<", its arguments' texts joined by ", ", then ">"; a value tuple is ValueTuple<…> |
| SyntaxTools.ArgNames | Sources/ServiceModel.Grpc.DesignTime/Generator/Internal/SyntaxTools.cs:344-352 | each type argument is written by the same rendering |
| SyntaxTools.ValueTupleIsNotNullable | Sources/ServiceModel.Grpc.DesignTime/Generator/Internal/SyntaxTools.cs:330 | a value tuple never takes the Nullable branch |
| SyntaxTools.FullNameBalanced | Sources/ServiceModel.Grpc.DesignTime/Generator/Internal/SyntaxTools.cs:300-356 | when no name has an angle bracket, a type's text has as many '<' as '>' |
| SyntaxTools.NamedFullNameBalanced | Sources/ServiceModel.Grpc.DesignTime/Generator/Internal/SyntaxTools.cs:329-355 | as FullNameBalanced, for a named type |
| SyntaxTools.ArgumentListBalanced | Sources/ServiceModel.Grpc.DesignTime/Generator/Internal/SyntaxTools.cs:340-355 | an argument list closes every '<' it opens |
| SyntaxTools.ArrayFullNameBalanced | Sources/ServiceModel.Grpc.DesignTime/Generator/Internal/SyntaxTools.cs:302-327 | as FullNameBalanced, for an array |
| SyntaxTools.GetFullName | Sources/ServiceModel.Grpc.DesignTime/Generator/Internal/SyntaxTools.cs:79-90 | a type parameter's text is exactly its name; any other type's is its rendering |
| SyntaxTools.ParameterTexts | Sources/ServiceModel.Grpc.DesignTime/Generator/Internal/SyntaxTools.cs:157-168 | one text per parameter: "out " or "ref " by ref kind (out first), then the type's full name |
| SyntaxTools.GetSignature | Sources/ServiceModel.Grpc.DesignTime/Generator/Internal/SyntaxTools.cs:126-173 | the text is "ret name", then <targs> when there are any, then (p1, …, pn) |
| SyntaxTools.AppendSeparated | Sources/ServiceModel.Grpc.DesignTime/Generator/Internal/SyntaxTools.cs:136-144 | writing ", " before every item but the first appends the items joined by ", " |
| SyntaxTools.IsAssignableFrom | Sources/ServiceModel.Grpc.DesignTime/Generator/Internal/SyntaxTools.cs:177-204 | true exactly when the expected type is object, or a declared interface matches it, or the type or one of its base types matches it |
| SyntaxTools.AnyInterfaceMatches | Sources/ServiceModel.Grpc.DesignTime/Generator/Internal/SyntaxTools.cs:184-190 | true exactly when some declared interface matches |
| SyntaxTools.BaseChainMatches | Sources/ServiceModel.Grpc.DesignTime/Generator/Internal/SyntaxTools.cs:192-201 | true exactly when the type or some base type matches |
| SyntaxTools.BaseChainStep | Sources/ServiceModel.Grpc.DesignTime/Generator/Internal/SyntaxTools.cs:200 | one step of the walk: the type, then its base type's chain |
| SyntaxTools.AssignableThroughBaseOnly | Sources/ServiceModel.Grpc.DesignTime/Generator/Internal/SyntaxTools.cs:184-201 | a type that declares no interfaces is not assignable to an interface its base type declares, unless some type on its base chain matches; the base type itself is assignable |
| SyntaxTools.ExpandInterface | Sources/ServiceModel.Grpc.DesignTime/Generator/Internal/SyntaxTools.cs:35-52 | the type itself when it is an interface, together with all the interfaces it implements |
| SyntaxTools.InstanceMethodsAppend | Sources/ServiceModel.Grpc.DesignTime/Generator/Internal/SyntaxTools.cs:68-77 | filtering distributes over concatenation, keeping member order |
| SyntaxTools.InstanceMethodsMembership | Sources/ServiceModel.Grpc.DesignTime/Generator/Internal/SyntaxTools.cs:68-77 | a method is listed exactly when it is an ordinary, non-static member |
| SyntaxTools.GetInstanceMethods | Sources/ServiceModel.Grpc.DesignTime/Generator/Internal/SyntaxTools.cs:68-77 | the yielded methods are exactly the ordinary instance methods, in member order |
| SyntaxTools.GetCustomAttribute | Sources/ServiceModel.Grpc.DesignTime/Generator/Internal/SyntaxTools.cs:54-66 | the first attribute whose class's full name equals the given one; none exactly when no attribute has it |
| CompilationUnits.CodeBuilder.AppendLine | Sources/ServiceModel.Grpc.DesignTime/Generator/CompilationUnit.cs:114-116 | appends one line at the current level; nothing else changes |
| CompilationUnits.CodeBuilder.Indent | Sources/ServiceModel.Grpc.DesignTime/Generator/CompilationUnit.cs:118 | opens one indentation level |
| CompilationUnits.CodeBuilder.Outdent | Sources/ServiceModel.Grpc.DesignTime/Generator/CompilationUnit.cs:46 | closes one indentation level |
| CompilationUnits.CodeBuilder.InsertAtFront | Sources/ServiceModel.Grpc.DesignTime/Generator/CompilationUnit.cs:73 | the text goes before everything in the buffer; the lines are untouched |
| CompilationUnits.OpenLines | Sources/ServiceModel.Grpc.DesignTime/Generator/CompilationUnit.cs:112-119 | two lines per owner: its header, then "{", both at the owner's level |
| CompilationUnits.CloseLines | Sources/ServiceModel.Grpc.DesignTime/Generator/CompilationUnit.cs:44-48 | one "}" per level, from the innermost level down to level 0 |
| CompilationUnits.HeadersAppend | Sources/ServiceModel.Grpc.DesignTime/Generator/CompilationUnit.cs:96-108 | outer ancestors' headers come before inner ones' |
| CompilationUnits.OtherAncestorsSkipped | Sources/ServiceModel.Grpc.DesignTime/Generator/CompilationUnit.cs:98-107 | an ancestor that is neither a namespace nor a class leaves no header |
| CompilationUnits.OwnersOutermostFirst | Sources/ServiceModel.Grpc.DesignTime/Generator/CompilationUnit.cs:92-110 | the owners are every ancestor's header, outermost first ("namespace N" or "partial class C"), ending with the class itself |
| CompilationUnits.HeadersOutermostFirst | Sources/ServiceModel.Grpc.DesignTime/Generator/CompilationUnit.cs:96-108 | the i-th header is that of the i-th ancestor counted from the outside |
| CompilationUnits.CollectOwners | Sources/ServiceModel.Grpc.DesignTime/Generator/CompilationUnit.cs:94-110 | the loop that inserts at position 0 builds exactly the owners |
| CompilationUnits.OpenLinesCount | Sources/ServiceModel.Grpc.DesignTime/Generator/CompilationUnit.cs:112-119 | the opening lines hold one "{" per owner and no "}" |
| CompilationUnits.CloseLinesCount | Sources/ServiceModel.Grpc.DesignTime/Generator/CompilationUnit.cs:44-48 | the closing lines hold one "}" per level and no "{" |
| CompilationUnits.OwnersAreNotBraces | Sources/ServiceModel.Grpc.DesignTime/Generator/CompilationUnit.cs:101-110 | no owner header is a brace line |
| CompilationUnits.BracesBalance | Sources/ServiceModel.Grpc.DesignTime/Generator/CompilationUnit.cs:44-48 | a class's body holds as many "{" as "}" (one per owner); the j-th "}" is at the level of the "{" it closes |
| CompilationUnits.CompilationUnit.constructor | Sources/ServiceModel.Grpc.DesignTime/Generator/CompilationUnit.cs:32-38 | a fresh builder holding exactly the opening lines of the owners; one level per owner |
| CompilationUnits.CompilationUnit.DeclareClass | Sources/ServiceModel.Grpc.DesignTime/Generator/CompilationUnit.cs:92-120 | appends the opening lines of the owners from the current level; opens one level per owner |
| CompilationUnits.CompilationUnit.GetSourceText | Sources/ServiceModel.Grpc.DesignTime/Generator/CompilationUnit.cs:42-56 | one "}" line per opened level; then the text is the comment, the using block, one newline, then the body |
| CompilationUnits.InsertImports | Sources/ServiceModel.Grpc.DesignTime/Generator/CompilationUnit.cs:76-90 | puts in front one using line per distinct import, in ascending ordinal order, then one newline |
| CompilationUnits.InsertUsingLines | Sources/ServiceModel.Grpc.DesignTime/Generator/CompilationUnit.cs:80-89 | each name not met before has its using line put in front |
| CompilationUnits.PrependedMembers | Sources/ServiceModel.Grpc.DesignTime/Generator/CompilationUnit.cs:80-89 | the names put in front are exactly the names walked |
| CompilationUnits.PrependedAscending | Sources/ServiceModel.Grpc.DesignTime/Generator/CompilationUnit.cs:81-89 | walking in descending order and inserting at the front yields strictly ascending names |
| CompilationUnits.PrependedIsSortedDistinct | Sources/ServiceModel.Grpc.DesignTime/Generator/CompilationUnit.cs:76-90 | after the descending walk, the names in front are the distinct imports in ascending order |
| CompilationUnits.CommentLinesPlain | Sources/ServiceModel.Grpc.DesignTime/Generator/CompilationUnit.cs:60-69 | no line of the auto-generated comment holds a line break |
| CompilationUnits.NormaliseLineEndings | Sources/ServiceModel.Grpc.DesignTime/Generator/CompilationUnit.cs:69-71 | whether CRLF or LF ends the literal's lines, the two replacements give the lines joined by the platform newline |
| CompilationUnits.InsertComment | Sources/ServiceModel.Grpc.DesignTime/Generator/CompilationUnit.cs:58-74 | the comment, with the platform newline, goes in front of the buffer |

## Left out

- The emitted IL (Reflection.Emit), `Disassemble`, `Console` output and Moq
  are outside the model. The adapters are stated abstractly by what the
  tests observe. A strict mock with `VerifyAll` becomes the recording
  `Target`.
- Task, ValueTask and IAsyncEnumerable are modelled as already resolved
  values and finite sequences.
  - The model does not capture laziness: the client and duplex adapters
    read the whole inbound stream before the call, while the real adapter
    hands the service a lazy enumeration.
  - The order in which inbound pulls and outbound writes interleave is not
    modelled.
- Cancellation is not modelled. A token is an opaque value that is only
  passed along.
- A test's `null` context is modelled as a context nobody reads.
- Deadlines, write options and the rest of `ServerCallContext` are left out.
- The header marshaller (`CompatibilityTools.MethodInputAsHeader`) is not
  part of this model. Headers arrive already decoded into values.
- The double payloads 3.5 and 4.5 are opaque values. No floating point
  arithmetic is modelled.
- Roslyn's symbol and syntax APIs (`GetAttributes`, `GetMembers`,
  `Ancestors`, `AllInterfaces`) are not modelled. Their results are inputs:
  sequences in the datatypes.
  - The method type arguments in a signature are their display strings.
  - An array type has no namespace, base type or interfaces.
- `IsVoid`, `IsStream`, `IsOut`/`IsRef` (folded into `ParameterText`) and
  `GetInterfaceImplementation` are not named as core operations.
  `GetInterfaceImplementation` relies on `FindImplementationForInterfaceMember`,
  which is not part of this model.
- `Is` is the same as `IsMatch` and has no member of its own.
- `GenericTypeArguments` is `TypeArgumentsOf`.
- `ReflectionTools.GetNamespace` is not part of this model. The expected
  type in `IsMatch` is a record of namespace, metadata name and generic
  arity. `WellFormedExpected` requires a generic expected type's metadata
  name to have a backtick. This excludes expected types that the source
  accepts and then throws on. An example is a non-generic type nested in a
  generic one (`Outer<T>.Inner`): it is generic but its name is `Inner`.
  The source's `IndexOf` slice then throws `ArgumentOutOfRangeException`,
  and the model does not capture that exception.
- OrdinalLess: compares characters as Unicode scalar values. .NET's
  ordinal comparison compares UTF-16 code units. The two orders differ when
  the first difference puts a character above U+FFFF against one in
  U+E000..U+FFFF. For example, .NET sorts "A\u{10000}" before "A\uFFFD",
  and the model puts it after. `InsertImports` would then order such using
  lines differently.
- `EqualsIgnoreCase` folds ASCII letters only. .NET's OrdinalIgnoreCase
  also folds non-ASCII letters.
- `CodeStringBuilder` is not part of this model. It is modelled as lines
  with levels, an indentation unit of four spaces, and a front insertion
  buffer. `Indent` opens a level and disposing it closes one.
- A second call of `GetSourceText` is not modelled.
- `Environment.NewLine` is a parameter of the builder.
- The verbatim comment literal is taken to end its lines with LF.
  `NormaliseLineEndings` covers CRLF line endings too.
- `ServiceModelGrpcServiceOptions.cs` and `LogAdapter.cs` are left out.
  They are a configuration property bag and logging pass-through, with no
  behaviour to model.
