/** The design-time generator's helpers over compiler type symbols: how a type
    is named in generated C# text (GetFullName, GetNamespace, GetSignature) and
    how a type is classified (IsMatch, IsTask, IsAsyncEnumerable, IsValueTuple,
    IsAssignableFrom). The compiler's symbols are replaced by the datatypes
    below, which carry exactly the properties these helpers read. */
module SyntaxTools {
  import opened Wrappers
  import opened Strings

  // ---------------------------------------------------------------- symbols

  /** A namespace: its simple name, whether it is the global namespace, and
      the namespace that contains it (none for the global namespace). */
  datatype NamespaceSymbol = NamespaceSymbol(name: string, isGlobalNamespace: bool, containingNamespace: Option<NamespaceSymbol>)

  datatype TypeKind = ClassKind | StructKind | InterfaceKind | EnumKind | DelegateKind

  /** A type symbol. A named type lists its type arguments, base type, the
      interfaces it declares and all interfaces it implements; an array has a
      rank and an element type and no name; a type parameter has a name and the
      namespace and type of the symbol that declares it. */
  datatype TypeSymbol =
    | NamedType(kind: TypeKind, containingNamespace: Option<NamespaceSymbol>, containingType: Option<TypeSymbol>,
                name: string, typeArguments: seq<TypeSymbol>, isTupleType: bool,
                baseType: Option<TypeSymbol>, interfaces: seq<TypeSymbol>, allInterfaces: seq<TypeSymbol>)
    | ArrayType(rank: nat, elementType: TypeSymbol)
    | TypeParameter(containingNamespace: Option<NamespaceSymbol>, containingType: Option<TypeSymbol>, name: string)

  datatype RefKind = NoRef | Ref | Out | In

  datatype ParameterSymbol = ParameterSymbol(refKind: RefKind, parameterType: TypeSymbol)

  datatype MethodKind = Ordinary | Constructor | StaticConstructor | PropertyGet | PropertySet
                      | EventAdd | EventRemove | ExplicitInterfaceImplementation | OtherMethodKind

  /** A method. Its type arguments are kept as their display strings, which is
      how the signature writer appends them. */
  datatype MethodSymbol = MethodSymbol(name: string, isStatic: bool, methodKind: MethodKind, returnType: TypeSymbol,
                                       typeArguments: seq<string>, parameters: seq<ParameterSymbol>)

  /** A member of a type, as listed by GetMembers. */
  datatype Member = MethodMember(symbol: MethodSymbol) | OtherMember(name: string)

  datatype AttributeData = AttributeData(attributeClass: TypeSymbol)

  /** What the classifiers compare against: a run-time type given by its
      namespace, its metadata name (with the `n suffix when generic) and the
      number of its generic arguments. */
  datatype ExpectedType = ExpectedType(namespace: string, name: string, isGenericType: bool, genericArity: nat)

  /** ISymbol.Name: an array type has the empty name. */
  function NameOf(t: TypeSymbol): string
  {
    if t.ArrayType? then "" else t.name
  }

  function ContainingNamespaceOf(t: TypeSymbol): Option<NamespaceSymbol>
  {
    if t.ArrayType? then None else t.containingNamespace
  }

  function ContainingTypeOf(t: TypeSymbol): Option<TypeSymbol>
  {
    if t.ArrayType? then None else t.containingType
  }

  /** GenericTypeArguments: the type arguments of a named type, none otherwise. */
  function TypeArgumentsOf(t: TypeSymbol): seq<TypeSymbol>
  {
    if t.NamedType? then t.typeArguments else []
  }

  // ------------------------------------------------------------- namespaces

  /** The namespaces ExpandNamespace yields from `start`, innermost first,
      stopping before the global namespace or a missing container. */
  function Chain(start: Option<NamespaceSymbol>): (r: seq<NamespaceSymbol>)
    ensures |r| == 0 <==> start.None? || start.value.isGlobalNamespace
    decreases start
  {
    match start
    case None => []
    case Some(ns) => if ns.isGlobalNamespace then [] else [ns] + Chain(ns.containingNamespace)
  }

  /** The chain starts at `start`, each element is contained in the one before
      it, and it ends where the global namespace or no namespace comes next. */
  lemma {:induction false} ChainLinks(start: Option<NamespaceSymbol>)
    ensures var r := Chain(start);
      && (|r| > 0 ==> r[0] == start.value)
      && (forall i :: 0 <= i < |r| ==> !r[i].isGlobalNamespace)
      && (forall i :: 0 < i < |r| ==> r[i - 1].containingNamespace == Some(r[i]))
      && (|r| > 0 ==> var up := r[|r| - 1].containingNamespace; up.None? || up.value.isGlobalNamespace)
    decreases start
  {
    if start.Some? && !start.value.isGlobalNamespace {
      var up := start.value.containingNamespace;
      ChainLinks(up);
      var r := Chain(start);
      assert r == [start.value] + Chain(up);
      if |Chain(up)| > 0 {
        assert r[1] == up.value;
      }
    }
  }

  /** ExpandNamespace: walks the containing namespaces from `startFrom`. */
  method ExpandNamespace(startFrom: Option<NamespaceSymbol>) returns (r: seq<NamespaceSymbol>)
    ensures r == Chain(startFrom)
  {
    r := [];
    var ns := startFrom;
    while ns.Some? && !ns.value.isGlobalNamespace
      invariant r + Chain(ns) == Chain(startFrom)
      decreases ns
    {
      assert Chain(ns) == [ns.value] + Chain(ns.value.containingNamespace);
      assert r + Chain(ns) == (r + [ns.value]) + Chain(ns.value.containingNamespace);
      r := r + [ns.value];
      ns := ns.value.containingNamespace;
    }
  }

  /** One step of GetNamespace: put a segment in front of what is built so far,
      with a dot only when something was built already. */
  function Prepend(segment: string, built: string): string
  {
    if |built| != 0 then segment + "." + built else segment
  }

  /** Prepends the names of `chain` in order, innermost first. */
  function PrependAll(chain: seq<NamespaceSymbol>, built: string): string
  {
    if |chain| == 0 then built else PrependAll(chain[1..], Prepend(chain[0].name, built))
  }

  /** The text GetNamespace returns: the name of the containing type, if the
      type has one, preceded by the namespaces that contain the type (or its
      containing type). Only one level of containing type is looked at. */
  function NamespaceOf(t: TypeSymbol): string
  {
    match ContainingTypeOf(t)
    case Some(owner) => PrependAll(Chain(ContainingNamespaceOf(owner)), Prepend(NameOf(owner), ""))
    case None => PrependAll(Chain(ContainingNamespaceOf(t)), "")
  }

  /** GetNamespace builds the namespace text by inserting at the front. */
  method GetNamespace(t: TypeSymbol) returns (r: string)
    ensures r == NamespaceOf(t)
  {
    r := "";
    var test := t;
    if ContainingTypeOf(test).Some? {
      if |r| != 0 {
        r := "." + r;
      }
      r := NameOf(ContainingTypeOf(test).value) + r;
      assert r == Prepend(NameOf(ContainingTypeOf(t).value), "");
      test := ContainingTypeOf(test).value;
    }
    var chain := ExpandNamespace(ContainingNamespaceOf(test));
    r := PrependNamespaces(chain, r);
  }

  /** The loop of GetNamespace over the expanded namespaces. */
  method PrependNamespaces(chain: seq<NamespaceSymbol>, built: string) returns (r: string)
    ensures r == PrependAll(chain, built)
  {
    r := built;
    assert chain[0..] == chain;
    for k := 0 to |chain|
      invariant PrependAll(chain[k..], r) == PrependAll(chain, built)
    {
      ghost var before := r;
      assert chain[k..][1..] == chain[k + 1..] && chain[k..][0] == chain[k];
      assert PrependAll(chain[k..], before) == PrependAll(chain[k + 1..], Prepend(chain[k].name, before));
      if |r| != 0 {
        r := "." + r;
      }
      r := chain[k].name + r;
      assert r == Prepend(chain[k].name, before);
    }
    assert chain[|chain|..] == [];
  }

  /** The names of a chain, outermost first. */
  function OutermostFirst(chain: seq<NamespaceSymbol>): (names: seq<string>)
    ensures |names| == |chain|
  {
    if |chain| == 0 then [] else OutermostFirst(chain[1..]) + [chain[0].name]
  }

  /** The segments of a type's namespace text, outermost first. */
  function Segments(t: TypeSymbol): seq<string>
  {
    match ContainingTypeOf(t)
    case Some(owner) => OutermostFirst(Chain(ContainingNamespaceOf(owner))) + [NameOf(owner)]
    case None => OutermostFirst(Chain(ContainingNamespaceOf(t)))
  }

  predicate NonEmptyNames(names: seq<string>)
  {
    forall i :: 0 <= i < |names| ==> names[i] != ""
  }

  lemma {:induction false} JoinNonEmpty(parts: seq<string>, sep: string)
    requires NonEmptyNames(parts) && |parts| > 0
    ensures Join(parts, sep) != ""
  {
    if |parts| > 1 {
      assert |Join(parts, sep)| >= |parts[0]|;
    }
  }

  lemma PrependJoins(n: string, segs: seq<string>)
    requires n != "" && NonEmptyNames(segs)
    ensures Prepend(n, Join(segs, ".")) == Join([n] + segs, ".")
  {
    if |segs| > 0 {
      JoinNonEmpty(segs, ".");
      assert ([n] + segs)[1..] == segs;
    }
  }

  lemma NonEmptyPrefix(names: seq<string>, n: string)
    requires NonEmptyNames(names + [n])
    ensures NonEmptyNames(names)
  {
    forall i | 0 <= i < |names| ensures names[i] != "" {
      assert names[i] == (names + [n])[i];
    }
  }

  lemma {:induction false} PrependAllJoins(chain: seq<NamespaceSymbol>, segs: seq<string>)
    requires NonEmptyNames(OutermostFirst(chain)) && NonEmptyNames(segs)
    ensures PrependAll(chain, Join(segs, ".")) == Join(OutermostFirst(chain) + segs, ".")
  {
    if |chain| > 0 {
      var n := chain[0].name;
      var outer := OutermostFirst(chain[1..]);
      assert OutermostFirst(chain) == outer + [n];
      assert n == OutermostFirst(chain)[|chain| - 1];
      PrependJoins(n, segs);
      NonEmptyPrefix(outer, n);
      PrependAllJoins(chain[1..], [n] + segs);
      assert outer + ([n] + segs) == OutermostFirst(chain) + segs;
    } else {
      assert OutermostFirst(chain) + segs == segs;
    }
  }

  /** When no segment is empty, GetNamespace joins the namespaces outermost
      first, and then the containing type's name, with dots; a type in the
      global namespace with no containing type has the empty namespace. */
  lemma NamespaceJoinsSegments(t: TypeSymbol)
    requires NonEmptyNames(Segments(t))
    ensures NamespaceOf(t) == Join(Segments(t), ".")
    ensures ContainingTypeOf(t).None? && (ContainingNamespaceOf(t).None? || ContainingNamespaceOf(t).value.isGlobalNamespace)
            ==> NamespaceOf(t) == ""
  {
    match ContainingTypeOf(t)
    case Some(owner) =>
      var names := OutermostFirst(Chain(ContainingNamespaceOf(owner)));
      assert names == Segments(t)[..|names|];
      assert NonEmptyNames(names);
      assert Prepend(NameOf(owner), "") == Join([NameOf(owner)], ".");
      PrependAllJoins(Chain(ContainingNamespaceOf(owner)), [NameOf(owner)]);
    case None =>
      PrependAllJoins(Chain(ContainingNamespaceOf(t)), []);
      assert OutermostFirst(Chain(ContainingNamespaceOf(t))) + [] == Segments(t);
  }

  // ---------------------------------------------------------- classification

  /** The part of the expected type's metadata name that IsMatch compares for
      a generic type: the text before the backtick. */
  predicate WellFormedExpected(e: ExpectedType)
  {
    e.isGenericType ==> '`' in e.name
  }

  /** The metadata name of a generic type without its `n suffix. */
  function BeforeBacktick(name: string): string
    requires '`' in name
  {
    name[..IndexOf(name, '`')]
  }

  /** IsMatch: same namespace text; a generic expected type matches a type
      whose name equals its name before the backtick, ignoring case, and that
      has as many type arguments; any other expected type needs an equal name
      and no type arguments. */
  predicate IsMatch(t: TypeSymbol, e: ExpectedType)
    requires WellFormedExpected(e)
  {
    && e.namespace == NamespaceOf(t)
    && if e.isGenericType then
         EqualsIgnoreCase(BeforeBacktick(e.name), NameOf(t)) && e.genericArity == |TypeArgumentsOf(t)|
       else
         e.name == NameOf(t) && |TypeArgumentsOf(t)| == 0
  }

  const NullableType := ExpectedType("System", "Nullable" + "`1", true, 1)
  const TaskType := ExpectedType("System.Threading.Tasks", "Task", false, 0)
  const GenericTaskType := ExpectedType("System.Threading.Tasks", "Task" + "`1", true, 1)
  const ValueTaskType := ExpectedType("System.Threading.Tasks", "ValueTask", false, 0)
  const GenericValueTaskType := ExpectedType("System.Threading.Tasks", "ValueTask" + "`1", true, 1)
  const ObjectType := ExpectedType("System", "Object", false, 0)

  /** IndexOf is determined by the position of the first occurrence. */
  lemma IndexOfAt(s: string, c: char, k: nat)
    requires k < |s| && s[k] == c && c !in s[..k]
    ensures IndexOf(s, c) == k
  {
    var j := IndexOf(s, c);
    assert forall i | 0 <= i < k :: s[..k][i] == s[i];
    assert forall i | 0 <= i < j :: s[..j][i] == s[i];
  }

  /** The name before the backtick of each generic expected type above. */
  lemma GenericNames()
    ensures BeforeBacktick(NullableType.name) == "Nullable"
    ensures BeforeBacktick(GenericTaskType.name) == "Task"
    ensures BeforeBacktick(GenericValueTaskType.name) == "ValueTask"
  {
    BacktickSuffix("Nullable", "1");
    BacktickSuffix("Task", "1");
    BacktickSuffix("ValueTask", "1");
  }

  lemma BacktickSuffix(base: string, arity: string)
    requires '`' !in base
    ensures '`' in base + "`" + arity && BeforeBacktick(base + "`" + arity) == base
  {
    var name := base + "`" + arity;
    assert name[|base|] == '`';
    assert name[..|base|] == base;
    IndexOfAt(name, '`', |base|);
  }

  predicate IsNullable(t: TypeSymbol)
  {
    IsMatch(t, NullableType)
  }

  predicate IsValueTask(t: TypeSymbol)
  {
    IsMatch(t, ValueTaskType) || IsMatch(t, GenericValueTaskType)
  }

  predicate IsTask(t: TypeSymbol)
  {
    IsMatch(t, TaskType) || IsMatch(t, GenericTaskType) || IsValueTask(t)
  }

  /** INamedTypeSymbol.IsGenericType: the type or a containing type has
      type arguments. */
  predicate IsGenericType(t: TypeSymbol)
  {
    t.NamedType? && (|t.typeArguments| > 0 || (t.containingType.Some? && IsGenericType(t.containingType.value)))
  }

  predicate IsAsyncEnumerable(t: TypeSymbol)
  {
    && t.NamedType?
    && IsGenericType(t)
    && |t.typeArguments| == 1
    && t.name == "IAsyncEnumerable"
    && NamespaceOf(t) == "System.Collections.Generic"
  }

  predicate IsValueTuple(t: TypeSymbol)
  {
    && t.NamedType? && t.isTupleType
    && t.name == "ValueTuple"
    && |TypeArgumentsOf(t)| > 0
    && NamespaceOf(t) == "System"
  }

  predicate IsInterface(t: TypeSymbol)
  {
    t.NamedType? && t.kind == InterfaceKind
  }

  /** IsTask holds exactly for Task and ValueTask, without type arguments and
      by exact name, or with one type argument and a name equal to Task or
      ValueTask ignoring case, in System.Threading.Tasks. */
  lemma TaskClassification(t: TypeSymbol)
    ensures IsTask(t) <==>
      && NamespaceOf(t) == "System.Threading.Tasks"
      && (|| (|TypeArgumentsOf(t)| == 0 && (NameOf(t) == "Task" || NameOf(t) == "ValueTask"))
          || (|TypeArgumentsOf(t)| == 1 && (EqualsIgnoreCase("Task", NameOf(t)) || EqualsIgnoreCase("ValueTask", NameOf(t)))))
    ensures IsValueTask(t) ==> IsTask(t)
  {
    GenericNames();
  }

  /** IsMatch compares the namespace text and the name: a non-generic
      expected type is matched by exact name only, a generic one by name
      ignoring case. */
  lemma MatchCaseSensitivity(t: TypeSymbol)
    requires NamespaceOf(t) == "System.Threading.Tasks" && NameOf(t) == "task"
    ensures !IsMatch(t, TaskType)
    ensures IsMatch(t, GenericTaskType) <==> |TypeArgumentsOf(t)| == 1
  {
    GenericNames();
    assert EqualsIgnoreCase("Task", "task");
  }

  /** The three return-type classifiers are mutually exclusive. */
  lemma ClassifiersExclusive(t: TypeSymbol)
    ensures !(IsTask(t) && IsAsyncEnumerable(t))
    ensures !(IsTask(t) && IsValueTuple(t))
    ensures !(IsAsyncEnumerable(t) && IsValueTuple(t))
  {
  }

  // ------------------------------------------------------------- rendering

  /** The C# keyword for each System type that has one. */
  const Keywords: map<string, string> := map[
    "String" := "string", "Int16" := "short", "UInt16" := "ushort", "Int32" := "int", "UInt32" := "uint",
    "Int64" := "long", "UInt64" := "ulong", "Double" := "double", "Decimal" := "decimal", "Single" := "float",
    "Byte" := "byte", "SByte" := "sbyte", "Char" := "char", "Boolean" := "bool", "Void" := "void"]

  /** SimplifyTypeName: the keyword of a System type that has one, else the
      name unchanged. */
  function SimplifyTypeName(name: string): (r: string)
    ensures name in Keywords ==> r == Keywords[name]
    ensures name !in Keywords ==> r == name
  {
    if name == "String" then "string"
    else if name == "Int16" then "short"
    else if name == "UInt16" then "ushort"
    else if name == "Int32" then "int"
    else if name == "UInt32" then "uint"
    else if name == "Int64" then "long"
    else if name == "UInt64" then "ulong"
    else if name == "Double" then "double"
    else if name == "Decimal" then "decimal"
    else if name == "Single" then "float"
    else if name == "Byte" then "byte"
    else if name == "SByte" then "sbyte"
    else if name == "Char" then "char"
    else if name == "Boolean" then "bool"
    else if name == "Void" then "void"
    else name
  }

  /** A keyword is not simplified again. */
  lemma SimplifyIdempotent(name: string)
    ensures SimplifyTypeName(SimplifyTypeName(name)) == SimplifyTypeName(name)
  {
    var r := SimplifyTypeName(name);
    if name in Keywords {
      assert |r| > 0 && 'a' <= r[0] <= 'z';
      LowerCaseIsNoName(r);
    }
  }

  /** Every name with a keyword starts with an upper-case letter, so a string
      starting with a lower-case one has none. */
  lemma LowerCaseIsNoName(s: string)
    requires |s| > 0 && 'a' <= s[0] <= 'z'
    ensures s !in Keywords
  {
  }

  /** Namespaces whose types are written by their bare name, the generated
      file importing them. */
  const ImportedNamespaces: set<string> :=
    {"System.Collections.Generic", "System.Threading.Tasks", "System.Threading", "ServiceModel.Grpc", "Grpc.Core"}

  /** WriteTypeFullName(ns, name): how a name is qualified by its namespace. */
  function QualifiedName(ns: string, name: string): (r: string)
    ensures ns == "System" ==> r == SimplifyTypeName(name)
    ensures ns in ImportedNamespaces ==> r == name
    ensures ns != "System" && ns !in ImportedNamespaces && ns != "" ==> r == ns + "." + name
    ensures ns == "" ==> r == name
  {
    if ns == "System" then SimplifyTypeName(name)
    else if ns == "System.Collections.Generic" || ns == "System.Threading.Tasks" || ns == "System.Threading"
         || ns == "ServiceModel.Grpc" || ns == "Grpc.Core" then name
    else if ns != "" then ns + "." + name
    else name
  }

  /** The specifier of an array level of rank `rank`: rank - 1 commas. */
  function RankSpecifier(rank: nat): (r: string)
    ensures |r| == 2 + (if rank > 1 then rank - 1 else 0)
    ensures r[0] == '[' && r[|r| - 1] == ']'
    ensures forall i :: 0 < i < |r| - 1 ==> r[i] == ','
  {
    "[" + seq(if rank > 1 then rank - 1 else 0, _ => ',') + "]"
  }

  function RankSpecifiers(ranks: seq<nat>): string
  {
    if |ranks| == 0 then "" else RankSpecifier(ranks[0]) + RankSpecifiers(ranks[1..])
  }

  /** WriteTypeFullName(type): the text of a type in generated code. */
  function FullName(t: TypeSymbol): string
    decreases t, 3
  {
    match t
    case ArrayType(rank, element) => ArrayFullName(element, [rank])
    case TypeParameter(_, _, name) => QualifiedName(NamespaceOf(t), name)
    case NamedType(_, _, _, _, _, _, _, _, _) => NamedFullName(t)
  }

  /** A named type: Nullable<T> as T's text and "?", any other as its
      qualified name and its argument list. */
  function NamedFullName(t: TypeSymbol): string
    requires t.NamedType?
    decreases t, 2
  {
    if IsNullable(t) then FullName(t.typeArguments[0]) + "?"
    else QualifiedName(NamespaceOf(t), t.name) + ArgumentList(t)
  }

  /** The ranks of the array levels met so far are in `ranks`, outermost
      first; `element` is the element type of the innermost level met. */
  function ArrayFullName(element: TypeSymbol, ranks: seq<nat>): string
    decreases element, 4
  {
    match element
    case ArrayType(rank, inner) => ArrayFullName(inner, ranks + [rank])
    case _ => FullName(element) + RankSpecifiers(ranks)
  }

  /** "<a1, a2, ...>" for a generic type, nothing otherwise. */
  function ArgumentList(t: TypeSymbol): string
    requires t.NamedType?
    decreases t, 1
  {
    if |t.typeArguments| == 0 then "" else "<" + Join(ArgNames(t), ", ") + ">"
  }

  /** The texts of a named type's type arguments. */
  function ArgNames(t: TypeSymbol): (r: seq<string>)
    requires t.NamedType?
    ensures |r| == |t.typeArguments|
    ensures forall i :: 0 <= i < |r| ==> r[i] == FullName(t.typeArguments[i])
    decreases t, 0
  {
    var args := t.typeArguments;
    seq(|args|, i requires 0 <= i < |args| => FullName(args[i]))
  }

  /** The innermost element type of an array, and the ranks of its levels,
      outermost first. */
  function Innermost(t: TypeSymbol): TypeSymbol
  {
    if t.ArrayType? then Innermost(t.elementType) else t
  }

  function Ranks(t: TypeSymbol): seq<nat>
  {
    if t.ArrayType? then [t.rank] + Ranks(t.elementType) else []
  }

  lemma {:induction false} ArrayFullNameLevels(element: TypeSymbol, ranks: seq<nat>)
    ensures ArrayFullName(element, ranks) == FullName(Innermost(element)) + RankSpecifiers(ranks + Ranks(element))
  {
    if element.ArrayType? {
      var inner := element.elementType;
      assert ArrayFullName(element, ranks) == ArrayFullName(inner, ranks + [element.rank]);
      ArrayFullNameLevels(inner, ranks + [element.rank]);
      assert Innermost(element) == Innermost(inner);
      assert ranks + [element.rank] + Ranks(inner) == ranks + Ranks(element);
    } else {
      assert ArrayFullName(element, ranks) == FullName(element) + RankSpecifiers(ranks);
      assert ranks + Ranks(element) == ranks;
    }
  }

  /** An array is written as its innermost element type followed by one rank
      specifier per level, outermost level first. */
  lemma ArrayRendering(t: TypeSymbol)
    requires t.ArrayType?
    ensures FullName(t) == FullName(Innermost(t)) + RankSpecifiers(Ranks(t))
  {
    ArrayFullNameLevels(t.elementType, [t.rank]);
  }

  /** Nullable<T> is written as T's text followed by "?". */
  lemma NullableRendering(t: TypeSymbol)
    requires t.NamedType? && NamespaceOf(t) == "System" && t.name == "Nullable" && |t.typeArguments| == 1
    ensures FullName(t) == FullName(t.typeArguments[0]) + "?"
  {
    GenericNames();
    assert EqualsIgnoreCase("Nullable", "Nullable");
  }

  /** A generic type that is not Nullable is written as its qualified name
      followed by its arguments' texts between angle brackets, separated by
      ", "; a value tuple is written as ValueTuple<...>. */
  lemma GenericRendering(t: TypeSymbol)
    requires t.NamedType? && |t.typeArguments| > 0 && !IsNullable(t)
    ensures FullName(t) == QualifiedName(NamespaceOf(t), t.name) + "<" + Join(ArgNames(t), ", ") + ">"
    ensures IsValueTuple(t) ==> FullName(t) == "ValueTuple<" + Join(ArgNames(t), ", ") + ">"
  {
    var q, j := QualifiedName(NamespaceOf(t), t.name), Join(ArgNames(t), ", ");
    assert FullName(t) == NamedFullName(t);
    assert NamedFullName(t) == q + ArgumentList(t);
    assert ArgumentList(t) == "<" + j + ">";
    assert q + ("<" + j + ">") == q + "<" + j + ">";
    if IsValueTuple(t) {
      LongNameIsNoKeyword(t.name);
      assert q == t.name;
    }
  }

  /** No name with a keyword is longer than seven characters. */
  lemma LongNameIsNoKeyword(s: string)
    requires |s| > 7
    ensures s !in Keywords && SimplifyTypeName(s) == s
  {
  }

  /** A value tuple is never taken for Nullable. */
  lemma ValueTupleIsNotNullable(t: TypeSymbol)
    requires IsValueTuple(t)
    ensures !IsNullable(t)
  {
    GenericNames();
  }

  /** Every namespace text and name in a type is free of angle brackets. */
  predicate PlainNames(t: TypeSymbol)
    decreases t
  {
    && AngleFree(NamespaceOf(t)) && AngleFree(NameOf(t))
    && match t
       case ArrayType(_, element) => PlainNames(element)
       case NamedType(_, _, _, _, args, _, _, _, _) => forall i :: 0 <= i < |args| ==> PlainNames(args[i])
       case TypeParameter(_, _, _) => true
  }

  lemma SimplifyAngleFree(name: string)
    requires AngleFree(name)
    ensures AngleFree(SimplifyTypeName(name))
  {
  }

  lemma QualifiedAngleFree(ns: string, name: string)
    requires AngleFree(ns) && AngleFree(name)
    ensures AngleFree(QualifiedName(ns, name))
  {
    SimplifyAngleFree(name);
  }

  lemma {:induction false} RankSpecifiersAngleFree(ranks: seq<nat>)
    ensures AngleFree(RankSpecifiers(ranks))
  {
    if |ranks| > 0 {
      RankSpecifiersAngleFree(ranks[1..]);
      var r := RankSpecifier(ranks[0]);
      assert AngleFree(r) by {
        assert forall i :: 0 <= i < |r| ==> r[i] == '[' || r[i] == ']' || r[i] == ',';
      }
    }
  }

  lemma AngleFreeBalanced(s: string)
    requires AngleFree(s)
    ensures Balanced(s)
  {
    assert multiset(s)['<'] == 0 && multiset(s)['>'] == 0;
  }

  /** When no name in a type holds an angle bracket, its text has as many
      '<' as '>': every argument list that is opened is closed. */
  lemma {:induction false} FullNameBalanced(t: TypeSymbol)
    requires PlainNames(t)
    ensures Balanced(FullName(t))
    decreases t, 3
  {
    match t
    case ArrayType(rank, element) => ArrayFullNameBalanced(element, [rank]);
    case TypeParameter(_, _, name) =>
      QualifiedAngleFree(NamespaceOf(t), name);
      AngleFreeBalanced(FullName(t));
    case NamedType(_, _, _, _, _, _, _, _, _) => NamedFullNameBalanced(t);
  }

  lemma {:induction false} NamedFullNameBalanced(t: TypeSymbol)
    requires t.NamedType? && PlainNames(t)
    ensures Balanced(NamedFullName(t))
    decreases t, 2
  {
    if IsNullable(t) {
      FullNameBalanced(t.typeArguments[0]);
      assert multiset(FullName(t.typeArguments[0]) + "?") == multiset(FullName(t.typeArguments[0])) + multiset("?");
    } else {
      var q := QualifiedName(NamespaceOf(t), t.name);
      QualifiedAngleFree(NamespaceOf(t), t.name);
      AngleFreeBalanced(q);
      ArgumentListBalanced(t);
      assert multiset(q + ArgumentList(t)) == multiset(q) + multiset(ArgumentList(t));
    }
  }

  lemma {:induction false} ArgumentListBalanced(t: TypeSymbol)
    requires t.NamedType? && PlainNames(t)
    ensures Balanced(ArgumentList(t))
    decreases t, 1
  {
    if |t.typeArguments| > 0 {
      var names := ArgNames(t);
      forall k | 0 <= k < |names|
        ensures Balanced(names[k])
      {
        FullNameBalanced(t.typeArguments[k]);
      }
      AngleFreeBalanced(", ");
      JoinBalanced(names, ", ");
      var j := Join(names, ", ");
      assert multiset("<" + j + ">") == multiset("<") + multiset(j) + multiset(">");
    }
  }

  lemma {:induction false} ArrayFullNameBalanced(element: TypeSymbol, ranks: seq<nat>)
    requires PlainNames(element)
    ensures Balanced(ArrayFullName(element, ranks))
    decreases element, 4
  {
    match element
    case ArrayType(rank, inner) => ArrayFullNameBalanced(inner, ranks + [rank]);
    case _ =>
      FullNameBalanced(element);
      RankSpecifiersAngleFree(ranks);
      AngleFreeBalanced(RankSpecifiers(ranks));
      assert multiset(FullName(element) + RankSpecifiers(ranks)) == multiset(FullName(element)) + multiset(RankSpecifiers(ranks));
  }

  /** A plain class, for the examples below. */
  function PlainClass(ns: Option<NamespaceSymbol>, owner: Option<TypeSymbol>, name: string): TypeSymbol
  {
    NamedType(ClassKind, ns, owner, name, [], false, None, [], [])
  }

  /** GetNamespace looks at one containing type only: for class C nested in
      B nested in A, all in namespace N, the text is "N.B". */
  lemma OneContainingTypeLevel()
    ensures var n := Some(NamespaceSymbol("N", false, Some(NamespaceSymbol("", true, None))));
      var b := PlainClass(n, Some(PlainClass(n, None, "A")), "B");
      NamespaceOf(PlainClass(n, Some(b), "C")) == "N.B"
  {
    var n := Some(NamespaceSymbol("N", false, Some(NamespaceSymbol("", true, None))));
    assert Chain(n) == [n.value];
    assert PrependAll([n.value], "B") == "N" + "." + "B";
  }

  /** GetFullName: a type parameter is written as its bare name; any other
      type as WriteTypeFullName writes it. */
  function GetFullName(t: TypeSymbol): (r: string)
    ensures t.TypeParameter? ==> r == t.name
    ensures !t.TypeParameter? ==> r == FullName(t)
  {
    if t.TypeParameter? then t.name else FullName(t)
  }

  // ------------------------------------------------------------- signatures

  /** A parameter in a signature: "out " or "ref " by its ref kind, then its
      type's full name. */
  function ParameterText(p: ParameterSymbol): string
  {
    (if p.refKind == Out then "out " else if p.refKind == Ref then "ref " else "") + GetFullName(p.parameterType)
  }

  function ParameterTexts(ps: seq<ParameterSymbol>): (r: seq<string>)
    ensures |r| == |ps| && forall i :: 0 <= i < |ps| ==> r[i] == ParameterText(ps[i])
  {
    seq(|ps|, i requires 0 <= i < |ps| => ParameterText(ps[i]))
  }

  /** "<t1, t2, ...>" when there are type arguments, nothing otherwise. */
  function TypeArgumentList(typeArguments: seq<string>): string
  {
    if |typeArguments| == 0 then "" else "<" + Join(typeArguments, ", ") + ">"
  }

  /** The signature text of a method: return type, name, type arguments in
      angle brackets when there are any, and the parameters in parentheses,
      each list separated by ", ". */
  function Signature(m: MethodSymbol): string
  {
    GetFullName(m.returnType) + " " + m.name + TypeArgumentList(m.typeArguments)
    + "(" + Join(ParameterTexts(m.parameters), ", ") + ")"
  }

  /** GetSignature appends piece by piece, writing a separator before every
      list element but the first. */
  method GetSignature(m: MethodSymbol) returns (r: string)
    ensures r == Signature(m)
  {
    r := GetFullName(m.returnType) + " " + m.name;
    if |m.typeArguments| != 0 {
      r := r + "<";
      var list := AppendSeparated(r, m.typeArguments);
      r := list + ">";
    }
    r := r + "(";
    var list := AppendSeparated(r, ParameterTexts(m.parameters));
    r := list + ")";
  }

  /** The two list loops of GetSignature: append the items with ", " before
      every item but the first. */
  method AppendSeparated(prefix: string, items: seq<string>) returns (r: string)
    ensures r == prefix + Join(items, ", ")
  {
    r := prefix;
    for i := 0 to |items|
      invariant r == prefix + Join(items[..i], ", ")
    {
      ghost var done := items[..i];
      JoinSnoc(done, items[i], ", ");
      assert items[..i + 1] == done + [items[i]];
      if i > 0 {
        assert done != [];
        ConcatRegroup(prefix, Join(done, ", "), ", ", items[i]);
        r := r + ", ";
      } else {
        assert done == [];
      }
      r := r + items[i];
    }
    assert items[..|items|] == items;
  }

  // ---------------------------------------------------------- assignability

  function BaseTypeOf(t: TypeSymbol): Option<TypeSymbol>
  {
    if t.NamedType? then t.baseType else None
  }

  function InterfacesOf(t: TypeSymbol): seq<TypeSymbol>
  {
    if t.NamedType? then t.interfaces else []
  }

  /** The type itself and its base types, nearest first. */
  function BaseChain(t: TypeSymbol): (r: seq<TypeSymbol>)
    ensures |r| > 0 && r[0] == t
  {
    match t
    case NamedType(_, _, _, _, _, _, Some(b), _, _) => [t] + BaseChain(b)
    case _ => [t]
  }

  /** IsAssignableFrom's answer: the expected type is object, or one of the
      directly declared interfaces matches it, or the type or one of its base
      types does. */
  predicate AssignableFrom(t: TypeSymbol, e: ExpectedType)
    requires WellFormedExpected(e)
  {
    || e == ObjectType
    || (exists i :: 0 <= i < |InterfacesOf(t)| && IsMatch(InterfacesOf(t)[i], e))
    || (exists k :: 0 <= k < |BaseChain(t)| && IsMatch(BaseChain(t)[k], e))
  }

  /** IsAssignableFrom: scans the declared interfaces, then walks the base
      type chain. */
  method IsAssignableFrom(t: TypeSymbol, e: ExpectedType) returns (r: bool)
    requires WellFormedExpected(e)
    ensures r == AssignableFrom(t, e)
  {
    if e == ObjectType {
      assert AssignableFrom(t, e);
      return true;
    }
    var viaInterface := AnyInterfaceMatches(InterfacesOf(t), e);
    var viaBase := false;
    if !viaInterface {
      viaBase := BaseChainMatches(t, e);
      assert viaBase <==> exists k :: 0 <= k < |BaseChain(t)| && IsMatch(BaseChain(t)[k], e);
    }
    r := viaInterface || viaBase;
  }

  /** The loop over the declared interfaces. */
  method AnyInterfaceMatches(interfaces: seq<TypeSymbol>, e: ExpectedType) returns (r: bool)
    requires WellFormedExpected(e)
    ensures r <==> exists i :: 0 <= i < |interfaces| && IsMatch(interfaces[i], e)
  {
    for i := 0 to |interfaces|
      invariant forall j :: 0 <= j < i ==> !IsMatch(interfaces[j], e)
    {
      if IsMatch(interfaces[i], e) {
        return true;
      }
    }
    return false;
  }

  /** The walk along BaseType from the type itself. */
  method BaseChainMatches(t: TypeSymbol, e: ExpectedType) returns (r: bool)
    requires WellFormedExpected(e)
    ensures r <==> exists k :: 0 <= k < |BaseChain(t)| && IsMatch(BaseChain(t)[k], e)
  {
    ghost var chain := BaseChain(t);
    ghost var n: nat := 0;
    var test := Some(t);
    while test.Some?
      invariant test.Some? ==> n < |chain| && chain[n..] == BaseChain(test.value)
      invariant test.None? ==> n == |chain|
      invariant forall k :: 0 <= k < n ==> !IsMatch(chain[k], e)
      decreases |chain| - n
    {
      var current := test.value;
      BaseChainStep(current);
      assert chain[n] == current;
      if IsMatch(current, e) {
        return true;
      }
      test := BaseTypeOf(current);
      assert chain[n + 1..] == chain[n..][1..];
      n := n + 1;
    }
    return false;
  }

  /** One step along BaseType. */
  lemma BaseChainStep(t: TypeSymbol)
    ensures BaseTypeOf(t).Some? ==> BaseChain(t) == [t] + BaseChain(BaseTypeOf(t).value)
    ensures BaseTypeOf(t).None? ==> BaseChain(t) == [t]
  {
  }

  /** Only the interfaces a type declares itself are looked at, not those of
      its base types: an interface implemented through a base class is not
      seen unless the base class itself (or a type further down the chain)
      matches. The base class alone is assignable, the derived type is not. */
  lemma AssignableThroughBaseOnly(t: TypeSymbol, b: TypeSymbol, i: TypeSymbol, e: ExpectedType)
    requires WellFormedExpected(e) && e != ObjectType
    requires t.NamedType? && t.interfaces == [] && t.baseType == Some(b)
    requires b.NamedType? && i in b.interfaces && IsMatch(i, e)
    requires forall k :: 0 <= k < |BaseChain(t)| ==> !IsMatch(BaseChain(t)[k], e)
    ensures AssignableFrom(b, e)
    ensures !AssignableFrom(t, e)
  {
    var j :| 0 <= j < |b.interfaces| && b.interfaces[j] == i;
    assert IsMatch(InterfacesOf(b)[j], e);
    assert InterfacesOf(t) == [];
  }

  // ------------------------------------------------------------ interfaces

  /** ExpandInterface: the type itself when it is an interface, and all the
      interfaces it implements. */
  method ExpandInterface(t: TypeSymbol) returns (r: set<TypeSymbol>)
    ensures r == (if IsInterface(t) then {t} else {}) + set i | i in AllInterfacesOf(t)
  {
    r := {};
    if IsInterface(t) {
      r := r + {t};
    }
    var all := AllInterfacesOf(t);
    for k := 0 to |all|
      invariant r == (if IsInterface(t) then {t} else {}) + set i | i in all[..k]
    {
      assert all[..k + 1] == all[..k] + [all[k]];
      r := r + {all[k]};
    }
    assert all[..|all|] == all;
  }

  function AllInterfacesOf(t: TypeSymbol): seq<TypeSymbol>
  {
    if t.NamedType? then t.allInterfaces else []
  }

  // --------------------------------------------------------------- members

  predicate IsInstanceMethod(m: Member)
  {
    m.MethodMember? && !m.symbol.isStatic && m.symbol.methodKind == Ordinary
  }

  /** The ordinary instance methods among `members`, in their order. */
  function InstanceMethods(members: seq<Member>): (r: seq<MethodSymbol>)
    ensures |r| <= |members|
  {
    if |members| == 0 then []
    else (if IsInstanceMethod(members[0]) then [members[0].symbol] else []) + InstanceMethods(members[1..])
  }

  /** Filtering distributes over concatenation: the selected methods keep the
      order of the members. */
  lemma {:induction false} InstanceMethodsAppend(a: seq<Member>, b: seq<Member>)
    ensures InstanceMethods(a + b) == InstanceMethods(a) + InstanceMethods(b)
  {
    if |a| > 0 {
      assert (a + b)[0] == a[0] && (a + b)[1..] == a[1..] + b;
      InstanceMethodsAppend(a[1..], b);
    } else {
      assert a + b == b;
    }
  }

  /** A method is selected exactly when it is an ordinary, non-static method
      among the members. */
  lemma {:induction false} InstanceMethodsMembership(members: seq<Member>, m: MethodSymbol)
    ensures m in InstanceMethods(members) <==> MethodMember(m) in members && !m.isStatic && m.methodKind == Ordinary
  {
    if |members| > 0 {
      InstanceMethodsMembership(members[1..], m);
      assert members == [members[0]] + members[1..];
    }
  }

  /** GetInstanceMethods: yields the members that are ordinary instance
      methods, one by one. */
  method GetInstanceMethods(members: seq<Member>) returns (r: seq<MethodSymbol>)
    ensures r == InstanceMethods(members)
  {
    r := [];
    for k := 0 to |members|
      invariant r == InstanceMethods(members[..k])
    {
      assert members[..k + 1] == members[..k] + [members[k]];
      InstanceMethodsAppend(members[..k], [members[k]]);
      assert [members[k]][1..] == [];
      if IsInstanceMethod(members[k]) {
        r := r + [members[k].symbol];
      }
    }
    assert members[..|members|] == members;
  }

  // ------------------------------------------------------------- attributes

  /** GetCustomAttribute: the first attribute whose class has the given full
      name, compared ordinally; none when no attribute has it. */
  method GetCustomAttribute(attributes: seq<AttributeData>, attributeTypeFullName: string) returns (r: Option<AttributeData>)
    ensures r.Some? ==> exists k :: 0 <= k < |attributes| && attributes[k] == r.value
                          && GetFullName(r.value.attributeClass) == attributeTypeFullName
                          && forall j :: 0 <= j < k ==> GetFullName(attributes[j].attributeClass) != attributeTypeFullName
    ensures r.None? <==> forall k :: 0 <= k < |attributes| ==> GetFullName(attributes[k].attributeClass) != attributeTypeFullName
  {
    for k := 0 to |attributes|
      invariant forall j :: 0 <= j < k ==> GetFullName(attributes[j].attributeClass) != attributeTypeFullName
    {
      var fullName := GetFullName(attributes[k].attributeClass);
      if attributeTypeFullName == fullName {
        return Some(attributes[k]);
      }
    }
    return None;
  }
}
