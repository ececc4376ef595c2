/** The generated source file of one partial class: the class's
    declaration headers with their braces, the using block of the imports and
    the auto-generated comment, assembled as CompilationUnit does. */
module CompilationUnits {
  import opened Strings
  import opened OrdinalSort

  // ---------------------------------------------------------- code builder

  /** One line of generated code at an indentation level. */
  datatype Line = Line(indent: nat, text: string)

  /** The text written per indentation level. */
  const IndentUnit := "    "

  function Indentation(level: nat): string
  {
    if level == 0 then "" else IndentUnit + Indentation(level - 1)
  }

  /** The text of lines, each indented, each ended by the newline. */
  function Render(lines: seq<Line>, newLine: string): string
  {
    if |lines| == 0 then ""
    else Indentation(lines[0].indent) + lines[0].text + newLine + Render(lines[1..], newLine)
  }

  /** The code builder behind CompilationUnit.Output: the lines appended so
      far, the current indentation level, and the text inserted at the front
      of its buffer. */
  class CodeBuilder {
    var lines: seq<Line>
    var indent: nat
    var front: string
    const newLine: string

    constructor(newLine: string)
      ensures lines == [] && indent == 0 && front == "" && this.newLine == newLine
    {
      lines := [];
      indent := 0;
      front := "";
      this.newLine := newLine;
    }

    /** The whole buffer. */
    function Text(): string
      reads this
    {
      front + Render(lines, newLine)
    }

    method AppendLine(text: string)
      modifies this
      ensures lines == old(lines) + [Line(old(indent), text)]
      ensures indent == old(indent) && front == old(front)
    {
      lines := lines + [Line(indent, text)];
    }

    /** Indent, with the release of the level it returns as Outdent. */
    method Indent()
      modifies this
      ensures indent == old(indent) + 1
      ensures lines == old(lines) && front == old(front)
    {
      indent := indent + 1;
    }

    method Outdent()
      requires indent > 0
      modifies this
      ensures indent == old(indent) - 1
      ensures lines == old(lines) && front == old(front)
    {
      indent := indent - 1;
    }

    /** StringBuilder.Insert(0, s) on the buffer. */
    method InsertAtFront(s: string)
      modifies this
      ensures front == s + old(front)
      ensures lines == old(lines) && indent == old(indent)
    {
      front := s + front;
    }
  }

  // ---------------------------------------------------------- declarations

  /** The syntax nodes above a class declaration. */
  datatype AncestorNode = NamespaceDeclaration(name: string) | ClassDeclaration(identifier: string) | OtherNode

  /** A class declaration: its identifier and its ancestors, innermost first. */
  datatype ClassNode = ClassNode(identifier: string, ancestors: seq<AncestorNode>)

  function Header(a: AncestorNode): seq<string>
  {
    match a
    case NamespaceDeclaration(name) => ["namespace " + name]
    case ClassDeclaration(id) => ["partial class " + id]
    case OtherNode => []
  }

  /** The headers of the ancestors, outermost first. */
  function Headers(ancestors: seq<AncestorNode>): seq<string>
  {
    if |ancestors| == 0 then []
    else Header(ancestors[|ancestors| - 1]) + Headers(ancestors[..|ancestors| - 1])
  }

  /** The declarations the generated class must be nested in, outermost
      first, ending with the class itself. */
  function Owners(node: ClassNode): seq<string>
  {
    Headers(node.ancestors) + ["partial class " + node.identifier]
  }

  /** The lines that open the owners from level `base`: per owner, its
      header and then "{", both at the owner's level. */
  function OpenLines(owners: seq<string>, base: nat): (r: seq<Line>)
    ensures |r| == 2 * |owners|
    ensures forall i :: 0 <= i < |owners| ==> r[2 * i] == Line(base + i, owners[i]) && r[2 * i + 1] == Line(base + i, "{")
  {
    seq(2 * |owners|, j requires 0 <= j < 2 * |owners| => Line(base + j / 2, if j % 2 == 0 then owners[j / 2] else "{"))
  }

  lemma OpenLinesSnoc(owners: seq<string>, i: nat, base: nat)
    requires i < |owners|
    ensures OpenLines(owners[..i + 1], base) == OpenLines(owners[..i], base) + [Line(base + i, owners[i]), Line(base + i, "{")]
  {
    var a, b := OpenLines(owners[..i + 1], base), OpenLines(owners[..i], base) + [Line(base + i, owners[i]), Line(base + i, "{")];
    assert |a| == |b|;
    forall j | 0 <= j < |a| ensures a[j] == b[j] {
      if j < 2 * i {
        assert owners[..i + 1][j / 2] == owners[..i][j / 2];
      }
    }
  }

  /** The lines that close `levels` levels: "}" from the innermost level
      down to level 0. */
  function CloseLines(levels: nat): (r: seq<Line>)
    ensures |r| == levels && forall j :: 0 <= j < levels ==> r[j] == Line(levels - 1 - j, "}")
  {
    seq(levels, j requires 0 <= j < levels => Line(levels - 1 - j, "}"))
  }

  /** Headers of a longer ancestor list: the outer part's headers come
      first. */
  lemma {:induction false} HeadersAppend(inner: seq<AncestorNode>, outer: seq<AncestorNode>)
    ensures Headers(inner + outer) == Headers(outer) + Headers(inner)
    decreases |outer|
  {
    if |outer| == 0 {
      assert inner + outer == inner;
    } else {
      var last := outer[|outer| - 1];
      assert (inner + outer)[..|inner + outer| - 1] == inner + outer[..|outer| - 1];
      HeadersAppend(inner, outer[..|outer| - 1]);
    }
  }

  /** Ancestors that are neither namespaces nor classes leave no header. */
  lemma OtherAncestorsSkipped(inner: seq<AncestorNode>, outer: seq<AncestorNode>)
    ensures Headers(inner + [OtherNode] + outer) == Headers(inner + outer)
  {
    var withOther := inner + [OtherNode];
    HeadersAppend(withOther, outer);
    HeadersAppend(inner, [OtherNode]);
    HeadersAppend(inner, outer);
    assert Headers([OtherNode]) == Header(OtherNode) + Headers([]);
    assert Headers(withOther) == Headers(inner);
  }

  /** The header text of a namespace or class ancestor. */
  function HeaderText(a: AncestorNode): string
    requires !a.OtherNode?
  {
    Header(a)[0]
  }

  /** With only namespaces and classes above it, the owners are every
      ancestor's header, outermost first, and then the class itself. */
  lemma {:induction false} OwnersOutermostFirst(node: ClassNode)
    requires forall k :: 0 <= k < |node.ancestors| ==> !node.ancestors[k].OtherNode?
    ensures |Owners(node)| == |node.ancestors| + 1
    ensures forall i :: 0 <= i < |node.ancestors| ==> Owners(node)[i] == HeaderText(node.ancestors[|node.ancestors| - 1 - i])
    ensures Owners(node)[|node.ancestors|] == "partial class " + node.identifier
  {
    HeadersOutermostFirst(node.ancestors);
  }

  lemma {:induction false} HeadersOutermostFirst(ancestors: seq<AncestorNode>)
    requires forall k :: 0 <= k < |ancestors| ==> !ancestors[k].OtherNode?
    ensures |Headers(ancestors)| == |ancestors|
    ensures forall i :: 0 <= i < |ancestors| ==> Headers(ancestors)[i] == HeaderText(ancestors[|ancestors| - 1 - i])
  {
    if |ancestors| > 0 {
      var init := ancestors[..|ancestors| - 1];
      HeadersOutermostFirst(init);
      assert |Header(ancestors[|ancestors| - 1])| == 1;
      forall i | 0 < i < |ancestors|
        ensures Headers(ancestors)[i] == HeaderText(ancestors[|ancestors| - 1 - i])
      {
        assert Headers(ancestors)[i] == Headers(init)[i - 1];
        assert init[|init| - 1 - (i - 1)] == ancestors[|ancestors| - 1 - i];
      }
    }
  }

  /** The number of lines whose text is `text`. */
  function CountText(lines: seq<Line>, text: string): (n: nat)
    ensures n <= |lines|
  {
    if |lines| == 0 then 0 else (if lines[0].text == text then 1 else 0) + CountText(lines[1..], text)
  }

  lemma {:induction false} CountTextAppend(a: seq<Line>, b: seq<Line>, text: string)
    ensures CountText(a + b, text) == CountText(a, text) + CountText(b, text)
  {
    if |a| > 0 {
      assert (a + b)[1..] == a[1..] + b;
      CountTextAppend(a[1..], b, text);
    } else {
      assert a + b == b;
    }
  }

  lemma {:induction false} OpenLinesCount(owners: seq<string>, base: nat)
    requires "{" !in owners && "}" !in owners
    ensures CountText(OpenLines(owners, base), "{") == |owners|
    ensures CountText(OpenLines(owners, base), "}") == 0
  {
    if |owners| > 0 {
      var n := |owners| - 1;
      OpenLinesSnoc(owners, n, base);
      assert owners[..n + 1] == owners;
      OpenLinesCount(owners[..n], base);
      CountTextAppend(OpenLines(owners[..n], base), [Line(base + n, owners[n]), Line(base + n, "{")], "{");
      CountTextAppend(OpenLines(owners[..n], base), [Line(base + n, owners[n]), Line(base + n, "{")], "}");
      assert owners[n] in owners;
    } else {
      assert OpenLines(owners, base) == [];
    }
  }

  lemma {:induction false} CloseLinesCount(levels: nat)
    ensures CountText(CloseLines(levels), "}") == levels
    ensures CountText(CloseLines(levels), "{") == 0
  {
    if levels > 0 {
      CloseLinesCount(levels - 1);
      assert CloseLines(levels) == [Line(levels - 1, "}")] + CloseLines(levels - 1);
      assert CloseLines(levels)[1..] == CloseLines(levels - 1);
    } else {
      assert CloseLines(levels) == [];
    }
  }

  /** The owners' own lines are never a brace: each starts with "namespace "
      or "partial class ". */
  lemma OwnersAreNotBraces(node: ClassNode)
    ensures "{" !in Owners(node) && "}" !in Owners(node)
  {
    HeadersNotBraces(node.ancestors);
    var self := "partial class " + node.identifier;
    assert self[0] == 'p';
  }

  lemma {:induction false} HeadersNotBraces(ancestors: seq<AncestorNode>)
    ensures "{" !in Headers(ancestors) && "}" !in Headers(ancestors)
  {
    if |ancestors| > 0 {
      var a := ancestors[|ancestors| - 1];
      HeadersNotBraces(ancestors[..|ancestors| - 1]);
      match a
      case NamespaceDeclaration(name) => assert ("namespace " + name)[0] == 'n';
      case ClassDeclaration(id) => assert ("partial class " + id)[0] == 'p';
      case OtherNode =>
    }
  }

  /** The braces balance: the lines a class's declarations open and the lines
      GetSourceText closes them with hold as many "{" as "}", and the j-th
      "}" is at the level of the "{" of the (n-1-j)-th owner. */
  lemma BracesBalance(node: ClassNode)
    ensures var n := |Owners(node)|;
      var body := OpenLines(Owners(node), 0) + CloseLines(n);
      && CountText(body, "{") == n && CountText(body, "}") == n
      && forall j :: 0 <= j < n ==> CloseLines(n)[j].indent == OpenLines(Owners(node), 0)[2 * (n - 1 - j) + 1].indent
  {
    var n := |Owners(node)|;
    OwnersAreNotBraces(node);
    OpenLinesCount(Owners(node), 0);
    CloseLinesCount(n);
    CountTextAppend(OpenLines(Owners(node), 0), CloseLines(n), "{");
    CountTextAppend(OpenLines(Owners(node), 0), CloseLines(n), "}");
  }

  /** The first loop of DeclareClass: each namespace or class ancestor's
      header is inserted at the front, then the class's own header is added
      at the end. */
  method CollectOwners(node: ClassNode) returns (owners: seq<string>)
    ensures owners == Owners(node)
  {
    owners := [];
    for k := 0 to |node.ancestors|
      invariant owners == Headers(node.ancestors[..k])
    {
      assert node.ancestors[..k + 1][..k] == node.ancestors[..k];
      match node.ancestors[k]
      case NamespaceDeclaration(name) =>
        owners := ["namespace " + name] + owners;
      case ClassDeclaration(id) =>
        owners := ["partial class " + id] + owners;
      case OtherNode =>
    }
    assert node.ancestors[..|node.ancestors|] == node.ancestors;
    owners := owners + ["partial class " + node.identifier];
  }

  /** A compilation unit: the builder it writes to and the number of
      indentation levels its declarations opened. */
  class CompilationUnit {
    const output: CodeBuilder
    var indentation: nat

    ghost predicate Valid()
      reads this, output
    {
      output.indent == indentation
    }

    /** Opens the class's declarations in a fresh builder. */
    constructor(node: ClassNode, newLine: string)
      ensures fresh(output) && output.newLine == newLine && output.front == ""
      ensures output.lines == OpenLines(Owners(node), 0)
      ensures indentation == |Owners(node)| && Valid()
    {
      output := new CodeBuilder(newLine);
      indentation := 0;
      new;
      DeclareClass(node);
      assert [] + OpenLines(Owners(node), 0) == OpenLines(Owners(node), 0);
    }

    /** Gathers the owners from the ancestors, then writes each owner's
      header and opening brace and opens a level for it. */
    method DeclareClass(node: ClassNode)
      requires Valid()
      modifies this, output
      ensures output.lines == old(output.lines) + OpenLines(Owners(node), old(indentation))
      ensures indentation == old(indentation) + |Owners(node)| && Valid()
      ensures output.front == old(output.front)
    {
      var owners := CollectOwners(node);
      ghost var base := indentation;
      for i := 0 to |owners|
        invariant output.lines == old(output.lines) + OpenLines(owners[..i], base)
        invariant indentation == base + i && Valid()
        invariant output.front == old(output.front)
      {
        OpenLinesSnoc(owners, i, base);
        ghost var before := output.lines;
        output.AppendLine(owners[i]);
        assert output.lines == before + [Line(base + i, owners[i])];
        output.AppendLine("{");
        assert output.lines == before + [Line(base + i, owners[i])] + [Line(base + i, "{")];
        output.Indent();
        indentation := indentation + 1;
      }
      assert owners[..|owners|] == owners;
    }

    /** Closes every level that was opened, then puts the using block and
      the comment in front of the text. */
    method GetSourceText(imports: seq<string>) returns (text: string)
      requires Valid()
      modifies output
      ensures output.lines == old(output.lines) + CloseLines(indentation)
      ensures output.indent == 0
      ensures output.front == Comment(output.newLine) + UsingBlock(SortedDistinct(imports), output.newLine)
                              + output.newLine + old(output.front)
      ensures text == output.Text()
    {
      for i := 0 to indentation
        invariant output.indent == indentation - i
        invariant output.lines == old(output.lines) + CloseLines(indentation)[..i]
        invariant output.front == old(output.front)
      {
        assert CloseLines(indentation)[..i + 1] == CloseLines(indentation)[..i] + [Line(indentation - 1 - i, "}")];
        output.Outdent();
        output.AppendLine("}");
      }
      assert CloseLines(indentation)[..indentation] == CloseLines(indentation);
      InsertImports(output, imports);
      InsertComment(output);
      text := output.Text();
    }
  }

  // --------------------------------------------------------------- imports

  function UsingLine(name: string, newLine: string): string
  {
    "using " + name + ";" + newLine
  }

  /** One using line per name, in order. */
  function UsingBlock(imports: seq<string>, newLine: string): string
  {
    if |imports| == 0 then "" else UsingLine(imports[0], newLine) + UsingBlock(imports[1..], newLine)
  }

  /** Inserts a newline, then for each name in descending ordinal order
      that was not seen before, its using line, each at the front: the
      distinct imports end up in ascending order above the newline. */
  method InsertImports(text: CodeBuilder, imports: seq<string>)
    modifies text
    ensures text.front == UsingBlock(SortedDistinct(imports), text.newLine) + text.newLine + old(text.front)
    ensures text.lines == old(text.lines) && text.indent == old(text.indent)
  {
    text.InsertAtFront(text.newLine);
    var sorted := SortDescending(imports);
    InsertUsingLines(text, sorted);
    PrependedIsSortedDistinct(sorted, imports);
    assert text.front == UsingBlock(SortedDistinct(imports), text.newLine) + (text.newLine + old(text.front));
  }

  /** The loop of InsertImports: each name not met before goes in front. */
  method InsertUsingLines(text: CodeBuilder, sorted: seq<string>)
    modifies text
    ensures text.front == UsingBlock(Prepended(sorted, |sorted|), text.newLine) + old(text.front)
    ensures text.lines == old(text.lines) && text.indent == old(text.indent)
  {
    var distinct: set<string> := {};
    ghost var below := text.front;
    for k := 0 to |sorted|
      invariant forall y :: y in distinct <==> y in sorted[..k]
      invariant text.front == UsingBlock(Prepended(sorted, k), text.newLine) + below
      invariant text.lines == old(text.lines) && text.indent == old(text.indent)
    {
      var name := sorted[k];
      TakeStep(sorted, k);
      if name !in distinct {
        assert Prepended(sorted, k + 1) == [name] + Prepended(sorted, k);
        ghost var block := UsingBlock(Prepended(sorted, k), text.newLine);
        UsingBlockCons(name, Prepended(sorted, k), text.newLine);
        assert UsingLine(name, text.newLine) + (block + below) == (UsingLine(name, text.newLine) + block) + below;
        distinct := distinct + {name};
        text.InsertAtFront(UsingLine(name, text.newLine));
      } else {
        assert Prepended(sorted, k + 1) == Prepended(sorted, k);
      }
    }
  }

  /** The distinct names among the first k of s, each placed in front when
      first met: the using lines InsertImports has put in front after
      walking them. */
  ghost function Prepended(s: seq<string>, k: nat): seq<string>
    requires k <= |s|
  {
    if k == 0 then []
    else
      var rest := Prepended(s, k - 1);
      if s[k - 1] in s[..k - 1] then rest else [s[k - 1]] + rest
  }

  /** One more element walked. */
  lemma TakeStep(s: seq<string>, k: nat)
    requires k < |s|
    ensures forall y :: y in s[..k + 1] <==> y in s[..k] || y == s[k]
  {
    assert s[..k + 1] == s[..k] + [s[k]];
  }

  lemma UsingBlockCons(name: string, rest: seq<string>, newLine: string)
    ensures UsingBlock([name] + rest, newLine) == UsingLine(name, newLine) + UsingBlock(rest, newLine)
  {
    assert ([name] + rest)[1..] == rest;
  }

  lemma {:induction false} PrependedMembers(s: seq<string>, k: nat)
    requires k <= |s|
    ensures forall y :: y in Prepended(s, k) <==> y in s[..k]
  {
    if k > 0 {
      PrependedMembers(s, k - 1);
      TakeStep(s, k - 1);
    }
  }

  /** Walking names in descending order, each new name is below all the
      names met before it, so the prepended list ascends. */
  lemma {:induction false} PrependedAscending(s: seq<string>, k: nat)
    requires Descending(s) && k <= |s|
    ensures StrictlyAscending(Prepended(s, k))
  {
    if k > 0 {
      var n := k - 1;
      PrependedAscending(s, n);
      if s[n] !in s[..n] {
        var rest := Prepended(s, n);
        PrependedMembers(s, n);
        forall j | 0 <= j < |rest| ensures OrdinalLess(s[n], rest[j]) {
          assert rest[j] in s[..n];
          var m :| 0 <= m < n && s[..n][m] == rest[j];
          assert !OrdinalLess(s[m], s[n]);
          OrdinalTotal(s[n], rest[j]);
        }
        AscendingCons(s[n], rest);
      }
    }
  }

  /** After the walk over the descending sort, the prepended names are the
      distinct imports in ascending order. */
  lemma PrependedIsSortedDistinct(sorted: seq<string>, imports: seq<string>)
    requires Descending(sorted) && multiset(sorted) == multiset(imports)
    ensures Prepended(sorted, |sorted|) == SortedDistinct(imports)
  {
    var added := Prepended(sorted, |sorted|);
    PrependedMembers(sorted, |sorted|);
    PrependedAscending(sorted, |sorted|);
    assert sorted[..|sorted|] == sorted;
    assert SameElements(added, SortedDistinct(imports)) by {
      forall y ensures y in added <==> y in SortedDistinct(imports) {
        assert y in sorted <==> y in multiset(sorted);
        assert y in imports <==> y in multiset(imports);
      }
    }
    AscendingUnique(added, SortedDistinct(imports));
  }

  // --------------------------------------------------------------- comment

  /** "// " and 78 dashes. */
  const Rule := "// " + DashRun + DashRun + DashRun + DashRun + DashRun + DashRun
  const DashRun := "-------------"
  const AutoGeneratedOpen := "// <auto-generated>"
  const GeneratedByTool := GeneratedPart1 + GeneratedPart2
  const GeneratedPart1 := "//     This code was "
  const GeneratedPart2 := "generated by a tool."
  const EmptyComment := "//"
  const ChangesMayCause := ChangesPart1 + ChangesPart2 + ChangesPart3
  const ChangesPart1 := "//     Changes to this "
  const ChangesPart2 := "file may cause incorrect "
  const ChangesPart3 := "behavior and will be lost if"
  const CodeRegenerated := "//     the code is regenerated."
  const AutoGeneratedClose := "// </auto-generated>"

  /** The lines of the auto-generated comment; the two empty lines end it with
      a blank line. */
  const CommentLines: seq<string> :=
    [Rule, AutoGeneratedOpen, GeneratedByTool, EmptyComment, ChangesMayCause, CodeRegenerated, AutoGeneratedClose, Rule, "", ""]

  /** The comment as written in the source file, with its line endings. */
  function CommentLiteral(lineEnding: string): string
  {
    Join(CommentLines, lineEnding)
  }

  /** The comment with the platform's newline. */
  function Comment(newLine: string): string
  {
    Join(CommentLines, newLine)
  }

  lemma NoLineBreak(line: string)
    requires '\r' !in line && '\n' !in line
    ensures Disjoint(line, "\r\n")
  {
  }

  lemma RulePlain() ensures Disjoint(Rule, "\r\n")
  {
    var nl := "\r\n";
    NoLineBreak("// ");
    NoLineBreak(DashRun);
    DisjointConcat("// ", DashRun, nl);
    DisjointConcat("// " + DashRun, DashRun, nl);
    DisjointConcat("// " + DashRun + DashRun, DashRun, nl);
    DisjointConcat("// " + DashRun + DashRun + DashRun, DashRun, nl);
    DisjointConcat("// " + DashRun + DashRun + DashRun + DashRun, DashRun, nl);
    DisjointConcat("// " + DashRun + DashRun + DashRun + DashRun + DashRun, DashRun, nl);
  }
  lemma AutoGeneratedOpenPlain() ensures Disjoint(AutoGeneratedOpen, "\r\n") { NoLineBreak(AutoGeneratedOpen); }
  lemma GeneratedByToolPlain() ensures Disjoint(GeneratedByTool, "\r\n")
  {
    GeneratedPart1Plain();
    GeneratedPart2Plain();
    DisjointConcat(GeneratedPart1, GeneratedPart2, "\r\n");
  }
  lemma GeneratedPart1Plain() ensures Disjoint(GeneratedPart1, "\r\n") { NoLineBreak(GeneratedPart1); }
  lemma GeneratedPart2Plain() ensures Disjoint(GeneratedPart2, "\r\n") { NoLineBreak(GeneratedPart2); }
  lemma EmptyCommentPlain() ensures Disjoint(EmptyComment, "\r\n") { NoLineBreak(EmptyComment); }
  lemma ChangesMayCausePlain() ensures Disjoint(ChangesMayCause, "\r\n")
  {
    ChangesPart1Plain();
    ChangesPart2Plain();
    ChangesPart3Plain();
    DisjointConcat(ChangesPart1, ChangesPart2, "\r\n");
    DisjointConcat(ChangesPart1 + ChangesPart2, ChangesPart3, "\r\n");
  }
  lemma ChangesPart1Plain() ensures Disjoint(ChangesPart1, "\r\n") { NoLineBreak(ChangesPart1); }
  lemma ChangesPart2Plain() ensures Disjoint(ChangesPart2, "\r\n") { NoLineBreak(ChangesPart2); }
  lemma ChangesPart3Plain() ensures Disjoint(ChangesPart3, "\r\n") { NoLineBreak(ChangesPart3); }
  lemma CodeRegeneratedPlain() ensures Disjoint(CodeRegenerated, "\r\n") { NoLineBreak(CodeRegenerated); }
  lemma AutoGeneratedClosePlain() ensures Disjoint(AutoGeneratedClose, "\r\n") { NoLineBreak(AutoGeneratedClose); }

  /** No comment line holds a line break. */
  lemma CommentLinesPlain()
    ensures forall k :: 0 <= k < |CommentLines| ==> Disjoint(CommentLines[k], "\r\n")
  {
    RulePlain();
    AutoGeneratedOpenPlain();
    GeneratedByToolPlain();
    EmptyCommentPlain();
    ChangesMayCausePlain();
    CodeRegeneratedPlain();
    AutoGeneratedClosePlain();
    NoLineBreak("");
  }

  /** Whether the source file ends lines with "\r\n" or "\n", the two
      replacements give the comment lines joined by the platform newline. */
  lemma NormaliseLineEndings(lines: seq<string>, lineEnding: string, newLine: string)
    requires lineEnding == "\r\n" || lineEnding == "\n"
    requires forall k :: 0 <= k < |lines| ==> Disjoint(lines[k], "\r\n")
    ensures Replace(Replace(Join(lines, lineEnding), "\r\n", "\n"), "\n", newLine) == Join(lines, newLine)
  {
    assert forall k :: 0 <= k < |lines| ==> Disjoint(lines[k], "\n");
    if lineEnding == "\r\n" {
      ReplaceJoin(lines, "\r\n", "\n");
    } else {
      assert forall k :: 0 <= k < |lines| ==> '\r' !in lines[k];
      JoinAvoids(lines, "\n", '\r');
      ReplaceAbsent(Join(lines, "\n"), "\r\n", "\n");
    }
    ReplaceJoin(lines, "\n", newLine);
  }

  /** Normalises the comment's line endings and inserts it at the front. */
  method InsertComment(text: CodeBuilder)
    modifies text
    ensures text.front == Comment(text.newLine) + old(text.front)
    ensures text.lines == old(text.lines) && text.indent == old(text.indent)
  {
    var comment := Replace(Replace(CommentLiteral("\n"), "\r\n", "\n"), "\n", text.newLine);
    CommentLinesPlain();
    NormaliseLineEndings(CommentLines, "\n", text.newLine);
    text.InsertAtFront(comment);
  }
}
