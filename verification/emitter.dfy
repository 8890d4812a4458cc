/** The text emitter of ShaderBuilder: an append-only GLSL text buffer together
    with the nesting depth that drives indentation.

    The emitter is an immutable value; every primitive returns the next value.
    The depth is an `int`. The source keeps it in a `float` that moves by one
    from zero; the two agree while the depth stays within 2^24 levels of zero,
    where the float stops changing. The source has no guard on closers, so
    closing at depth 0 yields depth -1 (and an unindented brace), exactly as
    modelled here. */
module Emitter {
  import opened Decimal

  const SHADER_PROFILE_CORE: string := "core"
  const SHADER_PROFILE_COMPAT: string := ""

  /** The shader text built so far and the current nesting depth. */
  datatype Builder = Builder(text: string, depth: int)

  predicate StartsWith(s: string, prefix: string) {
    prefix <= s
  }

  predicate EndsWith(s: string, suffix: string) {
    |suffix| <= |s| && s[|s| - |suffix|..] == suffix
  }

  /** What `r` holds beyond the text of `b` (meaningful when `b.text <= r.text`). */
  function Appended(b: Builder, r: Builder): string
    requires b.text <= r.text
  {
    r.text[|b.text|..]
  }

  /** The indentation prefix: one tab per nesting level, nothing at a level
      of zero or below (the source's loop runs while `i < tabNumber`). */
  function Tabs(depth: int): (t: string)
    ensures |t| == if depth > 0 then depth else 0
    ensures forall i :: 0 <= i < |t| ==> t[i] == '\t'
    decreases depth
  {
    if depth <= 0 then "" else Tabs(depth - 1) + "\t"
  }

  /** The source's `genTabs` loop, which agrees with `Tabs`. */
  method GenTabs(tabNumber: int) returns (tabs: string)
    ensures |tabs| == if tabNumber > 0 then tabNumber else 0
    ensures forall i :: 0 <= i < |tabs| ==> tabs[i] == '\t'
    ensures tabs == Tabs(tabNumber)
  {
    tabs := "";
    var i := 0;
    while i < tabNumber
      invariant 0 <= i
      invariant i <= if tabNumber > 0 then tabNumber else 0
      invariant tabs == Tabs(i)
      decreases tabNumber - i
    {
      tabs := tabs + "\t";
      i := i + 1;
    }
  }

  /** A deeper indentation extends a shallower one. */
  lemma {:induction false} TabsMonotone(d: int, e: int)
    requires d <= e
    ensures Tabs(d) <= Tabs(e)
    decreases e - d
  {
    if d < e {
      TabsMonotone(d, e - 1);
      assert Tabs(e - 1) <= Tabs(e);
    }
  }

  // ---------------------------------------------------------------- constructors

  /** `ShaderBuilder()`: an empty buffer at depth 0. */
  function Empty(): (r: Builder)
    ensures r.text == "" && r.depth == 0
  {
    Builder("", 0)
  }

  /** `ShaderBuilder(glslVersion, profile)`: the buffer starts with the version line. */
  function New(glslVersion: int, profile: string): (r: Builder)
    ensures r.depth == 0
    ensures r.text == "#version " + IntToString(glslVersion) + " " + profile + "\n"
  {
    Builder("#version " + IntToString(glslVersion) + " " + profile + "\n", 0)
  }

  /** `ShaderBuilder(glslVersion)`: the core profile. */
  function NewCore(glslVersion: int): (r: Builder)
    ensures r.depth == 0
    ensures r.text == "#version " + IntToString(glslVersion) + " core\n"
  {
    New(glslVersion, SHADER_PROFILE_CORE)
  }

  /** Both presets start their emitter with the GLSL 3.30 core-profile version line. */
  lemma VersionLine()
    ensures NewCore(330).text == "#version 330 core\n"
  {
    assert NatToString(330) == NatToString(33) + ['0'];
    assert NatToString(33) == NatToString(3) + ['3'];
  }

  // ---------------------------------------------------------------- preprocessor

  /** `addExtension`: an unindented `#extension name : behavior` line. */
  function AddExtension(b: Builder, extensionName: string, behavior: string): (r: Builder)
    ensures r.depth == b.depth
    ensures r.text == b.text + ("#extension " + extensionName + " : " + behavior + "\n")
  {
    Builder(b.text + ("#extension " + extensionName + " : " + behavior + "\n"), b.depth)
  }

  /** `addPreprocessorDirective`: an unindented `#directive` line. */
  function AddPreprocessorDirective(b: Builder, directive: string): (r: Builder)
    ensures r.depth == b.depth
    ensures r.text == b.text + ("#" + directive + "\n")
  {
    Builder(b.text + ("#" + directive + "\n"), b.depth)
  }

  // ---------------------------------------------------------------- variables

  /** `qualifier + " "`, or nothing for an empty qualifier. */
  function QualifierPart(qualifier: string): (p: string)
    ensures qualifier == "" <==> p == ""
    ensures qualifier != "" ==> p == qualifier + " "
  {
    if qualifier != "" then qualifier + " " else ""
  }

  /** `" = value;\n"`, or just `";\n"` for an empty assignment. */
  function AssignmentPart(assignment: string): (p: string)
    ensures EndsWith(p, ";\n")
    ensures assignment == "" <==> p == ";\n"
    ensures assignment != "" ==> p == " = " + assignment + ";\n"
  {
    if assignment != "" then " = " + assignment + ";\n" else ";\n"
  }

  /** The declaration line written by `addVariableFull` at the given depth. */
  function VariableLine(depth: int, qualifier: string, dataType: string, name: string, assignment: string): string {
    Tabs(depth) + QualifierPart(qualifier) + dataType + " " + name + AssignmentPart(assignment)
  }

  /** `addVariableFull`: an indented declaration with optional qualifier and initializer. */
  function AddVariableFull(b: Builder, qualifier: string, dataType: string, name: string, assignment: string): (r: Builder)
    ensures r.depth == b.depth
    ensures r.text == b.text + VariableLine(b.depth, qualifier, dataType, name, assignment)
  {
    Builder(b.text + VariableLine(b.depth, qualifier, dataType, name, assignment), b.depth)
  }

  /** `addVariableShort`: `type name;` at the current indentation. */
  function AddVariableShort(b: Builder, dataType: string, name: string): (r: Builder)
    ensures r.depth == b.depth
    ensures r.text == b.text + (Tabs(b.depth) + dataType + " " + name + ";\n")
  {
    AddVariableFull(b, "", dataType, name, "")
  }

  /** `addVariableMediumQualifier`: `qualifier type name;` (the qualifier is dropped when empty). */
  function AddVariableMediumQualifier(b: Builder, qualifier: string, dataType: string, name: string): (r: Builder)
    ensures r.depth == b.depth
    ensures r.text == b.text + (Tabs(b.depth) + QualifierPart(qualifier) + dataType + " " + name + ";\n")
  {
    AddVariableFull(b, qualifier, dataType, name, "")
  }

  /** An empty qualifier leaves no trace in the line. */
  lemma UnqualifiedLine(depth: int, dataType: string, name: string, assignment: string)
    ensures VariableLine(depth, "", dataType, name, assignment)
         == Tabs(depth) + dataType + " " + name + AssignmentPart(assignment)
  {
    assert QualifierPart("") == "";
    assert Tabs(depth) + "" == Tabs(depth);
  }

  /** `addVariableMediumAssignment`: `type name = value;` (no initializer when the value is empty). */
  function AddVariableMediumAssignment(b: Builder, dataType: string, name: string, assignment: string): (r: Builder)
    ensures r.depth == b.depth
    ensures r.text == b.text + (Tabs(b.depth) + dataType + " " + name + AssignmentPart(assignment))
  {
    UnqualifiedLine(b.depth, dataType, name, assignment);
    AddVariableFull(b, "", dataType, name, assignment)
  }

  /** `addLayoutVariable`: `layout (location = N) qualifier type name;`. */
  function AddLayoutVariable(b: Builder, location: int, qualifier: string, dataType: string, name: string): (r: Builder)
    ensures r.depth == b.depth
    ensures r.text == b.text + (Tabs(b.depth) + "layout (location = " + IntToString(location) + ") "
                                + qualifier + " " + dataType + " " + name + ";\n")
  {
    Builder(b.text + (Tabs(b.depth) + "layout (location = " + IntToString(location) + ") "
                      + qualifier + " " + dataType + " " + name + ";\n"), b.depth)
  }

  // ---------------------------------------------------------------- scopes

  /** Writes an opener's header at the current depth, then nests one level deeper. */
  function Open(b: Builder, header: string): (r: Builder)
    ensures r.depth == b.depth + 1
    ensures r.text == b.text + (Tabs(b.depth) + header + " {\n")
  {
    Builder(b.text + (Tabs(b.depth) + header + " {\n"), b.depth + 1)
  }

  /** Leaves one level first, then writes the closing line at the new depth. */
  function Close(b: Builder, closing: string): (r: Builder)
    ensures r.depth == b.depth - 1
    ensures r.text == b.text + (Tabs(b.depth - 1) + closing + "\n")
  {
    Builder(b.text + (Tabs(b.depth - 1) + closing + "\n"), b.depth - 1)
  }

  /** `openStruct` */
  function OpenStruct(b: Builder, name: string): (r: Builder)
    ensures r == Open(b, "struct " + name)
  {
    Builder(b.text + (Tabs(b.depth) + ("struct " + name) + " {\n"), b.depth + 1)
  }

  /** `closeStruct`: the struct's closing brace carries a semicolon. */
  function CloseStruct(b: Builder): (r: Builder)
    ensures r == Close(b, "};")
  {
    var d := b.depth - 1;
    Builder(b.text + (Tabs(d) + "};" + "\n"), d)
  }

  /** `openFunction(returnType, name, args)` */
  function OpenFunction(b: Builder, returnType: string, name: string, args: string): (r: Builder)
    ensures r == Open(b, returnType + " " + name + " (" + args + ")")
  {
    Builder(b.text + (Tabs(b.depth) + (returnType + " " + name + " (" + args + ")") + " {\n"), b.depth + 1)
  }

  /** `openFunction(returnType, name)`: no arguments. */
  function OpenFunctionNoArgs(b: Builder, returnType: string, name: string): (r: Builder)
    ensures r == Open(b, returnType + " " + name + " ()")
  {
    OpenFunction(b, returnType, name, "")
  }

  /** `closeFunction` */
  function CloseFunction(b: Builder): (r: Builder)
    ensures r == Close(b, "}")
  {
    var d := b.depth - 1;
    Builder(b.text + (Tabs(d) + "}" + "\n"), d)
  }

  /** `openMainFunction` */
  function OpenMainFunction(b: Builder): (r: Builder)
    ensures r == Open(b, "void main ()")
  {
    Builder(b.text + (Tabs(b.depth) + "void main ()" + " {\n"), b.depth + 1)
  }

  /** `callFunction(name, args, ignoreTabs, makeLineEnd)`: a call, either a
      standalone statement or an expression fragment. */
  function CallFunction(b: Builder, functionName: string, args: string, ignoreTabs: bool, makeLineEnd: bool): (r: Builder)
    ensures r.depth == b.depth
    ensures r.text == b.text + ((if ignoreTabs then "" else Tabs(b.depth)) + functionName + "(" + args
                                + (if makeLineEnd then ");\n" else ")"))
  {
    var prefix := if ignoreTabs then "" else Tabs(b.depth);
    var suffix := if makeLineEnd then ");\n" else ")";
    Builder(b.text + (prefix + functionName + "(" + args + suffix), b.depth)
  }

  /** `callFunction(name, args, inCode)`: inside code means no indentation and no line end. */
  function CallFunctionInCode(b: Builder, functionName: string, args: string, inCode: bool): (r: Builder)
    ensures r.depth == b.depth
    ensures inCode ==> r.text == b.text + (functionName + "(" + args + ")")
    ensures !inCode ==> r.text == b.text + (Tabs(b.depth) + functionName + "(" + args + ");\n")
  {
    CallFunction(b, functionName, args, inCode, !inCode)
  }

  /** `callFunction(name, args)`: a standalone call statement. */
  function CallFunctionStandalone(b: Builder, functionName: string, args: string): (r: Builder)
    ensures r.depth == b.depth
    ensures r.text == b.text + (Tabs(b.depth) + functionName + "(" + args + ");\n")
  {
    CallFunction(b, functionName, args, false, true)
  }

  /** `openIf` */
  function OpenIf(b: Builder, condition: string): (r: Builder)
    ensures r == Open(b, "if (" + condition + ")")
  {
    Builder(b.text + (Tabs(b.depth) + ("if (" + condition + ")") + " {\n"), b.depth + 1)
  }

  /** `addElseIf`: leaves the branch, writes `} else if (…) {` one level out, re-enters. */
  function AddElseIf(b: Builder, condition: string): (r: Builder)
    ensures r.depth == b.depth
    ensures r.text == b.text + (Tabs(b.depth - 1) + "} else if (" + condition + ") {\n")
  {
    var d := b.depth - 1;
    Builder(b.text + (Tabs(d) + "} else if (" + condition + ") {\n"), d + 1)
  }

  /** `closeIf(useElse)`: a bare `}` leaving the if, or `} else {` opening the else branch. */
  function CloseIf(b: Builder, useElse: bool): (r: Builder)
    ensures !useElse ==> r == Close(b, "}")
    ensures useElse ==> r.depth == b.depth
    ensures useElse ==> r.text == b.text + (Tabs(b.depth - 1) + "} else {\n")
  {
    var d := b.depth - 1;
    var additional := if useElse then " else {\n" else "\n";
    assert "}" + "\n" == "}\n";
    assert "}" + " else {\n" == "} else {\n";
    Builder(b.text + (Tabs(d) + ("}" + additional)), if useElse then d + 1 else d)
  }

  /** `openWhile` */
  function OpenWhile(b: Builder, condition: string): (r: Builder)
    ensures r == Open(b, "while (" + condition + ")")
  {
    Builder(b.text + (Tabs(b.depth) + ("while (" + condition + ")") + " {\n"), b.depth + 1)
  }

  /** `closeWhile`: the source delegates to `closeFunction`. */
  function CloseWhile(b: Builder): (r: Builder)
    ensures r == Close(b, "}")
  {
    CloseFunction(b)
  }

  /** `openFor` */
  function OpenFor(b: Builder, forLoopArgs: string): (r: Builder)
    ensures r == Open(b, "for (" + forLoopArgs + ")")
  {
    Builder(b.text + (Tabs(b.depth) + ("for (" + forLoopArgs + ")") + " {\n"), b.depth + 1)
  }

  /** `closeFor`: the source delegates to `closeFunction`. */
  function CloseFor(b: Builder): (r: Builder)
    ensures r == Close(b, "}")
  {
    CloseFunction(b)
  }

  // ---------------------------------------------------------------- statements and raw text

  /** `callStatement(name, properties)`: `name properties;`, or `name;` when the properties are empty. */
  function CallStatement(b: Builder, statementName: string, statementProperties: string): (r: Builder)
    ensures r.depth == b.depth
    ensures statementProperties == "" ==> r.text == b.text + (Tabs(b.depth) + statementName + ";\n")
    ensures statementProperties != "" ==>
              r.text == b.text + (Tabs(b.depth) + statementName + (" " + statementProperties + ";\n"))
  {
    var end := if statementProperties != "" then " " + statementProperties + ";\n" else ";\n";
    Builder(b.text + (Tabs(b.depth) + statementName + end), b.depth)
  }

  /** `callStatement(name)` */
  function CallStatementBare(b: Builder, statementName: string): (r: Builder)
    ensures r.depth == b.depth
    ensures r.text == b.text + (Tabs(b.depth) + statementName + ";\n")
  {
    CallStatement(b, statementName, "")
  }

  /** `addCode(code, ignoreTabs, endLine)`: raw text, optionally indented and terminated. */
  function AddCode(b: Builder, code: string, ignoreTabs: bool, endLine: bool): (r: Builder)
    ensures r.depth == b.depth
    ensures r.text == b.text + ((if ignoreTabs then "" else Tabs(b.depth)) + code + (if endLine then "\n" else ""))
  {
    var prefix := if ignoreTabs then "" else Tabs(b.depth);
    var suffix := if endLine then "\n" else "";
    Builder(b.text + (prefix + code + suffix), b.depth)
  }

  /** `addCode(code)`: an indented, terminated line. */
  function AddCodeLine(b: Builder, code: string): (r: Builder)
    ensures r.depth == b.depth
    ensures r.text == b.text + (Tabs(b.depth) + code + "\n")
  {
    AddCode(b, code, false, true)
  }

  /** `addComment(text, ignoreTabs)`: a `// text` line. */
  function AddComment(b: Builder, text: string, ignoreTabs: bool): (r: Builder)
    ensures r.depth == b.depth
    ensures r.text == b.text + ((if ignoreTabs then "" else Tabs(b.depth)) + "// " + text + "\n")
  {
    var prefix := if ignoreTabs then "" else Tabs(b.depth);
    Builder(b.text + (prefix + "// " + text + "\n"), b.depth)
  }

  /** `addComment(text)`: an indented comment line. */
  function AddCommentLine(b: Builder, text: string): (r: Builder)
    ensures r.depth == b.depth
    ensures r.text == b.text + (Tabs(b.depth) + "// " + text + "\n")
  {
    AddComment(b, text, false)
  }

  /** `addLineBreak`: a line break with no indentation. */
  function AddLineBreak(b: Builder): (r: Builder)
    ensures r.depth == b.depth
    ensures r.text == b.text + "\n"
  {
    Builder(b.text + "\n", b.depth)
  }

  /** `build`: reads the text; the emitter value itself is untouched. */
  function Build(b: Builder): (s: string)
    ensures s == b.text
  {
    b.text
  }

  // ---------------------------------------------------------------- what each call promises

  /** `r` keeps all of `b`'s text and adds one piece that reads back, in order,
      as the indentation of `depth`, then `content`, then the terminator `end`. */
  predicate WritesLine(b: Builder, r: Builder, depth: int, content: string, end: string) {
    var start := |b.text| + |Tabs(depth)|;
    b.text <= r.text
    && |r.text| == start + |content| + |end|
    && r.text[|b.text|..start] == Tabs(depth)
    && r.text[start..start + |content|] == content
    && r.text[start + |content|..] == end
  }

  /** Appending indentation, content and terminator can be read back piece by piece. */
  lemma ReadLineBack(b: Builder, r: Builder, depth: int, content: string, end: string)
    requires r.text == b.text + (Tabs(depth) + content + end)
    ensures WritesLine(b, r, depth, content, end)
  {
    var start := |b.text| + |Tabs(depth)|;
    assert r.text[|b.text|..start] == Tabs(depth);
    assert r.text[start..start + |content|] == content;
    assert r.text[start + |content|..] == end;
  }

  /** Regrouping one piece of a concatenation. */
  lemma Regroup(x: string, y: string, z: string)
    ensures x + (y + z) == x + y + z
  {
  }

  /** Both constructors start from `ShaderBuilder()`, which holds no text at
      depth 0, and write one unindented version line at that depth. */
  lemma NewWritesVersionLine(glslVersion: int, profile: string)
    ensures Empty().text == "" && Empty().depth == 0
    ensures WritesLine(Empty(), New(glslVersion, profile), 0, "#version " + IntToString(glslVersion) + " " + profile, "\n")
    ensures New(glslVersion, profile).depth == Empty().depth
  {
    ReadLineBack(Empty(), New(glslVersion, profile), 0, "#version " + IntToString(glslVersion) + " " + profile, "\n");
  }

  /** The version number and the profile read back from the version line: the
      number is the field before the first space after `#version `, and the
      profile is the rest of the line. */
  lemma VersionReadsBack(glslVersion: int, profile: string)
    ensures var fields := New(glslVersion, profile).text[9..];
            var number := TakeUntil(fields, ' ');
            && number == IntToString(glslVersion)
            && ParseInt(number) == glslVersion
            && fields[|number| + 1..|fields| - 1] == profile
  {
    var fields := New(glslVersion, profile).text[9..];
    assert fields == IntToString(glslVersion) + [' '] + (profile + "\n");
    NumberFieldReadsBack(glslVersion, ' ', profile + "\n");
  }

  /** `addExtension` writes its line unindented whatever the depth, and keeps the depth. */
  lemma AddExtensionWrites(b: Builder, extensionName: string, behavior: string)
    ensures WritesLine(b, AddExtension(b, extensionName, behavior), 0, "#extension " + extensionName + " : " + behavior, "\n")
    ensures AddExtension(b, extensionName, behavior).depth == b.depth
  {
    ReadLineBack(b, AddExtension(b, extensionName, behavior), 0, "#extension " + extensionName + " : " + behavior, "\n");
  }

  /** `addPreprocessorDirective` writes `#directive` unindented, and keeps the depth. */
  lemma AddPreprocessorDirectiveWrites(b: Builder, directive: string)
    ensures WritesLine(b, AddPreprocessorDirective(b, directive), 0, "#" + directive, "\n")
    ensures AddPreprocessorDirective(b, directive).depth == b.depth
  {
    ReadLineBack(b, AddPreprocessorDirective(b, directive), 0, "#" + directive, "\n");
  }

  /** `addVariableFull` writes the declaration at the current indentation and
      terminates it with the assignment part, which always ends in `;` and a
      line break; the depth is kept. */
  lemma AddVariableFullWrites(b: Builder, qualifier: string, dataType: string, name: string, assignment: string)
    ensures WritesLine(b, AddVariableFull(b, qualifier, dataType, name, assignment), b.depth,
                       QualifierPart(qualifier) + dataType + " " + name, AssignmentPart(assignment))
    ensures EndsWith(AddVariableFull(b, qualifier, dataType, name, assignment).text, ";\n")
    ensures AddVariableFull(b, qualifier, dataType, name, assignment).depth == b.depth
  {
    var r := AddVariableFull(b, qualifier, dataType, name, assignment);
    var t, q := Tabs(b.depth), QualifierPart(qualifier);
    var content := q + dataType + " " + name;
    Regroup(t, q, dataType);
    Regroup(t, q + dataType, " ");
    Regroup(t, q + dataType + " ", name);
    ReadLineBack(b, r, b.depth, content, AssignmentPart(assignment));
    assert r.text[|r.text| - 2..] == AssignmentPart(assignment)[|AssignmentPart(assignment)| - 2..];
  }

  /** The text written after the indentation of a layout declaration. */
  function LayoutContent(location: int, qualifier: string, dataType: string, name: string): string {
    "layout (location = " + IntToString(location) + ") " + qualifier + " " + dataType + " " + name
  }

  /** `addLayoutVariable` writes one declaration at the current indentation, ended
      by `;` and a line break, and keeps the depth. */
  lemma AddLayoutVariableWrites(b: Builder, location: int, qualifier: string, dataType: string, name: string)
    ensures WritesLine(b, AddLayoutVariable(b, location, qualifier, dataType, name), b.depth,
                       LayoutContent(location, qualifier, dataType, name), ";\n")
    ensures AddLayoutVariable(b, location, qualifier, dataType, name).depth == b.depth
  {
    var content := LayoutContent(location, qualifier, dataType, name);
    var t, c := Tabs(b.depth), "layout (location = ";
    Regroup(t, c, IntToString(location));
    c := c + IntToString(location);
    Regroup(t, c, ") ");
    c := c + ") ";
    Regroup(t, c, qualifier);
    c := c + qualifier;
    Regroup(t, c, " ");
    c := c + " ";
    Regroup(t, c, dataType);
    c := c + dataType;
    Regroup(t, c, " ");
    c := c + " ";
    Regroup(t, c, name);
    ReadLineBack(b, AddLayoutVariable(b, location, qualifier, dataType, name), b.depth, content, ";\n");
  }

  /** The location reads back from a layout declaration: it is the field between
      `layout (location = ` and the next `)`. */
  lemma LayoutLocationReadsBack(location: int, qualifier: string, dataType: string, name: string)
    ensures var number := TakeUntil(LayoutContent(location, qualifier, dataType, name)[19..], ')');
            && number == IntToString(location)
            && ParseInt(number) == location
  {
    var rest := " " + qualifier + " " + dataType + " " + name;
    assert LayoutContent(location, qualifier, dataType, name)[19..] == IntToString(location) + [')'] + rest;
    NumberFieldReadsBack(location, ')', rest);
  }

  /** Layout declarations for different locations never write the same text. */
  lemma LayoutLocationsDistinct(b: Builder, m: int, n: int, qualifier: string, dataType: string, name: string)
    ensures AddLayoutVariable(b, m, qualifier, dataType, name).text == AddLayoutVariable(b, n, qualifier, dataType, name).text ==> m == n
  {
    var text := AddLayoutVariable(b, m, qualifier, dataType, name).text;
    if text == AddLayoutVariable(b, n, qualifier, dataType, name).text {
      var lm := LayoutContent(m, qualifier, dataType, name);
      var ln := LayoutContent(n, qualifier, dataType, name);
      var start := |b.text| + |Tabs(b.depth)|;
      AddLayoutVariableWrites(b, m, qualifier, dataType, name);
      AddLayoutVariableWrites(b, n, qualifier, dataType, name);
      assert |lm| == |ln|;
      assert lm == text[start..start + |lm|] == ln;
      LayoutLocationReadsBack(m, qualifier, dataType, name);
      LayoutLocationReadsBack(n, qualifier, dataType, name);
      IntRoundTrip(m);
      IntRoundTrip(n);
    }
  }

  /** An opener writes its header and ` {` at the current indentation and goes one
      level deeper, so every line inside the scope starts with the opener's
      indentation. */
  lemma OpenWrites(b: Builder, header: string)
    ensures WritesLine(b, Open(b, header), b.depth, header, " {\n")
    ensures Open(b, header).depth == b.depth + 1
    ensures Tabs(b.depth) <= Tabs(Open(b, header).depth)
  {
    ReadLineBack(b, Open(b, header), b.depth, header, " {\n");
    TabsMonotone(b.depth, b.depth + 1);
  }

  /** A closer goes one level out first and writes its closing line there. */
  lemma CloseWrites(b: Builder, closing: string)
    ensures WritesLine(b, Close(b, closing), b.depth - 1, closing, "\n")
    ensures Close(b, closing).depth == b.depth - 1
  {
    ReadLineBack(b, Close(b, closing), b.depth - 1, closing, "\n");
  }

  /** A scope's closing line has exactly the indentation of its opening line,
      and closing returns to the depth before the opener. */
  lemma CloseMatchesOpen(b: Builder, header: string, closing: string)
    ensures WritesLine(Open(b, header), Close(Open(b, header), closing), b.depth, closing, "\n")
    ensures Close(Open(b, header), closing).depth == b.depth
  {
    CloseWrites(Open(b, header), closing);
  }

  /** `openStruct` writes `struct name {` at the current indentation and nests. */
  lemma OpenStructWrites(b: Builder, name: string)
    ensures WritesLine(b, OpenStruct(b, name), b.depth, "struct " + name, " {\n")
    ensures OpenStruct(b, name).depth == b.depth + 1
  {
    OpenWrites(b, "struct " + name);
  }

  /** `closeStruct` writes `};` one level out. */
  lemma CloseStructWrites(b: Builder)
    ensures WritesLine(b, CloseStruct(b), b.depth - 1, "};", "\n")
    ensures CloseStruct(b).depth == b.depth - 1
  {
    CloseWrites(b, "};");
  }

  /** `openFunction` writes the signature `type name (args) {` and nests. */
  lemma OpenFunctionWrites(b: Builder, returnType: string, name: string, args: string)
    ensures WritesLine(b, OpenFunction(b, returnType, name, args), b.depth, returnType + " " + name + " (" + args + ")", " {\n")
    ensures OpenFunction(b, returnType, name, args).depth == b.depth + 1
  {
    OpenWrites(b, returnType + " " + name + " (" + args + ")");
  }

  /** `closeFunction` writes a bare `}` one level out. */
  lemma CloseFunctionWrites(b: Builder)
    ensures WritesLine(b, CloseFunction(b), b.depth - 1, "}", "\n")
    ensures CloseFunction(b).depth == b.depth - 1
  {
    CloseWrites(b, "}");
  }

  /** `openMainFunction` writes `void main () {` and nests. */
  lemma OpenMainFunctionWrites(b: Builder)
    ensures WritesLine(b, OpenMainFunction(b), b.depth, "void main ()", " {\n")
    ensures OpenMainFunction(b).depth == b.depth + 1
  {
    OpenWrites(b, "void main ()");
  }

  /** `callFunction` writes `name(args`, indented unless tabs are ignored, and ends
      it with `);` and a line break or with a bare `)`; the depth is kept. */
  lemma CallFunctionWrites(b: Builder, functionName: string, args: string, ignoreTabs: bool, makeLineEnd: bool)
    ensures WritesLine(b, CallFunction(b, functionName, args, ignoreTabs, makeLineEnd),
                       if ignoreTabs then 0 else b.depth, functionName + "(" + args,
                       if makeLineEnd then ");\n" else ")")
    ensures CallFunction(b, functionName, args, ignoreTabs, makeLineEnd).depth == b.depth
  {
    var content := functionName + "(" + args;
    var end := if makeLineEnd then ");\n" else ")";
    var prefix := if ignoreTabs then "" else Tabs(b.depth);
    assert prefix + functionName + "(" + args + end == prefix + content + end;
    ReadLineBack(b, CallFunction(b, functionName, args, ignoreTabs, makeLineEnd), if ignoreTabs then 0 else b.depth, content, end);
  }

  /** `openIf` writes `if (condition) {` and nests. */
  lemma OpenIfWrites(b: Builder, condition: string)
    ensures WritesLine(b, OpenIf(b, condition), b.depth, "if (" + condition + ")", " {\n")
    ensures OpenIf(b, condition).depth == b.depth + 1
  {
    OpenWrites(b, "if (" + condition + ")");
  }

  /** `addElseIf` writes `} else if (condition) {` one level out, aligned with
      the `if` it continues, and stays inside the (new) branch. */
  lemma AddElseIfWrites(b: Builder, condition: string)
    ensures WritesLine(b, AddElseIf(b, condition), b.depth - 1, "} else if (" + condition + ")", " {\n")
    ensures AddElseIf(b, condition).depth == b.depth
    ensures WritesLine(OpenIf(b, condition), AddElseIf(OpenIf(b, condition), condition), b.depth,
                       "} else if (" + condition + ")", " {\n")
  {
    var content := "} else if (" + condition + ")";
    assert Tabs(b.depth - 1) + "} else if (" + condition + ") {\n" == Tabs(b.depth - 1) + content + " {\n";
    ReadLineBack(b, AddElseIf(b, condition), b.depth - 1, content, " {\n");
    var o := OpenIf(b, condition);
    assert Tabs(o.depth - 1) + "} else if (" + condition + ") {\n" == Tabs(b.depth) + content + " {\n";
    ReadLineBack(o, AddElseIf(o, condition), b.depth, content, " {\n");
  }

  /** `closeIf` writes `}` one level out; without an else it leaves the scope and
      ends the line, with an else it writes ` else {` and stays inside. */
  lemma CloseIfWrites(b: Builder, useElse: bool)
    ensures WritesLine(b, CloseIf(b, useElse), b.depth - 1, "}", if useElse then " else {\n" else "\n")
    ensures CloseIf(b, useElse).depth == if useElse then b.depth else b.depth - 1
  {
    var end := if useElse then " else {\n" else "\n";
    assert CloseIf(b, useElse).text == b.text + (Tabs(b.depth - 1) + "}" + end);
    ReadLineBack(b, CloseIf(b, useElse), b.depth - 1, "}", end);
  }

  /** `openWhile` writes `while (condition) {` and nests. */
  lemma OpenWhileWrites(b: Builder, condition: string)
    ensures WritesLine(b, OpenWhile(b, condition), b.depth, "while (" + condition + ")", " {\n")
    ensures OpenWhile(b, condition).depth == b.depth + 1
  {
    OpenWrites(b, "while (" + condition + ")");
  }

  /** `closeWhile` leaves the loop like `closeFunction`: a bare `}` one level out. */
  lemma CloseWhileWrites(b: Builder)
    ensures WritesLine(b, CloseWhile(b), b.depth - 1, "}", "\n")
    ensures CloseWhile(b).depth == b.depth - 1
    ensures CloseWhile(b) == CloseFunction(b)
  {
    CloseFunctionWrites(b);
  }

  /** `openFor` writes `for (args) {` and nests. */
  lemma OpenForWrites(b: Builder, forLoopArgs: string)
    ensures WritesLine(b, OpenFor(b, forLoopArgs), b.depth, "for (" + forLoopArgs + ")", " {\n")
    ensures OpenFor(b, forLoopArgs).depth == b.depth + 1
  {
    OpenWrites(b, "for (" + forLoopArgs + ")");
  }

  /** `closeFor` leaves the loop like `closeFunction`: a bare `}` one level out. */
  lemma CloseForWrites(b: Builder)
    ensures WritesLine(b, CloseFor(b), b.depth - 1, "}", "\n")
    ensures CloseFor(b).depth == b.depth - 1
    ensures CloseFor(b) == CloseFunction(b)
  {
    CloseFunctionWrites(b);
  }

  /** `callStatement` writes the statement name at the current indentation, then
      ` properties` when there are any, then `;` and a line break. */
  lemma CallStatementWrites(b: Builder, statementName: string, statementProperties: string)
    ensures WritesLine(b, CallStatement(b, statementName, statementProperties), b.depth,
                       statementName + (if statementProperties == "" then "" else " " + statementProperties), ";\n")
    ensures CallStatement(b, statementName, statementProperties).depth == b.depth
  {
    var content := statementName + (if statementProperties == "" then "" else " " + statementProperties);
    if statementProperties == "" {
      assert content == statementName;
    } else {
      assert Tabs(b.depth) + statementName + (" " + statementProperties + ";\n") == Tabs(b.depth) + content + ";\n";
    }
    ReadLineBack(b, CallStatement(b, statementName, statementProperties), b.depth, content, ";\n");
  }

  /** `addCode` writes the code verbatim, indented unless tabs are ignored, with a
      line break only when asked; the depth is kept. */
  lemma AddCodeWrites(b: Builder, code: string, ignoreTabs: bool, endLine: bool)
    ensures WritesLine(b, AddCode(b, code, ignoreTabs, endLine), if ignoreTabs then 0 else b.depth, code,
                       if endLine then "\n" else "")
    ensures AddCode(b, code, ignoreTabs, endLine).depth == b.depth
  {
    ReadLineBack(b, AddCode(b, code, ignoreTabs, endLine), if ignoreTabs then 0 else b.depth, code, if endLine then "\n" else "");
  }

  /** `addComment` writes `// text` and a line break, indented unless tabs are
      ignored; the depth is kept. */
  lemma AddCommentWrites(b: Builder, text: string, ignoreTabs: bool)
    ensures WritesLine(b, AddComment(b, text, ignoreTabs), if ignoreTabs then 0 else b.depth, "// " + text, "\n")
    ensures AddComment(b, text, ignoreTabs).depth == b.depth
  {
    ReadLineBack(b, AddComment(b, text, ignoreTabs), if ignoreTabs then 0 else b.depth, "// " + text, "\n");
  }

  /** `addLineBreak` writes an empty, unindented line; the depth is kept. */
  lemma AddLineBreakWrites(b: Builder)
    ensures WritesLine(b, AddLineBreak(b), 0, "", "\n")
    ensures AddLineBreak(b).depth == b.depth
  {
    ReadLineBack(b, AddLineBreak(b), 0, "", "\n");
  }
}
