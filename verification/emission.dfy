/** Emission plans: an emitter call as data, so that a shader preset is an
    ordered list of steps run over one emitter value.

    Every step appends text that depends only on the depth at which it runs,
    changes the depth by a fixed amount (`Delta`), and closers write their line
    one level out. The unguarded `Run` is what the source does; `RunChecked`
    adds the scope-underflow failure that closing with nothing open deserves,
    and the two agree on every plan that never closes past depth 0. */
module Emission {
  import opened Decimal
  import opened Emitter

  datatype Step =
    | Extension(extensionName: string, behavior: string)
    | Directive(directive: string)
    | Variable(qualifier: string, dataType: string, name: string, assignment: string)
    | LayoutVariable(location: int, qualifier: string, dataType: string, name: string)
    | OpenStruct(name: string)
    | CloseStruct
    | OpenFunction(returnType: string, name: string, args: string)
    | OpenMain
    | CloseFunction
    | CallFunction(name: string, args: string, ignoreTabs: bool, makeLineEnd: bool)
    | OpenIf(condition: string)
    | ElseIf(condition: string)
    | CloseIf(useElse: bool)
    | OpenWhile(condition: string)
    | CloseWhile
    | OpenFor(args: string)
    | CloseFor
    | Statement(name: string, properties: string)
    | Code(code: string, ignoreTabs: bool, endLine: bool)
    | Comment(text: string, ignoreTabs: bool)
    | LineBreak

  /** Performs one emitter call. */
  function Apply(b: Builder, s: Step): Builder {
    match s
    case Extension(n, beh) => Emitter.AddExtension(b, n, beh)
    case Directive(d) => Emitter.AddPreprocessorDirective(b, d)
    case Variable(q, t, n, a) => Emitter.AddVariableFull(b, q, t, n, a)
    case LayoutVariable(l, q, t, n) => Emitter.AddLayoutVariable(b, l, q, t, n)
    case OpenStruct(n) => Emitter.OpenStruct(b, n)
    case CloseStruct => Emitter.CloseStruct(b)
    case OpenFunction(rt, n, a) => Emitter.OpenFunction(b, rt, n, a)
    case OpenMain => Emitter.OpenMainFunction(b)
    case CloseFunction => Emitter.CloseFunction(b)
    case CallFunction(n, a, it, le) => Emitter.CallFunction(b, n, a, it, le)
    case OpenIf(c) => Emitter.OpenIf(b, c)
    case ElseIf(c) => Emitter.AddElseIf(b, c)
    case CloseIf(e) => Emitter.CloseIf(b, e)
    case OpenWhile(c) => Emitter.OpenWhile(b, c)
    case CloseWhile => Emitter.CloseWhile(b)
    case OpenFor(a) => Emitter.OpenFor(b, a)
    case CloseFor => Emitter.CloseFor(b)
    case Statement(n, p) => Emitter.CallStatement(b, n, p)
    case Code(c, it, el) => Emitter.AddCode(b, c, it, el)
    case Comment(t, it) => Emitter.AddComment(b, t, it)
    case LineBreak => Emitter.AddLineBreak(b)
  }

  /** Steps that write a header and then nest one level deeper. */
  predicate Opens(s: Step) {
    s.OpenStruct? || s.OpenFunction? || s.OpenMain? || s.OpenIf? || s.OpenWhile? || s.OpenFor?
  }

  /** Steps that leave one level and write a closing brace there. */
  predicate Closes(s: Step) {
    s.CloseStruct? || s.CloseFunction? || s.CloseWhile? || s.CloseFor? || s == CloseIf(false)
  }

  /** Steps that leave a branch and enter the next one (`} else if (…) {`, `} else {`). */
  predicate Reopens(s: Step) {
    s.ElseIf? || s == CloseIf(true)
  }

  /** Steps whose line is written one level out from the current depth. */
  predicate Lowers(s: Step) {
    Closes(s) || Reopens(s)
  }

  /** The depth change of each step. */
  function Delta(s: Step): int {
    if Opens(s) then 1 else if Closes(s) then -1 else 0
  }

  /** The text a step appends when run at the given depth. */
  function Line(s: Step, depth: int): string {
    Apply(Builder("", depth), s).text
  }

  /** A step only appends, its text depends on nothing but the depth, and the
      depth moves as the `Delta` table says. */
  lemma ApplyAppends(b: Builder, s: Step)
    ensures Apply(b, s).text == b.text + Line(s, b.depth)
    ensures Apply(b, s).depth == b.depth + Delta(s)
  {
    if Opens(s) {
      OpenerStepAppends(b, s);
    } else if Lowers(s) {
      CloserStepAppends(b, s);
    } else if s.Extension? || s.Directive? {
      PreprocessorStepAppends(b, s);
    } else if s.Variable? {
      VariableStepAppends(b, s);
    } else if s.LayoutVariable? {
      LayoutStepAppends(b, s);
    } else if s.CallFunction? || s.Statement? {
      CallStepAppends(b, s);
    } else {
      CodeStepAppends(b, s);
    }
  }

  /** The header an opener writes before ` {`. */
  function OpenerHeader(s: Step): string
    requires Opens(s)
  {
    if s.OpenStruct? then "struct " + s.name
    else if s.OpenFunction? then s.returnType + " " + s.name + " (" + s.args + ")"
    else if s.OpenMain? then "void main ()"
    else if s.OpenIf? then "if (" + s.condition + ")"
    else if s.OpenWhile? then "while (" + s.condition + ")"
    else "for (" + s.args + ")"
  }

  /** Every opener is the emitter's `Open` with the opener's header. */
  lemma OpenerIsOpen(b: Builder, s: Step)
    requires Opens(s)
    ensures Apply(b, s) == Emitter.Open(b, OpenerHeader(s))
  {
  }

  lemma OpenerStepAppends(b: Builder, s: Step)
    requires Opens(s)
    ensures Apply(b, s).text == b.text + Line(s, b.depth)
    ensures Apply(b, s).depth == b.depth + Delta(s)
  {
    OpenerIsOpen(b, s);
    OpenerIsOpen(Builder("", b.depth), s);
    var line := Tabs(b.depth) + OpenerHeader(s) + " {\n";
    assert Line(s, b.depth) == "" + line == line;
  }

  lemma CloserStepAppends(b: Builder, s: Step)
    requires Lowers(s)
    ensures Apply(b, s).text == b.text + Line(s, b.depth)
    ensures Apply(b, s).depth == b.depth + Delta(s)
  {
    if Closes(s) {
      ClosingStepAppends(b, s);
    } else {
      ReopeningStepAppends(b, s);
    }
  }

  lemma ClosingStepAppends(b: Builder, s: Step)
    requires Closes(s)
    ensures Apply(b, s).text == b.text + Line(s, b.depth)
    ensures Apply(b, s).depth == b.depth + Delta(s)
  {
  }

  lemma ReopeningStepAppends(b: Builder, s: Step)
    requires Reopens(s)
    ensures Apply(b, s).text == b.text + Line(s, b.depth)
    ensures Apply(b, s).depth == b.depth + Delta(s)
  {
  }

  lemma PreprocessorStepAppends(b: Builder, s: Step)
    requires s.Extension? || s.Directive?
    ensures Apply(b, s).text == b.text + Line(s, b.depth)
    ensures Apply(b, s).depth == b.depth + Delta(s)
  {
  }

  lemma VariableStepAppends(b: Builder, s: Step)
    requires s.Variable?
    ensures Apply(b, s).text == b.text + Line(s, b.depth)
    ensures Apply(b, s).depth == b.depth + Delta(s)
  {
    var Variable(q, t, n, a) := s;
    assert Apply(b, s) == Emitter.AddVariableFull(b, q, t, n, a);
    VariableStepLine(b.depth, q, t, n, a);
  }

  lemma LayoutStepAppends(b: Builder, s: Step)
    requires s.LayoutVariable?
    ensures Apply(b, s).text == b.text + Line(s, b.depth)
    ensures Apply(b, s).depth == b.depth + Delta(s)
  {
    var LayoutVariable(l, q, t, n) := s;
    var line := Tabs(b.depth) + "layout (location = " + IntToString(l) + ") " + q + " " + t + " " + n + ";\n";
    assert Apply(b, s) == Emitter.AddLayoutVariable(b, l, q, t, n);
    assert Apply(b, s).text == b.text + line;
    assert Line(s, b.depth) == Emitter.AddLayoutVariable(Builder("", b.depth), l, q, t, n).text == "" + line == line;
  }

  /** Layout steps for different locations write different lines. */
  lemma LayoutLinesDistinct(depth: int, m: int, n: int, qualifier: string, dataType: string, name: string)
    ensures Line(LayoutVariable(m, qualifier, dataType, name), depth) == Line(LayoutVariable(n, qualifier, dataType, name), depth) ==> m == n
  {
    Emitter.LayoutLocationsDistinct(Builder("", depth), m, n, qualifier, dataType, name);
  }

  lemma CallStepAppends(b: Builder, s: Step)
    requires s.CallFunction? || s.Statement?
    ensures Apply(b, s).text == b.text + Line(s, b.depth)
    ensures Apply(b, s).depth == b.depth + Delta(s)
  {
  }

  lemma CodeStepAppends(b: Builder, s: Step)
    requires s.Code? || s.Comment? || s.LineBreak?
    ensures Apply(b, s).text == b.text + Line(s, b.depth)
    ensures Apply(b, s).depth == b.depth + Delta(s)
  {
  }

  /** An opener writes exactly one header line at the current depth and then nests. */
  lemma OpenerHeaderAtDepth(b: Builder, s: Step)
    requires Opens(s)
    ensures Apply(b, s).depth == b.depth + 1
    ensures StartsWith(Line(s, b.depth), Tabs(b.depth))
    ensures EndsWith(Line(s, b.depth), " {\n")
  {
    OpenerIsOpen(b, s);
    OpenerIsOpen(Builder("", b.depth), s);
    var line := Tabs(b.depth) + OpenerHeader(s) + " {\n";
    assert Line(s, b.depth) == "" + line == line;
    assert line[|line| - 3..] == " {\n";
  }

  /** A closer leaves the level first: its brace is written one level out, at the
      depth its opener was written at. */
  lemma CloserLowersFirst(b: Builder, s: Step)
    requires Closes(s)
    ensures Apply(b, s).depth == b.depth - 1
    ensures Line(s, b.depth) == Tabs(b.depth - 1) + (if s.CloseStruct? then "};\n" else "}\n")
  {
  }

  /** `addElseIf` and `closeIf(true)` keep the depth and write `} else …{` one level out. */
  lemma ReopenerKeepsDepth(b: Builder, s: Step)
    requires Reopens(s)
    ensures Apply(b, s).depth == b.depth
    ensures s.ElseIf? ==> Line(s, b.depth) == Tabs(b.depth - 1) + "} else if (" + s.condition + ") {\n"
    ensures s == CloseIf(true) ==> Line(s, b.depth) == Tabs(b.depth - 1) + "} else {\n"
  {
  }

  // ---------------------------------------------------------------- plans

  /** Runs the steps in order over one emitter value (no guard, as in the source). */
  function Run(b: Builder, steps: seq<Step>): Builder
    decreases |steps|
  {
    if |steps| == 0 then b else Run(Apply(b, steps[0]), steps[1..])
  }

  /** The total depth change of a plan. */
  function Net(steps: seq<Step>): int
    decreases |steps|
  {
    if |steps| == 0 then 0 else Delta(steps[0]) + Net(steps[1..])
  }

  /** The text a plan appends when started at the given depth. */
  function Render(depth: int, steps: seq<Step>): string {
    Run(Builder("", depth), steps).text
  }

  /** A plan run from `depth` never writes a closing line with nothing open. */
  predicate NoUnderflow(depth: int, steps: seq<Step>)
    decreases |steps|
  {
    |steps| == 0 ||
    ((Lowers(steps[0]) ==> depth > 0) && NoUnderflow(depth + Delta(steps[0]), steps[1..]))
  }

  /** Every closer matches an earlier opener and every opener is closed. */
  predicate Balanced(steps: seq<Step>) {
    NoUnderflow(0, steps) && Net(steps) == 0
  }

  lemma {:induction false} NetConcat(xs: seq<Step>, ys: seq<Step>)
    ensures Net(xs + ys) == Net(xs) + Net(ys)
    decreases |xs|
  {
    if |xs| > 0 {
      assert (xs + ys)[1..] == xs[1..] + ys;
      NetConcat(xs[1..], ys);
    } else {
      assert xs + ys == ys;
    }
  }

  /** Running a concatenation is running its parts one after the other. */
  lemma {:induction false} RunConcat(b: Builder, xs: seq<Step>, ys: seq<Step>)
    ensures Run(b, xs + ys) == Run(Run(b, xs), ys)
    decreases |xs|
  {
    if |xs| > 0 {
      assert (xs + ys)[1..] == xs[1..] + ys;
      RunConcat(Apply(b, xs[0]), xs[1..], ys);
    } else {
      assert xs + ys == ys;
    }
  }

  /** A plan only appends to the text, the appended text depends only on the
      starting depth, and the depth moves by the plan's net change. */
  lemma {:induction false} RunAppends(b: Builder, steps: seq<Step>)
    ensures Run(b, steps).text == b.text + Render(b.depth, steps)
    ensures Run(b, steps).depth == b.depth + Net(steps)
    decreases |steps|
  {
    if |steps| > 0 {
      var e := Builder("", b.depth);
      ApplyAppends(b, steps[0]);
      ApplyAppends(e, steps[0]);
      RunAppends(Apply(b, steps[0]), steps[1..]);
      RunAppends(Apply(e, steps[0]), steps[1..]);
      assert Apply(e, steps[0]).text == Line(steps[0], b.depth);
    } else {
      assert b.text + "" == b.text;
    }
  }

  /** The old text is a prefix of the new one: no step ever rewrites what was built. */
  lemma BuildOnlyGrows(b: Builder, steps: seq<Step>)
    ensures Build(b) <= Build(Run(b, steps))
  {
    RunAppends(b, steps);
  }

  /** The text of a concatenated plan is the text of its parts, the second part
      rendered at the depth the first one leaves. */
  lemma RenderConcat(depth: int, xs: seq<Step>, ys: seq<Step>)
    ensures Render(depth, xs + ys) == Render(depth, xs) + Render(depth + Net(xs), ys)
  {
    var e := Builder("", depth);
    RunConcat(e, xs, ys);
    RunAppends(e, xs);
    RunAppends(Run(e, xs), ys);
  }

  lemma RenderSingle(depth: int, s: Step)
    ensures Render(depth, [s]) == Line(s, depth)
  {
    var e := Builder("", depth);
    assert [s][1..] == [];
    assert Run(e, [s]) == Run(Apply(e, s), []);
  }

  lemma RenderCons(depth: int, s: Step, rest: seq<Step>)
    ensures Render(depth, [s] + rest) == Line(s, depth) + Render(depth + Delta(s), rest)
  {
    RenderConcat(depth, [s], rest);
    RenderSingle(depth, s);
    SingleStep(depth, s);
  }

  lemma RenderEmpty(depth: int)
    ensures Render(depth, []) == ""
  {
  }

  lemma {:induction false} NoUnderflowConcat(depth: int, xs: seq<Step>, ys: seq<Step>)
    ensures NoUnderflow(depth, xs + ys) <==> NoUnderflow(depth, xs) && NoUnderflow(depth + Net(xs), ys)
    decreases |xs|
  {
    if |xs| > 0 {
      assert (xs + ys)[1..] == xs[1..] + ys;
      NoUnderflowConcat(depth + Delta(xs[0]), xs[1..], ys);
    } else {
      assert xs + ys == ys;
    }
  }

  /** Starting deeper never causes an underflow that starting shallower avoids. */
  lemma {:induction false} NoUnderflowDeeper(d: int, e: int, steps: seq<Step>)
    requires d <= e
    requires NoUnderflow(d, steps)
    ensures NoUnderflow(e, steps)
    decreases |steps|
  {
    if |steps| > 0 {
      NoUnderflowDeeper(d + Delta(steps[0]), e + Delta(steps[0]), steps[1..]);
    }
  }

  /** From a non-negative depth, a plan without underflow keeps the depth
      non-negative after every one of its prefixes. */
  lemma {:induction false} NoUnderflowKeepsDepth(depth: int, steps: seq<Step>, i: nat)
    requires depth >= 0 && NoUnderflow(depth, steps)
    requires i <= |steps|
    ensures depth + Net(steps[..i]) >= 0
    decreases |steps|
  {
    if i > 0 {
      var s := steps[0];
      assert steps[..i] == [s] + steps[1..][..i - 1];
      NetConcat([s], steps[1..][..i - 1]);
      assert Net([s]) == Delta(s) by { assert [s][1..] == []; }
      assert depth + Delta(s) >= 0 by {
        if Lowers(s) { assert depth > 0; }
      }
      NoUnderflowKeepsDepth(depth + Delta(s), steps[1..], i - 1);
    } else {
      assert steps[..0] == [];
    }
  }

  lemma SingleStep(depth: int, s: Step)
    ensures Net([s]) == Delta(s)
    ensures NoUnderflow(depth, [s]) <==> (Lowers(s) ==> depth > 0)
  {
    assert [s][1..] == [];
  }

  lemma BalancedConcat(xs: seq<Step>, ys: seq<Step>)
    requires Balanced(xs) && Balanced(ys)
    ensures Balanced(xs + ys)
  {
    NetConcat(xs, ys);
    NoUnderflowConcat(0, xs, ys);
  }

  /** A step that neither opens nor closes. */
  predicate Neutral(s: Step) {
    !Opens(s) && !Lowers(s)
  }

  /** Plans of declarations and plain lines leave the depth alone. */
  lemma {:induction false} NeutralBalanced(steps: seq<Step>)
    requires forall i :: 0 <= i < |steps| ==> Neutral(steps[i])
    ensures Balanced(steps)
    ensures forall d :: NoUnderflow(d, steps)
    decreases |steps|
  {
    if |steps| > 0 {
      NeutralBalanced(steps[1..]);
    }
  }

  /** The same, for a plan given by the steps it contains. */
  lemma NeutralPlanBalanced(steps: seq<Step>)
    requires forall s :: s in steps ==> Neutral(s)
    ensures Balanced(steps) && Net(steps) == 0
  {
    forall i | 0 <= i < |steps|
      ensures Neutral(steps[i])
    {
      assert steps[i] in steps;
    }
    NeutralBalanced(steps);
  }

  /** A part of a plan present only when a switch is on. */
  function Optional(on: bool, part: seq<Step>): (r: seq<Step>)
    ensures on ==> r == part
    ensures !on ==> r == []
  {
    if on then part else []
  }

  lemma OptionalBalanced(on: bool, part: seq<Step>)
    requires Balanced(part)
    ensures Balanced(Optional(on, part))
  {
    if !on {
      NeutralPlanBalanced([]);
    }
  }

  /** Wrapping a balanced body between an opener and a closer keeps it balanced. */
  lemma WrapBalanced(open: Step, body: seq<Step>, close: Step)
    requires Opens(open) && Closes(close)
    requires Balanced(body)
    ensures Balanced([open] + body + [close])
  {
    NoUnderflowDeeper(0, 1, body);
    SingleStep(0, open);
    SingleStep(1, close);
    NoUnderflowConcat(0, [open], body);
    NetConcat([open], body);
    NoUnderflowConcat(0, [open] + body, [close]);
    NetConcat([open] + body, [close]);
  }

  /** A closer written after its opener and a body with no net depth change
      is indented exactly like the opener's header, and the depth is back
      where the opener started. */
  lemma CloseAlignsWithOpen(b: Builder, open: Step, body: seq<Step>, close: Step)
    requires Opens(open) && Closes(close)
    requires Net(body) == 0
    ensures var inner := Run(Apply(b, open), body);
            && StartsWith(Line(open, b.depth), Tabs(b.depth))
            && inner.depth == b.depth + 1
            && StartsWith(Line(close, inner.depth), Tabs(b.depth) + "}")
            && Apply(inner, close).depth == b.depth
  {
    var entered := Apply(b, open);
    OpenerHeaderAtDepth(b, open);
    RunAppends(entered, body);
    CloserLowersFirst(Run(entered, body), close);
  }

  // ---------------------------------------------------------------- checked runs

  /** The outcome of a run that refuses to close with nothing open. On underflow
      it reports the index of the offending step and the emitter just before it,
      so no text of that step has been written. */
  datatype Outcome =
    | Emitted(builder: Builder)
    | ScopeUnderflow(stepIndex: nat, before: Builder)

  function RunChecked(b: Builder, steps: seq<Step>): (r: Outcome)
    ensures r.Emitted? ==> r.builder == Run(b, steps)
    ensures r.ScopeUnderflow? ==>
              && r.stepIndex < |steps|
              && Lowers(steps[r.stepIndex])
              && r.before == Run(b, steps[..r.stepIndex])
              && r.before.depth <= 0
    ensures r.ScopeUnderflow? ==> NoUnderflow(b.depth, steps[..r.stepIndex])
    decreases |steps|
  {
    if |steps| == 0 then Emitted(b)
    else if Lowers(steps[0]) && b.depth <= 0 then
      assert steps[..0] == [];
      ScopeUnderflow(0, b)
    else
      match RunChecked(Apply(b, steps[0]), steps[1..])
      case Emitted(r) => Emitted(r)
      case ScopeUnderflow(i, before) =>
        UnderflowPastFirst(b, steps, i);
        ScopeUnderflow(i + 1, before)
  }

  /** An underflow found after a first step that does not underflow itself is,
      counted from the start, one index later and still the first. */
  lemma UnderflowPastFirst(b: Builder, steps: seq<Step>, i: nat)
    requires i < |steps| - 1
    requires !(Lowers(steps[0]) && b.depth <= 0)
    requires NoUnderflow(Apply(b, steps[0]).depth, steps[1..][..i])
    ensures NoUnderflow(b.depth, steps[..i + 1])
    ensures Run(b, steps[..i + 1]) == Run(Apply(b, steps[0]), steps[1..][..i])
    ensures steps[i + 1] == steps[1..][i]
  {
    ApplyAppends(b, steps[0]);
    var prefix := steps[..i + 1];
    assert prefix[0] == steps[0];
    assert prefix[1..] == steps[1..][..i];
  }

  /** The checked run succeeds exactly when the plan never underflows, and then
      it produces what the unguarded run produces. */
  lemma {:induction false} RunCheckedSucceedsIff(b: Builder, steps: seq<Step>)
    ensures RunChecked(b, steps).Emitted? <==> NoUnderflow(b.depth, steps)
    decreases |steps|
  {
    if |steps| > 0 {
      ApplyAppends(b, steps[0]);
      RunCheckedSucceedsIff(Apply(b, steps[0]), steps[1..]);
    }
  }

  // ---------------------------------------------------------------- text positions

  /** `piece` occurs somewhere in `text`. */
  predicate Contains(text: string, piece: string) {
    exists i :: 0 <= i <= |text| && piece <= text[i..]
  }

  /** The text of a middle part of a plan appears in the output, rendered at
      the depth the plan reaches before it. */
  lemma ChunkAppears(b: Builder, xs: seq<Step>, ys: seq<Step>, zs: seq<Step>)
    ensures Contains(Run(b, xs + ys + zs).text, Render(b.depth + Net(xs), ys))
  {
    RenderChunkAppears(b.depth, xs, ys, zs);
    RenderedAppears(b, xs + ys + zs, Render(b.depth + Net(xs), ys));
  }

  /** What a plan appends occurs in the text of running it, whatever came before. */
  lemma RenderedAppears(b: Builder, steps: seq<Step>, piece: string)
    requires Contains(Render(b.depth, steps), piece)
    ensures Contains(Run(b, steps).text, piece)
  {
    RunAppends(b, steps);
    ContainsAfter(b.text, Render(b.depth, steps), piece);
  }

  lemma RenderChunkAppears(d: int, xs: seq<Step>, ys: seq<Step>, zs: seq<Step>)
    ensures Contains(Render(d, xs + ys + zs), Render(d + Net(xs), ys))
  {
    var front := Render(d, xs);
    var middle := Render(d + Net(xs), ys);
    var back := Render(d + Net(xs + ys), zs);
    RenderConcat(d, xs + ys, zs);
    RenderConcat(d, xs, ys);
    PieceAt(front, middle, back);
  }

  lemma PieceAt(front: string, middle: string, back: string)
    ensures Contains((front + middle) + back, middle)
  {
    var all := (front + middle) + back;
    var i := |front|;
    assert forall j :: 0 <= j < |middle| ==> all[i..][j] == middle[j];
    assert middle <= all[i..];
  }

  lemma ContainsAfter(before: string, text: string, piece: string)
    requires Contains(text, piece)
    ensures Contains(before + text, piece)
  {
    var i :| 0 <= i <= |text| && piece <= text[i..];
    var all := before + text;
    assert all[|before| + i..] == text[i..];
  }

  /** Occurrence is transitive: a piece of a piece of the text is in the text. */
  lemma ContainsWithin(text: string, piece: string, part: string)
    requires Contains(text, piece) && Contains(piece, part)
    ensures Contains(text, part)
  {
    var i :| 0 <= i <= |text| && piece <= text[i..];
    var j :| 0 <= j <= |piece| && part <= piece[j..];
    assert i + j + |part| <= |text|;
    forall m | 0 <= m < |part|
      ensures text[i + j..][m] == part[m]
    {
      assert part[m] == piece[j + m];
      assert piece[j + m] == text[i..][j + m];
    }
    assert part <= text[i + j..];
  }

  /** A prefix of an occurring piece occurs too. */
  lemma ContainsPrefix(text: string, piece: string, prefix: string)
    requires Contains(text, piece) && prefix <= piece
    ensures Contains(text, prefix)
  {
    var i :| 0 <= i <= |text| && piece <= text[i..];
    assert text[i..][..|prefix|] == piece[..|prefix|];
  }

  /** An occurring piece still occurs once more text follows. */
  lemma ContainsBefore(text: string, piece: string, after: string)
    requires Contains(text, piece)
    ensures Contains(text + after, piece)
  {
    var i :| 0 <= i <= |text| && piece <= text[i..];
    assert (text + after)[i..] == text[i..] + after;
  }

  /** The end of an occurring piece occurs too. */
  lemma ContainsSuffix(text: string, front: string, back: string)
    requires Contains(text, front + back)
    ensures Contains(text, back)
  {
    var i :| 0 <= i <= |text| && front + back <= text[i..];
    assert text[i + |front|..][..|back|] == (front + back)[|front|..];
  }

  /** Every step of a plan leaves its line, at some depth, in the output. */
  lemma StepAppears(b: Builder, steps: seq<Step>, s: Step)
    requires s in steps
    ensures exists d :: Contains(Run(b, steps).text, Line(s, d))
  {
    var i :| 0 <= i < |steps| && steps[i] == s;
    assert steps == steps[..i] + [s] + steps[i + 1..];
    var d := b.depth + Net(steps[..i]);
    ChunkAppears(b, steps[..i], [s], steps[i + 1..]);
    RenderSingle(d, s);
    assert Contains(Run(b, steps).text, Line(s, d));
  }

  /** Raw code pasted without indentation appears verbatim in the output. */
  lemma RawCodeAppears(b: Builder, steps: seq<Step>, code: string)
    requires Code(code, true, true) in steps
    ensures Contains(Run(b, steps).text, code)
  {
    StepAppears(b, steps, Code(code, true, true));
    var d :| Contains(Run(b, steps).text, Line(Code(code, true, true), d));
    RawCodeLine(d, code);
    ContainsPrefix(Run(b, steps).text, code + "\n", code);
  }

  lemma RawCodeLine(depth: int, code: string)
    ensures Line(Code(code, true, true), depth) == code + "\n"
  {
    var e := Builder("", depth);
    assert Apply(e, Code(code, true, true)) == Emitter.AddCode(e, code, true, true);
    assert "" + ("" + code + "\n") == code + "\n";
  }

  /** A preprocessor directive appears as its own `#` line. */
  lemma DirectiveAppears(b: Builder, steps: seq<Step>, directive: string)
    requires Directive(directive) in steps
    ensures Contains(Run(b, steps).text, "#" + directive + "\n")
  {
    StepAppears(b, steps, Directive(directive));
    var d :| Contains(Run(b, steps).text, Line(Directive(directive), d));
    assert Line(Directive(directive), d) == "" + ("#" + directive + "\n");
  }

  /** The text of a qualified declaration without initial value: `qualifier type name;`. */
  function Declaration(qualifier: string, dataType: string, name: string): string {
    qualifier + " " + dataType + " " + name + ";\n"
  }

  /** A qualified declaration without initial value appears, after its indentation. */
  lemma DeclarationAppears(b: Builder, steps: seq<Step>, qualifier: string, dataType: string, name: string)
    requires Variable(qualifier, dataType, name, "") in steps
    requires qualifier != ""
    ensures Contains(Run(b, steps).text, Declaration(qualifier, dataType, name))
  {
    StepAppears(b, steps, Variable(qualifier, dataType, name, ""));
    var d :| Contains(Run(b, steps).text, Line(Variable(qualifier, dataType, name, ""), d));
    VariableStepLine(d, qualifier, dataType, name, "");
    QualifiedPlainLine(d, qualifier, dataType, name);
    ContainsSuffix(Run(b, steps).text, Tabs(d), qualifier + " " + dataType + " " + name + ";\n");
  }

  lemma QualifiedPlainLine(depth: int, qualifier: string, dataType: string, name: string)
    requires qualifier != ""
    ensures VariableLine(depth, qualifier, dataType, name, "") == Tabs(depth) + (qualifier + " " + dataType + " " + name + ";\n")
  {
    assert QualifierPart(qualifier) == qualifier + " ";
    assert AssignmentPart("") == ";\n";
  }

  /** After a part with no net depth change, the output ends with the text of
      the last part rendered at the starting depth. */
  lemma EndsWithLastPart(b: Builder, xs: seq<Step>, ys: seq<Step>)
    requires Net(xs) == 0
    ensures EndsWith(Run(b, xs + ys).text, Render(b.depth, ys))
  {
    RunAppends(b, xs + ys);
    RenderConcat(b.depth, xs, ys);
    SuffixAt(b.text, Render(b.depth, xs), Render(b.depth, ys));
  }

  lemma SuffixAt(before: string, front: string, tail: string)
    ensures EndsWith(before + (front + tail), tail)
  {
    var all := before + (front + tail);
    assert all[|all| - |tail|..] == tail;
  }

  // ---------------------------------------------------------------- line view

  /** One line per step, each drawn by `line` at the depth reached before the step. */
  function LinesBy(line: (Step, int) -> string, depth: int, steps: seq<Step>): (lines: seq<string>)
    ensures |lines| == |steps|
    decreases |steps|
  {
    if |steps| == 0 then [] else [line(steps[0], depth)] + LinesBy(line, depth + Delta(steps[0]), steps[1..])
  }

  /** The lines a plan writes. */
  function Lines(depth: int, steps: seq<Step>): (lines: seq<string>)
    ensures |lines| == |steps|
  {
    LinesBy(Line, depth, steps)
  }

  /** The concatenation of a list of lines. */
  function Join(lines: seq<string>): string
    decreases |lines|
  {
    if |lines| == 0 then "" else lines[0] + Join(lines[1..])
  }

  lemma {:induction false} JoinConcat(xs: seq<string>, ys: seq<string>)
    ensures Join(xs + ys) == Join(xs) + Join(ys)
    decreases |xs|
  {
    if |xs| > 0 {
      assert (xs + ys)[1..] == xs[1..] + ys;
      JoinConcat(xs[1..], ys);
    } else {
      assert xs + ys == ys;
    }
  }

  /** Each line occurs in the concatenation of the lines. */
  lemma {:induction false} JoinContains(lines: seq<string>, k: nat)
    requires k < |lines|
    ensures Contains(Join(lines), lines[k])
    decreases k
  {
    var rest := Join(lines[1..]);
    assert Join(lines) == lines[0] + rest;
    if k == 0 {
      PieceAt("", lines[0], rest);
      assert "" + lines[0] == lines[0];
    } else {
      JoinContains(lines[1..], k - 1);
      ContainsAfter(lines[0], rest, lines[k]);
    }
  }

  /** The text a plan appends is the concatenation of its lines. */
  lemma {:induction false} RenderIsJoin(depth: int, steps: seq<Step>)
    ensures Render(depth, steps) == Join(Lines(depth, steps))
    decreases |steps|
  {
    if |steps| > 0 {
      assert steps == [steps[0]] + steps[1..];
      RenderCons(depth, steps[0], steps[1..]);
      RenderIsJoin(depth + Delta(steps[0]), steps[1..]);
    }
  }

  /** Every line of a plan occurs in the text built by running the plan, whatever
      text the emitter held before. */
  lemma LineInBuiltText(b: Builder, steps: seq<Step>, k: nat)
    requires k < |steps|
    ensures Contains(Run(b, steps).text, Lines(b.depth, steps)[k])
  {
    RenderIsJoin(b.depth, steps);
    JoinContains(Lines(b.depth, steps), k);
    RenderedAppears(b, steps, Lines(b.depth, steps)[k]);
  }

  lemma {:induction false} LinesByConcat(line: (Step, int) -> string, depth: int, xs: seq<Step>, ys: seq<Step>)
    ensures LinesBy(line, depth, xs + ys) == LinesBy(line, depth, xs) + LinesBy(line, depth + Net(xs), ys)
    decreases |xs|
  {
    if |xs| > 0 {
      assert (xs + ys)[1..] == xs[1..] + ys;
      LinesByConcat(line, depth + Delta(xs[0]), xs[1..], ys);
    } else {
      assert xs + ys == ys;
    }
  }

  lemma LinesConcat(depth: int, xs: seq<Step>, ys: seq<Step>)
    ensures Lines(depth, xs + ys) == Lines(depth, xs) + Lines(depth + Net(xs), ys)
  {
    LinesByConcat(Line, depth, xs, ys);
  }

  lemma LinesCons(depth: int, s: Step, rest: seq<Step>)
    ensures Lines(depth, [s] + rest) == [Line(s, depth)] + Lines(depth + Delta(s), rest)
  {
    assert ([s] + rest)[1..] == rest;
  }

  lemma LinesSingle(depth: int, s: Step)
    ensures Lines(depth, [s]) == [Line(s, depth)]
  {
    assert [s][1..] == [];
  }

  /** A line of code at the given depth. */
  function Indented(depth: int, code: string): string {
    Tabs(depth) + code + "\n"
  }

  lemma CodeLine(depth: int, code: string)
    ensures Line(Code(code, false, true), depth) == Indented(depth, code)
  {
  }

  lemma VariableStepLine(depth: int, qualifier: string, dataType: string, name: string, assignment: string)
    ensures Line(Variable(qualifier, dataType, name, assignment), depth)
         == VariableLine(depth, qualifier, dataType, name, assignment)
  {
    assert Line(Variable(qualifier, dataType, name, assignment), depth)
        == "" + VariableLine(depth, qualifier, dataType, name, assignment);
  }

  lemma UnqualifiedInitialisedLine(depth: int, dataType: string, name: string, init: string)
    requires init != ""
    ensures VariableLine(depth, "", dataType, name, init) == Tabs(depth) + "" + dataType + " " + name + (" = " + init + ";\n")
  {
  }

  lemma RegroupDeclaration(tabs: string, dataType: string, name: string, init: string)
    ensures tabs + "" + dataType + " " + name + (" = " + init + ";\n")
         == tabs + (dataType + " " + name + " = " + init + ";") + "\n"
  {
    assert ";\n" == ";" + "\n";
  }

  /** An unqualified declaration with an initial value, as a line of code. */
  lemma InitialisedDeclarationLine(depth: int, dataType: string, name: string, init: string)
    requires init != ""
    ensures Line(Variable("", dataType, name, init), depth)
         == Indented(depth, dataType + " " + name + " = " + init + ";")
  {
    VariableStepLine(depth, "", dataType, name, init);
    UnqualifiedInitialisedLine(depth, dataType, name, init);
    RegroupDeclaration(Tabs(depth), dataType, name, init);
  }

  lemma IfLine(depth: int, condition: string)
    ensures Line(OpenIf(condition), depth) == Indented(depth, "if (" + condition + ") {")
  {
    assert Line(OpenIf(condition), depth) == "" + (Tabs(depth) + ("if (" + condition + ")") + " {\n");
    assert ")" + " {\n" == ") {" + "\n";
  }

  lemma BareStatementLine(depth: int, name: string)
    ensures Line(Statement(name, ""), depth) == Indented(depth, name + ";")
  {
    assert Line(Statement(name, ""), depth) == "" + (Tabs(depth) + name + ";\n");
    assert ";\n" == ";" + "\n";
  }

  /** `closeIf(false)` writes its brace one level out. */
  lemma EndIfLine(depth: int)
    ensures Line(CloseIf(false), depth) == Indented(depth - 1, "}")
  {
    assert Line(CloseIf(false), depth) == "" + (Tabs(depth - 1) + ("}" + "\n"));
  }

  /** The lines that open and close `main` at the top level. */
  lemma MainBraceLines()
    ensures Line(OpenMain, 0) == "void main () {\n"
    ensures Line(CloseFunction, 1) == "}\n"
  {
    assert Tabs(0) == "" && Tabs(1 - 1) == "";
    assert Line(OpenMain, 0) == "" + ("" + "void main ()" + " {\n");
    assert Line(CloseFunction, 1) == "" + ("" + "}" + "\n");
  }

  /** Opening `main` at the top level puts the body one level in. */
  lemma MainOpenLines(body: seq<Step>)
    ensures Lines(0, [OpenMain] + body) == ["void main () {\n"] + Lines(1, body)
  {
    LinesCons(0, OpenMain, body);
    MainBraceLines();
  }

  /** Closing `main` from one level in writes a bare brace at the top level. */
  lemma MainCloseLines(front: seq<Step>)
    requires Net(front) == 1
    ensures Lines(0, front + [CloseFunction]) == Lines(0, front) + ["}\n"]
  {
    LinesConcat(0, front, [CloseFunction]);
    LinesSingle(1, CloseFunction);
    MainBraceLines();
  }

  /** `main` around a body with no net depth change: the opening line, the
      body's lines one level in, the closing brace at the top level. */
  lemma MainWrapLines(body: seq<Step>)
    requires Net(body) == 0
    ensures Lines(0, [OpenMain] + body + [CloseFunction]) == ["void main () {\n"] + Lines(1, body) + ["}\n"]
  {
    SingleStep(0, OpenMain);
    NetConcat([OpenMain], body);
    MainOpenLines(body);
    MainCloseLines([OpenMain] + body);
  }
}
