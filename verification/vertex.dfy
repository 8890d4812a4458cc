/** `genDynamicVertexShader`: the vertex-shader preset, a fixed plan over three
    feature flags read from the caller's list of modifier ints. */
module VertexPreset {
  import opened Decimal
  import opened Emitter
  import opened Emission

  /** Take normals from location 2 and pass them on. */
  const V_USE_NORMALS: int := 1
  /** Use the camera's `proj` and `view` matrices. */
  const V_USE_CAMERA: int := 2
  /** Use the model's `transform` matrix. */
  const V_USE_MODEL_TRANSFORM: int := 3
  const V_PRESET_ALL: seq<int> := [1, 2, 3]

  /** The three switches the preset reads from its modifiers. */
  datatype Features = Features(normals: bool, camera: bool, transform: bool)

  /** Which switches a list of modifiers turns on: membership alone counts, so
      order, repetitions and unknown values make no difference. */
  function FeaturesOf(modifiers: seq<int>): Features {
    Features(V_USE_NORMALS in modifiers, V_USE_CAMERA in modifiers, V_USE_MODEL_TRANSFORM in modifiers)
  }

  /** The source's loop over the modifiers. */
  method ReadModifiers(modifiers: seq<int>) returns (f: Features)
    ensures f.normals <==> V_USE_NORMALS in modifiers
    ensures f.camera <==> V_USE_CAMERA in modifiers
    ensures f.transform <==> V_USE_MODEL_TRANSFORM in modifiers
  {
    var normals, camera, transform := false, false, false;
    for i := 0 to |modifiers|
      invariant normals <==> V_USE_NORMALS in modifiers[..i]
      invariant camera <==> V_USE_CAMERA in modifiers[..i]
      invariant transform <==> V_USE_MODEL_TRANSFORM in modifiers[..i]
    {
      assert modifiers[..i + 1] == modifiers[..i] + [modifiers[i]];
      if modifiers[i] == V_USE_NORMALS { normals := true; }
      if modifiers[i] == V_USE_CAMERA { camera := true; }
      if modifiers[i] == V_USE_MODEL_TRANSFORM { transform := true; }
    }
    assert modifiers[..|modifiers|] == modifiers;
    f := Features(normals, camera, transform);
  }

  // ---------------------------------------------------------------- the plan

  function PositionDeclarations(): seq<Step> {
    [LayoutVariable(0, "in", "vec3", "vPos"), Variable("out", "vec4", "worldPos", ""), LineBreak]
  }

  function TexCoordDeclarations(): seq<Step> {
    [LayoutVariable(1, "in", "vec2", "vTexCoords"), Variable("out", "vec2", "texCoords", ""), LineBreak]
  }

  function NormalDeclarations(f: Features): seq<Step> {
    if f.normals then [LayoutVariable(2, "in", "vec3", "vNormal"), Variable("out", "vec3", "normal", ""), LineBreak]
    else []
  }

  function TransformUniform(f: Features): seq<Step> {
    if f.transform then [Variable("uniform", "mat4", "transform", "")] else []
  }

  function CameraUniforms(f: Features): seq<Step> {
    if f.camera then [Variable("uniform", "mat4", "view", ""), Variable("uniform", "mat4", "proj", "")] else []
  }

  /** Everything before `main`, all at the top level. */
  function Declarations(f: Features): seq<Step> {
    PositionDeclarations() + TexCoordDeclarations() + NormalDeclarations(f)
    + TransformUniform(f) + CameraUniforms(f) + [LineBreak]
  }

  /** The world position: the model matrix applies only when requested. The
      source concatenates `" vec4"` after the optional factor, hence the double space. */
  function WorldPosition(f: Features): string {
    "worldPos = " + (if f.transform then "transform * " else "") + " vec4(vPos, 1.0);"
  }

  /** The clip position: projection and view apply only with the camera. */
  function ClipPosition(f: Features): string {
    "gl_Position = " + (if f.camera then "proj * view * " else "") + " worldPos;"
  }

  function MainStatements(f: Features): seq<Step> {
    [Code(WorldPosition(f), false, true), Code(ClipPosition(f), false, true),
     Code("texCoords = vTexCoords;", false, true)]
    + (if f.normals then [Code("normal = vNormal;", false, true)] else [])
  }

  function MainFunction(f: Features): seq<Step> {
    [OpenMain] + MainStatements(f) + [CloseFunction]
  }

  function VertexPlan(f: Features): seq<Step> {
    Declarations(f) + MainFunction(f)
  }

  /** The shader text for a set of features. */
  function VertexShader(f: Features): string {
    Build(Run(NewCore(330), VertexPlan(f)))
  }

  lemma VertexShaderStartsWithVersion(f: Features)
    ensures StartsWith(VertexShader(f), "#version 330 core\n")
  {
    VersionLine();
    BuildOnlyGrows(NewCore(330), VertexPlan(f));
  }

  /** `genDynamicVertexShader(modifiers…)` */
  method GenDynamicVertexShader(modifiers: seq<int>) returns (glsl: string)
    ensures StartsWith(glsl, "#version 330 core\n")
    ensures glsl == VertexShader(FeaturesOf(modifiers))
  {
    var f := ReadModifiers(modifiers);
    glsl := VertexShader(f);
    VertexShaderStartsWithVersion(f);
  }

  // ---------------------------------------------------------------- properties

  lemma DeclarationsNeutral(f: Features)
    ensures Balanced(Declarations(f)) && Net(Declarations(f)) == 0
  {
    var d := Declarations(f);
    forall s | s in d
      ensures Neutral(s)
    {
      DeclarationShape(f, s);
    }
    NeutralPlanBalanced(d);
  }

  /** A declaration step declares a variable or breaks the line. */
  lemma DeclarationShape(f: Features, s: Step)
    requires s in Declarations(f)
    ensures s.Variable? || s.LayoutVariable? || s.LineBreak?
  {
    var front := PositionDeclarations() + TexCoordDeclarations() + NormalDeclarations(f);
    assert s in front + TransformUniform(f) + CameraUniforms(f) || s == LineBreak;
    if s in front {
      assert s in PositionDeclarations() || s in TexCoordDeclarations() || s in NormalDeclarations(f);
    }
  }

  /** Every scope the vertex preset opens is closed, no closer underflows, and
      the emitter ends at depth 0; the checked run therefore agrees with it. */
  lemma VertexPlanBalanced(f: Features)
    ensures Balanced(VertexPlan(f))
    ensures Run(NewCore(330), VertexPlan(f)).depth == 0
    ensures RunChecked(NewCore(330), VertexPlan(f)) == Emitted(Run(NewCore(330), VertexPlan(f)))
  {
    DeclarationsNeutral(f);
    var body := MainStatements(f);
    forall i | 0 <= i < |body|
      ensures Neutral(body[i])
    {
      assert body[i] in body;
    }
    NeutralBalanced(body);
    WrapBalanced(OpenMain, body, CloseFunction);
    BalancedConcat(Declarations(f), MainFunction(f));
    RunAppends(NewCore(330), VertexPlan(f));
    RunCheckedSucceedsIff(NewCore(330), VertexPlan(f));
  }

  /** A step is in the plan exactly when it is in one of its parts. */
  lemma InVertexPlan(f: Features, s: Step)
    ensures s in VertexPlan(f) <==>
              || s in PositionDeclarations() || s in TexCoordDeclarations() || s in NormalDeclarations(f)
              || s in TransformUniform(f) || s in CameraUniforms(f) || s == LineBreak
              || s == OpenMain || s in MainStatements(f) || s == CloseFunction
  {
  }

  /** Position and texture coordinates are always declared. */
  lemma VertexAlwaysDeclares(f: Features)
    ensures LayoutVariable(0, "in", "vec3", "vPos") in VertexPlan(f)
    ensures Variable("out", "vec4", "worldPos", "") in VertexPlan(f)
    ensures LayoutVariable(1, "in", "vec2", "vTexCoords") in VertexPlan(f)
    ensures Variable("out", "vec2", "texCoords", "") in VertexPlan(f)
  {
    InVertexPlan(f, LayoutVariable(0, "in", "vec3", "vPos"));
    InVertexPlan(f, Variable("out", "vec4", "worldPos", ""));
    InVertexPlan(f, LayoutVariable(1, "in", "vec2", "vTexCoords"));
    InVertexPlan(f, Variable("out", "vec2", "texCoords", ""));
  }

  /** The location-2 normal input, its output and its pass-through appear
      exactly when normals are requested. */
  lemma VertexNormalsIffFlag(f: Features)
    ensures LayoutVariable(2, "in", "vec3", "vNormal") in VertexPlan(f) <==> f.normals
    ensures Variable("out", "vec3", "normal", "") in VertexPlan(f) <==> f.normals
    ensures Code("normal = vNormal;", false, true) in VertexPlan(f) <==> f.normals
  {
    NormalInputIffFlag(f);
    NormalOutputIffFlag(f);
    NormalCopyIffFlag(f);
  }

  // One fact each, so that each proof unfolds the plan once.

  lemma NormalInputIffFlag(f: Features)
    ensures LayoutVariable(2, "in", "vec3", "vNormal") in VertexPlan(f) <==> f.normals
  {
    InVertexPlan(f, LayoutVariable(2, "in", "vec3", "vNormal"));
  }

  lemma NormalOutputIffFlag(f: Features)
    ensures Variable("out", "vec3", "normal", "") in VertexPlan(f) <==> f.normals
  {
    InVertexPlan(f, Variable("out", "vec3", "normal", ""));
  }

  lemma NormalCopyIffFlag(f: Features)
    ensures Code("normal = vNormal;", false, true) in VertexPlan(f) <==> f.normals
  {
    InVertexPlan(f, Code("normal = vNormal;", false, true));
  }

  /** The `transform` uniform appears exactly with the model transform. */
  lemma VertexTransformIffFlag(f: Features)
    ensures Variable("uniform", "mat4", "transform", "") in VertexPlan(f) <==> f.transform
  {
    InVertexPlan(f, Variable("uniform", "mat4", "transform", ""));
  }

  /** The `view` and `proj` uniforms appear exactly with the camera. */
  lemma VertexCameraIffFlag(f: Features)
    ensures Variable("uniform", "mat4", "view", "") in VertexPlan(f) <==> f.camera
    ensures Variable("uniform", "mat4", "proj", "") in VertexPlan(f) <==> f.camera
  {
    InVertexPlan(f, Variable("uniform", "mat4", "view", ""));
    InVertexPlan(f, Variable("uniform", "mat4", "proj", ""));
  }

  /** The output depends only on which of the three known modifiers occur. */
  lemma VertexDependsOnlyOnMembership(a: seq<int>, b: seq<int>)
    requires V_USE_NORMALS in a <==> V_USE_NORMALS in b
    requires V_USE_CAMERA in a <==> V_USE_CAMERA in b
    requires V_USE_MODEL_TRANSFORM in a <==> V_USE_MODEL_TRANSFORM in b
    ensures VertexShader(FeaturesOf(a)) == VertexShader(FeaturesOf(b))
  {
  }

  // ---------------------------------------------------------------- text

  /** The lines of the `main` function: the header at the top level, one tab
      before each statement, the closing brace back at the top level. */
  function MainLines(f: Features): seq<string> {
    ["void main () {\n",
     Indented(1, WorldPosition(f)),
     Indented(1, ClipPosition(f)),
     Indented(1, "texCoords = vTexCoords;")]
    + (if f.normals then [Indented(1, "normal = vNormal;")] else [])
    + ["}\n"]
  }

  lemma MainStatementLines(f: Features)
    ensures Lines(1, MainStatements(f)) ==
              [Indented(1, WorldPosition(f)), Indented(1, ClipPosition(f)), Indented(1, "texCoords = vTexCoords;")]
              + (if f.normals then [Indented(1, "normal = vNormal;")] else [])
  {
    var c1 := Code(WorldPosition(f), false, true);
    var c2 := Code(ClipPosition(f), false, true);
    var c3 := Code("texCoords = vTexCoords;", false, true);
    var opt: seq<Step> := if f.normals then [Code("normal = vNormal;", false, true)] else [];
    assert MainStatements(f) == [c1] + ([c2] + ([c3] + opt));
    CodeLine(1, WorldPosition(f));
    CodeLine(1, ClipPosition(f));
    CodeLine(1, "texCoords = vTexCoords;");
    LinesCons(1, c1, [c2] + ([c3] + opt));
    LinesCons(1, c2, [c3] + opt);
    LinesCons(1, c3, opt);
    if f.normals {
      CodeLine(1, "normal = vNormal;");
      LinesSingle(1, Code("normal = vNormal;", false, true));
    }
    var l1, l2, l3 := Line(c1, 1), Line(c2, 1), Line(c3, 1);
    var rest := Lines(1, opt);
    assert Lines(1, MainStatements(f)) == [l1] + ([l2] + ([l3] + rest));
    assert [l1] + ([l2] + ([l3] + rest)) == [l1, l2, l3] + rest;
  }

  lemma MainStatementsNeutral(f: Features)
    ensures Net(MainStatements(f)) == 0
  {
    var stmts := MainStatements(f);
    forall i | 0 <= i < |stmts|
      ensures Neutral(stmts[i])
    {
      assert stmts[i] in stmts;
    }
    NeutralBalanced(stmts);
  }

  lemma MainFunctionLines(f: Features)
    ensures Lines(0, MainFunction(f)) == MainLines(f)
  {
    MainStatementsNeutral(f);
    MainWrapLines(MainStatements(f));
    MainStatementLines(f);
  }

  /** Every vertex shader ends with its `main` function, statements indented
      by one tab and the closing brace at the top level. */
  lemma VertexShaderEndsWithMain(f: Features)
    ensures EndsWith(VertexShader(f), Join(MainLines(f)))
  {
    DeclarationsNeutral(f);
    EndsWithLastPart(NewCore(330), Declarations(f), MainFunction(f));
    RenderIsJoin(0, MainFunction(f));
    MainFunctionLines(f);
  }
}
