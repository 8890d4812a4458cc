/** `genDynamicFragmentShader`: the fragment-shader preset, a fixed plan
    selected by one shader-kind int. The lighting blocks it pastes in are a
    parameter `blocks`; the source pastes `LightingBlocks.BlockText`. */
module FragmentPreset {
  import opened Emitter
  import opened Emission
  import opened LightingBlocks

  /** Diffuse texture only. */
  const F_SIMPLE_TEXTURED: int := 1
  /** Diffuse texture and a directional light. */
  const F_SIMPLE_DIR_LIGHT: int := 2
  /** Diffuse texture, a directional light and point lights. */
  const F_SIMPLE_WORLD_LIGHT: int := 3
  /** Material (diffuse and specular maps) and a directional light. */
  const F_SPECULAR_DIR_LIGHT: int := 4
  /** Material, a directional light and point lights. */
  const F_SPECULAR_WORLD_LIGHT: int := 5

  // The four switches derived from the kind. Any other int sets none of them.

  predicate SimpleLight(kind: int) {
    kind == F_SIMPLE_DIR_LIGHT || kind == F_SIMPLE_WORLD_LIGHT
  }

  predicate SpecularLight(kind: int) {
    kind == F_SPECULAR_DIR_LIGHT || kind == F_SPECULAR_WORLD_LIGHT
  }

  predicate AnyLight(kind: int) {
    SimpleLight(kind) || SpecularLight(kind)
  }

  predicate WorldLight(kind: int) {
    kind == F_SIMPLE_WORLD_LIGHT || kind == F_SPECULAR_WORLD_LIGHT
  }


  // ---------------------------------------------------------------- lighting

  /** A block pasted in as raw text. */
  function BlockStep(blocks: LightingBlock -> string, blk: LightingBlock): Step {
    Code(blocks(blk), true, true)
  }

  /** The lighting functions for a kind: the directional one of the kind's
      family, then the point-light one when the kind uses world lights. */
  function Lighting(blocks: LightingBlock -> string, kind: int): seq<Step> {
    if SimpleLight(kind) then
      [BlockStep(blocks, SimpleDirectional)] + Optional(WorldLight(kind), [BlockStep(blocks, SimplePoint)])
    else if SpecularLight(kind) then
      [BlockStep(blocks, SpecularDirectional)] + Optional(WorldLight(kind), [BlockStep(blocks, SpecularPoint)])
    else []
  }

  /** The table the lighting part follows. */
  predicate UsesBlock(kind: int, blk: LightingBlock) {
    match blk
    case SimpleDirectional => SimpleLight(kind)
    case SimplePoint => kind == F_SIMPLE_WORLD_LIGHT
    case SpecularDirectional => SpecularLight(kind)
    case SpecularPoint => kind == F_SPECULAR_WORLD_LIGHT
  }

  // ---------------------------------------------------------------- declarations

  /** The number of point lights a world-light shader has room for. */
  const CAPACITY_DIRECTIVE: string := "define NUM_POINT_LIGHTS 12"

  /** The point-light capacity directive for world-light kinds, then a blank line. */
  function Header(kind: int): seq<Step> {
    Optional(WorldLight(kind), [Directive(CAPACITY_DIRECTIVE)]) + [LineBreak]
  }

  /** A GLSL struct: its fields between the opening and the closing line. */
  function Struct(name: string, fields: seq<Step>): seq<Step> {
    [OpenStruct(name)] + fields + [CloseStruct]
  }

  function MaterialFields(): seq<Step> {
    [Variable("", "sampler2D", "diffuse", ""),
     Variable("", "sampler2D", "specular", ""),
     Variable("", "int", "shininess", "")]
  }

  function DirectionalLightFields(): seq<Step> {
    [Variable("", "vec3", "direction", ""),
     Variable("", "vec4", "color", ""),
     Variable("", "float", "intensity", "")]
  }

  function PointLightFields(): seq<Step> {
    [Variable("", "vec3", "position", ""),
     Variable("", "vec4", "color", ""),
     Variable("", "float", "intensity", ""),
     Variable("", "float", "falloffLinear", ""),
     Variable("", "float", "falloffQuadratic", "")]
  }

  /** The structs a kind needs, then a blank line. */
  function Structs(kind: int): seq<Step> {
    Optional(SpecularLight(kind), Struct("Material", MaterialFields()))
    + Optional(AnyLight(kind), Struct("DirectionalLight", DirectionalLightFields()))
    + Optional(WorldLight(kind), Struct("PointLight", PointLightFields()))
    + [LineBreak]
  }

  /** Inputs from the vertex stage and the colour output. */
  function Inputs(kind: int): seq<Step> {
    [Variable("in", "vec4", "worldPos", ""), Variable("in", "vec2", "texCoords", "")]
    + Optional(AnyLight(kind), [Variable("in", "vec3", "normal", "")])
    + [LineBreak, Variable("out", "vec4", "FragColor", ""), LineBreak]
  }

  /** The surface binding (a material or a plain texture), the lights, the camera. */
  function Uniforms(kind: int): seq<Step> {
    (if SpecularLight(kind) then [Variable("uniform", "Material", "material", "")]
     else [Variable("uniform", "sampler2D", "tex", "")])
    + Optional(AnyLight(kind),
               [Variable("uniform", "DirectionalLight", "directionalLight", ""),
                Variable("uniform", "vec4", "ambientLight", "")])
    + Optional(WorldLight(kind),
               [Variable("uniform", "PointLight", "pointLight[NUM_POINT_LIGHTS]", ""),
                Variable("uniform", "int", "pointLightsUsed", "")])
    + [Variable("uniform", "vec3", "camPos", "")]
  }

  // ---------------------------------------------------------------- main

  // The initial colour of a lit kind. The world-light kinds call `calculateLight`
  // with every light; the directional-only kinds call `calculateWorldLight` and
  // pass the directional light's own colour as the ambient term.

  const SIMPLE_WORLD_ARGS: string :=
    "directionalLight, pointLight, ambientLight, tex, texCoords, worldPos, normalize(normal)"
  const SIMPLE_WORLD_COLOUR: string := Call(CALCULATE_LIGHT, SIMPLE_WORLD_ARGS)
  const SIMPLE_DIRECTIONAL_ARGS: string :=
    "directionalLight, directionalLight.color, tex, texCoords, normalize(normal)"
  const SIMPLE_DIRECTIONAL_COLOUR: string := Call(CALCULATE_WORLD_LIGHT, SIMPLE_DIRECTIONAL_ARGS)
  const SPECULAR_WORLD_ARGS: string :=
    "directionalLight, pointLight, ambientLight, material, texCoords, worldPos, normalize(normal), normalize(camPos - vec3(worldPos.xyz))"
  const SPECULAR_WORLD_COLOUR: string := Call(CALCULATE_LIGHT, SPECULAR_WORLD_ARGS)
  const SPECULAR_DIRECTIONAL_ARGS: string :=
    "directionalLight, directionalLight.color, material, texCoords, normalize(normal), normalize(camPos - vec3(worldPos.xyz))"
  const SPECULAR_DIRECTIONAL_COLOUR: string := Call(CALCULATE_WORLD_LIGHT, SPECULAR_DIRECTIONAL_ARGS)

  function LitColour(kind: int): string
    requires AnyLight(kind)
  {
    if SimpleLight(kind) then
      if WorldLight(kind) then SIMPLE_WORLD_COLOUR else SIMPLE_DIRECTIONAL_COLOUR
    else
      if WorldLight(kind) then SPECULAR_WORLD_COLOUR else SPECULAR_DIRECTIONAL_COLOUR
  }

  /** The sampled colour of the textured kind. */
  const TEXTURE_SAMPLE: string := "texture(tex, texCoords)"

  /** The textured kind discards fully transparent fragments. */
  function DiscardBranch(): seq<Step> {
    [OpenIf("fCol.a == 0"), Statement("discard", ""), CloseIf(false)]
  }

  /** What `main` does before writing the colour out: declare `fCol` from the
      lights, or from the texture and discard fully transparent fragments; a
      kind outside 1..5 declares nothing. */
  function MainBody(kind: int): seq<Step> {
    if AnyLight(kind) then [Variable("", "vec4", "fCol", LitColour(kind))]
    else if kind == F_SIMPLE_TEXTURED then [Variable("", "vec4", "fCol", TEXTURE_SAMPLE)] + DiscardBranch()
    else []
  }

  /** The statement every kind ends `main` with. */
  function ColourOut(): Step {
    Code("FragColor = fCol;", false, true)
  }

  function MainFunction(kind: int): seq<Step> {
    [OpenMain] + (MainBody(kind) + [ColourOut()]) + [CloseFunction]
  }

  /** Everything before `main`. */
  function Preamble(blocks: LightingBlock -> string, kind: int): seq<Step> {
    Header(kind) + Structs(kind) + Inputs(kind) + Uniforms(kind) + Lighting(blocks, kind)
  }

  function FragmentPlan(blocks: LightingBlock -> string, kind: int): seq<Step> {
    Preamble(blocks, kind) + MainFunction(kind)
  }

  /** The shader text for a kind. */
  function FragmentShader(blocks: LightingBlock -> string, kind: int): string {
    Build(Run(NewCore(330), FragmentPlan(blocks, kind)))
  }

  // ---------------------------------------------------------------- balance

  /** A struct of plain fields is balanced. */
  lemma StructBalanced(name: string, fields: seq<Step>)
    requires forall f :: f in fields ==> f.Variable?
    ensures Balanced(Struct(name, fields))
  {
    NeutralPlanBalanced(fields);
    WrapBalanced(OpenStruct(name), fields, CloseStruct);
  }

  /** Optional balanced parts followed by a blank line stay balanced. */
  lemma OptionalPartsBalanced(c1: bool, a: seq<Step>, c2: bool, b: seq<Step>, c3: bool, c: seq<Step>)
    requires Balanced(a) && Balanced(b) && Balanced(c)
    ensures Balanced(Optional(c1, a) + Optional(c2, b) + Optional(c3, c) + [LineBreak])
  {
    OptionalBalanced(c1, a);
    OptionalBalanced(c2, b);
    OptionalBalanced(c3, c);
    NeutralPlanBalanced([LineBreak]);
    BalancedConcat(Optional(c1, a), Optional(c2, b));
    BalancedConcat(Optional(c1, a) + Optional(c2, b), Optional(c3, c));
    BalancedConcat(Optional(c1, a) + Optional(c2, b) + Optional(c3, c), [LineBreak]);
  }

  lemma StructsBalanced(kind: int)
    ensures Balanced(Structs(kind))
  {
    StructBalanced("Material", MaterialFields());
    StructBalanced("DirectionalLight", DirectionalLightFields());
    StructBalanced("PointLight", PointLightFields());
    OptionalPartsBalanced(SpecularLight(kind), Struct("Material", MaterialFields()),
                          AnyLight(kind), Struct("DirectionalLight", DirectionalLightFields()),
                          WorldLight(kind), Struct("PointLight", PointLightFields()));
  }

  lemma HeaderNeutral(kind: int)
    ensures Balanced(Header(kind))
  {
    NeutralPlanBalanced(Header(kind));
  }

  lemma InputsNeutral(kind: int)
    ensures Balanced(Inputs(kind))
  {
    NeutralPlanBalanced(Inputs(kind));
  }

  lemma UniformsNeutral(kind: int)
    ensures Balanced(Uniforms(kind))
  {
    forall t | t in Uniforms(kind)
      ensures Neutral(t)
    {
      UniformsShape(kind, t);
    }
    NeutralPlanBalanced(Uniforms(kind));
  }

  lemma LightingNeutral(blocks: LightingBlock -> string, kind: int)
    ensures Balanced(Lighting(blocks, kind))
  {
    NeutralPlanBalanced(Lighting(blocks, kind));
  }

  /** Five balanced parts in a row are balanced. */
  lemma FivePartsBalanced(a: seq<Step>, b: seq<Step>, c: seq<Step>, d: seq<Step>, e: seq<Step>)
    requires Balanced(a) && Balanced(b) && Balanced(c) && Balanced(d) && Balanced(e)
    ensures Balanced(a + b + c + d + e) && Net(a + b + c + d + e) == 0
  {
    BalancedConcat(a, b);
    BalancedConcat(a + b, c);
    BalancedConcat(a + b + c, d);
    BalancedConcat(a + b + c + d, e);
  }

  lemma PreambleBalanced(blocks: LightingBlock -> string, kind: int)
    ensures Balanced(Preamble(blocks, kind)) && Net(Preamble(blocks, kind)) == 0
  {
    HeaderNeutral(kind);
    StructsBalanced(kind);
    InputsNeutral(kind);
    UniformsNeutral(kind);
    LightingNeutral(blocks, kind);
    FivePartsBalanced(Header(kind), Structs(kind), Inputs(kind), Uniforms(kind), Lighting(blocks, kind));
  }

  /** The textured kind's discard branch is a balanced `if`. */
  lemma TexturedBodyBalanced()
    ensures Balanced(MainBody(F_SIMPLE_TEXTURED))
  {
    var declare: seq<Step> := [Variable("", "vec4", "fCol", TEXTURE_SAMPLE)];
    NeutralPlanBalanced(declare);
    NeutralPlanBalanced([Statement("discard", "")]);
    WrapBalanced(OpenIf("fCol.a == 0"), [Statement("discard", "")], CloseIf(false));
    assert DiscardBranch() == [OpenIf("fCol.a == 0")] + [Statement("discard", "")] + [CloseIf(false)];
    BalancedConcat(declare, DiscardBranch());
  }

  /** The other bodies declare at most `fCol` and open nothing. */
  lemma UntexturedBodyNeutral(kind: int)
    requires kind != F_SIMPLE_TEXTURED
    ensures Balanced(MainBody(kind))
  {
    NeutralPlanBalanced(MainBody(kind));
  }

  lemma BalancedThenNeutral(xs: seq<Step>, s: Step)
    requires Balanced(xs) && Neutral(s)
    ensures Balanced(xs + [s])
  {
    NeutralPlanBalanced([s]);
    BalancedConcat(xs, [s]);
  }

  lemma MainBodyBalanced(kind: int)
    ensures Balanced(MainBody(kind) + [ColourOut()])
  {
    if kind == F_SIMPLE_TEXTURED {
      TexturedBodyBalanced();
    } else {
      UntexturedBodyNeutral(kind);
    }
    BalancedThenNeutral(MainBody(kind), ColourOut());
  }

  /** Every kind, known or not, closes every scope it opens, never closes with
      nothing open, and leaves the emitter at depth 0, so the checked run
      agrees with the unguarded one. */
  lemma FragmentPlanBalanced(blocks: LightingBlock -> string, kind: int)
    ensures Balanced(FragmentPlan(blocks, kind))
    ensures Run(NewCore(330), FragmentPlan(blocks, kind)).depth == 0
    ensures RunChecked(NewCore(330), FragmentPlan(blocks, kind)) == Emitted(Run(NewCore(330), FragmentPlan(blocks, kind)))
  {
    var plan := FragmentPlan(blocks, kind);
    PreambleBalanced(blocks, kind);
    MainBodyBalanced(kind);
    WrapBalanced(OpenMain, MainBody(kind) + [ColourOut()], CloseFunction);
    BalancedConcat(Preamble(blocks, kind), MainFunction(kind));
    RunAppends(NewCore(330), plan);
    RunCheckedSucceedsIff(NewCore(330), plan);
  }

  // ---------------------------------------------------------------- what each kind declares

  /** A step is in the plan exactly when it is in one of its parts. */
  lemma InFragmentPlan(blocks: LightingBlock -> string, kind: int, s: Step)
    ensures s in FragmentPlan(blocks, kind) <==>
              || s in Header(kind) || s in Structs(kind) || s in Inputs(kind) || s in Uniforms(kind)
              || s in Lighting(blocks, kind) || s == OpenMain || s in MainBody(kind) || s == ColourOut()
              || s == CloseFunction
  {
  }

  // Each part of the plan holds one sort of step, so a step is looked up in
  // the one part that can hold it.

  predicate HeaderStep(t: Step) {
    t.Directive? || t.LineBreak?
  }

  /** Every struct field is an unqualified declaration whose name is not `fCol`. */
  predicate PlainField(t: Step) {
    t.Variable? && t.qualifier == "" && |t.name| != 4
  }

  predicate StructStep(t: Step) {
    t.OpenStruct? || t.CloseStruct? || t.LineBreak? || PlainField(t)
  }

  predicate InputStep(t: Step) {
    t.LineBreak? || (t.Variable? && (t.qualifier == "in" || t.qualifier == "out"))
  }

  predicate UniformStep(t: Step) {
    t.Variable? && t.qualifier == "uniform"
  }

  predicate LightingStep(t: Step) {
    t.Code? && t.ignoreTabs
  }

  predicate BodyStep(t: Step) {
    (t.Variable? && t.qualifier == "" && t.name == "fCol") || t.OpenIf? || t.Statement? || t.CloseIf?
  }

  lemma HeaderShape(kind: int, t: Step)
    ensures t in Header(kind) ==> HeaderStep(t)
  {
  }

  /** A struct holds its opening line, its fields and its closing line. */
  lemma InStruct(name: string, fields: seq<Step>, t: Step)
    ensures t in Struct(name, fields) <==> t == OpenStruct(name) || t in fields || t == CloseStruct
  {
  }

  /** The fields of every struct the preset declares are plain. */
  lemma FieldsArePlain()
    ensures forall f :: f in MaterialFields() ==> PlainField(f)
    ensures forall f :: f in DirectionalLightFields() ==> PlainField(f)
    ensures forall f :: f in PointLightFields() ==> PlainField(f)
  {
  }

  lemma StructHolds(name: string, fields: seq<Step>, t: Step)
    requires forall f :: f in fields ==> PlainField(f)
    ensures t in Struct(name, fields) ==> StructStep(t)
  {
    InStruct(name, fields, t);
  }

  lemma StructsShape(kind: int, t: Step)
    ensures t in Structs(kind) ==> StructStep(t)
  {
    FieldsArePlain();
    StructHolds("Material", MaterialFields(), t);
    StructHolds("DirectionalLight", DirectionalLightFields(), t);
    StructHolds("PointLight", PointLightFields(), t);
  }

  lemma InputsShape(kind: int, t: Step)
    ensures t in Inputs(kind) ==> InputStep(t)
  {
  }

  lemma UniformsShape(kind: int, t: Step)
    ensures t in Uniforms(kind) ==> UniformStep(t)
  {
  }

  lemma LightingShape(blocks: LightingBlock -> string, kind: int, t: Step)
    ensures t in Lighting(blocks, kind) ==> LightingStep(t)
  {
  }

  lemma MainBodyShape(kind: int, t: Step)
    ensures t in MainBody(kind) ==> BodyStep(t)
  {
  }

  // Where each sort of step can come from.

  lemma DirectiveFromHeader(blocks: LightingBlock -> string, kind: int, s: Step)
    requires s.Directive?
    ensures s in FragmentPlan(blocks, kind) <==> s in Header(kind)
  {
    InFragmentPlan(blocks, kind, s);
    StructsShape(kind, s);
    InputsShape(kind, s);
    UniformsShape(kind, s);
    LightingShape(blocks, kind, s);
    MainBodyShape(kind, s);
  }

  lemma StructFromStructs(blocks: LightingBlock -> string, kind: int, s: Step)
    requires s.OpenStruct?
    ensures s in FragmentPlan(blocks, kind) <==> s in Structs(kind)
  {
    InFragmentPlan(blocks, kind, s);
    HeaderShape(kind, s);
    InputsShape(kind, s);
    UniformsShape(kind, s);
    LightingShape(blocks, kind, s);
    MainBodyShape(kind, s);
  }

  lemma InputFromInputs(blocks: LightingBlock -> string, kind: int, s: Step)
    requires s.Variable? && (s.qualifier == "in" || s.qualifier == "out")
    ensures s in FragmentPlan(blocks, kind) <==> s in Inputs(kind)
  {
    InFragmentPlan(blocks, kind, s);
    HeaderShape(kind, s);
    StructsShape(kind, s);
    UniformsShape(kind, s);
    LightingShape(blocks, kind, s);
    MainBodyShape(kind, s);
  }

  lemma UniformFromUniforms(blocks: LightingBlock -> string, kind: int, s: Step)
    requires s.Variable? && s.qualifier == "uniform"
    ensures s in FragmentPlan(blocks, kind) <==> s in Uniforms(kind)
  {
    InFragmentPlan(blocks, kind, s);
    HeaderShape(kind, s);
    StructsShape(kind, s);
    InputsShape(kind, s);
    LightingShape(blocks, kind, s);
    MainBodyShape(kind, s);
  }

  lemma BlockFromLighting(blocks: LightingBlock -> string, kind: int, s: Step)
    requires s.Code? && s.ignoreTabs
    ensures s in FragmentPlan(blocks, kind) <==> s in Lighting(blocks, kind)
  {
    InFragmentPlan(blocks, kind, s);
    HeaderShape(kind, s);
    StructsShape(kind, s);
    InputsShape(kind, s);
    UniformsShape(kind, s);
    MainBodyShape(kind, s);
  }

  lemma ColourFromMainBody(blocks: LightingBlock -> string, kind: int, s: Step)
    requires s.Variable? && s.qualifier == "" && s.name == "fCol"
    ensures s in FragmentPlan(blocks, kind) <==> s in MainBody(kind)
  {
    InFragmentPlan(blocks, kind, s);
    HeaderShape(kind, s);
    StructsShape(kind, s);
    InputsShape(kind, s);
    UniformsShape(kind, s);
    LightingShape(blocks, kind, s);
  }

  /** The point-light capacity directive is written exactly for world-light kinds. */
  lemma CapacityDirectiveIffWorld(blocks: LightingBlock -> string, kind: int)
    ensures Directive(CAPACITY_DIRECTIVE) in FragmentPlan(blocks, kind) <==> WorldLight(kind)
  {
    DirectiveFromHeader(blocks, kind, Directive(CAPACITY_DIRECTIVE));
  }

  /** A struct of plain fields opens only under its own name. */
  lemma OpensStruct(name: string, fields: seq<Step>, other: string)
    requires forall f :: f in fields ==> f.Variable?
    ensures OpenStruct(other) in Struct(name, fields) <==> other == name
  {
    InStruct(name, fields, OpenStruct(other));
  }

  /** The structs of a kind are opened under the names its switches ask for. */
  lemma StructOpenedIff(kind: int, name: string)
    ensures OpenStruct(name) in Structs(kind) <==>
              || (SpecularLight(kind) && name == "Material")
              || (AnyLight(kind) && name == "DirectionalLight")
              || (WorldLight(kind) && name == "PointLight")
  {
    OpensStruct("Material", MaterialFields(), name);
    OpensStruct("DirectionalLight", DirectionalLightFields(), name);
    OpensStruct("PointLight", PointLightFields(), name);
  }

  /** The material struct exists exactly for specular kinds. */
  lemma MaterialStructIffSpecular(blocks: LightingBlock -> string, kind: int)
    ensures OpenStruct("Material") in FragmentPlan(blocks, kind) <==> SpecularLight(kind)
  {
    StructFromStructs(blocks, kind, OpenStruct("Material"));
    StructOpenedIff(kind, "Material");
  }

  /** The directional light struct exists exactly for lit kinds. */
  lemma DirectionalStructIffLit(blocks: LightingBlock -> string, kind: int)
    ensures OpenStruct("DirectionalLight") in FragmentPlan(blocks, kind) <==> AnyLight(kind)
  {
    StructFromStructs(blocks, kind, OpenStruct("DirectionalLight"));
    StructOpenedIff(kind, "DirectionalLight");
  }

  /** The point light struct exists exactly for world-light kinds. */
  lemma PointStructIffWorld(blocks: LightingBlock -> string, kind: int)
    ensures OpenStruct("PointLight") in FragmentPlan(blocks, kind) <==> WorldLight(kind)
  {
    StructFromStructs(blocks, kind, OpenStruct("PointLight"));
    StructOpenedIff(kind, "PointLight");
  }

  /** Position, texture coordinates and the colour output are declared for
      every kind; the normal input only for lit kinds. */
  lemma InputsByKind(blocks: LightingBlock -> string, kind: int)
    ensures Variable("in", "vec4", "worldPos", "") in FragmentPlan(blocks, kind)
    ensures Variable("in", "vec2", "texCoords", "") in FragmentPlan(blocks, kind)
    ensures Variable("out", "vec4", "FragColor", "") in FragmentPlan(blocks, kind)
    ensures Variable("in", "vec3", "normal", "") in FragmentPlan(blocks, kind) <==> AnyLight(kind)
  {
    InputFromInputs(blocks, kind, Variable("in", "vec4", "worldPos", ""));
    InputFromInputs(blocks, kind, Variable("in", "vec2", "texCoords", ""));
    InputFromInputs(blocks, kind, Variable("out", "vec4", "FragColor", ""));
    InputFromInputs(blocks, kind, Variable("in", "vec3", "normal", ""));
  }

  /** The surface is a material for specular kinds ... */
  lemma MaterialUniformIffSpecular(blocks: LightingBlock -> string, kind: int)
    ensures Variable("uniform", "Material", "material", "") in FragmentPlan(blocks, kind) <==> SpecularLight(kind)
  {
    UniformFromUniforms(blocks, kind, Variable("uniform", "Material", "material", ""));
  }

  /** ... and a plain texture otherwise. */
  lemma TextureUniformIffNotSpecular(blocks: LightingBlock -> string, kind: int)
    ensures Variable("uniform", "sampler2D", "tex", "") in FragmentPlan(blocks, kind) <==> !SpecularLight(kind)
  {
    UniformFromUniforms(blocks, kind, Variable("uniform", "sampler2D", "tex", ""));
  }

  /** The directional light and the ambient colour are bound for every lit kind. */
  lemma DirectionalUniformsIffLit(blocks: LightingBlock -> string, kind: int)
    ensures Variable("uniform", "DirectionalLight", "directionalLight", "") in FragmentPlan(blocks, kind)
            <==> AnyLight(kind)
    ensures Variable("uniform", "vec4", "ambientLight", "") in FragmentPlan(blocks, kind) <==> AnyLight(kind)
  {
    UniformFromUniforms(blocks, kind, Variable("uniform", "DirectionalLight", "directionalLight", ""));
    UniformFromUniforms(blocks, kind, Variable("uniform", "vec4", "ambientLight", ""));
  }

  /** The point-light array is bound exactly for world-light kinds. */
  lemma PointLightArrayIffWorld(blocks: LightingBlock -> string, kind: int)
    ensures Variable("uniform", "PointLight", "pointLight[NUM_POINT_LIGHTS]", "") in FragmentPlan(blocks, kind)
            <==> WorldLight(kind)
  {
    UniformFromUniforms(blocks, kind, Variable("uniform", "PointLight", "pointLight[NUM_POINT_LIGHTS]", ""));
  }

  /** The number of point lights in use is bound exactly for world-light kinds. */
  lemma PointLightCountIffWorld(blocks: LightingBlock -> string, kind: int)
    ensures Variable("uniform", "int", "pointLightsUsed", "") in FragmentPlan(blocks, kind) <==> WorldLight(kind)
  {
    UniformFromUniforms(blocks, kind, Variable("uniform", "int", "pointLightsUsed", ""));
  }

  /** The camera position is bound for every kind. */
  lemma CameraUniformAlways(blocks: LightingBlock -> string, kind: int)
    ensures Variable("uniform", "vec3", "camPos", "") in FragmentPlan(blocks, kind)
  {
    UniformFromUniforms(blocks, kind, Variable("uniform", "vec3", "camPos", ""));
  }

  // ---------------------------------------------------------------- main and lighting per kind

  /** `main` always writes `fCol` out, but only kinds 1 to 5 declare it: any
      other int yields a shader that uses an undeclared variable. */
  lemma ColourDeclaredIffKnownKind(blocks: LightingBlock -> string, kind: int)
    ensures ColourOut() in FragmentPlan(blocks, kind)
    ensures (exists init :: Variable("", "vec4", "fCol", init) in FragmentPlan(blocks, kind))
            <==> F_SIMPLE_TEXTURED <= kind <= F_SPECULAR_WORLD_LIGHT
  {
    InFragmentPlan(blocks, kind, ColourOut());
    if F_SIMPLE_TEXTURED <= kind <= F_SPECULAR_WORLD_LIGHT {
      var init := if AnyLight(kind) then LitColour(kind) else TEXTURE_SAMPLE;
      ColourFromMainBody(blocks, kind, Variable("", "vec4", "fCol", init));
    } else {
      forall init | true
        ensures Variable("", "vec4", "fCol", init) !in FragmentPlan(blocks, kind)
      {
        ColourFromMainBody(blocks, kind, Variable("", "vec4", "fCol", init));
      }
    }
  }

  /** Different blocks with different texts are different steps. */
  lemma SameBlockStep(blocks: LightingBlock -> string, a: LightingBlock, b: LightingBlock)
    requires Distinct(blocks)
    ensures BlockStep(blocks, a) == BlockStep(blocks, b) <==> a == b
  {
    if a != b {
      assert blocks(a) != blocks(b);
    }
  }

  /** A family's lighting part holds its directional step and, when asked for, its point step. */
  lemma InFamilyLighting(x: Step, directional: Step, point: Step, world: bool)
    ensures x in [directional] + Optional(world, [point]) <==> x == directional || (world && x == point)
  {
  }

  lemma InSimpleLighting(blocks: LightingBlock -> string, kind: int, blk: LightingBlock)
    requires Distinct(blocks)
    requires SimpleLight(kind)
    ensures BlockStep(blocks, blk) in Lighting(blocks, kind)
            <==> blk == SimpleDirectional || (WorldLight(kind) && blk == SimplePoint)
  {
    InFamilyLighting(BlockStep(blocks, blk), BlockStep(blocks, SimpleDirectional), BlockStep(blocks, SimplePoint),
                     WorldLight(kind));
    SameBlockStep(blocks, blk, SimpleDirectional);
    SameBlockStep(blocks, blk, SimplePoint);
  }

  lemma InSpecularLighting(blocks: LightingBlock -> string, kind: int, blk: LightingBlock)
    requires Distinct(blocks)
    requires SpecularLight(kind)
    ensures BlockStep(blocks, blk) in Lighting(blocks, kind)
            <==> blk == SpecularDirectional || (WorldLight(kind) && blk == SpecularPoint)
  {
    InFamilyLighting(BlockStep(blocks, blk), BlockStep(blocks, SpecularDirectional), BlockStep(blocks, SpecularPoint),
                     WorldLight(kind));
    SameBlockStep(blocks, blk, SpecularDirectional);
    SameBlockStep(blocks, blk, SpecularPoint);
  }

  lemma InLighting(blocks: LightingBlock -> string, kind: int, blk: LightingBlock)
    requires Distinct(blocks)
    ensures BlockStep(blocks, blk) in Lighting(blocks, kind) <==> UsesBlock(kind, blk)
  {
    if SimpleLight(kind) {
      InSimpleLighting(blocks, kind, blk);
    } else if SpecularLight(kind) {
      InSpecularLighting(blocks, kind, blk);
    }
  }

  /** Which lighting functions each kind pastes in: the directional block of the
      kind's family for every lit kind, the point-light block of that family
      for the world-light kind, nothing for the textured or an unknown kind. */
  lemma LightingBlockIffKind(blocks: LightingBlock -> string, kind: int, blk: LightingBlock)
    requires Distinct(blocks)
    ensures BlockStep(blocks, blk) in FragmentPlan(blocks, kind) <==> UsesBlock(kind, blk)
  {
    BlockFromLighting(blocks, kind, BlockStep(blocks, blk));
    InLighting(blocks, kind, blk);
  }

  /** A block the kind uses is in its plan, whatever the texts. */
  lemma UsedBlockInPlan(blocks: LightingBlock -> string, kind: int, blk: LightingBlock)
    requires UsesBlock(kind, blk)
    ensures BlockStep(blocks, blk) in FragmentPlan(blocks, kind)
  {
    InFragmentPlan(blocks, kind, BlockStep(blocks, blk));
  }

  // ---------------------------------------------------------------- calls and definitions

  lemma CallHead(name: string, args: string)
    ensures StartsWith(Call(name, args), name + "(")
  {
    assert Call(name, args) == (name + "(") + (args + ")");
  }

  /** The function a lit kind's `main` calls for its colour. */
  function Callee(kind: int): string
    requires AnyLight(kind)
  {
    if WorldLight(kind) then CALCULATE_LIGHT else CALCULATE_WORLD_LIGHT
  }

  lemma LitColourCalls(kind: int)
    requires AnyLight(kind)
    ensures StartsWith(LitColour(kind), Callee(kind) + "(")
  {
    if SimpleLight(kind) {
      if WorldLight(kind) {
        CallHead(CALCULATE_LIGHT, SIMPLE_WORLD_ARGS);
      } else {
        CallHead(CALCULATE_WORLD_LIGHT, SIMPLE_DIRECTIONAL_ARGS);
      }
    } else {
      if WorldLight(kind) {
        CallHead(CALCULATE_LIGHT, SPECULAR_WORLD_ARGS);
      } else {
        CallHead(CALCULATE_WORLD_LIGHT, SPECULAR_DIRECTIONAL_ARGS);
      }
    }
  }

  /** The block of a lit kind that defines the function its `main` calls. */
  function CalleeBlock(kind: int): (blk: LightingBlock)
    requires AnyLight(kind)
    ensures UsesBlock(kind, blk)
  {
    if SimpleLight(kind) then (if WorldLight(kind) then SimplePoint else SimpleDirectional)
    else (if WorldLight(kind) then SpecularPoint else SpecularDirectional)
  }

  /** Some block the kind pastes in defines the named function. */
  predicate PastedDefinition(blocks: LightingBlock -> string, kind: int, name: string) {
    exists blk :: BlockStep(blocks, blk) in FragmentPlan(blocks, kind) && Defines(blocks(blk), name)
  }

  /** The callee's block defines the callee, when each block defines what it is named for. */
  lemma CalleeBlockDefines(blocks: LightingBlock -> string, kind: int)
    requires NamedDefinitions(blocks)
    requires AnyLight(kind)
    ensures Defines(blocks(CalleeBlock(kind)), Callee(kind))
  {
  }

  /** Every lit kind's `main` calls a function that one of the kind's pasted
      blocks defines: `calculateLight` for the world-light kinds,
      `calculateWorldLight` for the directional ones. */
  lemma MainCallsPastedFunction(blocks: LightingBlock -> string, kind: int)
    requires NamedDefinitions(blocks)
    requires AnyLight(kind)
    ensures StartsWith(LitColour(kind), Callee(kind) + "(")
    ensures PastedDefinition(blocks, kind, Callee(kind))
  {
    LitColourCalls(kind);
    CalleeBlockDefines(blocks, kind);
    UsedBlockInPlan(blocks, kind, CalleeBlock(kind));
  }

  /** The world-light kinds paste in all three functions: `calculateLight` and
      the two it sums, `calculateWorldLight` and `calculatePointLight`. */
  lemma WorldKindsDefineAllThree(blocks: LightingBlock -> string, kind: int)
    requires NamedDefinitions(blocks)
    requires WorldLight(kind)
    ensures PastedDefinition(blocks, kind, CALCULATE_WORLD_LIGHT)
    ensures PastedDefinition(blocks, kind, CALCULATE_POINT_LIGHT)
    ensures PastedDefinition(blocks, kind, CALCULATE_LIGHT)
  {
    var directional := if kind == F_SIMPLE_WORLD_LIGHT then SimpleDirectional else SpecularDirectional;
    var point := if kind == F_SIMPLE_WORLD_LIGHT then SimplePoint else SpecularPoint;
    UsedBlockInPlan(blocks, kind, directional);
    UsedBlockInPlan(blocks, kind, point);
  }

  // ---------------------------------------------------------------- the text of main

  /** The body lines of `main`, one tab in: the colour declaration and, for the
      textured kind, the discard branch with `discard;` two tabs in. */
  function BodyLines(kind: int): seq<string> {
    if AnyLight(kind) then [Indented(1, "vec4 fCol = " + LitColour(kind) + ";")]
    else if kind == F_SIMPLE_TEXTURED then
      [Indented(1, "vec4 fCol = " + TEXTURE_SAMPLE + ";")] + DiscardLines()
    else []
  }

  function DiscardLines(): seq<string> {
    [Indented(1, "if (fCol.a == 0) {"), Indented(2, "discard;"), Indented(1, "}")]
  }

  /** `main` as the lines of text it becomes. */
  function FragmentMainLines(kind: int): seq<string> {
    ["void main () {\n"] + BodyLines(kind) + [Indented(1, "FragColor = fCol;"), "}\n"]
  }

  lemma ColourDeclarationLine(init: string)
    requires init != ""
    ensures Line(Variable("", "vec4", "fCol", init), 1) == Indented(1, "vec4 fCol = " + init + ";")
  {
    InitialisedDeclarationLine(1, "vec4", "fCol", init);
    assert "vec4" + " " + "fCol" + " = " == "vec4 fCol = ";
  }

  /** An `if` holding one bare statement: the test line, the statement one tab
      further in, and the closing brace back at the test's depth. */
  lemma IfStatementLines(depth: int, test: string, name: string)
    ensures Lines(depth, [OpenIf(test), Statement(name, ""), CloseIf(false)])
         == [Indented(depth, "if (" + test + ") {"), Indented(depth + 1, name + ";"), Indented(depth, "}")]
  {
    var open, stop, close := OpenIf(test), Statement(name, ""), CloseIf(false);
    assert [open, stop, close] == [open] + [stop, close];
    assert [stop, close] == [stop] + [close];
    LinesCons(depth, open, [stop, close]);
    LinesCons(depth + 1, stop, [close]);
    LinesSingle(depth + 1, close);
    IfLine(depth, test);
    BareStatementLine(depth + 1, name);
    EndIfLine(depth + 1);
  }

  lemma DiscardBranchLines()
    ensures Lines(1, DiscardBranch()) == DiscardLines()
  {
    IfStatementLines(1, "fCol.a == 0", "discard");
    assert "if (" + "fCol.a == 0" + ") {" == "if (fCol.a == 0) {";
    assert "discard" + ";" == "discard;";
  }

  lemma LitBodyLines(kind: int)
    requires AnyLight(kind)
    ensures Lines(1, MainBody(kind)) == BodyLines(kind)
  {
    LitColourCalls(kind);
    LinesSingle(1, Variable("", "vec4", "fCol", LitColour(kind)));
    ColourDeclarationLine(LitColour(kind));
  }

  lemma TexturedBodyLines()
    ensures Lines(1, MainBody(F_SIMPLE_TEXTURED)) == BodyLines(F_SIMPLE_TEXTURED)
  {
    var declare := Variable("", "vec4", "fCol", TEXTURE_SAMPLE);
    LinesCons(1, declare, DiscardBranch());
    ColourDeclarationLine(TEXTURE_SAMPLE);
    DiscardBranchLines();
  }

  lemma MainBodyLines(kind: int)
    ensures Lines(1, MainBody(kind)) == BodyLines(kind)
    ensures Net(MainBody(kind)) == 0
  {
    if AnyLight(kind) {
      LitBodyLines(kind);
      UntexturedBodyNeutral(kind);
    } else if kind == F_SIMPLE_TEXTURED {
      TexturedBodyLines();
      TexturedBodyBalanced();
    } else {
      UntexturedBodyNeutral(kind);
    }
  }

  /** The body of `main` followed by the colour output, one level in. */
  lemma ColouredBodyLines(kind: int)
    ensures Net(MainBody(kind) + [ColourOut()]) == 0
    ensures Lines(1, MainBody(kind) + [ColourOut()]) == BodyLines(kind) + [Indented(1, "FragColor = fCol;")]
  {
    MainBodyLines(kind);
    NetConcat(MainBody(kind), [ColourOut()]);
    SingleStep(1, ColourOut());
    LinesConcat(1, MainBody(kind), [ColourOut()]);
    LinesSingle(1, ColourOut());
    CodeLine(1, "FragColor = fCol;");
  }

  lemma FragmentMainFunctionLines(kind: int)
    ensures Lines(0, MainFunction(kind)) == FragmentMainLines(kind)
  {
    var body := MainBody(kind) + [ColourOut()];
    ColouredBodyLines(kind);
    MainWrapLines(body);
    var open, close := ["void main () {\n"], ["}\n"];
    assert open + (BodyLines(kind) + [Indented(1, "FragColor = fCol;")]) + close
        == open + BodyLines(kind) + [Indented(1, "FragColor = fCol;"), "}\n"];
  }

  /** Every kind's shader ends with its `main`: the body one tab in, then
      `FragColor = fCol;` one tab in and the closing brace at the top level. */
  lemma FragmentShaderEndsWithMain(blocks: LightingBlock -> string, kind: int)
    ensures EndsWith(FragmentShader(blocks, kind), Join(FragmentMainLines(kind)))
  {
    PreambleBalanced(blocks, kind);
    EndsWithLastPart(NewCore(330), Preamble(blocks, kind), MainFunction(kind));
    RenderIsJoin(0, MainFunction(kind));
    FragmentMainFunctionLines(kind);
  }

  // ---------------------------------------------------------------- the shader text

  /** Each block a kind uses appears verbatim in its shader. */
  lemma UsedBlockInShader(blocks: LightingBlock -> string, kind: int, blk: LightingBlock)
    requires UsesBlock(kind, blk)
    ensures Contains(FragmentShader(blocks, kind), blocks(blk))
  {
    UsedBlockInPlan(blocks, kind, blk);
    RawCodeAppears(NewCore(330), FragmentPlan(blocks, kind), blocks(blk));
  }

  /** A world-light shader loops over its point lights. */
  lemma WorldShaderLoops(blocks: LightingBlock -> string, kind: int)
    requires PointBlocksLoop(blocks)
    requires WorldLight(kind)
    ensures Contains(FragmentShader(blocks, kind), POINT_LIGHT_LOOP)
  {
    var point := if kind == F_SIMPLE_WORLD_LIGHT then SimplePoint else SpecularPoint;
    UsedBlockInShader(blocks, kind, point);
    ContainsWithin(FragmentShader(blocks, kind), blocks(point), POINT_LIGHT_LOOP);
  }

  /** A world-light shader states the point-light capacity, ... */
  lemma WorldShaderStatesCapacity(blocks: LightingBlock -> string, kind: int)
    requires WorldLight(kind)
    ensures Contains(FragmentShader(blocks, kind), "#" + CAPACITY_DIRECTIVE + "\n")
  {
    CapacityDirectiveIffWorld(blocks, kind);
    DirectiveAppears(NewCore(330), FragmentPlan(blocks, kind), CAPACITY_DIRECTIVE);
  }

  /** ... binds the point-light array ... */
  lemma WorldShaderBindsLights(blocks: LightingBlock -> string, kind: int)
    requires WorldLight(kind)
    ensures Contains(FragmentShader(blocks, kind), Declaration("uniform", "PointLight", "pointLight[NUM_POINT_LIGHTS]"))
  {
    PointLightArrayIffWorld(blocks, kind);
    DeclarationAppears(NewCore(330), FragmentPlan(blocks, kind), "uniform", "PointLight", "pointLight[NUM_POINT_LIGHTS]");
  }

  /** ... and binds the number of lights in use, which the loop reads. */
  lemma WorldShaderBindsCount(blocks: LightingBlock -> string, kind: int)
    requires WorldLight(kind)
    ensures Contains(FragmentShader(blocks, kind), Declaration("uniform", "int", "pointLightsUsed"))
  {
    PointLightCountIffWorld(blocks, kind);
    DeclarationAppears(NewCore(330), FragmentPlan(blocks, kind), "uniform", "int", "pointLightsUsed");
  }

  lemma FragmentShaderStartsWithVersion(blocks: LightingBlock -> string, kind: int)
    ensures StartsWith(FragmentShader(blocks, kind), "#version 330 core\n")
  {
    VersionLine();
    BuildOnlyGrows(NewCore(330), FragmentPlan(blocks, kind));
  }

  /** `genDynamicFragmentShader(type)`: any int is accepted; the version line
      comes first and `main` comes last. */
  method GenDynamicFragmentShader(kind: int) returns (glsl: string)
    ensures glsl == FragmentShader(BlockText, kind)
    ensures StartsWith(glsl, "#version 330 core\n")
    ensures EndsWith(glsl, Join(FragmentMainLines(kind)))
  {
    glsl := FragmentShader(BlockText, kind);
    FragmentShaderStartsWithVersion(BlockText, kind);
    FragmentShaderEndsWithMain(BlockText, kind);
  }

  /** With the source's own blocks, a lit kind's `main` calls a function its
      pasted blocks define ... */
  lemma SourceShaderCallsPasted(kind: int)
    requires AnyLight(kind)
    ensures PastedDefinition(BlockText, kind, Callee(kind))
  {
    SourceBlocksValid();
    MainCallsPastedFunction(BlockText, kind);
  }

  /** ... and a world-light kind loops over its point lights. */
  lemma SourceShaderLoops(kind: int)
    requires WorldLight(kind)
    ensures Contains(FragmentShader(BlockText, kind), POINT_LIGHT_LOOP)
  {
    SourceBlocksValid();
    WorldShaderLoops(BlockText, kind);
  }

  /** ... and which lighting functions it pastes in is decided by the kind alone. */
  lemma SourceShaderBlocks(kind: int, blk: LightingBlock)
    ensures BlockStep(BlockText, blk) in FragmentPlan(BlockText, kind) <==> UsesBlock(kind, blk)
  {
    SourceBlocksValid();
    LightingBlockIffKind(BlockText, kind, blk);
  }
}
