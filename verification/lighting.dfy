/** The GLSL lighting functions the fragment preset pastes in verbatim, and
    what their texts contain. */
module LightingBlocks {
  import opened Emitter
  import opened Emission


  // The three GLSL functions the blocks define and `main` calls.

  const CALCULATE_WORLD_LIGHT: string := "calculateWorldLight"
  const CALCULATE_POINT_LIGHT: string := "calculatePointLight"
  const CALCULATE_LIGHT: string := "calculateLight"

  /** The head of a GLSL function returning a colour. */
  function Signature(name: string, params: string): string {
    "vec4 " + name + "(" + params + ")"
  }

  /** A GLSL call expression. */
  function Call(name: string, args: string): string {
    name + "(" + args + ")"
  }

  /** The four GLSL lighting-function blocks the preset can paste in. */
  datatype LightingBlock = SimpleDirectional | SimplePoint | SpecularDirectional | SpecularPoint

  /** Discards a fragment whose diffuse sample is fully transparent; every lighting function starts with it. */
  const ALPHA_CUTOFF: string :=
    "\tif(diffuseTexture.a == 0) \n"
    + "\t{\n"
    + "\t\tdiscard;\n"
    + "\t}\n"

  /** The header of the loop over point lights: at most the capacity, at most the number in use. */
  const POINT_LIGHT_LOOP: string := "\tfor(int i = 0; i < min(NUM_POINT_LIGHTS, pointLightsUsed); i++) \n"

  /** Opening of a textured lighting function: the diffuse sample. */
  const SIMPLE_SAMPLING: string :=
    "{\n"
    + "\t// Checking whether to calculate light (discard if frag is transparent to allow full texture transparency)\n"
    + "\tvec4 diffuseTexture = texture(tex, texCoords);\n"

  /** Opening of a material lighting function: the diffuse and specular samples. */
  const SPECULAR_SAMPLING: string :=
    "{\n"
    + "\t// Checking whether to lightCalc (discard if frag is transparent to allow full texture transparency)\n"
    + "\tvec4 diffuseTexture = texture(material.diffuse, texCoords);\n"
    + "\tvec4 specularTexture = texture(material.specular, texCoords);\n"

  const POINT_LIGHT_COMMENT: string := "// Calculates the color of the object with the point light and material\n"

  // The directional light over a plain texture.

  const SIMPLE_DIRECTIONAL_COMMENT: string := "// Calculates the color of the object with the directional light and texture\n"

  const SIMPLE_WORLD_LIGHT_PARAMS: string := "DirectionalLight dirLight, vec4 ambient, sampler2D tex, vec2 texCoords, vec3 normal"
  const SIMPLE_WORLD_LIGHT_SIGNATURE: string := Signature(CALCULATE_WORLD_LIGHT, SIMPLE_WORLD_LIGHT_PARAMS) + " \n"

  const SIMPLE_DIRECTIONAL_SHADING: string :=
    "\t\n"
    + "\t// Calculating diffuse multiplier\n"
    + "\tvec3 nLightDir = normalize(dirLight.direction);\n"
    + "\tfloat diffuseValue = max(dot(-nLightDir, normal), 0.0);\n"
    + "\t\n"
    + "\t// Getting color values using multiplier, texture and light color\n"
    + "\tvec4 ambientColor = ambient * diffuseTexture;\n"
    + "\tvec4 directionalColor = dirLight.color * diffuseValue * diffuseTexture;\n"
    + "\t\n"
    + "\t// Returning sum of all color values\n"
    + "\treturn vec4(ambientColor + directionalColor);\n"
    + "}"

  // A point light over a plain texture, and the sum over all lights.

  const SIMPLE_POINT_LIGHT_PARAMS: string := "PointLight pointLight, sampler2D tex, vec2 texCoords, vec4 pos, vec3 normal"
  const SIMPLE_POINT_LIGHT_SIGNATURE: string := Signature(CALCULATE_POINT_LIGHT, SIMPLE_POINT_LIGHT_PARAMS) + "\n"

  const SIMPLE_POINT_SHADING: string :=
    "\t\n"
    + "\t// Calculating diffuse multiplier\n"
    + "\tvec3 lightDir = normalize(vec3(pos.xyz) - pointLight.position);\n"
    + "\tfloat diffuseValue = max(dot(-lightDir, normal), 0.0);\n"
    + "\t\n"
    + "\t// Calculating attenuation (falloff)\n"
    + "\tfloat distance = length(pointLight.position - vec3(pos.xyz));\n"
    + "\tfloat falloff = 1.0 / (1.0 + pointLight.falloffLinear * distance + pointLight.falloffQuadratic * (distance * distance)); \n"
    + "\t\n"
    + "\t// Getting color values using multiplier, texture, light color and attenuation\n"
    + "\tvec4 ambientColor = pointLight.color * diffuseTexture * falloff;\n"
    + "\tvec4 directionalColor = pointLight.color * diffuseValue * diffuseTexture * falloff;\n"
    + "\t\n"
    + "\t// Returning sum of all color values\n"
    + "\treturn vec4(ambientColor + directionalColor);\n"
    + "}\n"
    + "\n"
    + "// Adds up all the colors from the directional light and point light calculations to make the final fragment colors\n"

  const SIMPLE_LIGHT_PARAMS: string := "DirectionalLight dirLight, PointLight pointLight[NUM_POINT_LIGHTS], vec4 ambient, sampler2D tex, vec2 texCoords, vec4 pos, vec3 normal"
  const SIMPLE_LIGHT_SIGNATURE: string := Signature(CALCULATE_LIGHT, SIMPLE_LIGHT_PARAMS) + " \n"

  const SIMPLE_SUM_START: string :=
    "{\n"
    + "\tvec4 f = calculateWorldLight(dirLight, ambient, tex, texCoords, normal);\n"

  const SIMPLE_SUM_END: string :=
    "\t{\n"
    + "\t\tf += calculatePointLight(pointLight[i], tex, texCoords, pos, normal);\n"
    + "\t}\n"
    + "\treturn f;\n"
    + "}"

  // The directional light over a material.

  const SPECULAR_DIRECTIONAL_COMMENT: string := "// Calculates the color of the object with the directional light and material\n"

  const SPECULAR_WORLD_LIGHT_PARAMS: string := "DirectionalLight dirLight, vec4 ambient, Material material, vec2 texCoords, vec3 normal, vec3 viewDir"
  const SPECULAR_WORLD_LIGHT_SIGNATURE: string := Signature(CALCULATE_WORLD_LIGHT, SPECULAR_WORLD_LIGHT_PARAMS) + " \n"

  const SPECULAR_DIRECTIONAL_SHADING: string :=
    "\t\n"
    + "\t// Calculating diffuse multiplier\n"
    + "\tvec3 nLightDir = normalize(dirLight.direction);\n"
    + "\tfloat diffuseValue = max(dot(-nLightDir, normal), 0.0);\n"
    + "\t// Calculating specular multiplier\n"
    + "\tvec3 reflectDir = reflect(nLightDir, normal);\n"
    + "\tfloat specularValue = pow(max(dot(viewDir, reflectDir), 0.0), material.shininess);\n"
    + "\t\n"
    + "\t// Getting color values using multiplier, textures and light color\n"
    + "\tvec4 ambientColor = ambient * diffuseTexture;\n"
    + "\tvec4 directionalColor = dirLight.color * diffuseValue * diffuseTexture;\n"
    + "\tvec4 specularColor = dirLight.color * specularValue * specularTexture;\n"
    + "\t\n"
    + "\t// Returning sum of all color values\n"
    + "\treturn vec4(ambientColor + directionalColor + specularColor);\n"
    + "}"

  // A point light over a material, and the sum over all lights.

  const SPECULAR_POINT_LIGHT_PARAMS: string := "PointLight pointLight, Material material, vec2 texCoords, vec4 pos, vec3 normal, vec3 viewDir"
  const SPECULAR_POINT_LIGHT_SIGNATURE: string := Signature(CALCULATE_POINT_LIGHT, SPECULAR_POINT_LIGHT_PARAMS) + "\n"

  const SPECULAR_POINT_SHADING: string :=
    "\t\n"
    + "\t// Calculating diffuse multiplier\n"
    + "\tvec3 lightDir = normalize(vec3(pos.xyz) - pointLight.position);\n"
    + "\tfloat diffuseValue = max(dot(-lightDir, normal), 0.0);\n"
    + "\t// Calculating specular multiplier\n"
    + "\tvec3 reflectDir = reflect(lightDir, normal);\n"
    + "\tfloat specularValue = pow(max(dot(viewDir, reflectDir), 0.0), material.shininess);\n"
    + "\t\n"
    + "\t// Calculating attenuation (falloff)\n"
    + "\tfloat distance = length(pointLight.position - vec3(pos.xyz));\n"
    + "\tfloat falloff = 1.0 / (1.0 + pointLight.falloffLinear * distance + pointLight.falloffQuadratic * (distance * distance)); \n"
    + "\t\n"
    + "\t// Getting color values using multiplier, textures, light color and attenuation\n"
    + "\tvec4 ambientColor = pointLight.color * diffuseTexture * falloff;\n"
    + "\tvec4 directionalColor = pointLight.color * diffuseValue * diffuseTexture * falloff;\n"
    + "\tvec4 specularColor = pointLight.color * specularValue * specularTexture * falloff;\n"
    + "\t\n"
    + "\t// Returning sum of all color values\n"
    + "\treturn vec4(ambientColor + directionalColor + specularColor);\n"
    + "}\n"
    + "\n"
    + "// Adds up all the colors from the directional light and point light calculations to make the final fragment colors\n"

  const SPECULAR_LIGHT_PARAMS: string := "DirectionalLight dirLight, PointLight pointLight[NUM_POINT_LIGHTS], vec4 ambient, Material material, vec2 texCoords, vec4 pos, vec3 normal, vec3 viewDir"
  const SPECULAR_LIGHT_SIGNATURE: string := Signature(CALCULATE_LIGHT, SPECULAR_LIGHT_PARAMS) + " \n"

  const SPECULAR_SUM_START: string :=
    "{\n"
    + "\tvec4 f = calculateWorldLight(dirLight, ambient, material, texCoords, normal, viewDir);\n"

  const SPECULAR_SUM_END: string :=
    "\t{\n"
    + "\t\tf += calculatePointLight(pointLight[i], material, texCoords, pos, normal, viewDir);\n"
    + "\t}\n"
    + "\treturn f;\n"
    + "}"

  /** The text of a block, in the order the source writes it; it is emitted
      unindented and followed by a line break. */
  function BlockText(blk: LightingBlock): string {
    match blk
    case SimpleDirectional =>
      SIMPLE_DIRECTIONAL_COMMENT + SIMPLE_WORLD_LIGHT_SIGNATURE + SIMPLE_SAMPLING + ALPHA_CUTOFF
      + SIMPLE_DIRECTIONAL_SHADING
    case SimplePoint =>
      POINT_LIGHT_COMMENT + SIMPLE_POINT_LIGHT_SIGNATURE + SIMPLE_SAMPLING + ALPHA_CUTOFF
      + SIMPLE_POINT_SHADING + SIMPLE_LIGHT_SIGNATURE + SIMPLE_SUM_START + POINT_LIGHT_LOOP + SIMPLE_SUM_END
    case SpecularDirectional =>
      SPECULAR_DIRECTIONAL_COMMENT + SPECULAR_WORLD_LIGHT_SIGNATURE + SPECULAR_SAMPLING + ALPHA_CUTOFF
      + SPECULAR_DIRECTIONAL_SHADING
    case SpecularPoint =>
      POINT_LIGHT_COMMENT + SPECULAR_POINT_LIGHT_SIGNATURE + SPECULAR_SAMPLING + ALPHA_CUTOFF
      + SPECULAR_POINT_SHADING + SPECULAR_LIGHT_SIGNATURE + SPECULAR_SUM_START + POINT_LIGHT_LOOP + SPECULAR_SUM_END
  }


  // ---------------------------------------------------------------- what the texts contain

  // The four blocks have different lengths, so no two have the same text.

  lemma SimpleDirectionalLength()
    ensures |BlockText(SimpleDirectional)| == 811
  {
  }

  lemma SimplePointLength()
    ensures |BlockText(SimplePoint)| == 1589
  {
  }

  lemma SpecularDirectionalLength()
    ensures |BlockText(SpecularDirectional)| == 1156
  {
  }

  lemma SpecularPointLength()
    ensures |BlockText(SpecularPoint)| == 1990
  {
  }

  function BlockLength(blk: LightingBlock): nat {
    match blk
    case SimpleDirectional => 811
    case SimplePoint => 1589
    case SpecularDirectional => 1156
    case SpecularPoint => 1990
  }

  lemma BlockTextLength(blk: LightingBlock)
    ensures |BlockText(blk)| == BlockLength(blk)
  {
    match blk
    case SimpleDirectional => SimpleDirectionalLength();
    case SimplePoint => SimplePointLength();
    case SpecularDirectional => SpecularDirectionalLength();
    case SpecularPoint => SpecularPointLength();
  }

  lemma BlockLengthsDistinct(a: LightingBlock, b: LightingBlock)
    requires a != b
    ensures BlockLength(a) != BlockLength(b)
  {
  }

  /** No two blocks have the same text. */
  predicate Distinct(blocks: LightingBlock -> string) {
    forall a, b :: a != b ==> blocks(a) != blocks(b)
  }

  lemma SourceBlocksDistinct()
    ensures Distinct(BlockText)
  {
    forall a, b | a != b
      ensures BlockText(a) != BlockText(b)
    {
      BlockTextLength(a);
      BlockTextLength(b);
      BlockLengthsDistinct(a, b);
    }
  }

  /** A GLSL text defines a colour function of that name. */
  predicate Defines(text: string, name: string) {
    Contains(text, "vec4 " + name + "(")
  }

  lemma SignatureHead(name: string, params: string)
    ensures StartsWith(Signature(name, params), "vec4 " + name + "(")
  {
    assert Signature(name, params) == ("vec4 " + name + "(") + (params + ")");
  }

  /** A signature that occurs in a text defines its function there. */
  lemma SignatureDefines(text: string, name: string, params: string, tail: string)
    requires Contains(text, Signature(name, params) + tail)
    ensures Defines(text, name)
  {
    SignatureHead(name, params);
    ContainsPrefix(text, Signature(name, params) + tail, "vec4 " + name + "(");
  }

  /** Where the first piece of a five-piece text occurs after a leading piece. */
  lemma SecondOfFive(a: string, b: string, c: string, d: string, e: string)
    ensures Contains(a + b + c + d + e, b)
  {
    PieceAt(a, b, c);
    ContainsBefore(a + b + c, b, d);
    ContainsBefore(a + b + c + d, b, e);
  }

  /** Each block defines the functions it is named for: the directional blocks
      `calculateWorldLight`, the point blocks `calculatePointLight` and the
      summing `calculateLight`. */
  lemma SimpleDirectionalDefines()
    ensures Defines(BlockText(SimpleDirectional), CALCULATE_WORLD_LIGHT)
  {
    SecondOfFive(SIMPLE_DIRECTIONAL_COMMENT, SIMPLE_WORLD_LIGHT_SIGNATURE, SIMPLE_SAMPLING, ALPHA_CUTOFF,
                 SIMPLE_DIRECTIONAL_SHADING);
    SignatureDefines(BlockText(SimpleDirectional), CALCULATE_WORLD_LIGHT, SIMPLE_WORLD_LIGHT_PARAMS, " \n");
  }

  lemma SpecularDirectionalDefines()
    ensures Defines(BlockText(SpecularDirectional), CALCULATE_WORLD_LIGHT)
  {
    SecondOfFive(SPECULAR_DIRECTIONAL_COMMENT, SPECULAR_WORLD_LIGHT_SIGNATURE, SPECULAR_SAMPLING, ALPHA_CUTOFF,
                 SPECULAR_DIRECTIONAL_SHADING);
    SignatureDefines(BlockText(SpecularDirectional), CALCULATE_WORLD_LIGHT, SPECULAR_WORLD_LIGHT_PARAMS, " \n");
  }

  /** A piece that occurs in a text still occurs after four more pieces are appended. */
  lemma ContainsBeforeFour(text: string, piece: string, a: string, b: string, c: string, d: string)
    requires Contains(text, piece)
    ensures Contains(text + a + b + c + d, piece)
  {
    ContainsBefore(text, piece, a);
    ContainsBefore(text + a, piece, b);
    ContainsBefore(text + a + b, piece, c);
    ContainsBefore(text + a + b + c, piece, d);
  }

  lemma SimplePointDefines()
    ensures Defines(BlockText(SimplePoint), CALCULATE_POINT_LIGHT)
    ensures Defines(BlockText(SimplePoint), CALCULATE_LIGHT)
  {
    var front := POINT_LIGHT_COMMENT + SIMPLE_POINT_LIGHT_SIGNATURE + SIMPLE_SAMPLING + ALPHA_CUTOFF + SIMPLE_POINT_SHADING;
    SecondOfFive(POINT_LIGHT_COMMENT, SIMPLE_POINT_LIGHT_SIGNATURE, SIMPLE_SAMPLING, ALPHA_CUTOFF, SIMPLE_POINT_SHADING);
    ContainsBeforeFour(front, SIMPLE_POINT_LIGHT_SIGNATURE, SIMPLE_LIGHT_SIGNATURE, SIMPLE_SUM_START, POINT_LIGHT_LOOP,
                       SIMPLE_SUM_END);
    SignatureDefines(BlockText(SimplePoint), CALCULATE_POINT_LIGHT, SIMPLE_POINT_LIGHT_PARAMS, "\n");
    PieceAt(front, SIMPLE_LIGHT_SIGNATURE, SIMPLE_SUM_START);
    ContainsBefore(front + SIMPLE_LIGHT_SIGNATURE + SIMPLE_SUM_START, SIMPLE_LIGHT_SIGNATURE, POINT_LIGHT_LOOP);
    ContainsBefore(front + SIMPLE_LIGHT_SIGNATURE + SIMPLE_SUM_START + POINT_LIGHT_LOOP, SIMPLE_LIGHT_SIGNATURE,
                   SIMPLE_SUM_END);
    SignatureDefines(BlockText(SimplePoint), CALCULATE_LIGHT, SIMPLE_LIGHT_PARAMS, " \n");
  }

  lemma SpecularPointDefines()
    ensures Defines(BlockText(SpecularPoint), CALCULATE_POINT_LIGHT)
    ensures Defines(BlockText(SpecularPoint), CALCULATE_LIGHT)
  {
    var front := POINT_LIGHT_COMMENT + SPECULAR_POINT_LIGHT_SIGNATURE + SPECULAR_SAMPLING + ALPHA_CUTOFF
                 + SPECULAR_POINT_SHADING;
    SecondOfFive(POINT_LIGHT_COMMENT, SPECULAR_POINT_LIGHT_SIGNATURE, SPECULAR_SAMPLING, ALPHA_CUTOFF,
                 SPECULAR_POINT_SHADING);
    ContainsBeforeFour(front, SPECULAR_POINT_LIGHT_SIGNATURE, SPECULAR_LIGHT_SIGNATURE, SPECULAR_SUM_START,
                       POINT_LIGHT_LOOP, SPECULAR_SUM_END);
    SignatureDefines(BlockText(SpecularPoint), CALCULATE_POINT_LIGHT, SPECULAR_POINT_LIGHT_PARAMS, "\n");
    PieceAt(front, SPECULAR_LIGHT_SIGNATURE, SPECULAR_SUM_START);
    ContainsBefore(front + SPECULAR_LIGHT_SIGNATURE + SPECULAR_SUM_START, SPECULAR_LIGHT_SIGNATURE, POINT_LIGHT_LOOP);
    ContainsBefore(front + SPECULAR_LIGHT_SIGNATURE + SPECULAR_SUM_START + POINT_LIGHT_LOOP, SPECULAR_LIGHT_SIGNATURE,
                   SPECULAR_SUM_END);
    SignatureDefines(BlockText(SpecularPoint), CALCULATE_LIGHT, SPECULAR_LIGHT_PARAMS, " \n");
  }

  /** The point blocks sum over the point lights in use, capped by the capacity. */
  lemma SimplePointLoops()
    ensures Contains(BlockText(SimplePoint), POINT_LIGHT_LOOP)
  {
    PieceAt(POINT_LIGHT_COMMENT + SIMPLE_POINT_LIGHT_SIGNATURE + SIMPLE_SAMPLING + ALPHA_CUTOFF + SIMPLE_POINT_SHADING
            + SIMPLE_LIGHT_SIGNATURE + SIMPLE_SUM_START, POINT_LIGHT_LOOP, SIMPLE_SUM_END);
  }

  lemma SpecularPointLoops()
    ensures Contains(BlockText(SpecularPoint), POINT_LIGHT_LOOP)
  {
    PieceAt(POINT_LIGHT_COMMENT + SPECULAR_POINT_LIGHT_SIGNATURE + SPECULAR_SAMPLING + ALPHA_CUTOFF
            + SPECULAR_POINT_SHADING + SPECULAR_LIGHT_SIGNATURE + SPECULAR_SUM_START, POINT_LIGHT_LOOP,
            SPECULAR_SUM_END);
  }

  // ---------------------------------------------------------------- what the presets rely on

  /** Each block defines the functions it is named for. */
  predicate NamedDefinitions(blocks: LightingBlock -> string) {
    && Defines(blocks(SimpleDirectional), CALCULATE_WORLD_LIGHT)
    && Defines(blocks(SpecularDirectional), CALCULATE_WORLD_LIGHT)
    && Defines(blocks(SimplePoint), CALCULATE_POINT_LIGHT)
    && Defines(blocks(SimplePoint), CALCULATE_LIGHT)
    && Defines(blocks(SpecularPoint), CALCULATE_POINT_LIGHT)
    && Defines(blocks(SpecularPoint), CALCULATE_LIGHT)
  }

  /** Both point blocks loop over the point lights in use. */
  predicate PointBlocksLoop(blocks: LightingBlock -> string) {
    Contains(blocks(SimplePoint), POINT_LIGHT_LOOP) && Contains(blocks(SpecularPoint), POINT_LIGHT_LOOP)
  }

  /** What the fragment preset needs of the texts it pastes in. */
  predicate Valid(blocks: LightingBlock -> string) {
    Distinct(blocks) && NamedDefinitions(blocks) && PointBlocksLoop(blocks)
  }

  lemma SourceBlocksDefine()
    ensures NamedDefinitions(BlockText)
  {
    SimpleDirectionalDefines();
    SpecularDirectionalDefines();
    SimplePointDefines();
    SpecularPointDefines();
  }

  lemma SourceBlocksLoop()
    ensures PointBlocksLoop(BlockText)
  {
    SimplePointLoops();
    SpecularPointLoops();
  }

  /** The source's four texts are distinct, define what they are named for and
      loop over the point lights where they should. */
  lemma SourceBlocksValid()
    ensures Valid(BlockText)
  {
    SourceBlocksDistinct();
    SourceBlocksDefine();
    SourceBlocksLoop();
  }
}
