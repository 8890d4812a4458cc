# ShaderBuilder in Dafny

A model of `ShaderBuilder`, the GLSL source generator of gl_utils_java, and proofs about the shaders it writes. The generator has three layers:

* The text emitter (`Emitter`, emitter.dfy). It is an append-only text buffer with a nesting depth.
  * Every indented line starts with one tab per level.
  * Openers write their header and then go one level deeper.
  * Closers leave the level first, so their brace lines up with the opener.
  * `addElseIf` and `closeIf(true)` leave the depth where it was.
  * The emitter is an immutable value `Builder(text, depth)`, and every call is a pure function from one value to the next.
  * Java's `"…" + int` rendering is `Decimal.IntToString` (decimal.dfy). It is proved readable back, and so injective.
  * What each call promises its caller is stated by a `…Writes` lemma in terms of `Emitter.WritesLine`: the old text is kept, and the added text reads back, in order, as an indentation, the call's content and its terminator, with the depth change of the call.
  * The numbers a call writes read back: the version of the `#version` line and the location of a layout declaration parse back from their fields, so different locations give different lines.
* Emission plans (`Emission`, emission.dfy).
  * An emitter call as data: one `Step` constructor per call. `Apply` performs a step, and `Run` performs a list of steps in order.
  * Both presets are such lists. This lets their properties be stated once for the plan and then carried over to the text.
  * Shared facts: each step only appends text; its text depends only on the depth it runs at; its depth change is fixed (`Delta`); a plan's text is the concatenation of its lines (`Lines`, `Join`).
* The two presets.
  * `genDynamicVertexShader` (`VertexPreset`, vertex.dfy) maps a list of modifier ints to a vertex shader.
  * `genDynamicFragmentShader` (`FragmentPreset`, fragment.dfy) maps a kind int to a fragment shader.
  * The fragment preset pastes in four fixed GLSL lighting-function texts (`LightingBlocks`, lighting.dfy). The preset is modelled for any texts `blocks: LightingBlock -> string`. The source's own texts are `LightingBlocks.BlockText`.
  * The facts the preset's proofs need about the texts are collected in `LightingBlocks.Valid`:
    * the four texts are distinct;
    * each defines the functions it is named for;
    * the point-light blocks loop over the lights.
  * `LightingBlocks.SourceBlocksValid` proves that the source's texts satisfy `Valid`.

The source has no guard against closing a scope at depth 0. `Emission.Run` and the `Emitter` closers do what the source does: the depth becomes negative and the next lines get no indentation. `Emission.RunChecked` is the checked alternative, which stops with `ScopeUnderflow` at the first such closer. `Emission.RunCheckedSucceedsIff` proves that the two agree exactly on plans that never close past depth 0. Both presets are proved to be such plans.

The kind of a fragment shader is a plain `int`, as in the source. Ints outside 1..5 are accepted. Such a shader writes `FragColor = fCol;` without declaring `fCol`; `FragmentPreset.ColourDeclaredIffKnownKind` states this.

## Model

| member | source | states |
|---|---|---|
| Decimal.IntToString | src/glutils/core/ShaderBuilder.java:49 | the decimal form of an int is non-empty; it starts with `-` exactly when the int is negative; otherwise it is all digits |
| Decimal.NatRoundTrip | src/glutils/core/ShaderBuilder.java:49 | reading back the digits of a natural number gives the number |
| Decimal.IntRoundTrip | src/glutils/core/ShaderBuilder.java:49 | reading back the rendering of any int, sign included, gives the int |
| Decimal.IntToStringInjective | src/glutils/core/ShaderBuilder.java:101 | different ints render differently |
| Decimal.IntToStringChars | src/glutils/core/ShaderBuilder.java:101 | a rendered int holds only a minus sign and digits |
| Decimal.NumberFieldReadsBack | src/glutils/core/ShaderBuilder.java:101 | a number written before a character that is neither a sign nor a digit is read back as that number by taking the field up to that character |
| Emitter.Tabs | src/glutils/core/ShaderBuilder.java:240-244 | the indentation is exactly `depth` tab characters, and empty at depth 0 or below |
| Emitter.GenTabs | src/glutils/core/ShaderBuilder.java:240-244 | the source's tab-appending loop yields exactly `Tabs(depth)`: `depth` tabs, none when the depth is not positive |
| Emitter.TabsMonotone | src/glutils/core/ShaderBuilder.java:240-244 | a deeper indentation extends a shallower one |
| Emitter.NewWritesVersionLine | src/glutils/core/ShaderBuilder.java:47-64 | the constructor starts from an empty builder at depth 0 and adds one unindented line that reads back as `#version N profile`, leaving the depth at 0 |
| Emitter.VersionReadsBack | src/glutils/core/ShaderBuilder.java:47-50 | the version number parses back from the field after `#version ` up to the first space, and the rest of the line is the profile |
| Emitter.NewCore | src/glutils/core/ShaderBuilder.java:56-58 | the one-argument constructor uses the `core` profile |
| Emitter.VersionLine | src/glutils/core/ShaderBuilder.java:56-58 | both presets start from exactly `#version 330 core` and a line break |
| Emitter.AddExtensionWrites | src/glutils/core/ShaderBuilder.java:69-71 | the old text is kept and one unindented line `#extension name : behavior` is added, whatever the depth; the depth is unchanged |
| Emitter.AddPreprocessorDirectiveWrites | src/glutils/core/ShaderBuilder.java:74-76 | the old text is kept and one unindented `#directive` line is added; the depth is unchanged |
| Emitter.QualifierPart | src/glutils/core/ShaderBuilder.java:82 | the qualifier part is empty exactly when the qualifier is empty; otherwise it is the qualifier and a space |
| Emitter.AssignmentPart | src/glutils/core/ShaderBuilder.java:83 | the assignment part always ends with `;` and a line break; it is exactly that when the assignment is empty, and `= value;` otherwise |
| Emitter.AddVariableFullWrites | src/glutils/core/ShaderBuilder.java:81-85 | the old text is kept; the added line reads back as the current indentation, the qualifier part, type and name, then the assignment part; the text ends in `;` and a line break; the depth is unchanged |
| Emitter.AddVariableShort | src/glutils/core/ShaderBuilder.java:87-89 | the short form writes `type name;` at the current indentation |
| Emitter.AddVariableMediumQualifier | src/glutils/core/ShaderBuilder.java:91-93 | the qualified form writes `qualifier type name;`, without the qualifier when it is empty |
| Emitter.UnqualifiedLine | src/glutils/core/ShaderBuilder.java:82 | an empty qualifier leaves no trace in the declaration line |
| Emitter.AddVariableMediumAssignment | src/glutils/core/ShaderBuilder.java:95-97 | the assigning form writes `type name = value;`, or `type name;` when the value is empty |
| Emitter.AddLayoutVariableWrites | src/glutils/core/ShaderBuilder.java:100-102 | the old text is kept; the added line reads back as the current indentation, `layout (location = N) qualifier type name`, then `;` and a line break; the depth is unchanged |
| Emitter.LayoutLocationReadsBack | src/glutils/core/ShaderBuilder.java:100-102 | the location parses back from the field after `layout (location = ` up to the next `)` |
| Emitter.LayoutLocationsDistinct | src/glutils/core/ShaderBuilder.java:100-102 | layout declarations for different locations never produce the same text |
| Emitter.OpenWrites | src/glutils/core/ShaderBuilder.java:107-110 | the old text is kept; the added line reads back as the current indentation, the header, then ` {`; the depth goes one level deeper, and the indentation inside extends the opener's |
| Emitter.CloseWrites | src/glutils/core/ShaderBuilder.java:112-115 | the old text is kept; the depth goes one level out first and the added line reads back as the indentation of that new depth, then the closing text |
| Emitter.CloseMatchesOpen | src/glutils/core/ShaderBuilder.java:107-115 | a closer right after an opener writes its line with exactly the opener's indentation and returns to the depth before the opener |
| Emitter.OpenStructWrites | src/glutils/core/ShaderBuilder.java:107-110 | `openStruct` adds `struct name {` at the current indentation and goes one level deeper |
| Emitter.CloseStructWrites | src/glutils/core/ShaderBuilder.java:112-115 | `closeStruct` goes one level out and adds `};` at that indentation |
| Emitter.OpenFunctionWrites | src/glutils/core/ShaderBuilder.java:120-123 | `openFunction` adds `type name (args) {` at the current indentation and goes one level deeper |
| Emitter.OpenFunctionNoArgs | src/glutils/core/ShaderBuilder.java:125-127 | the two-argument overload opens with an empty argument list |
| Emitter.CloseFunctionWrites | src/glutils/core/ShaderBuilder.java:129-132 | `closeFunction` goes one level out and adds a bare `}` at that indentation |
| Emitter.OpenMainFunctionWrites | src/glutils/core/ShaderBuilder.java:135-138 | `openMainFunction` adds `void main () {` at the current indentation and goes one level deeper |
| Emitter.CallFunctionWrites | src/glutils/core/ShaderBuilder.java:141-145 | the old text is kept; the added piece reads back as no indentation when tabs are ignored and the current one otherwise, then `name(args`, then `);` and a line break or a bare `)`; the depth is unchanged |
| Emitter.CallFunctionInCode | src/glutils/core/ShaderBuilder.java:147-149 | inside code a call is a bare unindented `name(args)`; otherwise it is an indented statement |
| Emitter.CallFunctionStandalone | src/glutils/core/ShaderBuilder.java:151-153 | the two-argument overload is an indented call statement |
| Emitter.OpenIfWrites | src/glutils/core/ShaderBuilder.java:158-161 | `openIf` adds `if (condition) {` at the current indentation and goes one level deeper |
| Emitter.AddElseIfWrites | src/glutils/core/ShaderBuilder.java:163-167 | `addElseIf` adds `} else if (condition) {` one level out and keeps the depth; right after `openIf` that line has exactly the `if` line's indentation |
| Emitter.CloseIfWrites | src/glutils/core/ShaderBuilder.java:169-174 | `closeIf` adds `}` one level out; without an else it ends the line and leaves the scope, with an else it adds ` else {` and keeps the depth |
| Emitter.OpenWhileWrites | src/glutils/core/ShaderBuilder.java:177-180 | `openWhile` adds `while (condition) {` at the current indentation and goes one level deeper |
| Emitter.CloseWhileWrites | src/glutils/core/ShaderBuilder.java:182-184 | `closeWhile` is exactly a `closeFunction`: it goes one level out and adds a bare `}` at that indentation |
| Emitter.OpenForWrites | src/glutils/core/ShaderBuilder.java:187-190 | `openFor` adds `for (args) {` at the current indentation and goes one level deeper |
| Emitter.CloseForWrites | src/glutils/core/ShaderBuilder.java:192-194 | `closeFor` is exactly a `closeFunction`: it goes one level out and adds a bare `}` at that indentation |
| Emitter.CallStatementWrites | src/glutils/core/ShaderBuilder.java:197-200 | the old text is kept; the added line reads back as the current indentation, the name, ` properties` only when there are any, then `;` and a line break; the depth is unchanged |
| Emitter.CallStatementBare | src/glutils/core/ShaderBuilder.java:202-204 | the one-argument overload writes `name;` |
| Emitter.AddCodeWrites | src/glutils/core/ShaderBuilder.java:209-213 | the old text is kept; the code is added verbatim, indented unless tabs are ignored, with a line break only when asked; the depth is unchanged |
| Emitter.AddCodeLine | src/glutils/core/ShaderBuilder.java:215-217 | the one-argument overload writes an indented, terminated line |
| Emitter.AddCommentWrites | src/glutils/core/ShaderBuilder.java:220-223 | the old text is kept; the added line reads back as the indentation unless tabs are ignored, `// text`, then a line break; the depth is unchanged |
| Emitter.AddCommentLine | src/glutils/core/ShaderBuilder.java:225-227 | the one-argument overload writes an indented comment |
| Emitter.AddLineBreakWrites | src/glutils/core/ShaderBuilder.java:230-232 | the old text is kept and an empty, unindented line is added; the depth is unchanged |
| Emission.ApplyAppends | src/glutils/core/ShaderBuilder.java:69-232 | every emitter call only appends; what it appends depends on nothing but the current depth; the depth moves by +1 for openers, -1 for closers and 0 otherwise |
| Emission.OpenerHeaderAtDepth | src/glutils/core/ShaderBuilder.java:107-190 | every opener writes one line that starts with `depth` tabs and ends with ` {`, then the depth is one more |
| Emission.CloserLowersFirst | src/glutils/core/ShaderBuilder.java:112-194 | every closer lowers the depth by one and writes its brace (`};` for structs, `}` otherwise) after `depth - 1` tabs |
| Emission.ReopenerKeepsDepth | src/glutils/core/ShaderBuilder.java:163-174 | `addElseIf` and `closeIf(true)` keep the depth and write `} else if (…) {` or `} else {` one level out |
| Emission.CloseAlignsWithOpen | src/glutils/core/ShaderBuilder.java:107-194 | after an opener and a body with no net depth change, the closer's brace has exactly the opener's indentation, and the depth is back where it started |
| Emission.RunAppends | src/glutils/core/ShaderBuilder.java:69-232 | running a plan appends its rendered text to the old text, and moves the depth by the plan's net change |
| Emission.BuildOnlyGrows | src/glutils/core/ShaderBuilder.java:235-237 | the text built before any further calls is a prefix of the text built after them |
| Emission.RunConcat | src/glutils/core/ShaderBuilder.java:69-232 | running two plans in a row is running their concatenation |
| Emission.NetConcat | src/glutils/core/ShaderBuilder.java:107-194 | the net depth change of a concatenation is the sum of the parts' changes |
| Emission.NoUnderflowConcat | src/glutils/core/ShaderBuilder.java:112-194 | a concatenation never closes past depth 0 exactly when neither part does, the second started where the first ends |
| Emission.NeutralBalanced | src/glutils/core/ShaderBuilder.java:69-102 | a plan of steps that neither open nor close is balanced at every starting depth |
| Emission.WrapBalanced | src/glutils/core/ShaderBuilder.java:107-194 | an opener, a balanced body and a closer form a balanced plan |
| Emission.RunChecked | src/glutils/core/ShaderBuilder.java:112-115 | a checked run either emits exactly what the unguarded run emits, or reports a closer met at depth 0 or below, with the emitter as it was just before it; no earlier step underflows, so it is the first such closer |
| Emission.RunCheckedSucceedsIff | src/glutils/core/ShaderBuilder.java:112-194 | the checked run succeeds exactly when the plan never closes with nothing open |
| Emission.RenderIsJoin | src/glutils/core/ShaderBuilder.java:69-232 | the text of a plan is the concatenation of the lines of its steps, each at the depth reached before it |
| Emission.LinesConcat | src/glutils/core/ShaderBuilder.java:69-232 | the lines of a concatenation are the lines of the first part followed by those of the second, started at the depth the first leaves |
| Emission.JoinContains | src/glutils/core/ShaderBuilder.java:235-237 | each line of a list occurs in the concatenation of the list |
| Emission.LineInBuiltText | src/glutils/core/ShaderBuilder.java:235-237 | each line of a plan occurs in the text built by running the plan, whatever the emitter held before |
| Emission.RenderedAppears | src/glutils/core/ShaderBuilder.java:235-237 | whatever occurs in the text a plan appends occurs in the built text |
| Emission.LayoutLinesDistinct | src/glutils/core/ShaderBuilder.java:100-102 | layout steps for different locations write different lines at any depth |
| Emission.StepAppears | src/glutils/core/ShaderBuilder.java:69-232 | every step of a plan leaves its line, at some depth, in the text |
| Emission.RawCodeAppears | src/glutils/core/ShaderBuilder.java:209-213 | code added without tabs and with a line end occurs verbatim in the text |
| Emission.DirectiveAppears | src/glutils/core/ShaderBuilder.java:74-76 | a directive step leaves `#directive` and a line break in the text |
| Emission.DeclarationAppears | src/glutils/core/ShaderBuilder.java:91-93 | a qualified declaration step leaves `qualifier type name;` in the text |
| Emission.MainWrapLines | src/glutils/core/ShaderBuilder.java:129-138 | a `main` function around a body with no net depth change is the header line, the body's lines one level in, and a bare `}` at the top level |
| VertexPreset.ReadModifiers | src/glutils/core/ShaderBuilder.java:251-256 | the source's loop sets each switch exactly when its constant occurs among the modifiers |
| VertexPreset.GenDynamicVertexShader | src/glutils/core/ShaderBuilder.java:248-293 | the vertex shader starts with `#version 330 core` and is the preset's plan for the switches the modifiers turn on |
| VertexPreset.VertexShaderStartsWithVersion | src/glutils/core/ShaderBuilder.java:259 | every vertex shader starts with the version line |
| VertexPreset.VertexPlanBalanced | src/glutils/core/ShaderBuilder.java:248-293 | the vertex plan closes every scope it opens, never closes past depth 0, ends at depth 0, and its checked run succeeds |
| VertexPreset.DeclarationsNeutral | src/glutils/core/ShaderBuilder.java:262-282 | everything before `main` stays at the top level |
| VertexPreset.InVertexPlan | src/glutils/core/ShaderBuilder.java:248-293 | a step is in the vertex plan exactly when it is in one of the plan's parts |
| VertexPreset.VertexAlwaysDeclares | src/glutils/core/ShaderBuilder.java:262-268 | position and texture coordinates are always read from locations 0 and 1 and passed on |
| VertexPreset.VertexNormalsIffFlag | src/glutils/core/ShaderBuilder.java:270-274 | the location-2 normal input, the normal output and the normal pass-through appear exactly when normals are asked for |
| VertexPreset.VertexTransformIffFlag | src/glutils/core/ShaderBuilder.java:277 | the `transform` uniform appears exactly when the model transform is asked for |
| VertexPreset.VertexCameraIffFlag | src/glutils/core/ShaderBuilder.java:278-281 | the `view` and `proj` uniforms appear exactly when the camera is asked for |
| VertexPreset.VertexDependsOnlyOnMembership | src/glutils/core/ShaderBuilder.java:251-256 | two modifier lists that agree on which of 1, 2, 3 occur give the same shader, whatever the order, duplicates or unknown ints |
| VertexPreset.MainStatementLines | src/glutils/core/ShaderBuilder.java:285-289 | the statements of `main` are the world and clip positions, the texture pass-through and, with normals, the normal pass-through, each one tab in |
| VertexPreset.MainStatementsNeutral | src/glutils/core/ShaderBuilder.java:285-289 | the statements of `main` open nothing |
| VertexPreset.MainFunctionLines | src/glutils/core/ShaderBuilder.java:284-290 | `main` is its header, its statements one tab in, and `}` at the top level |
| VertexPreset.VertexShaderEndsWithMain | src/glutils/core/ShaderBuilder.java:284-292 | every vertex shader ends with its `main` function |
| LightingBlocks.BlockTextLength | src/glutils/core/ShaderBuilder.java:365-492 | the four source texts have 811, 1589, 1156 and 1990 characters |
| LightingBlocks.SourceBlocksDistinct | src/glutils/core/ShaderBuilder.java:365-492 | the four source texts are pairwise different |
| LightingBlocks.SimpleDirectionalDefines | src/glutils/core/ShaderBuilder.java:365-385 | the textured directional block defines `calculateWorldLight` |
| LightingBlocks.SpecularDirectionalDefines | src/glutils/core/ShaderBuilder.java:425-450 | the material directional block defines `calculateWorldLight` |
| LightingBlocks.SimplePointDefines | src/glutils/core/ShaderBuilder.java:387-422 | the textured point block defines `calculatePointLight` and `calculateLight` |
| LightingBlocks.SpecularPointDefines | src/glutils/core/ShaderBuilder.java:452-492 | the material point block defines `calculatePointLight` and `calculateLight` |
| LightingBlocks.SimplePointLoops | src/glutils/core/ShaderBuilder.java:417 | the textured point block loops over at most `min(NUM_POINT_LIGHTS, pointLightsUsed)` lights |
| LightingBlocks.SpecularPointLoops | src/glutils/core/ShaderBuilder.java:487 | the material point block loops over at most `min(NUM_POINT_LIGHTS, pointLightsUsed)` lights |
| LightingBlocks.SourceBlocksValid | src/glutils/core/ShaderBuilder.java:365-492 | the source's texts are distinct, define what they are named for, and loop over the point lights |
| FragmentPreset.FragmentPlanBalanced | src/glutils/core/ShaderBuilder.java:296-515 | for every kind, known or not, and any block texts, the plan closes every scope it opens, never closes past depth 0, ends at depth 0, and its checked run succeeds |
| FragmentPreset.InFragmentPlan | src/glutils/core/ShaderBuilder.java:306-512 | a step is in the fragment plan exactly when it is in one of the plan's parts |
| FragmentPreset.CapacityDirectiveIffWorld | src/glutils/core/ShaderBuilder.java:304-307 | `#define NUM_POINT_LIGHTS 12` is written exactly for the world-light kinds 3 and 5 |
| FragmentPreset.StructOpenedIff | src/glutils/core/ShaderBuilder.java:310-337 | a struct is opened under a name exactly when it is `Material` with specular light, `DirectionalLight` with any light, or `PointLight` with world light |
| FragmentPreset.MaterialStructIffSpecular | src/glutils/core/ShaderBuilder.java:300-318 | the `Material` struct is declared exactly for the specular kinds 4 and 5 |
| FragmentPreset.DirectionalStructIffLit | src/glutils/core/ShaderBuilder.java:300-326 | the `DirectionalLight` struct is declared exactly for the lit kinds 2 to 5 |
| FragmentPreset.PointStructIffWorld | src/glutils/core/ShaderBuilder.java:300-336 | the `PointLight` struct is declared exactly for the world-light kinds |
| FragmentPreset.InputsByKind | src/glutils/core/ShaderBuilder.java:339-345 | `in worldPos`, `in texCoords` and `out FragColor` are always declared; `in vec3 normal` exactly for lit kinds |
| FragmentPreset.MaterialUniformIffSpecular | src/glutils/core/ShaderBuilder.java:348-349 | `uniform Material material` is declared exactly for specular kinds |
| FragmentPreset.TextureUniformIffNotSpecular | src/glutils/core/ShaderBuilder.java:348-351 | `uniform sampler2D tex` is declared exactly for the kinds that are not specular, unknown kinds included |
| FragmentPreset.DirectionalUniformsIffLit | src/glutils/core/ShaderBuilder.java:353-356 | the directional light and the ambient colour are bound exactly for lit kinds |
| FragmentPreset.PointLightArrayIffWorld | src/glutils/core/ShaderBuilder.java:357-358 | the point-light array is bound exactly for world-light kinds |
| FragmentPreset.PointLightCountIffWorld | src/glutils/core/ShaderBuilder.java:357-359 | the number of point lights in use is bound exactly for world-light kinds |
| FragmentPreset.CameraUniformAlways | src/glutils/core/ShaderBuilder.java:361 | the camera position is bound for every kind |
| FragmentPreset.ColourDeclaredIffKnownKind | src/glutils/core/ShaderBuilder.java:499-510 | `FragColor = fCol;` is always written, but `fCol` is declared exactly for kinds 1 to 5 |
| FragmentPreset.SameBlockStep | src/glutils/core/ShaderBuilder.java:364-494 | with distinct texts, pasting two blocks is the same step only for the same block |
| FragmentPreset.InLighting | src/glutils/core/ShaderBuilder.java:364-494 | with distinct texts, a block is in the lighting part exactly when the kind's table row uses it |
| FragmentPreset.LightingBlockIffKind | src/glutils/core/ShaderBuilder.java:364-494 | with distinct texts, a block is pasted in exactly when it is the directional block of the kind's family, or that family's point block for a world-light kind |
| FragmentPreset.UsedBlockInPlan | src/glutils/core/ShaderBuilder.java:364-494 | whatever the texts, each block the kind uses is pasted in |
| FragmentPreset.LitColourCalls | src/glutils/core/ShaderBuilder.java:499-502 | a lit kind's `fCol` is the result of a call to `calculateLight` for world-light kinds, and to `calculateWorldLight` otherwise |
| FragmentPreset.CalleeBlock | src/glutils/core/ShaderBuilder.java:364-502 | the block meant to define the function a lit kind calls is one the kind pastes in |
| FragmentPreset.CalleeBlockDefines | src/glutils/core/ShaderBuilder.java:364-502 | with texts that define what they are named for, the callee's block defines the callee |
| FragmentPreset.MainCallsPastedFunction | src/glutils/core/ShaderBuilder.java:364-502 | every lit kind's `main` calls a function that one of its pasted blocks defines |
| FragmentPreset.WorldKindsDefineAllThree | src/glutils/core/ShaderBuilder.java:364-494 | world-light kinds paste in definitions of `calculateWorldLight`, `calculatePointLight` and `calculateLight` |
| FragmentPreset.IfStatementLines | src/glutils/core/ShaderBuilder.java:505-507 | an `if` holding one bare statement is the test line, the statement one tab deeper, and `}` at the test's indentation |
| FragmentPreset.DiscardBranchLines | src/glutils/core/ShaderBuilder.java:505-507 | the textured kind writes `if (fCol.a == 0) {`, `discard;` one tab deeper, and a plain `}`, all inside `main` |
| FragmentPreset.ColourDeclarationLine | src/glutils/core/ShaderBuilder.java:500-504 | the colour declaration is the line `vec4 fCol = value;`, one tab in |
| FragmentPreset.TexturedBodyLines | src/glutils/core/ShaderBuilder.java:503-508 | kind 1's body is `vec4 fCol = texture(tex, texCoords);` followed by the discard branch |
| FragmentPreset.LitBodyLines | src/glutils/core/ShaderBuilder.java:499-502 | a lit kind's body is its single colour declaration |
| FragmentPreset.MainBodyLines | src/glutils/core/ShaderBuilder.java:499-508 | every kind's body has the expected lines and no net depth change |
| FragmentPreset.FragmentMainFunctionLines | src/glutils/core/ShaderBuilder.java:497-512 | `main` is its header, its body, `FragColor = fCol;` one tab in, and `}` at the top level |
| FragmentPreset.FragmentShaderEndsWithMain | src/glutils/core/ShaderBuilder.java:497-514 | every fragment shader ends with its `main` function, whose last lines are `FragColor = fCol;` and `}` at depth 0 |
| FragmentPreset.FragmentShaderStartsWithVersion | src/glutils/core/ShaderBuilder.java:299 | every fragment shader starts with the version line |
| FragmentPreset.UsedBlockInShader | src/glutils/core/ShaderBuilder.java:364-494 | each block a kind uses appears verbatim in its shader text |
| FragmentPreset.WorldShaderLoops | src/glutils/core/ShaderBuilder.java:386-422 | a world-light shader's text contains the loop over the point lights in use |
| FragmentPreset.WorldShaderStatesCapacity | src/glutils/core/ShaderBuilder.java:307 | a world-light shader's text contains `#define NUM_POINT_LIGHTS 12` |
| FragmentPreset.WorldShaderBindsLights | src/glutils/core/ShaderBuilder.java:358 | a world-light shader's text declares `uniform PointLight pointLight[NUM_POINT_LIGHTS];` |
| FragmentPreset.WorldShaderBindsCount | src/glutils/core/ShaderBuilder.java:359 | a world-light shader's text declares `uniform int pointLightsUsed;` |
| FragmentPreset.GenDynamicFragmentShader | src/glutils/core/ShaderBuilder.java:296-515 | for any int, the fragment shader is the plan's text with the source's blocks; it starts with the version line and ends with the kind's `main` |
| FragmentPreset.SourceShaderCallsPasted | src/glutils/core/ShaderBuilder.java:364-502 | with the source's texts, a lit kind's `main` calls a function that its pasted blocks define |
| FragmentPreset.SourceShaderLoops | src/glutils/core/ShaderBuilder.java:386-492 | with the source's texts, a world-light shader loops over its point lights |
| FragmentPreset.SourceShaderBlocks | src/glutils/core/ShaderBuilder.java:364-494 | with the source's texts, a block is pasted in exactly when the kind uses it |

## Left out

- The Java `float` depth counter is an unbounded `int`. The two agree while the depth stays within 2^24 levels of zero. Past that, `tabNumber++` no longer changes the float (16777216f + 1 is 16777216f), so the source would write fewer tabs than the model. Such depths are not modelled.
- Java's 32-bit `int` for versions, layout locations and the fragment kind is an unbounded `int`. No arithmetic is done on them, so nothing wraps.
- The `public` `StringBuilder` field lets callers write to the text directly. This is not modelled; all text comes through the emitter calls.
- The GLSL inside the four lighting-function texts (diffuse, Phong specular and falloff arithmetic) is kept as opaque text. What is proved about it:
  - which functions each text defines;
  - that the point-light texts hold the loop over the lights.
  
  That `calculateLight` calls the other two functions, and anything about the arithmetic, is not proved.
- FragmentPreset.LitColourCalls: only the name of the called function is stated, not its argument list. The directional-only kinds pass `directionalLight.color` as the ambient argument. The `ambientLight` uniform they declare is then never read. This is modelled as written.
- The rest of the repository (windowing, camera maths, GL resource wrappers, light and material binders, file loading, the OBJ loader) is not part of this model.
