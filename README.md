# pbrt scene script, modelled in Dafny

`main.cpp` of pbrt_as_lib drives the pbrt renderer as a library. It configures the
renderer, lights the scene, and registers three image-textured matte materials. It
then defines two tree objects, a maple and a pine. Each tree is an object scope
holding one attribute scope per part: leaves and trunk. Finally it populates the
world with three maples and a receding row of ten pines. Every renderer call is
opaque, so what the program computes is the order of the calls it makes and
their arguments.

The model has these parts:

- `Commands`: one `Command` constructor per renderer call that the script makes,
  and the `Transformation` record with its defaults.
- `ParamArrays`: `makeSingle` and `makeMulti` as methods that fill a fresh
  `array`.
- `Emission`: the call sequences of `add_material`, `add_attribute`,
  `create_object` and `add_object`, as pure functions over `seq<Command>`. It
  also has lemmas on their layout and on scope counts.
- `Protocol`: an interpreter for the rules a command stream must follow.
  - Attribute and object scopes save and restore the graphics state.
  - Object scopes do not nest, and an object is defined when its scope closes.
  - Textures, materials and objects are defined before use.
  - `WorldEnd` needs every scope closed.
  - `Run` returns `None` on the first command that breaks a rule.
- `Effects`: what each helper's calls do to that state.
- `Placement`: the maple positions and the pine loop. It gives the loop variables
  after k passes, and the closed form of the k-th placement.
- `Scene`: the whole script as `SceneCommands`, and the class `Renderer`.
  - `Renderer`'s field `log` holds the calls made so far.
  - Each helper and each section of `main` is a method that appends to `log`,
    and is proved to append exactly its `Emission`/`Scene` function.
  - `SceneIsWellFormed` proves that the whole script follows the protocol. It
    ends with the three materials and both trees defined, and nothing else
    changed.
- `CheckedObjects`: the as-written behaviour of `create_object`'s length test
  and the evidently intended one (see "## Findings").

Floating-point values are modelled as reals.

## Model

| member | source | states |
|---|---|---|
| ParamArrays.MakeSingle | main.cpp:24-29 | returns a fresh array of length 1 whose only element is the given value |
| ParamArrays.MakeMulti | main.cpp:31-39 | returns a fresh array of length `|vals|` with `a[k] == vals[k]` for every k; the loop keeps the first i elements copied |
| Scene.Renderer.AddMaterial | main.cpp:41-52 | appends exactly the image texture `name` (filename, uscale 1, vscale 1, parameter arrays built by MakeSingle) and then the matte material `name` whose Kd is that texture |
| Effects.MaterialEffect | main.cpp:41-51 | the material's only texture reference is the texture `name`; the two calls never fail and define the texture and the material `name` and nothing else |
| Effects.MaterialBeforeTextureFails | main.cpp:47-51 | the order matters: the material call before its texture exists breaks the protocol |
| Scene.Renderer.AddAttribute | main.cpp:72-88 | takes `includePath` with the default "" as the source does; appends AttributeBegin, Translate, Scale, Rotate of the transformation, ParseFile(".pbrt") or NamedMaterial(material), ParseFile(include), AttributeEnd |
| Effects.AttributeBlockEffect | main.cpp:72-88 | an add_attribute block leaves scope depth, transform and bound material as they were; it fails exactly when the material is neither ".pbrt" nor defined |
| Emission.AttributeBlockScopeCount | main.cpp:72-88 | one add_attribute block holds exactly one AttributeBegin and one AttributeEnd |
| Scene.Renderer.CreateObject | main.cpp:90-102 | appends ObjectBegin(name); then, unless the `&&` test rejects, one add_attribute block per index in increasing order and ObjectEnd; an accepted call must not index past a list |
| Scene.Renderer.AddAttributes | main.cpp:98-100 | appends one add_attribute block per index of `materials`, in increasing order, using the i-th entry of each list |
| Emission.ObjectLayout | main.cpp:94-101 | an accepted call has length 2 + 7·|materials|, starts with ObjectBegin(name), ends with ObjectEnd, and block i is add_attribute of the i-th entries |
| Emission.AttributeBlockAt | main.cpp:98-100 | block i of the loop sits at positions 7i .. 7i+6 and uses transformations[i], materials[i], includes[i] |
| Emission.ObjectScopeCount | main.cpp:98-101 | an accepted call opens and closes exactly |materials| attribute scopes |
| Effects.AttributeBlocksEffect | main.cpp:98-100 | the loop's blocks, with every material bindable, hand back the state they found |
| Effects.DefinitionRegistersObject | main.cpp:90-102 | an accepted call outside any definition, with bindable materials, defines `name` and changes nothing else |
| Effects.RejectedDefinitionLeavesScopeOpen | main.cpp:94-96 | a rejected call leaves an object scope for `name` open and does not define it |
| CheckedObjects.ShortListPassesGuard | main.cpp:95-99 | two materials, two transformations and one include pass the `&&` test although the loop would index past `includes` |
| CheckedObjects.GuardMissesOneSidedMismatch | main.cpp:95 | the `&&` test lets through exactly the mismatched calls in which only one of the other lists differs in length from `materials` |
| CheckedObjects.RejectedDefinitionBreaksNext | main.cpp:94-96 | after a rejected call, the next create_object breaks the protocol (its ObjectBegin nests) |
| CheckedObjects.CheckedAgreesWhenLengthsEqual | main.cpp:90-102 | when the three lists have one length, the corrected and the as-written call emit the same commands |
| CheckedObjects.AttributeBlocksKeepState | main.cpp:98-100 | whatever the materials, the loop's blocks either fail or hand back the state they found |
| CheckedObjects.CheckedNeverLeavesScopeOpen | main.cpp:90-102 | from any state the corrected call fails, changes nothing, or defines `name` and nothing else; a mismatched call changes nothing |
| CheckedObjects.CheckedDefinitionEffect | main.cpp:90-102 | outside any definition and with bindable materials, the corrected call defines `name` exactly when the lengths agree, and otherwise leaves the state as it was |
| Scene.Renderer.CreateObjectChecked | main.cpp:90-102 | appends exactly the corrected call's commands: nothing on a length mismatch |
| Scene.Renderer.AddObject | main.cpp:104-111 | appends AttributeBegin, Translate, Scale, Rotate of the transformation, ObjectInstance(name), AttributeEnd and nothing else |
| Effects.InstanceBlockEffect | main.cpp:104-111 | add_object leaves the state untouched when `name` is defined and no definition is open, and otherwise breaks the protocol |
| Emission.InstanceRowAt | main.cpp:231-248 | in a row of add_object calls, instance k sits at positions 6k .. 6k+5 and places `name` with the k-th transformation |
| Emission.InstanceRowCount | main.cpp:231-248 | a row instances `name` once per transformation and opens and closes one attribute scope per instance |
| Effects.InstanceRowEffect | main.cpp:231-248 | a row of instances of a defined object, outside any definition, leaves the state untouched |
| Scene.InstanceRowNamesOnly | main.cpp:231-248 | a row instances no object other than its own |
| Scene.Renderer.PopulateWorld | main.cpp:228-248 | appends the three maple instances, then one pineTree instance per pass of the pine loop; the loop variables after i passes are PineCursorAt(i) |
| Scene.PopulationLayout | main.cpp:228-248 | three maples at x = -10 and y = 75, 120, 175 come first, then the pine row; mapleTree is instanced 3 times and pineTree once per pass |
| Placement.PineCursorClosedForm | main.cpp:240-247 | after k passes the pine transform is the closed-form placement k and the push is 40·0.7^k |
| Placement.PinePlacementsAt | main.cpp:242-248 | the k-th pine instance uses placement k: x = -20 - 8k, y = -120 plus the first k pushes, scale 0.8·0.8^k, default rotation |
| Placement.PinePlacementsLength | main.cpp:242-248 | a loop of n passes places n pines |
| Placement.PushSumClosedForm | main.cpp:245-246 | the accumulated push after k passes is 280/3 · (1 - 0.7^k) |
| Placement.PineRowRecedes | main.cpp:242-247 | each later pine is further along -x, further along +y and smaller, and no pine passes y = -120 + 280/3 |
| Scene.PineRowLayout | main.cpp:238-248 | a loop of n passes instances pineTree n times in 6n commands, with instance k at its closed-form placement |
| Scene.Renderer.Configure | main.cpp:137-173 | appends Init, LookAt, the camera, film, sampler and integrator with the configuration values, TransformTimes(0, 1) and WorldBegin |
| Scene.SetupEffect | main.cpp:137-173 | the configuration calls change no protocol state |
| Scene.Renderer.AddLight | main.cpp:175-185 | appends the sky light inside an attribute scope |
| Scene.LightEffect | main.cpp:175-185 | the light block closes its scope and hands back the state it found |
| Scene.Renderer.AddMaterials | main.cpp:187-194 | appends the three add_material calls in order |
| Scene.MaterialsEffect | main.cpp:187-194 | the three calls define the textures and materials Leaves-autumn, Bark and Leaves-pine |
| Scene.Renderer.CreateObjects | main.cpp:196-225 | appends the mapleTree and pineTree definitions |
| Scene.ObjectsEffect | main.cpp:196-225 | with the materials defined and no scope open, both definitions succeed and define mapleTree and pineTree |
| Scene.SceneObjectsUnaffected | main.cpp:196-225 | both definitions pass lists of one length, so the corrected length test emits the same commands |
| Scene.PopulationEffect | main.cpp:228-248 | with both trees defined and no scope open, the population leaves the state untouched |
| Scene.TailEffect | main.cpp:250-251 | WorldEnd with no scope open, then Cleanup, succeed |
| Scene.Renderer.BuildScene | main.cpp:134-253 | appends exactly SceneCommands for the given pine count |
| Scene.SceneIsWellFormed | main.cpp:134-253 | from any state with no scope open, the script follows the protocol to the end and defines the three materials and both trees and nothing else |
| Scene.MainSceneIsWellFormed | main.cpp:134-253 | from a renderer that has just started, with no textures, materials or objects, the script succeeds and ends with exactly the three materials and textures and the two trees defined |
| Scene.MainPineRow | main.cpp:238-248 | with main's `pineTree_nr` = PineTreeCount = 10, the loop instances pineTree 10 times and the last tree sits at x = -92 |

## Left out

- `matrixToAxisAngle` (main.cpp:113-132) is float `sqrt`/`acos` numerics. It is not called by `main`.
- `Transformation::to_string` and `print` only format text to a stream or the console.
- The pbrt backend is not part of this model. Each renderer call is an opaque command appended to the log, with its arguments.
  - `Protocol` states the rules as the script must follow them. It does not model pbrt's own error handling or its order of registration (pbrt itself records an instance name at ObjectBegin).
  - The contents of the `.pbrt` include files are not modelled.
- The internals of `pbrt::ParamSet` are not modelled. A parameter list records only the names and values passed.
- The configuration calls in `Renderer.Configure` and `Renderer.AddLight` pass their one-element parameter values directly, not through `MakeSingle`.
- The "Hello world!" output and the thread count (`std::thread::hardware_concurrency`) are left out: one is console output, the other reads the machine.
- Floating-point rounding: coordinates, scales and the pine loop's products are exact reals. The closed forms therefore hold for the reals, not bit for bit for `float`.
- Scene.Renderer.BuildScene and Scene.Renderer.PopulateWorld take the pine count as a parameter. `main` runs them with `pineTree_nr` = PineTreeCount = 10, and the lemmas hold for every count, so they hold for 10.
- Scene.Renderer.CreateObject: when an accepted call's lists are shorter than `materials`, the loop's reads past the end are excluded by its precondition. They are not modelled as behaviour.

## Findings

| source | as written | input that shows it | evidently intended | confidence | as-written member | corrected member |
|---|---|---|---|---|---|---|
| main.cpp:95 | the length test joins its comparisons with `&&`, so it rejects only when `materials` differs from both other lists | materials of length 2, transformations of length 2, includes of length 1: the call is accepted and the loop reads `includes[1]` | reject whenever `materials` differs in length from either list | high; not executed | CheckedObjects.ShortListPassesGuard | CheckedObjects.CheckedDefinitionEffect |
| main.cpp:94-96 | `pbrtObjectBegin` is called before the test, so a rejected call leaves an object scope open | any rejected call followed by another create_object: the second ObjectBegin is nested and the stream breaks the protocol | a rejected call emits nothing and leaves the caller's scopes as they were | high; not executed | CheckedObjects.RejectedDefinitionBreaksNext | CheckedObjects.CheckedNeverLeavesScopeOpen |

The renderer keeps the as-written `CreateObject` because that is what `main` calls. `Renderer.CreateObjectChecked` is the corrected method. Both of the scene's definitions pass lists of one length, so the two give the same scene (`Scene.SceneObjectsUnaffected`).
