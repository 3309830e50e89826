/**
  The scene script of main.cpp. The renderer is a log of the calls made to
  it; each helper is a method that appends its calls, specified by the pure
  sequence functions of module Emission. The script itself (configuration,
  light, materials, the two tree objects, the population loop) is
  SceneCommands, and SceneIsWellFormed proves that it follows the protocol of
  module Protocol from start to WorldEnd.
 */
module Scene {
  import opened Commands
  import opened Protocol
  import opened Emission
  import opened Effects
  import opened Placement
  import opened CheckedObjects
  import ParamArrays

  const RayDepth := 5
  const Rays := 16
  const Fov := 90
  const XRes := 1000
  const YRes := 500
  const FileName := "dusk.exr"

  const LeavesAutumn := "Leaves-autumn"
  const Bark := "Bark"
  const LeavesPine := "Leaves-pine"
  const MapleTree := "mapleTree"
  const PineTree := "pineTree"

  /** transfLeaves_Autumn and transfLeaves_Pine. */
  const MapleLeafTransform := Transformation(Vec3(0.0, 0.0, -2.0), Vec3(5.0, 5.0, 5.0), 90.0, Vec3(1.0, 0.0, 0.0))
  const PineLeafTransform := Transformation(Vec3(0.0, 0.0, -2.0), Vec3(4.0, 4.0, 4.0), 90.0, Vec3(1.0, 0.0, 0.0))

  const MapleMaterials := [LeavesAutumn, Bark]
  const MapleIncludes := ["./treegeometry/mapleTree-leaves.pbrt", "./treegeometry/mapleTree-trunk.pbrt"]
  const PineMaterials := [LeavesPine, Bark]
  const PineIncludes := ["./treegeometry/pineTree-leaves.pbrt", "./treegeometry/pineTree-trunk.pbrt"]

  /** Renderer start-up, view, camera, film, sampler, integrator, shutter
      times, then WorldBegin. */
  function SetupCommands(): seq<Command>
  {
    [ Init,
      LookAt(Vec3(100.0, 0.0, 0.0), Vec3(0.0, 0.0, 0.0), Vec3(0.0, 0.0, 1.0)),
      Camera("perspective", [Param("fov", Floats([Fov as real]))]),
      Film("image", [Param("xresolution", Ints([XRes])), Param("yresolution", Ints([YRes])), Param("filename", Strings([FileName]))]),
      Sampler("halton", [Param("pixelsamples", Ints([Rays]))]),
      Integrator("path", [Param("maxdepth", Ints([RayDepth]))]),
      TransformTimes(0.0, 1.0),
      WorldBegin ]
  }

  /** The sky light, in an attribute scope of its own. */
  function LightCommands(): seq<Command>
  {
    [ AttributeBegin,
      Rotate(320.0, Vec3(0.0, 0.0, 1.0)),
      Translate(Vec3(0.0, 0.0, -50.0)),
      LightSource("infinite", [Param("mapname", Strings(["textures/skylight-dusk.exr"]))]),
      AttributeEnd ]
  }

  function MaterialsCommands(): seq<Command>
  {
    MaterialCommands(LeavesAutumn, "./treeTexture/Leaves-2.png")
    + MaterialCommands(Bark, "./treeTexture/Bark-4.png")
    + MaterialCommands(LeavesPine, "./treeTexture/Leaves-4.png")
  }

  function ObjectsCommands(): seq<Command>
  {
    ObjectCommands(MapleTree, MapleMaterials, [MapleLeafTransform, MapleLeafTransform], MapleIncludes)
    + ObjectCommands(PineTree, PineMaterials, [PineLeafTransform, PineLeafTransform], PineIncludes)
  }

  /** The three maples, then a pine loop of `pines` passes. */
  function PopulationCommands(pines: nat): seq<Command>
  {
    InstanceRow(MapleTree, MaplePlacements()) + InstanceRow(PineTree, PinePlacements(pines))
  }

  /** Every call the scene script makes, in order, for a pine loop of `pines`
      passes (main.cpp runs PineTreeCount of them). */
  function SceneCommands(pines: nat): seq<Command>
  {
    SetupCommands() + LightCommands() + MaterialsCommands() + ObjectsCommands() + PopulationCommands(pines) + [WorldEnd, Cleanup]
  }

  /** The configuration calls and WorldBegin change no protocol state. */
  lemma SetupEffect(st: RenderState)
    ensures Run(st, SetupCommands()) == Some(st)
  {
    var setup := SetupCommands();
    assert forall k :: 0 <= k < |setup| ==> Neutral(setup[k]);
    NeutralRun(st, setup);
  }

  /** The light block closes its scope and hands back the state it found. */
  lemma LightEffect(st: RenderState)
    ensures Run(st, LightCommands()) == Some(st)
  {
    var ts := [Rotate(320.0, Vec3(0.0, 0.0, 1.0)), Translate(Vec3(0.0, 0.0, -50.0))];
    var light := LightSource("infinite", [Param("mapname", Strings(["textures/skylight-dusk.exr"]))]);
    var inner := Push(st, AttributeScope).(current := st.current.(transforms := st.current.transforms + ts));
    assert LightCommands() == [AttributeBegin] + ts + [light] + [AttributeEnd];
    ScopedBlockEffect(st, ts, [light]);
    RunOne(inner, light);
  }

  /** The scene script follows the protocol from start to WorldEnd, from any
      state with no scope open: every scope it opens is closed, each
      material's texture is defined before the material, each named material
      before an object binds it, and each object before it is instanced. It
      ends having added the three textures and materials and the two tree
      objects, and nothing else changes. */
  lemma SceneIsWellFormed(st: RenderState, pines: nat)
    requires st.stack == []
    ensures Run(st, SceneCommands(pines))
            == Some(st.(textures := st.textures + {LeavesAutumn, Bark, LeavesPine},
                        materials := st.materials + {LeavesAutumn, Bark, LeavesPine},
                        objects := st.objects + {MapleTree, PineTree}))
  {
    var setup := SetupCommands();
    var light := LightCommands();
    var mats := MaterialsCommands();
    var objs := ObjectsCommands();
    var pop := PopulationCommands(pines);
    var tail := [WorldEnd, Cleanup];
    var s3 := st.(textures := st.textures + {LeavesAutumn, Bark, LeavesPine},
                  materials := st.materials + {LeavesAutumn, Bark, LeavesPine});
    var s5 := s3.(objects := st.objects + {MapleTree, PineTree});

    assert Run(st, setup + light) == Some(st) by {
      SetupEffect(st);
      LightEffect(st);
      Chain(st, setup, light, st, st);
    }
    assert Run(st, setup + light + mats) == Some(s3) by {
      MaterialsEffect(st);
      Chain(st, setup + light, mats, st, s3);
    }
    assert Run(st, setup + light + mats + objs) == Some(s5) by {
      ObjectsEffect(s3);
      Chain(st, setup + light + mats, objs, s3, s5);
    }
    assert Run(st, setup + light + mats + objs + pop) == Some(s5) by {
      PopulationEffect(s5, pines);
      Chain(st, setup + light + mats + objs, pop, s5, s5);
    }
    TailEffect(s5);
    Chain(st, setup + light + mats + objs + pop, tail, s5, s5);
  }

  /** The three add_material calls define each texture and then its material. */
  lemma MaterialsEffect(st: RenderState)
    ensures Run(st, MaterialsCommands())
            == Some(st.(textures := st.textures + {LeavesAutumn, Bark, LeavesPine},
                        materials := st.materials + {LeavesAutumn, Bark, LeavesPine}))
  {
    var m1 := MaterialCommands(LeavesAutumn, "./treeTexture/Leaves-2.png");
    var m2 := MaterialCommands(Bark, "./treeTexture/Bark-4.png");
    var m3 := MaterialCommands(LeavesPine, "./treeTexture/Leaves-4.png");
    var s1 := st.(textures := st.textures + {LeavesAutumn}, materials := st.materials + {LeavesAutumn});
    var s2 := s1.(textures := s1.textures + {Bark}, materials := s1.materials + {Bark});
    var s3 := s2.(textures := s2.textures + {LeavesPine}, materials := s2.materials + {LeavesPine});
    assert Run(st, m1 + m2) == Some(s2) by {
      MaterialEffect(st, LeavesAutumn, "./treeTexture/Leaves-2.png");
      MaterialEffect(s1, Bark, "./treeTexture/Bark-4.png");
      Chain(st, m1, m2, s1, s2);
    }
    MaterialEffect(s2, LeavesPine, "./treeTexture/Leaves-4.png");
    Chain(st, m1 + m2, m3, s2, s3);
    assert s3 == st.(textures := st.textures + {LeavesAutumn, Bark, LeavesPine},
                     materials := st.materials + {LeavesAutumn, Bark, LeavesPine});
  }

  /** With the materials defined and no scope open, the two create_object calls
      define mapleTree and pineTree. */
  lemma ObjectsEffect(st: RenderState)
    requires st.stack == []
    requires {LeavesAutumn, Bark, LeavesPine} <= st.materials
    ensures Run(st, ObjectsCommands()) == Some(st.(objects := st.objects + {MapleTree, PineTree}))
  {
    var o1 := ObjectCommands(MapleTree, MapleMaterials, [MapleLeafTransform, MapleLeafTransform], MapleIncludes);
    var o2 := ObjectCommands(PineTree, PineMaterials, [PineLeafTransform, PineLeafTransform], PineIncludes);
    var s4 := st.(objects := st.objects + {MapleTree});
    DefinitionRegistersObject(st, MapleTree, MapleMaterials, [MapleLeafTransform, MapleLeafTransform], MapleIncludes);
    DefinitionRegistersObject(s4, PineTree, PineMaterials, [PineLeafTransform, PineLeafTransform], PineIncludes);
    RunAppend(st, o1, o2);
    assert s4.(objects := s4.objects + {PineTree}) == st.(objects := st.objects + {MapleTree, PineTree});
  }

  /** With both trees defined and no scope open, the population loops leave
      the state as it was. */
  lemma PopulationEffect(st: RenderState, pines: nat)
    requires st.stack == []
    requires MapleTree in st.objects && PineTree in st.objects
    ensures Run(st, PopulationCommands(pines)) == Some(st)
  {
    InstanceRowEffect(st, MapleTree, MaplePlacements());
    InstanceRowEffect(st, PineTree, PinePlacements(pines));
    RunAppend(st, InstanceRow(MapleTree, MaplePlacements()), InstanceRow(PineTree, PinePlacements(pines)));
  }

  /** WorldEnd with every scope closed, then Cleanup. */
  lemma TailEffect(st: RenderState)
    requires st.stack == []
    ensures Run(st, [WorldEnd, Cleanup]) == Some(st)
  {
    assert [WorldEnd, Cleanup] == [WorldEnd] + [Cleanup];
    RunCons(st, WorldEnd, [Cleanup]);
    RunOne(st, Cleanup);
  }

  /** Both of the scene's create_object calls pass lists of one length, so the
      corrected length test would emit exactly the same commands. */
  lemma SceneObjectsUnaffected()
    ensures ObjectsCommands()
            == CheckedObjectCommands(MapleTree, MapleMaterials, [MapleLeafTransform, MapleLeafTransform], MapleIncludes)
               + CheckedObjectCommands(PineTree, PineMaterials, [PineLeafTransform, PineLeafTransform], PineIncludes)
  {
    CheckedAgreesWhenLengthsEqual(MapleTree, MapleMaterials, [MapleLeafTransform, MapleLeafTransform], MapleIncludes);
    CheckedAgreesWhenLengthsEqual(PineTree, PineMaterials, [PineLeafTransform, PineLeafTransform], PineIncludes);
  }

  /** The script from a renderer that has just started, for a pine loop of
      any length (main.cpp runs PineTreeCount passes): it follows the
      protocol to the end and defines exactly the three materials and the
      two trees. */
  lemma MainSceneIsWellFormed(pines: nat)
    ensures Run(Initial, SceneCommands(pines))
            == Some(RenderState([], GraphicsState([], None),
                                {LeavesAutumn, Bark, LeavesPine},
                                {LeavesAutumn, Bark, LeavesPine},
                                {MapleTree, PineTree}))
  {
    var st := Initial;
    SceneIsWellFormed(st, pines);
    assert st.textures + {LeavesAutumn, Bark, LeavesPine} == {LeavesAutumn, Bark, LeavesPine};
    assert st.objects + {MapleTree, PineTree} == {MapleTree, PineTree};
  }

  /** main.cpp's pine loop instances pineTree PineTreeCount times, and its
      last tree, the tenth, sits at x = -92. */
  lemma MainPineRow()
    ensures Count(InstanceRow(PineTree, PinePlacements(PineTreeCount)), ObjectInstance(PineTree)) == 10
    ensures PinePlacement(PineTreeCount - 1).translate.x == -92.0
  {
    PineRowLayout(PineTreeCount, PineTreeCount - 1);
  }

  /** A row of three add_object calls, written out. */
  lemma InstanceRowOfThree(name: string, a: Transformation, b: Transformation, c: Transformation)
    ensures InstanceRow(name, [a, b, c]) == InstanceCommands(name, a) + InstanceCommands(name, b) + InstanceCommands(name, c)
  {
    assert [a, b, c][..2] == [a, b];
    assert [a, b][..1] == [a];
    assert [a][..0] == [];
    assert InstanceRow(name, [a]) == InstanceCommands(name, a);
    assert InstanceRow(name, [a, b]) == InstanceCommands(name, a) + InstanceCommands(name, b);
  }

  /** The population: three maples at x = -10 and y = 75, 120, 175, then the
      pine row; mapleTree is instanced three times and pineTree once per pass
      of the pine loop. */
  lemma PopulationLayout(pines: nat)
    ensures var r := PopulationCommands(pines);
            && |r| == 18 + 6 * pines
            && r[..18] == InstanceCommands(MapleTree, At(-10.0, 75.0))
                          + InstanceCommands(MapleTree, At(-10.0, 120.0))
                          + InstanceCommands(MapleTree, At(-10.0, 175.0))
            && r[18..] == InstanceRow(PineTree, PinePlacements(pines))
            && Count(r, ObjectInstance(MapleTree)) == 3
            && Count(r, ObjectInstance(PineTree)) == pines
  {
    var maples := InstanceRow(MapleTree, MaplePlacements());
    var row := InstanceRow(PineTree, PinePlacements(pines));
    InstanceRowOfThree(MapleTree, At(-10.0, 75.0), At(-10.0, 120.0), At(-10.0, 175.0));
    InstanceRowLength(MapleTree, MaplePlacements());
    InstanceRowLength(PineTree, PinePlacements(pines));
    PinePlacementsLength(pines);
    InstanceRowCount(MapleTree, MaplePlacements());
    InstanceRowCount(PineTree, PinePlacements(pines));
    InstanceRowNamesOnly(MapleTree, MaplePlacements(), PineTree);
    InstanceRowNamesOnly(PineTree, PinePlacements(pines), MapleTree);
    CountAppend(maples, row, ObjectInstance(MapleTree));
    CountAppend(maples, row, ObjectInstance(PineTree));
    assert (maples + row)[..18] == maples;
    assert (maples + row)[18..] == row;
  }

  /** A row of add_object calls instances no object but its own. */
  lemma InstanceRowNamesOnly(name: string, ts: seq<Transformation>, other: string)
    requires other != name
    ensures Count(InstanceRow(name, ts), ObjectInstance(other)) == 0
  {
    var r := InstanceRow(name, ts);
    InstanceRowLength(name, ts);
    forall i | 0 <= i < |r|
      ensures r[i] != ObjectInstance(other)
    {
      InstanceRowAt(name, ts, i / 6);
      assert r[i] == r[6 * (i / 6) .. 6 * (i / 6) + 6][i % 6];
    }
    CountAbsent(r, ObjectInstance(other));
  }

  /** A pine loop of n passes instances pineTree exactly n times (main.cpp
      runs it with n = PineTreeCount = 10), and instance k sits at
      x = -20 - 8k, y = -120 + 280/3 * (1 - 0.7^k) with scale 0.8 * 0.8^k in
      every component and the default rotation. */
  lemma PineRowLayout(n: nat, k: nat)
    requires k < n
    ensures Count(InstanceRow(PineTree, PinePlacements(n)), ObjectInstance(PineTree)) == n
    ensures |InstanceRow(PineTree, PinePlacements(n))| == 6 * n
    ensures var t := PinePlacement(k);
            && InstanceRow(PineTree, PinePlacements(n))[6 * k .. 6 * k + 6] == InstanceCommands(PineTree, t)
            && t.translate == Vec3(-20.0 - 8.0 * k as real, -120.0 + (280.0 / 3.0) * (1.0 - Pow(0.7, k)), 0.0)
            && t.scale == Vec3(0.8 * Pow(0.8, k), 0.8 * Pow(0.8, k), 0.8 * Pow(0.8, k))
            && t.deg == 0.0 && t.rotate == Vec3(1.0, 0.0, 0.0)
  {
    PinePlacementsLength(n);
    InstanceRowCount(PineTree, PinePlacements(n));
    InstanceRowAt(PineTree, PinePlacements(n), k);
    PinePlacementsAt(n, k);
    PushSumClosedForm(k);
  }

  /** The renderer, seen as the log of calls made to it. */
  class Renderer {
    var log: seq<Command>

    constructor ()
      ensures log == []
    {
      log := [];
    }

    /** One call into the renderer. */
    method Emit(c: Command)
      modifies this
      ensures log == old(log) + [c]
    {
      log := log + [c];
    }

    /** add_material: an image texture named `name` reading `filename`, then a
        matte material of the same name whose Kd is that texture. */
    method AddMaterial(name: string, filename: string)
      modifies this
      ensures log == old(log) + MaterialCommands(name, filename)
    {
      var file := ParamArrays.MakeSingle(filename);
      var uscale := ParamArrays.MakeSingle(1.0);
      var vscale := ParamArrays.MakeSingle(1.0);
      assert file[..] == [filename] && uscale[..] == [1.0] && vscale[..] == [1.0];
      var textureParams := [Param("filename", Strings(file[..])), Param("uscale", Floats(uscale[..])), Param("vscale", Floats(vscale[..]))];
      Emit(Texture(name, "spectrum", "imagemap", textureParams));
      var matte := ParamArrays.MakeSingle("matte");
      assert matte[..] == ["matte"];
      var materialParams := [Param("type", Strings(matte[..])), Param("Kd", TextureRef(name))];
      Emit(MakeNamedMaterial(name, materialParams));
    }

    /** add_attribute: one attribute scope holding the transformation, the
        material (or the file ".pbrt") and the include file. */
    method AddAttribute(t: Transformation, material: string, includePath: string := "")
      modifies this
      ensures log == old(log) + AttributeCommands(t, material, includePath)
    {
      Emit(AttributeBegin);
      Emit(Translate(t.translate));
      Emit(Scale(t.scale));
      Emit(Rotate(t.deg, t.rotate));
      if material == ".pbrt" {
        Emit(ParseFile(material));
      } else {
        Emit(NamedMaterial(material));
      }
      Emit(ParseFile(includePath));
      Emit(AttributeEnd);
    }

    /** create_object's loop: add_attribute for each index of `materials`,
        in increasing order. */
    method AddAttributes(materials: seq<string>, transformations: seq<Transformation>, includes: seq<string>)
      requires InRange(materials, transformations, includes)
      modifies this
      ensures log == old(log) + AttributeBlocks(materials, transformations, includes, |materials|)
    {
      ghost var started := log;
      var i := 0;
      while i < |materials|
        invariant 0 <= i <= |materials|
        invariant log == started + AttributeBlocks(materials, transformations, includes, i)
      {
        AddAttribute(transformations[i], materials[i], includes[i]);
        AppendAssoc(started, AttributeBlocks(materials, transformations, includes, i),
                    AttributeCommands(transformations[i], materials[i], includes[i]));
        i := i + 1;
      }
    }

    /** create_object: ObjectBegin, then, unless the length test rejects, one
        add_attribute block per material and ObjectEnd. The caller must not
        let an accepted call index past the end of a list. */
    method CreateObject(name: string, materials: seq<string>, transformations: seq<Transformation>, includes: seq<string>)
      requires !Rejects(materials, transformations, includes) ==> InRange(materials, transformations, includes)
      modifies this
      ensures log == old(log) + ObjectCommands(name, materials, transformations, includes)
    {
      Emit(ObjectBegin(name));
      if Rejects(materials, transformations, includes) {
        return;
      }
      AddAttributes(materials, transformations, includes);
      Emit(ObjectEnd);
      AppendAssoc(old(log) + [ObjectBegin(name)], AttributeBlocks(materials, transformations, includes, |materials|), [ObjectEnd]);
      AppendAssoc(old(log), [ObjectBegin(name)], AttributeBlocks(materials, transformations, includes, |materials|) + [ObjectEnd]);
    }

    /** create_object with the intended length test, made before anything is
        emitted: a call whose lists differ in length emits nothing. */
    method CreateObjectChecked(name: string, materials: seq<string>, transformations: seq<Transformation>, includes: seq<string>)
      modifies this
      ensures log == old(log) + CheckedObjectCommands(name, materials, transformations, includes)
    {
      if Mismatched(materials, transformations, includes) {
        assert old(log) + [] == old(log);
        return;
      }
      Emit(ObjectBegin(name));
      AddAttributes(materials, transformations, includes);
      Emit(ObjectEnd);
      AppendAssoc(old(log) + [ObjectBegin(name)], AttributeBlocks(materials, transformations, includes, |materials|), [ObjectEnd]);
      AppendAssoc(old(log), [ObjectBegin(name)], AttributeBlocks(materials, transformations, includes, |materials|) + [ObjectEnd]);
    }

    /** add_object: one attribute scope placing an instance of `name`. */
    method AddObject(name: string, t: Transformation)
      modifies this
      ensures log == old(log) + InstanceCommands(name, t)
    {
      Emit(AttributeBegin);
      Emit(Translate(t.translate));
      Emit(Scale(t.scale));
      Emit(Rotate(t.deg, t.rotate));
      Emit(ObjectInstance(name));
      Emit(AttributeEnd);
    }

    /** The population of the world: three maples, moved by updating one
        Transformation, then the pine loop, which instances pineTree and then
        shrinks the scale, decays and adds the push, and steps x. */
    method PopulateWorld(pineTreeCount: nat)
      modifies this
      ensures log == old(log) + PopulationCommands(pineTreeCount)
    {
      var t := DefaultTransformation;
      t := t.(translate := t.translate.(y := 75.0));
      t := t.(translate := t.translate.(x := -10.0));
      AddObject(MapleTree, t);
      t := t.(translate := t.translate.(y := 120.0));
      AddObject(MapleTree, t);
      t := t.(translate := t.translate.(y := 175.0));
      AddObject(MapleTree, t);
      assert log == old(log) + InstanceRow(MapleTree, MaplePlacements()) by {
        var mp := MaplePlacements();
        InstanceRowOfThree(MapleTree, mp[0], mp[1], mp[2]);
        assert mp == [mp[0], mp[1], mp[2]];
      }
      ghost var afterMaples := log;

      var pineTransform := DefaultTransformation.(translate := Vec3(-20.0, -120.0, 0.0), scale := Vec3(0.8, 0.8, 0.8));
      var ypush := 40.0;
      var i := 0;
      while i < pineTreeCount
        invariant 0 <= i <= pineTreeCount
        invariant PineCursor(pineTransform, ypush) == PineCursorAt(i)
        invariant log == afterMaples + InstanceRow(PineTree, PinePlacements(i))
      {
        AddObject(PineTree, pineTransform);
        AppendAssoc(afterMaples, InstanceRow(PineTree, PinePlacements(i)), InstanceCommands(PineTree, pineTransform));
        InstanceRowSnoc(PineTree, PinePlacements(i), pineTransform);
        pineTransform := pineTransform.(scale := pineTransform.scale.Times(0.8));
        ypush := ypush * 0.7;
        pineTransform := pineTransform.(translate := pineTransform.translate.(y := pineTransform.translate.y + ypush));
        pineTransform := pineTransform.(translate := pineTransform.translate.(x := pineTransform.translate.x - 8.0));
        i := i + 1;
      }
      AppendAssoc(old(log), InstanceRow(MapleTree, MaplePlacements()), InstanceRow(PineTree, PinePlacements(i)));
    }

    /** Renderer start-up and the scene-wide options, up to WorldBegin. */
    method Configure()
      modifies this
      ensures log == old(log) + SetupCommands()
    {
      Emit(Init);
      Emit(LookAt(Vec3(100.0, 0.0, 0.0), Vec3(0.0, 0.0, 0.0), Vec3(0.0, 0.0, 1.0)));
      Emit(Camera("perspective", [Param("fov", Floats([Fov as real]))]));
      Emit(Film("image", [Param("xresolution", Ints([XRes])), Param("yresolution", Ints([YRes])), Param("filename", Strings([FileName]))]));
      Emit(Sampler("halton", [Param("pixelsamples", Ints([Rays]))]));
      Emit(Integrator("path", [Param("maxdepth", Ints([RayDepth]))]));
      Emit(TransformTimes(0.0, 1.0));
      Emit(WorldBegin);
    }

    /** The sky light in an attribute scope of its own. */
    method AddLight()
      modifies this
      ensures log == old(log) + LightCommands()
    {
      Emit(AttributeBegin);
      Emit(Rotate(320.0, Vec3(0.0, 0.0, 1.0)));
      Emit(Translate(Vec3(0.0, 0.0, -50.0)));
      Emit(LightSource("infinite", [Param("mapname", Strings(["textures/skylight-dusk.exr"]))]));
      Emit(AttributeEnd);
    }

    /** The three materials: autumn leaves, bark and pine leaves. */
    method AddMaterials()
      modifies this
      ensures log == old(log) + MaterialsCommands()
    {
      AddMaterial(LeavesAutumn, "./treeTexture/Leaves-2.png");
      AddMaterial(Bark, "./treeTexture/Bark-4.png");
      AddMaterial(LeavesPine, "./treeTexture/Leaves-4.png");
    }

    /** The two tree objects, each a leaves part and a trunk part. */
    method CreateObjects()
      modifies this
      ensures log == old(log) + ObjectsCommands()
    {
      CreateObject(MapleTree, MapleMaterials, [MapleLeafTransform, MapleLeafTransform], MapleIncludes);
      CreateObject(PineTree, PineMaterials, [PineLeafTransform, PineLeafTransform], PineIncludes);
    }

    /** The whole scene script, from renderer start-up to clean-up, with a
        pine loop of `pineTreeCount` passes. */
    method BuildScene(pineTreeCount: nat)
      modifies this
      ensures log == old(log) + SceneCommands(pineTreeCount)
    {
      ghost var start := log;
      Configure();
      ghost var done := SetupCommands();
      AddLight();
      AppendAssoc(start, done, LightCommands());
      done := done + LightCommands();
      AddMaterials();
      AppendAssoc(start, done, MaterialsCommands());
      done := done + MaterialsCommands();
      CreateObjects();
      AppendAssoc(start, done, ObjectsCommands());
      done := done + ObjectsCommands();
      PopulateWorld(pineTreeCount);
      AppendAssoc(start, done, PopulationCommands(pineTreeCount));
      done := done + PopulationCommands(pineTreeCount);
      Emit(WorldEnd);
      Emit(Cleanup);
      AppendAssoc(start + done, [WorldEnd], [Cleanup]);
      assert [WorldEnd] + [Cleanup] == [WorldEnd, Cleanup];
      AppendAssoc(start, done, [WorldEnd, Cleanup]);
    }
  }

  /** Concatenation is associative. */
  lemma AppendAssoc<T>(a: seq<T>, b: seq<T>, c: seq<T>)
    ensures a + b + c == a + (b + c)
  {
  }
}
