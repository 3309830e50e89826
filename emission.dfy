/**
  The command sequences the scene helpers of main.cpp emit (add_attribute,
  add_object, add_material, create_object), as pure functions over
  seq<Command>, and what each sequence does to the protocol state of module
  Protocol: which scopes it opens and closes, what it defines, and when it
  breaks the protocol.
 */
module Emission {
  import opened Commands
  import opened Protocol

  /** The three transform calls, always in the order translate, scale, rotate. */
  function TransformCommands(t: Transformation): seq<Command>
  {
    [Translate(t.translate), Scale(t.scale), Rotate(t.deg, t.rotate)]
  }

  /** add_attribute's material step: the literal ".pbrt" is parsed as a file,
      any other string is bound as a named material. */
  function MaterialBinding(material: string): Command
  {
    if material == ".pbrt" then ParseFile(material) else NamedMaterial(material)
  }

  /** add_attribute(transformation, material, includePath). */
  function AttributeCommands(t: Transformation, material: string, includePath: string): seq<Command>
  {
    [AttributeBegin] + TransformCommands(t) + [MaterialBinding(material), ParseFile(includePath), AttributeEnd]
  }

  /** add_object(name, transformation). */
  function InstanceCommands(name: string, t: Transformation): seq<Command>
  {
    [AttributeBegin] + TransformCommands(t) + [ObjectInstance(name), AttributeEnd]
  }

  /** The parameters add_material gives the image texture. */
  function TextureParams(filename: string): seq<Param>
  {
    [Param("filename", Strings([filename])), Param("uscale", Floats([1.0])), Param("vscale", Floats([1.0]))]
  }

  /** The parameters add_material gives the material: matte, Kd from the texture `name`. */
  function MaterialParams(name: string): seq<Param>
  {
    [Param("type", Strings(["matte"])), Param("Kd", TextureRef(name))]
  }

  /** add_material(name, filename). */
  function MaterialCommands(name: string, filename: string): seq<Command>
  {
    [Texture(name, "spectrum", "imagemap", TextureParams(filename)), MakeNamedMaterial(name, MaterialParams(name))]
  }

  /** create_object's early-return test, with its `&&` as written: it rejects
      only when `materials` differs in length from BOTH other lists. */
  predicate Rejects(materials: seq<string>, transformations: seq<Transformation>, includes: seq<string>)
  {
    |materials| != |transformations| && |materials| != |includes|
  }

  /** Every index the loop of create_object reads is inside both other lists. */
  predicate InRange(materials: seq<string>, transformations: seq<Transformation>, includes: seq<string>)
  {
    |materials| <= |transformations| && |materials| <= |includes|
  }

  /** The first n add_attribute blocks of create_object's loop. */
  function AttributeBlocks(materials: seq<string>, transformations: seq<Transformation>, includes: seq<string>, n: nat): seq<Command>
    requires n <= |materials| && n <= |transformations| && n <= |includes|
  {
    if n == 0 then []
    else AttributeBlocks(materials, transformations, includes, n - 1)
         + AttributeCommands(transformations[n - 1], materials[n - 1], includes[n - 1])
  }

  /** create_object(name, materials, transformations, includes): ObjectBegin
      is emitted before the length test, so a rejected call emits it alone. */
  function ObjectCommands(name: string, materials: seq<string>, transformations: seq<Transformation>, includes: seq<string>): seq<Command>
    requires !Rejects(materials, transformations, includes) ==> InRange(materials, transformations, includes)
  {
    if Rejects(materials, transformations, includes) then [ObjectBegin(name)]
    else [ObjectBegin(name)] + AttributeBlocks(materials, transformations, includes, |materials|) + [ObjectEnd]
  }

  /** Occurrences of `c` in `log`. */
  function Count(log: seq<Command>, c: Command): nat
  {
    if log == [] then 0 else Count(log[..|log| - 1], c) + (if log[|log| - 1] == c then 1 else 0)
  }

  /** Counting distributes over concatenation. */
  lemma {:induction false} CountAppend(a: seq<Command>, b: seq<Command>, c: Command)
    ensures Count(a + b, c) == Count(a, c) + Count(b, c)
    decreases |b|
  {
    if b == [] {
      assert a + b == a;
    } else {
      assert (a + b)[..|a + b| - 1] == a + b[..|b| - 1];
      CountAppend(a, b[..|b| - 1], c);
    }
  }

  // ----- Layout: which command sits where -----

  lemma {:induction false} AttributeBlocksLength(materials: seq<string>, transformations: seq<Transformation>, includes: seq<string>, n: nat)
    requires n <= |materials| && n <= |transformations| && n <= |includes|
    ensures |AttributeBlocks(materials, transformations, includes, n)| == 7 * n
  {
    if n > 0 {
      AttributeBlocksLength(materials, transformations, includes, n - 1);
    }
  }

  /** Block i of the loop occupies positions 7i .. 7i+6 and is add_attribute
      applied to the i-th entry of each list. */
  lemma {:induction false} AttributeBlockAt(materials: seq<string>, transformations: seq<Transformation>, includes: seq<string>, n: nat, i: nat)
    requires n <= |materials| && n <= |transformations| && n <= |includes|
    requires i < n
    ensures |AttributeBlocks(materials, transformations, includes, n)| == 7 * n
    ensures AttributeBlocks(materials, transformations, includes, n)[7 * i .. 7 * i + 7]
            == AttributeCommands(transformations[i], materials[i], includes[i])
  {
    AttributeBlocksLength(materials, transformations, includes, n);
    AttributeBlocksLength(materials, transformations, includes, n - 1);
    var prefix := AttributeBlocks(materials, transformations, includes, n - 1);
    if i < n - 1 {
      AttributeBlockAt(materials, transformations, includes, n - 1, i);
      assert (prefix + AttributeCommands(transformations[n - 1], materials[n - 1], includes[n - 1]))[7 * i .. 7 * i + 7]
             == prefix[7 * i .. 7 * i + 7];
    }
  }

  /** An accepted create_object: ObjectBegin(name) first, ObjectEnd last, and
      between them one add_attribute block per index, in increasing order. */
  lemma ObjectLayout(name: string, materials: seq<string>, transformations: seq<Transformation>, includes: seq<string>)
    requires !Rejects(materials, transformations, includes)
    requires InRange(materials, transformations, includes)
    ensures var r := ObjectCommands(name, materials, transformations, includes);
            && |r| == 2 + 7 * |materials|
            && r[0] == ObjectBegin(name)
            && r[|r| - 1] == ObjectEnd
            && forall i :: 0 <= i < |materials| ==>
                 r[1 + 7 * i .. 8 + 7 * i] == AttributeCommands(transformations[i], materials[i], includes[i])
  {
    var r := ObjectCommands(name, materials, transformations, includes);
    var blocks := AttributeBlocks(materials, transformations, includes, |materials|);
    AttributeBlocksLength(materials, transformations, includes, |materials|);
    forall i | 0 <= i < |materials|
      ensures r[1 + 7 * i .. 8 + 7 * i] == AttributeCommands(transformations[i], materials[i], includes[i])
    {
      AttributeBlockAt(materials, transformations, includes, |materials|, i);
      assert r[1 + 7 * i .. 8 + 7 * i] == blocks[7 * i .. 7 * i + 7];
    }
  }

  /** An accepted create_object opens and closes exactly one attribute scope
      per material. */
  lemma {:induction false} ObjectScopeCount(name: string, materials: seq<string>, transformations: seq<Transformation>, includes: seq<string>)
    requires !Rejects(materials, transformations, includes)
    requires InRange(materials, transformations, includes)
    ensures Count(ObjectCommands(name, materials, transformations, includes), AttributeBegin) == |materials|
    ensures Count(ObjectCommands(name, materials, transformations, includes), AttributeEnd) == |materials|
  {
    BlocksScopeCount(materials, transformations, includes, |materials|);
    var blocks := AttributeBlocks(materials, transformations, includes, |materials|);
    CountAppend([ObjectBegin(name)] + blocks, [ObjectEnd], AttributeBegin);
    CountAppend([ObjectBegin(name)], blocks, AttributeBegin);
    CountAppend([ObjectBegin(name)] + blocks, [ObjectEnd], AttributeEnd);
    CountAppend([ObjectBegin(name)], blocks, AttributeEnd);
    assert Count([ObjectBegin(name)], AttributeBegin) == 0 by { assert [ObjectBegin(name)][..0] == []; }
    assert Count([ObjectBegin(name)], AttributeEnd) == 0 by { assert [ObjectBegin(name)][..0] == []; }
    assert Count([ObjectEnd], AttributeBegin) == 0 by { assert [ObjectEnd][..0] == []; }
    assert Count([ObjectEnd], AttributeEnd) == 0 by { assert [ObjectEnd][..0] == []; }
  }

  lemma {:induction false} BlocksScopeCount(materials: seq<string>, transformations: seq<Transformation>, includes: seq<string>, n: nat)
    requires n <= |materials| && n <= |transformations| && n <= |includes|
    ensures Count(AttributeBlocks(materials, transformations, includes, n), AttributeBegin) == n
    ensures Count(AttributeBlocks(materials, transformations, includes, n), AttributeEnd) == n
  {
    if n > 0 {
      BlocksScopeCount(materials, transformations, includes, n - 1);
      var block := AttributeCommands(transformations[n - 1], materials[n - 1], includes[n - 1]);
      CountAppend(AttributeBlocks(materials, transformations, includes, n - 1), block, AttributeBegin);
      CountAppend(AttributeBlocks(materials, transformations, includes, n - 1), block, AttributeEnd);
      AttributeBlockScopeCount(transformations[n - 1], materials[n - 1], includes[n - 1]);
    }
  }

  /** One add_attribute block holds one AttributeBegin and one AttributeEnd. */
  lemma AttributeBlockScopeCount(t: Transformation, material: string, includePath: string)
    ensures Count(AttributeCommands(t, material, includePath), AttributeBegin) == 1
    ensures Count(AttributeCommands(t, material, includePath), AttributeEnd) == 1
  {
    var inner := TransformCommands(t) + [MaterialBinding(material), ParseFile(includePath)];
    assert AttributeCommands(t, material, includePath) == [AttributeBegin] + inner + [AttributeEnd];
    CountAbsent(inner, AttributeBegin);
    CountAbsent(inner, AttributeEnd);
    CountAbsent([AttributeBegin], AttributeEnd);
    CountAbsent([AttributeEnd], AttributeBegin);
    CountAppend([AttributeBegin] + inner, [AttributeEnd], AttributeBegin);
    CountAppend([AttributeBegin], inner, AttributeBegin);
    CountAppend([AttributeBegin] + inner, [AttributeEnd], AttributeEnd);
    CountAppend([AttributeBegin], inner, AttributeEnd);
    assert [AttributeBegin][..0] == [] && [AttributeEnd][..0] == [];
  }

  lemma {:induction false} CountAbsent(log: seq<Command>, c: Command)
    requires forall k :: 0 <= k < |log| ==> log[k] != c
    ensures Count(log, c) == 0
  {
    if log != [] {
      CountAbsent(log[..|log| - 1], c);
    }
  }

  // ----- Rows of instances -----

  /** Consecutive add_object(name, ts[k]) calls, for k in increasing order. */
  function InstanceRow(name: string, ts: seq<Transformation>): seq<Command>
  {
    if ts == [] then [] else InstanceRow(name, ts[..|ts| - 1]) + InstanceCommands(name, ts[|ts| - 1])
  }

  /** One more add_object call extends a row by one instance. */
  lemma InstanceRowSnoc(name: string, ts: seq<Transformation>, t: Transformation)
    ensures InstanceRow(name, ts + [t]) == InstanceRow(name, ts) + InstanceCommands(name, t)
  {
    assert (ts + [t])[..|ts|] == ts;
  }

  lemma {:induction false} InstanceRowLength(name: string, ts: seq<Transformation>)
    ensures |InstanceRow(name, ts)| == 6 * |ts|
  {
    if ts != [] {
      InstanceRowLength(name, ts[..|ts| - 1]);
    }
  }

  /** Instance k of a row occupies positions 6k .. 6k+5 and places `name`
      with the k-th transformation. */
  lemma {:induction false} InstanceRowAt(name: string, ts: seq<Transformation>, k: nat)
    requires k < |ts|
    ensures |InstanceRow(name, ts)| == 6 * |ts|
    ensures InstanceRow(name, ts)[6 * k .. 6 * k + 6] == InstanceCommands(name, ts[k])
  {
    var prefix := ts[..|ts| - 1];
    InstanceRowLength(name, ts);
    InstanceRowLength(name, prefix);
    if k < |ts| - 1 {
      InstanceRowAt(name, prefix, k);
      assert (InstanceRow(name, prefix) + InstanceCommands(name, ts[|ts| - 1]))[6 * k .. 6 * k + 6]
             == InstanceRow(name, prefix)[6 * k .. 6 * k + 6];
    }
  }

  /** A row instances `name` exactly once per transformation, and opens and
      closes one attribute scope per instance. */
  lemma {:induction false} InstanceRowCount(name: string, ts: seq<Transformation>)
    ensures Count(InstanceRow(name, ts), ObjectInstance(name)) == |ts|
    ensures Count(InstanceRow(name, ts), AttributeBegin) == |ts|
    ensures Count(InstanceRow(name, ts), AttributeEnd) == |ts|
  {
    if ts != [] {
      var prefix := ts[..|ts| - 1];
      var t := ts[|ts| - 1];
      InstanceRowCount(name, prefix);
      var inner := TransformCommands(t);
      assert InstanceCommands(name, t) == [AttributeBegin] + inner + [ObjectInstance(name)] + [AttributeEnd];
      forall c | c in {ObjectInstance(name), AttributeBegin, AttributeEnd}
        ensures Count(InstanceCommands(name, t), c) == 1
      {
        CountAbsent(inner, c);
        CountAppend([AttributeBegin] + inner + [ObjectInstance(name)], [AttributeEnd], c);
        CountAppend([AttributeBegin] + inner, [ObjectInstance(name)], c);
        CountAppend([AttributeBegin], inner, c);
        assert [AttributeBegin][..0] == [] && [AttributeEnd][..0] == [] && [ObjectInstance(name)][..0] == [];
      }
      CountAppend(InstanceRow(name, prefix), InstanceCommands(name, t), ObjectInstance(name));
      CountAppend(InstanceRow(name, prefix), InstanceCommands(name, t), AttributeBegin);
      CountAppend(InstanceRow(name, prefix), InstanceCommands(name, t), AttributeEnd);
    }
  }
}
