/**
  What each helper's command sequence does to the protocol state: every
  add_attribute and add_object block closes the scope it opens and hands back
  the caller's state untouched; add_material registers its texture before the
  material that refers to it; an accepted create_object defines its object,
  while a rejected one leaves its object scope open.
 */
module Effects {
  import opened Commands
  import opened Protocol
  import opened Emission

  /** A material name add_attribute can bind in state st. */
  predicate Bindable(st: RenderState, material: string)
  {
    material == ".pbrt" || material in st.materials
  }

  predicate IsTransform(c: Command)
  {
    c.Translate? || c.Scale? || c.Rotate?
  }

  /** Transform commands never fail; they append to the current transform. */
  lemma {:induction false} RunTransforms(st: RenderState, ts: seq<Command>)
    requires forall k :: 0 <= k < |ts| ==> IsTransform(ts[k])
    ensures Run(st, ts) == Some(st.(current := st.current.(transforms := st.current.transforms + ts)))
    decreases |ts|
  {
    if ts == [] {
      assert st.current.transforms + ts == st.current.transforms;
    } else {
      var next := st.(current := st.current.(transforms := st.current.transforms + [ts[0]]));
      assert Step(st, ts[0]) == Some(next);
      RunTransforms(next, ts[1..]);
      assert st.current.transforms + [ts[0]] + ts[1..] == st.current.transforms + ts;
    }
  }

  /** The common shape of add_attribute, add_object and the light block: an
      attribute scope, transform commands, then a body. When the body, run
      inside the scope, leaves the state as it found it, the block as a whole
      hands back the caller's state untouched. */
  lemma ScopedBlockEffect(st: RenderState, ts: seq<Command>, body: seq<Command>)
    requires forall k :: 0 <= k < |ts| ==> IsTransform(ts[k])
    ensures var inner := Push(st, AttributeScope).(current := st.current.(transforms := st.current.transforms + ts));
            Run(st, [AttributeBegin] + ts + body + [AttributeEnd])
            == if Run(inner, body) == Some(inner) then Some(st) else Continue(Run(inner, body), [AttributeEnd])
  {
    var pushed := Push(st, AttributeScope);
    var inner := pushed.(current := st.current.(transforms := st.current.transforms + ts));
    RunAppend(st, [AttributeBegin] + ts + body, [AttributeEnd]);
    RunAppend(st, [AttributeBegin] + ts, body);
    RunCons(st, AttributeBegin, ts);
    RunTransforms(pushed, ts);
    if Run(inner, body) == Some(inner) {
      RunOne(inner, AttributeEnd);
      assert inner.stack[..|inner.stack| - 1] == st.stack;
    }
  }

  /** add_attribute leaves scope depth, transform and bound material as they
      were; it breaks the protocol exactly when it names a material that is
      neither ".pbrt" nor defined. */
  lemma AttributeBlockEffect(st: RenderState, t: Transformation, material: string, includePath: string)
    ensures Run(st, AttributeCommands(t, material, includePath)) == if Bindable(st, material) then Some(st) else None
  {
    var inner := Push(st, AttributeScope).(current := st.current.(transforms := st.current.transforms + TransformCommands(t)));
    var body := [MaterialBinding(material), ParseFile(includePath)];
    assert AttributeCommands(t, material, includePath) == [AttributeBegin] + TransformCommands(t) + body + [AttributeEnd];
    ScopedBlockEffect(st, TransformCommands(t), body);
    assert body == [MaterialBinding(material)] + [ParseFile(includePath)];
    RunCons(inner, MaterialBinding(material), [ParseFile(includePath)]);
    if Bindable(st, material) {
      var bound := if material == ".pbrt" then inner else inner.(current := inner.current.(material := Some(material)));
      assert Step(inner, MaterialBinding(material)) == Some(bound);
      RunOne(bound, ParseFile(includePath));
      RunOne(bound, AttributeEnd);
      assert Run(inner, body) == Some(bound);
      assert bound.stack[..|bound.stack| - 1] == st.stack;
    }
  }

  /** add_object leaves the caller's state untouched when the object is defined
      and no definition is open; otherwise it breaks the protocol. */
  lemma InstanceBlockEffect(st: RenderState, name: string, t: Transformation)
    ensures Run(st, InstanceCommands(name, t)) == if name in st.objects && !InDefinition(st.stack) then Some(st) else None
  {
    var inner := Push(st, AttributeScope).(current := st.current.(transforms := st.current.transforms + TransformCommands(t)));
    assert InstanceCommands(name, t) == [AttributeBegin] + TransformCommands(t) + [ObjectInstance(name)] + [AttributeEnd];
    ScopedBlockEffect(st, TransformCommands(t), [ObjectInstance(name)]);
    RunOne(inner, ObjectInstance(name));
    PushAttributeKeepsDefinition(st.stack, st.current);
  }

  /** add_material defines its texture and then its material; the material's
      only texture reference is that texture. */
  lemma MaterialEffect(st: RenderState, name: string, filename: string)
    ensures TexturesUsed(MaterialParams(name)) == {name}
    ensures Run(st, MaterialCommands(name, filename))
            == Some(st.(textures := st.textures + {name}, materials := st.materials + {name}))
  {
    var params := MaterialParams(name);
    assert params[1] in params;
    assert TexturesUsed(params) == {name};
    var textured := st.(textures := st.textures + {name});
    assert MaterialCommands(name, filename) == [MaterialCommands(name, filename)[0]] + [MaterialCommands(name, filename)[1]];
    RunCons(st, MaterialCommands(name, filename)[0], [MaterialCommands(name, filename)[1]]);
    RunOne(textured, MaterialCommands(name, filename)[1]);
  }

  /** The order of add_material's two calls matters: the material alone, before
      its texture exists, breaks the protocol. */
  lemma MaterialBeforeTextureFails(st: RenderState, name: string, filename: string)
    requires name !in st.textures
    ensures Run(st, [MaterialCommands(name, filename)[1], MaterialCommands(name, filename)[0]]) == None
  {
    var params := MaterialParams(name);
    assert params[1] in params;
    RunCons(st, MaterialCommands(name, filename)[1], [MaterialCommands(name, filename)[0]]);
  }

  /** create_object's loop: blocks whose materials are all bindable leave the
      state as it was. */
  lemma {:induction false} AttributeBlocksEffect(st: RenderState, materials: seq<string>, transformations: seq<Transformation>, includes: seq<string>, n: nat)
    requires n <= |materials| && n <= |transformations| && n <= |includes|
    requires forall k :: 0 <= k < n ==> Bindable(st, materials[k])
    ensures Run(st, AttributeBlocks(materials, transformations, includes, n)) == Some(st)
  {
    if n > 0 {
      AttributeBlocksEffect(st, materials, transformations, includes, n - 1);
      RunAppend(st, AttributeBlocks(materials, transformations, includes, n - 1),
                AttributeCommands(transformations[n - 1], materials[n - 1], includes[n - 1]));
      AttributeBlockEffect(st, transformations[n - 1], materials[n - 1], includes[n - 1]);
    }
  }

  /** An accepted create_object, outside any other definition and with every
      material bindable, defines the object and changes nothing else. */
  lemma DefinitionRegistersObject(st: RenderState, name: string, materials: seq<string>, transformations: seq<Transformation>, includes: seq<string>)
    requires !InDefinition(st.stack)
    requires !Rejects(materials, transformations, includes)
    requires InRange(materials, transformations, includes)
    requires forall k :: 0 <= k < |materials| ==> Bindable(st, materials[k])
    ensures Run(st, ObjectCommands(name, materials, transformations, includes)) == Some(st.(objects := st.objects + {name}))
  {
    var open := Push(st, ObjectScope(name));
    var blocks := AttributeBlocks(materials, transformations, includes, |materials|);
    RunAppend(st, [ObjectBegin(name)] + blocks, [ObjectEnd]);
    RunAppend(st, [ObjectBegin(name)], blocks);
    RunOne(st, ObjectBegin(name));
    AttributeBlocksEffect(open, materials, transformations, includes, |materials|);
    RunOne(open, ObjectEnd);
    assert open.stack[..|open.stack| - 1] == st.stack;
  }

  /** A rejected create_object leaves its ObjectBegin unmatched: the object is
      not defined and an object definition stays open. */
  lemma RejectedDefinitionLeavesScopeOpen(st: RenderState, name: string, materials: seq<string>, transformations: seq<Transformation>, includes: seq<string>)
    requires !InDefinition(st.stack)
    requires Rejects(materials, transformations, includes)
    ensures Run(st, ObjectCommands(name, materials, transformations, includes)) == Some(Push(st, ObjectScope(name)))
    ensures InDefinition(Push(st, ObjectScope(name)).stack)
  {
    RunOne(st, ObjectBegin(name));
  }

  /** A row of add_object calls for a defined object, outside any definition,
      leaves the caller's state untouched. */
  lemma {:induction false} InstanceRowEffect(st: RenderState, name: string, ts: seq<Transformation>)
    requires name in st.objects && !InDefinition(st.stack)
    ensures Run(st, InstanceRow(name, ts)) == Some(st)
  {
    if ts != [] {
      InstanceRowEffect(st, name, ts[..|ts| - 1]);
      RunAppend(st, InstanceRow(name, ts[..|ts| - 1]), InstanceCommands(name, ts[|ts| - 1]));
      InstanceBlockEffect(st, name, ts[|ts| - 1]);
    }
  }
}
