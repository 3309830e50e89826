/**
  create_object's length test, as written and as evidently intended.

  As written, the test joins its two comparisons with `&&`, so it rejects a
  call only when `materials` differs in length from both other lists; a call
  with one list too short passes and the loop then indexes past its end. And
  ObjectBegin is emitted before the test, so a rejected call leaves an object
  scope open, which breaks the next definition.

  The intended test rejects a call when `materials` differs in length from
  either list, and a rejected call emits nothing. CheckedObjectCommands is
  that definition; it needs no precondition, and a call to it either breaks
  the protocol or leaves the scope stack exactly as it found it.
 */
module CheckedObjects {
  import opened Commands
  import opened Protocol
  import opened Emission
  import opened Effects

  // ----- As written -----

  /** A call whose `includes` list is one entry short: the `&&` test lets it
      through, and the loop would read includes[1], past the end. */
  lemma ShortListPassesGuard()
    ensures var materials := ["bark", "leaves"];
            var transformations := [DefaultTransformation, DefaultTransformation];
            var includes := ["trunk.pbrt"];
            && !Rejects(materials, transformations, includes)
            && !InRange(materials, transformations, includes)
            && |includes| < |materials|
  {
  }

  /** The `&&` test misses exactly the calls where one list, and only one,
      has a length different from `materials`. */
  lemma GuardMissesOneSidedMismatch(materials: seq<string>, transformations: seq<Transformation>, includes: seq<string>)
    ensures (Mismatched(materials, transformations, includes) && !Rejects(materials, transformations, includes))
            <==> ((|materials| == |transformations|) != (|materials| == |includes|))
  {
  }

  /** After a rejected create_object, the next create_object breaks the
      protocol: its ObjectBegin lands inside the scope the first one left open. */
  lemma RejectedDefinitionBreaksNext(st: RenderState,
                                     name: string, materials: seq<string>, transformations: seq<Transformation>, includes: seq<string>,
                                     name': string, materials': seq<string>, transformations': seq<Transformation>, includes': seq<string>)
    requires !InDefinition(st.stack)
    requires Rejects(materials, transformations, includes)
    requires !Rejects(materials', transformations', includes') ==> InRange(materials', transformations', includes')
    ensures Run(st, ObjectCommands(name, materials, transformations, includes)
                    + ObjectCommands(name', materials', transformations', includes')) == None
  {
    var second := ObjectCommands(name', materials', transformations', includes');
    RunAppend(st, ObjectCommands(name, materials, transformations, includes), second);
    RejectedDefinitionLeavesScopeOpen(st, name, materials, transformations, includes);
    assert second == [ObjectBegin(name')] + second[1..];
    NestedObjectBeginFails(Push(st, ObjectScope(name)), name', second[1..]);
  }

  // ----- As intended -----

  /** The intended test: `materials` differs in length from either list. */
  predicate Mismatched(materials: seq<string>, transformations: seq<Transformation>, includes: seq<string>)
  {
    |materials| != |transformations| || |materials| != |includes|
  }

  /** create_object with the intended test, made before anything is emitted. */
  function CheckedObjectCommands(name: string, materials: seq<string>, transformations: seq<Transformation>, includes: seq<string>): seq<Command>
  {
    if Mismatched(materials, transformations, includes) then []
    else [ObjectBegin(name)] + AttributeBlocks(materials, transformations, includes, |materials|) + [ObjectEnd]
  }

  /** Whenever the three lists have one length, the two definitions emit the
      same commands; the scene's own calls are all of this kind. */
  lemma CheckedAgreesWhenLengthsEqual(name: string, materials: seq<string>, transformations: seq<Transformation>, includes: seq<string>)
    requires |materials| == |transformations| == |includes|
    ensures !Rejects(materials, transformations, includes) && InRange(materials, transformations, includes)
    ensures CheckedObjectCommands(name, materials, transformations, includes)
            == ObjectCommands(name, materials, transformations, includes)
  {
  }

  /** create_object's loop either breaks the protocol or hands back the
      state it found, whatever the materials. */
  lemma {:induction false} AttributeBlocksKeepState(st: RenderState, materials: seq<string>, transformations: seq<Transformation>, includes: seq<string>, n: nat)
    requires n <= |materials| && n <= |transformations| && n <= |includes|
    ensures Run(st, AttributeBlocks(materials, transformations, includes, n)) in {None, Some(st)}
  {
    if n > 0 {
      AttributeBlocksKeepState(st, materials, transformations, includes, n - 1);
      RunAppend(st, AttributeBlocks(materials, transformations, includes, n - 1),
                AttributeCommands(transformations[n - 1], materials[n - 1], includes[n - 1]));
      AttributeBlockEffect(st, transformations[n - 1], materials[n - 1], includes[n - 1]);
    }
  }

  /** A corrected create_object never leaves a scope open: from any state it
      breaks the protocol, changes nothing (a mismatched call), or defines
      `name` and changes nothing else. */
  lemma CheckedNeverLeavesScopeOpen(st: RenderState, name: string, materials: seq<string>, transformations: seq<Transformation>, includes: seq<string>)
    ensures Run(st, CheckedObjectCommands(name, materials, transformations, includes))
            in {None, Some(st), Some(st.(objects := st.objects + {name}))}
    ensures Mismatched(materials, transformations, includes)
            ==> Run(st, CheckedObjectCommands(name, materials, transformations, includes)) == Some(st)
  {
    if !Mismatched(materials, transformations, includes) {
      var open := Push(st, ObjectScope(name));
      var blocks := AttributeBlocks(materials, transformations, includes, |materials|);
      RunAppend(st, [ObjectBegin(name)] + blocks, [ObjectEnd]);
      RunAppend(st, [ObjectBegin(name)], blocks);
      RunOne(st, ObjectBegin(name));
      if !InDefinition(st.stack) {
        AttributeBlocksKeepState(open, materials, transformations, includes, |materials|);
        RunOne(open, ObjectEnd);
        assert open.stack[..|open.stack| - 1] == st.stack;
      }
    }
  }

  /** Outside any definition and with every material bindable, a corrected
      create_object defines `name` exactly when the lengths agree. */
  lemma CheckedDefinitionEffect(st: RenderState, name: string, materials: seq<string>, transformations: seq<Transformation>, includes: seq<string>)
    requires !InDefinition(st.stack)
    requires forall k :: 0 <= k < |materials| ==> Bindable(st, materials[k])
    ensures Run(st, CheckedObjectCommands(name, materials, transformations, includes))
            == if Mismatched(materials, transformations, includes) then Some(st) else Some(st.(objects := st.objects + {name}))
  {
    CheckedNeverLeavesScopeOpen(st, name, materials, transformations, includes);
    if !Mismatched(materials, transformations, includes) {
      CheckedAgreesWhenLengthsEqual(name, materials, transformations, includes);
      DefinitionRegistersObject(st, name, materials, transformations, includes);
    }
  }
}
