/**
  The scope discipline a renderer command stream must follow, as an abstract
  interpreter over Commands. A scope (AttributeBegin or ObjectBegin) saves the
  current graphics state (the transform commands applied so far and the bound
  material); its matching end restores it. Object scopes cannot nest, and an
  object counts as defined once its scope is closed. Textures, materials and
  objects must be defined before they are referred to, and WorldEnd needs
  every scope closed. A stream that breaks a rule makes Run return None.
 */
module Protocol {
  import opened Commands

  datatype Scope = AttributeScope | ObjectScope(name: string)

  datatype GraphicsState = GraphicsState(transforms: seq<Command>, material: Option<string>)

  /** A pushed scope and the graphics state it will restore. */
  datatype Frame = Frame(scope: Scope, saved: GraphicsState)

  datatype RenderState = RenderState(
    stack: seq<Frame>,
    current: GraphicsState,
    textures: set<string>,
    materials: set<string>,
    objects: set<string>)

  const Initial := RenderState([], GraphicsState([], None), {}, {}, {})

  /** Some open scope on the stack is an object definition. */
  predicate InDefinition(stack: seq<Frame>)
    decreases |stack|
  {
    |stack| > 0 && (stack[|stack| - 1].scope.ObjectScope? || InDefinition(stack[..|stack| - 1]))
  }

  /** The textures a material's parameter list refers to. */
  function TexturesUsed(params: seq<Param>): set<string>
  {
    set p | p in params && p.value.TextureRef? :: p.value.texture
  }

  function Push(st: RenderState, scope: Scope): RenderState
  {
    st.(stack := st.stack + [Frame(scope, st.current)])
  }

  /** The effect of one command, or None when the command breaks the protocol. */
  function Step(st: RenderState, c: Command): Option<RenderState>
  {
    match c
    case AttributeBegin => Some(Push(st, AttributeScope))
    case AttributeEnd =>
      if |st.stack| > 0 && st.stack[|st.stack| - 1].scope == AttributeScope
      then Some(st.(stack := st.stack[..|st.stack| - 1], current := st.stack[|st.stack| - 1].saved))
      else None
    case ObjectBegin(name) =>
      if InDefinition(st.stack) then None else Some(Push(st, ObjectScope(name)))
    case ObjectEnd =>
      if |st.stack| > 0 && st.stack[|st.stack| - 1].scope.ObjectScope?
      then Some(st.(stack := st.stack[..|st.stack| - 1],
                    current := st.stack[|st.stack| - 1].saved,
                    objects := st.objects + {st.stack[|st.stack| - 1].scope.name}))
      else None
    case Translate(_) | Scale(_) | Rotate(_, _) =>
      Some(st.(current := st.current.(transforms := st.current.transforms + [c])))
    case NamedMaterial(name) =>
      if name in st.materials then Some(st.(current := st.current.(material := Some(name)))) else None
    case Texture(name, _, _, _) => Some(st.(textures := st.textures + {name}))
    case MakeNamedMaterial(name, params) =>
      if TexturesUsed(params) <= st.textures then Some(st.(materials := st.materials + {name})) else None
    case ObjectInstance(name) =>
      if name in st.objects && !InDefinition(st.stack) then Some(st) else None
    case WorldEnd => if st.stack == [] then Some(st) else None
    case _ => Some(st)
  }

  function Continue(o: Option<RenderState>, log: seq<Command>): Option<RenderState>
    decreases |log|, 1
  {
    match o
    case None => None
    case Some(st) => Run(st, log)
  }

  /** The state after a whole command stream, or None if it breaks the protocol. */
  function Run(st: RenderState, log: seq<Command>): Option<RenderState>
    decreases |log|, 0
  {
    if log == [] then Some(st) else Continue(Step(st, log[0]), log[1..])
  }

  /** Running a concatenation runs the first part, then the second. */
  lemma {:induction false} RunAppend(st: RenderState, a: seq<Command>, b: seq<Command>)
    ensures Run(st, a + b) == Continue(Run(st, a), b)
    decreases |a|
  {
    if a == [] {
      assert a + b == b;
    } else {
      assert (a + b)[0] == a[0];
      assert (a + b)[1..] == a[1..] + b;
      match Step(st, a[0]) {
        case None =>
        case Some(next) => RunAppend(next, a[1..], b);
      }
    }
  }

  /** Two streams that each follow the protocol, run one after the other. */
  lemma Chain(st: RenderState, a: seq<Command>, b: seq<Command>, mid: RenderState, last: RenderState)
    requires Run(st, a) == Some(mid) && Run(mid, b) == Some(last)
    ensures Run(st, a + b) == Some(last)
  {
    RunAppend(st, a, b);
  }

  /** Running one command and then the rest. */
  lemma RunCons(st: RenderState, c: Command, rest: seq<Command>)
    ensures Run(st, [c] + rest) == Continue(Step(st, c), rest)
  {
    assert ([c] + rest)[1..] == rest;
  }

  /** Running a single command. */
  lemma RunOne(st: RenderState, c: Command)
    ensures Run(st, [c]) == Step(st, c)
  {
    assert [c][1..] == [];
    match Step(st, c) {
      case None =>
      case Some(next) => assert Run(next, []) == Some(next);
    }
  }

  /** The commands that leave the protocol state as it is. */
  predicate Neutral(c: Command)
  {
    c.Init? || c.LookAt? || c.Camera? || c.Film? || c.Sampler? || c.Integrator?
    || c.TransformTimes? || c.WorldBegin? || c.ParseFile? || c.LightSource? || c.Cleanup?
  }

  /** A stream of neutral commands never fails and changes nothing. */
  lemma {:induction false} NeutralRun(st: RenderState, log: seq<Command>)
    requires forall k :: 0 <= k < |log| ==> Neutral(log[k])
    ensures Run(st, log) == Some(st)
    decreases |log|
  {
    if log != [] {
      assert Step(st, log[0]) == Some(st);
      NeutralRun(st, log[1..]);
    }
  }

  /** An attribute scope pushed on top of a stack is not an object definition,
      so it leaves InDefinition as it was. */
  lemma PushAttributeKeepsDefinition(stack: seq<Frame>, g: GraphicsState)
    ensures InDefinition(stack + [Frame(AttributeScope, g)]) == InDefinition(stack)
  {
    assert (stack + [Frame(AttributeScope, g)])[..|stack|] == stack;
  }

  /** Object definitions do not nest: ObjectBegin inside one breaks the protocol. */
  lemma NestedObjectBeginFails(st: RenderState, name: string, rest: seq<Command>)
    requires InDefinition(st.stack)
    ensures Run(st, [ObjectBegin(name)] + rest) == None
  {
    RunCons(st, ObjectBegin(name), rest);
  }
}
