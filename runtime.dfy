/**
 * The `swigTraverse` extension object of index.js: a stack of traversal
 * frames, most recent first, with `push` (type-checked, `unshift`), `pop`
 * (`shift`) and `current` (`stack[0]`), and its `traverse` member applied to
 * whatever value the current frame holds.
 */
module Runtime {
  import opened Wrappers
  import opened TreeWalk
  import opened JsValues

  /** The object `{iter: '<name>', tree: <value>}` the emitted code pushes. */
  datatype Frame = Frame(iter: string, tree: Value)

  /** The error `push` throws; `given` is the `typeof` of the rejected tree. */
  datatype PushError = NotAnObject(given: string)

  /** The text of a message up to the `typeof` it names. */
  const PushLead := "Second argument of `traverse` tag must be an object, `"

  /** The text of the `Error` `push` throws; the rejected `typeof` can be read back from it. */
  function PushMessage(e: PushError): (m: string)
    ensures |m| == |PushLead| + |e.given| + 8
    ensures m[..|PushLead|] == PushLead
    ensures m[|PushLead|..|PushLead| + |e.given|] == e.given
    ensures m[|PushLead| + |e.given|..] == "` given."
  {
    var m := PushLead + e.given + "` given.";
    assert m[..|PushLead|] == PushLead;
    assert m[|PushLead|..|PushLead| + |e.given|] == e.given;
    assert m[|PushLead| + |e.given|..] == "` given.";
    m
  }

  // ---------------------------------------------------------------------------
  // The stack as a value
  // ---------------------------------------------------------------------------

  /** `current()`: the first frame, or `undefined` on an empty stack. */
  function Top(stack: seq<Frame>): (r: Option<Frame>)
    ensures r.Some? <==> stack != []
  {
    if stack == [] then None else Some(stack[0])
  }

  /** `pop()`: `shift` drops the first frame; on an empty array it does nothing. */
  function Popped(stack: seq<Frame>): (r: seq<Frame>)
    ensures stack != [] ==> [stack[0]] + r == stack
    ensures stack == [] ==> r == []
  {
    if stack == [] then [] else stack[1..]
  }

  /**
   * `push(f)`: rejects a tree whose `typeof` is not "object" and leaves the
   * stack alone; otherwise `f` becomes the current frame, and popping it gives
   * back exactly the stack there was before (LIFO).
   */
  function Pushed(stack: seq<Frame>, f: Frame): (r: Result<seq<Frame>, PushError>)
    ensures r.Ok? <==> TypeOf(f.tree) == "object"
    ensures r.Err? ==> r.error == NotAnObject(TypeOf(f.tree))
    ensures r.Ok? ==> Top(r.value) == Some(f) && Popped(r.value) == stack && |r.value| == |stack| + 1
  {
    if TypeOf(f.tree) != "object" then Err(NotAnObject(TypeOf(f.tree))) else Ok([f] + stack)
  }

  /** `null` passes the type check, because `typeof null` is "object". */
  lemma PushAcceptsNull(stack: seq<Frame>, iter: string)
    ensures Pushed(stack, Frame(iter, Null)).Ok?
  {
  }

  // ---------------------------------------------------------------------------
  // `traverse` applied to any value
  // ---------------------------------------------------------------------------

  /** The callback trace of `traverse(v, down, up)`, and whether the walk threw. */
  datatype Walked = Walked(events: seq<Event<Value>>, threw: bool)

  function Lift(t: seq<Event<Node>>): (r: seq<Event<Value>>)
    ensures |r| == |t|
    ensures forall i :: 0 <= i < |t| ==> r[i].Down? == t[i].Down? && r[i].x == Obj(t[i].x)
  {
    if t == [] then []
    else [match t[0] case Down(n) => Down(Obj(n)) case Up(n) => Up(Obj(n))] + Lift(t[1..])
  }

  /** Tree nodes as the object values the callbacks receive. */
  function Objs(ns: seq<Node>): (vs: seq<Value>)
    ensures |vs| == |ns|
  {
    if ns == [] then [] else [Obj(ns[0])] + Objs(ns[1..])
  }

  lemma {:induction false} ArgsLift(t: seq<Event<Node>>)
    ensures Args(Lift(t)) == Objs(Args(t))
  {
    if t != [] {
      ArgsLift(t[1..]);
    }
  }

  lemma {:induction false} KeepLift(t: seq<Event<Node>>, down: bool, up: bool)
    ensures Keep(Lift(t), down, up) == Lift(Keep(t, down, up))
  {
    if t != [] {
      KeepLift(t[1..], down, up);
      LiftAppend(if (t[0].Down? && down) || (t[0].Up? && up) then [t[0]] else [], Keep(t[1..], down, up));
    }
  }

  lemma {:induction false} LiftAppend(a: seq<Event<Node>>, b: seq<Event<Node>>)
    ensures Lift(a + b) == Lift(a) + Lift(b)
  {
    if a == [] {
      assert a + b == b;
    } else {
      assert (a + b)[0] == a[0];
      assert (a + b)[1..] == a[1..] + b;
      LiftAppend(a[1..], b);
    }
  }

  /**
   * `traverse(v, down, up)` on any value. A tree node is walked; `null` and
   * `undefined` get their `down` and then throw on `node.children`; any other
   * value (an array included) has no `children` property and is visited once.
   */
  function TraverseValue(v: Value, down: bool, up: bool): (w: Walked)
    ensures w.threw <==> v.Null? || v.Undefined?
    ensures v.Obj? ==> w.events == Lift(Walk(v.node, down, up))
    ensures !v.Obj? ==> w.events == (if down then [Down(v)] else []) + (if up && !w.threw then [Up(v)] else [])
  {
    match v
    case Obj(n) => Walked(Lift(Walk(n, down, up)), false)
    case Null => Walked(if down then [Down(v)] else [], true)
    case Undefined => Walked(if down then [Down(v)] else [], true)
    case _ => Walked((if down then [Down(v)] else []) + (if up then [Up(v)] else []), false)
  }

  // ---------------------------------------------------------------------------
  // The extension object
  // ---------------------------------------------------------------------------

  class TraverseExtension {
    /** `stack`: the frames of the `traverse` tags being rendered, innermost first. */
    var stack: seq<Frame>

    /** The extension starts with `stack: []`. */
    constructor ()
      ensures stack == []
    {
      stack := [];
    }

    /** `push(data)`: throws on a non-object tree and leaves the stack as it was. */
    method Push(data: Frame) returns (err: Option<PushError>)
      modifies this
      ensures err.None? <==> TypeOf(data.tree) == "object"
      ensures err.Some? ==> err.value == NotAnObject(TypeOf(data.tree)) && stack == old(stack)
      ensures err.None? ==> Pushed(old(stack), data) == Ok(stack) && stack == [data] + old(stack)
    {
      if TypeOf(data.tree) != "object" {
        err := Some(NotAnObject(TypeOf(data.tree)));
        return;
      }
      stack := [data] + stack;
      err := None;
    }

    /** `pop()`: drops the current frame and nothing else. */
    method Pop()
      modifies this
      ensures stack == Popped(old(stack))
      ensures old(stack) != [] ==> [old(stack)[0]] + stack == old(stack)
    {
      if stack != [] {
        stack := stack[1..];
      }
    }

    /** `current()`: the most recently pushed frame still on the stack. */
    function Current(): (r: Option<Frame>)
      reads this
      ensures r.Some? <==> stack != []
      ensures r.Some? ==> r.value == stack[0]
    {
      Top(stack)
    }
  }

  /** A caller's view of the LIFO discipline: push, read back, pop. */
  method PushCurrentPop(ext: TraverseExtension, f: Frame) returns (seen: Option<Frame>)
    requires TypeOf(f.tree) == "object"
    modifies ext
    ensures seen == Some(f)
    ensures ext.stack == old(ext.stack)
  {
    var err := ext.Push(f);
    seen := ext.Current();
    ext.Pop();
  }
}
