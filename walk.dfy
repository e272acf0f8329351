/**
 * The recursive depth-first visitor `traverse(node, down, up)` of index.js.
 *
 * The walk is a pure function from a tree to the trace of callback
 * invocations it makes: `down(node)` on the way in, then the walk of every
 * child in array order, then `up(node)` on the way out. An absent callback
 * contributes no event.
 */
module TreeWalk {
  import opened Wrappers

  /** The `children` property of a node: absent (or any other falsy value), or an array of nodes. */
  datatype Kids = Missing | Array(nodes: seq<Node>)

  /** A tree node: an object with an identity and an optional `children` property. */
  datatype Node = Node(id: int, kids: Kids)

  /** One callback invocation: `down(x)` on the way in or `up(x)` on the way out. */
  datatype Event<T> = Down(x: T) | Up(x: T)

  /** `node.children || []`: a missing `children` reads as the empty array. */
  function Children(n: Node): (ns: seq<Node>)
    ensures n.kids.Missing? ==> ns == []
    ensures n.kids.Array? ==> ns == n.kids.nodes
  {
    match n.kids
    case Missing => []
    case Array(ns) => ns
  }

  /** Number of nodes in a tree. */
  function Size(n: Node): (k: nat)
    ensures k >= 1
  {
    match n.kids
    case Missing => 1
    case Array(ns) => 1 + SizeAll(ns)
  }

  function SizeAll(ns: seq<Node>): (k: nat)
    ensures k >= |ns|
  {
    if ns == [] then 0 else Size(ns[0]) + SizeAll(ns[1..])
  }

  lemma {:induction false} SizeAllAppend(a: seq<Node>, b: seq<Node>)
    ensures SizeAll(a + b) == SizeAll(a) + SizeAll(b)
  {
    if a != [] {
      assert (a + b)[1..] == a[1..] + b;
      SizeAllAppend(a[1..], b);
    } else {
      assert a + b == b;
    }
  }

  // ---------------------------------------------------------------------------
  // The walk
  // ---------------------------------------------------------------------------

  /** The callback trace of `traverse(n, down, up)`; `down`/`up` say whether each callback is given. */
  function Walk(n: Node, down: bool, up: bool): (t: seq<Event<Node>>)
    ensures |t| == (if down then Size(n) else 0) + (if up then Size(n) else 0)
    ensures down ==> t[0] == Down(n)
    ensures up ==> t[|t| - 1] == Up(n)
    decreases Size(n), 0
  {
    (if down then [Down(n)] else []) + WalkAll(Children(n), down, up) + (if up then [Up(n)] else [])
  }

  /** `children.forEach(child => traverse(child, down, up))` */
  function WalkAll(ns: seq<Node>, down: bool, up: bool): (t: seq<Event<Node>>)
    ensures |t| == (if down then SizeAll(ns) else 0) + (if up then SizeAll(ns) else 0)
    decreases SizeAll(ns), 1
  {
    if ns == [] then [] else Walk(ns[0], down, up) + WalkAll(ns[1..], down, up)
  }

  lemma {:induction false} WalkAllAppend(a: seq<Node>, b: seq<Node>, down: bool, up: bool)
    ensures WalkAll(a + b, down, up) == WalkAll(a, down, up) + WalkAll(b, down, up)
  {
    if a == [] {
      assert a + b == b;
    } else {
      assert (a + b)[0] == a[0];
      assert (a + b)[1..] == a[1..] + b;
      WalkAllAppend(a[1..], b, down, up);
    }
  }

  /** A node whose `children` is missing or empty: one `down`, one `up`, nothing in between. */
  lemma LeafWalk(n: Node, down: bool, up: bool)
    requires n.kids.Missing? || n.kids == Array([])
    ensures Walk(n, down, up) == (if down then [Down(n)] else []) + (if up then [Up(n)] else [])
  {
  }

  // ---------------------------------------------------------------------------
  // Reference orders
  // ---------------------------------------------------------------------------

  /** Classic pre-order: the node, then the pre-order of each child from left to right. */
  function PreOrder(n: Node): (ns: seq<Node>)
    ensures |ns| == Size(n) && ns[0] == n
    decreases Size(n), 0
  {
    [n] + PreOrderAll(Children(n))
  }

  function PreOrderAll(ns: seq<Node>): (r: seq<Node>)
    ensures |r| == SizeAll(ns)
    decreases SizeAll(ns), 1
  {
    if ns == [] then [] else PreOrder(ns[0]) + PreOrderAll(ns[1..])
  }

  /** Classic post-order: the post-order of each child from left to right, then the node. */
  function PostOrder(n: Node): (ns: seq<Node>)
    ensures |ns| == Size(n) && ns[|ns| - 1] == n
    decreases Size(n), 0
  {
    PostOrderAll(Children(n)) + [n]
  }

  function PostOrderAll(ns: seq<Node>): (r: seq<Node>)
    ensures |r| == SizeAll(ns)
    decreases SizeAll(ns), 1
  {
    if ns == [] then [] else PostOrder(ns[0]) + PostOrderAll(ns[1..])
  }

  function Downs(ns: seq<Node>): (t: seq<Event<Node>>)
    ensures |t| == |ns|
  {
    if ns == [] then [] else [Down(ns[0])] + Downs(ns[1..])
  }

  function Ups(ns: seq<Node>): (t: seq<Event<Node>>)
    ensures |t| == |ns|
  {
    if ns == [] then [] else [Up(ns[0])] + Ups(ns[1..])
  }

  lemma {:induction false} DownsAppend(a: seq<Node>, b: seq<Node>)
    ensures Downs(a + b) == Downs(a) + Downs(b)
  {
    if a == [] {
      assert a + b == b;
    } else {
      assert (a + b)[0] == a[0];
      assert (a + b)[1..] == a[1..] + b;
      DownsAppend(a[1..], b);
    }
  }

  lemma {:induction false} UpsAppend(a: seq<Node>, b: seq<Node>)
    ensures Ups(a + b) == Ups(a) + Ups(b)
  {
    if a == [] {
      assert a + b == b;
    } else {
      assert (a + b)[0] == a[0];
      assert (a + b)[1..] == a[1..] + b;
      UpsAppend(a[1..], b);
    }
  }

  /** The arguments the callbacks receive, in call order. */
  function Args<T>(t: seq<Event<T>>): (xs: seq<T>)
    ensures |xs| == |t|
  {
    if t == [] then [] else [t[0].x] + Args(t[1..])
  }

  lemma {:induction false} ArgsAppend<T>(a: seq<Event<T>>, b: seq<Event<T>>)
    ensures Args(a + b) == Args(a) + Args(b)
  {
    if a == [] {
      assert a + b == b;
    } else {
      assert (a + b)[0] == a[0];
      assert (a + b)[1..] == a[1..] + b;
      ArgsAppend(a[1..], b);
    }
  }

  lemma {:induction false} ArgsOfDowns(ns: seq<Node>)
    ensures Args(Downs(ns)) == ns
  {
    if ns != [] {
      ArgsOfDowns(ns[1..]);
    }
  }

  /** With only `down` given, the trace is exactly the pre-order of the tree. */
  lemma {:induction false} DownOnlyIsPreOrder(n: Node)
    ensures Walk(n, true, false) == Downs(PreOrder(n))
    decreases Size(n), 0
  {
    DownOnlyIsPreOrderAll(Children(n));
    DownsAppend([n], PreOrderAll(Children(n)));
  }

  lemma {:induction false} DownOnlyIsPreOrderAll(ns: seq<Node>)
    ensures WalkAll(ns, true, false) == Downs(PreOrderAll(ns))
    decreases SizeAll(ns), 1
  {
    if ns != [] {
      DownOnlyIsPreOrder(ns[0]);
      DownOnlyIsPreOrderAll(ns[1..]);
      DownsAppend(PreOrder(ns[0]), PreOrderAll(ns[1..]));
    }
  }

  /** With only `up` given, the trace is exactly the post-order of the tree. */
  lemma {:induction false} UpOnlyIsPostOrder(n: Node)
    ensures Walk(n, false, true) == Ups(PostOrder(n))
    decreases Size(n), 0
  {
    UpOnlyIsPostOrderAll(Children(n));
    UpsAppend(PostOrderAll(Children(n)), [n]);
  }

  lemma {:induction false} UpOnlyIsPostOrderAll(ns: seq<Node>)
    ensures WalkAll(ns, false, true) == Ups(PostOrderAll(ns))
    decreases SizeAll(ns), 1
  {
    if ns != [] {
      UpOnlyIsPostOrder(ns[0]);
      UpOnlyIsPostOrderAll(ns[1..]);
      UpsAppend(PostOrder(ns[0]), PostOrderAll(ns[1..]));
    }
  }

  // ---------------------------------------------------------------------------
  // Absent callbacks
  // ---------------------------------------------------------------------------

  /** Whether the callback of event `e` is given. */
  predicate Given<T>(e: Event<T>, down: bool, up: bool)
  {
    (e.Down? && down) || (e.Up? && up)
  }

  /** The events of `t` whose callback is given. */
  function Keep<T>(t: seq<Event<T>>, down: bool, up: bool): (r: seq<Event<T>>)
    ensures |r| <= |t|
    ensures down && up ==> r == t
    ensures forall i :: 0 <= i < |r| ==> Given(r[i], down, up)
  {
    if t == [] then []
    else
      var head := if Given(t[0], down, up) then [t[0]] else [];
      var rest := Keep(t[1..], down, up);
      assert forall i :: 0 <= i < |head + rest| ==> (head + rest)[i] == if i < |head| then head[i] else rest[i - |head|];
      head + rest
  }

  lemma {:induction false} KeepAppend<T>(a: seq<Event<T>>, b: seq<Event<T>>, down: bool, up: bool)
    ensures Keep(a + b, down, up) == Keep(a, down, up) + Keep(b, down, up)
  {
    if a == [] {
      assert a + b == b;
    } else {
      assert (a + b)[0] == a[0];
      assert (a + b)[1..] == a[1..] + b;
      KeepAppend(a[1..], b, down, up);
    }
  }

  lemma {:induction false} KeepTwice<T>(t: seq<Event<T>>, down: bool, up: bool)
    ensures Keep(Keep(t, down, up), down, up) == Keep(t, down, up)
  {
    if t != [] {
      KeepTwice(t[1..], down, up);
      KeepAppend(if (t[0].Down? && down) || (t[0].Up? && up) then [t[0]] else [], Keep(t[1..], down, up), down, up);
    }
  }

  /**
   * Leaving out a callback drops exactly the events of that kind from the
   * full trace and leaves the other events, in the same order, unchanged.
   */
  lemma {:induction false} AbsentCallbackDropsItsEvents(n: Node, down: bool, up: bool)
    ensures Walk(n, down, up) == Keep(Walk(n, true, true), down, up)
    decreases Size(n), 0
  {
    var cs := Children(n);
    AbsentCallbackDropsItsEventsAll(cs, down, up);
    KeepAppend([Down(n)] + WalkAll(cs, true, true), [Up(n)], down, up);
    KeepAppend([Down(n)], WalkAll(cs, true, true), down, up);
  }

  lemma {:induction false} AbsentCallbackDropsItsEventsAll(ns: seq<Node>, down: bool, up: bool)
    ensures WalkAll(ns, down, up) == Keep(WalkAll(ns, true, true), down, up)
    decreases SizeAll(ns), 1
  {
    if ns != [] {
      AbsentCallbackDropsItsEvents(ns[0], down, up);
      AbsentCallbackDropsItsEventsAll(ns[1..], down, up);
      KeepAppend(Walk(ns[0], true, true), WalkAll(ns[1..], true, true), down, up);
    }
  }

  // ---------------------------------------------------------------------------
  // Bracketing
  // ---------------------------------------------------------------------------

  /**
   * Reads a trace as brackets: `Down(n)` opens `n`, `Up(n)` must close the
   * innermost open node. Gives the nodes still open at the end (innermost
   * first), or None when an `Up` does not match.
   */
  function Close(t: seq<Event<Node>>, open: seq<Node>): (r: Option<seq<Node>>)
  {
    if t == [] then Some(open)
    else match t[0]
      case Down(n) => Close(t[1..], [n] + open)
      case Up(n) => if open != [] && open[0] == n then Close(t[1..], open[1..]) else None
  }

  /**
   * Every subtree contributes one balanced block: a `Down(n)`, the blocks of
   * its children, then the matching `Up(n)`. So whatever follows the walk is
   * read against exactly the brackets that were open before it.
   */
  lemma {:induction false} WalkIsBracketed(n: Node, rest: seq<Event<Node>>, open: seq<Node>)
    ensures Close(Walk(n, true, true) + rest, open) == Close(rest, open)
    decreases Size(n), 0
  {
    var inner := WalkAll(Children(n), true, true);
    calc {
      Close(Walk(n, true, true) + rest, open);
      { assert Walk(n, true, true) + rest == [Down(n)] + (inner + ([Up(n)] + rest)); }
      Close([Down(n)] + (inner + ([Up(n)] + rest)), open);
      { assert ([Down(n)] + (inner + ([Up(n)] + rest)))[1..] == inner + ([Up(n)] + rest); }
      Close(inner + ([Up(n)] + rest), [n] + open);
      { WalkAllIsBracketed(Children(n), [Up(n)] + rest, [n] + open); }
      Close([Up(n)] + rest, [n] + open);
      { assert ([Up(n)] + rest)[1..] == rest; }
      Close(rest, open);
    }
  }

  lemma {:induction false} WalkAllIsBracketed(ns: seq<Node>, rest: seq<Event<Node>>, open: seq<Node>)
    ensures Close(WalkAll(ns, true, true) + rest, open) == Close(rest, open)
    decreases SizeAll(ns), 1
  {
    if ns == [] {
      assert WalkAll(ns, true, true) + rest == rest;
    } else {
      var head := Walk(ns[0], true, true);
      var tail := WalkAll(ns[1..], true, true);
      assert WalkAll(ns, true, true) + rest == head + (tail + rest);
      WalkIsBracketed(ns[0], tail + rest, open);
      WalkAllIsBracketed(ns[1..], rest, open);
    }
  }

  /** The full trace of a tree is well bracketed, opening with `Down(n)` and closing with `Up(n)`. */
  lemma WalkBalanced(n: Node)
    ensures Close(Walk(n, true, true), []) == Some([])
    ensures Walk(n, true, true)[0] == Down(n)
    ensures Walk(n, true, true)[|Walk(n, true, true)| - 1] == Up(n)
  {
    WalkIsBracketed(n, [], []);
    assert Walk(n, true, true) + [] == Walk(n, true, true);
  }
}
