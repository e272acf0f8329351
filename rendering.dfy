/**
 * What a template sees while a `traverse` tag renders: which node the
 * iterator variable holds each time the body runs, and what `level` reads.
 */
module Rendering {
  import opened Wrappers
  import opened TreeWalk
  import opened JsValues
  import opened Runtime
  import opened Emitter

  /** `{{ x }}` run as a block on its own only appends `_ctx[x]` to the output. */
  lemma EchoBlock(name: string, st: State)
    ensures Exec([Echo(name)], st) == Done(st.(out := st.out + [Get(st.ctx, name)]))
  {
    assert [Echo(name)][1..] == [];
  }

  // ---------------------------------------------------------------------------
  // The iterator variable
  // ---------------------------------------------------------------------------

  /**
   * With body `{{ iter }}` and a post-visit body that is empty or `{{ iter }}`,
   * the callbacks output the node of each kept event in order and change
   * nothing else that matters to the tag.
   */
  lemma {:induction false} VisitEchoesNodes(evs: seq<Event<Value>>, post: Postvisit, st: State, f: Frame)
    requires Top(st.stack) == Some(f) && f.iter != "level"
    requires post == NoPostvisit || post == Postvisit([]) || post == Postvisit([Echo(f.iter)])
    ensures Visit(evs, [Echo(f.iter)], post, st).Done?
    ensures Visit(evs, [Echo(f.iter)], post, st).st.out
         == st.out + Args(Keep(evs, true, post == Postvisit([Echo(f.iter)])))
    ensures Visit(evs, [Echo(f.iter)], post, st).st.stack == st.stack
    ensures Visit(evs, [Echo(f.iter)], post, st).st.backups == st.backups
    decreases |evs|
  {
    if evs != [] {
      var echoUp := post == Postvisit([Echo(f.iter)]);
      var next := Entered(evs[0], f, st);
      var shown := if evs[0].Down? || echoUp then [evs[0].x] else [];
      var st2 := next.(out := next.out + shown);
      assert Visit(evs, [Echo(f.iter)], post, st) == Visit(evs[1..], [Echo(f.iter)], post, st2) by {
        EchoStep(evs[0], f.iter, post, next);
        VisitStep(evs, [Echo(f.iter)], post, st, f);
      }
      assert st2.out == st.out + shown && st2.stack == st.stack && st2.backups == st.backups;
      VisitEchoesNodes(evs[1..], post, st2, f);
      ArgsKeepStep(evs, echoUp);
      Regroup(st.out, shown, Args(Keep(evs[1..], true, echoUp)));
    }
  }

  /** The node of the first event is output first when its callback outputs the iterator. */
  lemma ArgsKeepStep(evs: seq<Event<Value>>, echoUp: bool)
    requires evs != []
    ensures Args(Keep(evs, true, echoUp))
         == (if evs[0].Down? || echoUp then [evs[0].x] else []) + Args(Keep(evs[1..], true, echoUp))
  {
    assert Keep(evs, true, echoUp) == (if evs[0].Down? || echoUp then [evs[0]] else []) + Keep(evs[1..], true, echoUp);
    ArgsAppend(if evs[0].Down? || echoUp then [evs[0]] else [], Keep(evs[1..], true, echoUp));
  }

  lemma Regroup<T>(a: seq<T>, b: seq<T>, c: seq<T>)
    ensures a + (b + c) == (a + b) + c
  {
  }

  /** The block of one callback when the body is `{{ x }}` and the post-visit body is empty or `{{ x }}`. */
  lemma EchoStep(ev: Event<Value>, x: string, post: Postvisit, st: State)
    requires post == NoPostvisit || post == Postvisit([]) || post == Postvisit([Echo(x)])
    ensures Exec(BlockFor(ev, [Echo(x)], post), st)
         == Done(st.(out := st.out + if ev.Down? || post == Postvisit([Echo(x)]) then [Get(st.ctx, x)] else []))
  {
    EchoBlock(x, st);
  }

  /**
   * `{% traverse n in root %}{{ n }}{% endtraverse %}` outputs the nodes of
   * the tree in pre-order, each node before its descendants and the
   * children's subtrees in array order.
   */
  lemma PreOrderOutput(uid: int, iter: string, root: Node, st: State)
    requires iter != "level"
    ensures var r := ExecStmt(Traverse(uid, iter, Lit(Obj(root)), [Echo(iter)], NoPostvisit), st);
            r.Done? && r.st.out == st.out + Objs(PreOrder(root))
  {
    PreOrderOutputFrom(uid, iter, root, st, NoPostvisit);
  }

  /** The same output when an empty `{% postvisit %}` installs an `up` callback. */
  lemma {:induction false} PreOrderOutputFrom(uid: int, iter: string, root: Node, st: State, post: Postvisit)
    requires iter != "level"
    requires post == NoPostvisit || post == Postvisit([])
    ensures var r := ExecStmt(Traverse(uid, iter, Lit(Obj(root)), [Echo(iter)], post), st);
            r.Done? && r.st.out == st.out + Objs(PreOrder(root))
  {
    var f := Frame(iter, Obj(root));
    var st1 := st.(stack := [f] + st.stack, backups := st.backups[uid := Backup(Get(st.ctx, iter), Get(st.ctx, "level"))]);
    var t := Walk(root, true, post.Postvisit?);
    VisitEchoesNodes(Lift(t), post, st1, f);
    TraverseObject(uid, iter, root, [Echo(iter)], post, st);
    DownArgsArePreOrder(root, post.Postvisit?);
  }

  /** The nodes the `down` callback receives are the pre-order, whether or not `up` is given. */
  lemma DownArgsArePreOrder(root: Node, up: bool)
    ensures Args(Keep(Lift(Walk(root, true, up)), true, false)) == Objs(PreOrder(root))
  {
    var t := Walk(root, true, up);
    KeepLift(t, true, false);
    AbsentCallbackDropsItsEvents(root, true, up);
    AbsentCallbackDropsItsEvents(root, true, false);
    KeepTwice(Walk(root, true, true), true, false);
    assert Keep(t, true, false) == Walk(root, true, false);
    DownOnlyIsPreOrder(root);
    ArgsLift(Walk(root, true, false));
    ArgsOfDowns(PreOrder(root));
  }

  /**
   * With `{% postvisit %}{{ n }}`, each node is output once on the way in and
   * once on the way out, in the order of the bracketed walk: the post-visit
   * output of a node follows that of all its descendants.
   */
  lemma {:induction false} DepthFirstOutput(uid: int, iter: string, root: Node, st: State)
    requires iter != "level"
    ensures var r := ExecStmt(Traverse(uid, iter, Lit(Obj(root)), [Echo(iter)], Postvisit([Echo(iter)])), st);
            r.Done? && r.st.out == st.out + Objs(Args(Walk(root, true, true)))
  {
    var f := Frame(iter, Obj(root));
    var st1 := st.(stack := [f] + st.stack, backups := st.backups[uid := Backup(Get(st.ctx, iter), Get(st.ctx, "level"))]);
    var t := Walk(root, true, true);
    VisitEchoesNodes(Lift(t), Postvisit([Echo(iter)]), st1, f);
    TraverseObject(uid, iter, root, [Echo(iter)], Postvisit([Echo(iter)]), st);
    KeepLift(t, true, true);
    AbsentCallbackDropsItsEvents(root, true, true);
    ArgsLift(t);
  }

  /**
   * An array as the tree is not walked element by element: it has no
   * `children`, so the body runs once, with the array itself bound.
   */
  lemma ArrayTreeVisitedOnce(uid: int, iter: string, elems: seq<Value>, st: State)
    requires iter != "level"
    ensures var r := ExecStmt(Traverse(uid, iter, Lit(Arr(elems)), [Echo(iter)], NoPostvisit), st);
            r.Done? && r.st.out == st.out + [Arr(elems)]
  {
    var f := Frame(iter, Arr(elems));
    var st1 := st.(stack := [f] + st.stack, backups := st.backups[uid := Backup(Get(st.ctx, iter), Get(st.ctx, "level"))]);
    VisitEchoesNodes([Down(Arr(elems))], NoPostvisit, st1, f);
  }

  // ---------------------------------------------------------------------------
  // `level`
  // ---------------------------------------------------------------------------

  /**
   * The values `level` shows, one per event, when the body outputs it and it
   * starts at `l`: `level++` before each `down`, `level--` before each `up`;
   * for an `up`, shown only when the post-visit body outputs it.
   */
  function LevelEchoes<T>(evs: seq<Event<T>>, l: int, echoUp: bool): (ls: seq<int>)
  {
    if evs == [] then []
    else match evs[0]
      case Down(_) => [l + 1] + LevelEchoes(evs[1..], l + 1, echoUp)
      case Up(_) => (if echoUp then [l - 1] else []) + LevelEchoes(evs[1..], l - 1, echoUp)
  }

  /** The value of `level` after the events. */
  function LevelAfter<T>(evs: seq<Event<T>>, l: int): (after: int)
  {
    if evs == [] then l
    else match evs[0]
      case Down(_) => LevelAfter(evs[1..], l + 1)
      case Up(_) => LevelAfter(evs[1..], l - 1)
  }

  function Nums(ls: seq<int>): (vs: seq<Value>)
    ensures |vs| == |ls|
  {
    if ls == [] then [] else [Num(ls[0])] + Nums(ls[1..])
  }

  lemma {:induction false} NumsAppend(a: seq<int>, b: seq<int>)
    ensures Nums(a + b) == Nums(a) + Nums(b)
  {
    if a == [] {
      assert a + b == b;
    } else {
      assert (a + b)[0] == a[0];
      assert (a + b)[1..] == a[1..] + b;
      NumsAppend(a[1..], b);
    }
  }

  lemma {:induction false} LevelEchoesAppend<T>(a: seq<Event<T>>, b: seq<Event<T>>, l: int, echoUp: bool)
    ensures LevelEchoes(a + b, l, echoUp) == LevelEchoes(a, l, echoUp) + LevelEchoes(b, LevelAfter(a, l), echoUp)
    ensures LevelAfter(a + b, l) == LevelAfter(b, LevelAfter(a, l))
  {
    if a == [] {
      assert a + b == b;
    } else {
      assert (a + b)[0] == a[0];
      assert (a + b)[1..] == a[1..] + b;
      match a[0]
      case Down(_) =>
        LevelEchoesAppend(a[1..], b, l + 1, echoUp);
        assert LevelEchoes(a + b, l, echoUp) == [l + 1] + LevelEchoes(a[1..] + b, l + 1, echoUp);
        assert LevelEchoes(a, l, echoUp) == [l + 1] + LevelEchoes(a[1..], l + 1, echoUp);
      case Up(_) =>
        LevelEchoesAppend(a[1..], b, l - 1, echoUp);
        var head := if echoUp then [l - 1] else [];
        assert LevelEchoes(a + b, l, echoUp) == head + LevelEchoes(a[1..] + b, l - 1, echoUp);
        assert LevelEchoes(a, l, echoUp) == head + LevelEchoes(a[1..], l - 1, echoUp);
    }
  }

  lemma {:induction false} LevelEchoesLift(t: seq<Event<Node>>, l: int, echoUp: bool)
    ensures LevelEchoes(Lift(t), l, echoUp) == LevelEchoes(t, l, echoUp)
    ensures LevelAfter(Lift(t), l) == LevelAfter(t, l)
  {
    if t != [] {
      var l' := if t[0].Down? then l + 1 else l - 1;
      LevelEchoesLift(t[1..], l', echoUp);
    }
  }

  /**
   * With body `{{ level }}`, the callbacks output `level` as the counter
   * `LevelEchoes` says, leave it at `LevelAfter`, and change nothing that
   * matters to the tag.
   */
  lemma {:induction false} VisitEchoesLevels(evs: seq<Event<Value>>, post: Postvisit, st: State, f: Frame, l: int)
    requires Top(st.stack) == Some(f) && f.iter != "level" && Get(st.ctx, "level") == Num(l)
    requires post == NoPostvisit || post == Postvisit([]) || post == Postvisit([Echo("level")])
    ensures Visit(evs, [Echo("level")], post, st).Done?
    ensures Visit(evs, [Echo("level")], post, st).st.out
         == st.out + Nums(LevelEchoes(evs, l, post == Postvisit([Echo("level")])))
    ensures Get(Visit(evs, [Echo("level")], post, st).st.ctx, "level") == Num(LevelAfter(evs, l))
    ensures Visit(evs, [Echo("level")], post, st).st.stack == st.stack
    ensures Visit(evs, [Echo("level")], post, st).st.backups == st.backups
    decreases |evs|
  {
    if evs != [] {
      var echoUp := post == Postvisit([Echo("level")]);
      var l' := if evs[0].Down? then l + 1 else l - 1;
      var next := Entered(evs[0], f, st);
      assert Get(next.ctx, "level") == Num(l');
      var shown := if evs[0].Down? || echoUp then [l'] else [];
      var st2 := next.(out := next.out + Nums(shown));
      assert Nums(shown) == if evs[0].Down? || echoUp then [Get(next.ctx, "level")] else [];
      assert Visit(evs, [Echo("level")], post, st) == Visit(evs[1..], [Echo("level")], post, st2) by {
        EchoStep(evs[0], "level", post, next);
        VisitStep(evs, [Echo("level")], post, st, f);
      }
      assert st2.out == st.out + Nums(shown) && st2.stack == st.stack && st2.backups == st.backups;
      VisitEchoesLevels(evs[1..], post, st2, f, l');
      assert LevelEchoes(evs, l, echoUp) == shown + LevelEchoes(evs[1..], l', echoUp);
      NumsAppend(shown, LevelEchoes(evs[1..], l', echoUp));
      Regroup(st.out, Nums(shown), Nums(LevelEchoes(evs[1..], l', echoUp)));
    }
  }

  /**
   * The reference meaning of `level`: a node shows its parent's level plus
   * one, a root shows `base + 1`; when `echoUp`, the post-visit body of a node
   * shows its parent's level.
   */
  function DepthLevels(n: Node, base: int, echoUp: bool): (ls: seq<int>)
    ensures |ls| > 0 && ls[0] == base + 1
    decreases Size(n), 0
  {
    [base + 1] + DepthLevelsAll(Children(n), base + 1, echoUp) + (if echoUp then [base] else [])
  }

  function DepthLevelsAll(ns: seq<Node>, base: int, echoUp: bool): (ls: seq<int>)
    decreases SizeAll(ns), 1
  {
    if ns == [] then [] else DepthLevels(ns[0], base, echoUp) + DepthLevelsAll(ns[1..], base, echoUp)
  }

  /** With both callbacks, the `level` counter tracks depth and is back at its start after each subtree. */
  lemma {:induction false} WalkLevelsAreDepths(n: Node, base: int, echoUp: bool)
    ensures LevelEchoes(Walk(n, true, true), base, echoUp) == DepthLevels(n, base, echoUp)
    ensures LevelAfter(Walk(n, true, true), base) == base
    decreases Size(n), 0
  {
    var inner := WalkAll(Children(n), true, true);
    WalkAllLevelsAreDepths(Children(n), base + 1, echoUp);
    LevelEchoesAppend([Down(n)], inner + [Up(n)], base, echoUp);
    LevelEchoesAppend(inner, [Up(n)], base + 1, echoUp);
    assert Walk(n, true, true) == [Down(n)] + (inner + [Up(n)]);
    var last := if echoUp then [base] else [];
    assert LevelEchoes([Down(n)], base, echoUp) == [base + 1];
    assert LevelEchoes([Up(n)], base + 1, echoUp) == last;
    Regroup([base + 1], DepthLevelsAll(Children(n), base + 1, echoUp), last);
  }

  lemma {:induction false} WalkAllLevelsAreDepths(ns: seq<Node>, base: int, echoUp: bool)
    ensures LevelEchoes(WalkAll(ns, true, true), base, echoUp) == DepthLevelsAll(ns, base, echoUp)
    ensures LevelAfter(WalkAll(ns, true, true), base) == base
    decreases SizeAll(ns), 1
  {
    if ns != [] {
      WalkLevelsAreDepths(ns[0], base, echoUp);
      WalkAllLevelsAreDepths(ns[1..], base, echoUp);
      LevelEchoesAppend(Walk(ns[0], true, true), WalkAll(ns[1..], true, true), base, echoUp);
    }
  }

  /** `[from, from + 1, …, from + k - 1]` */
  function Count(from: int, k: nat): (ls: seq<int>)
    ensures |ls| == k
    ensures forall i :: 0 <= i < k ==> ls[i] == from + i
    decreases k
  {
    if k == 0 then [] else [from] + Count(from + 1, k - 1)
  }

  lemma {:induction false} CountAppend(from: int, j: nat, k: nat)
    ensures Count(from, j) + Count(from + j, k) == Count(from, j + k)
    decreases j
  {
    if j > 0 {
      CountAppend(from + 1, j - 1, k);
    }
  }

  /** Without an `up` callback `level` is never decremented: it counts the nodes visited so far. */
  lemma {:induction false} WalkLevelsCountVisits(n: Node, base: int, echoUp: bool)
    ensures LevelEchoes(Walk(n, true, false), base, echoUp) == Count(base + 1, Size(n))
    ensures LevelAfter(Walk(n, true, false), base) == base + Size(n)
    decreases Size(n), 0
  {
    var inner := WalkAll(Children(n), true, false);
    WalkAllLevelsCountVisits(Children(n), base + 1, echoUp);
    LevelEchoesAppend([Down(n)], inner, base, echoUp);
    assert LevelAfter([Down(n)], base) == base + 1;
    assert Walk(n, true, false) == [Down(n)] + inner;
    assert Size(n) == 1 + SizeAll(Children(n));
  }

  lemma {:induction false} WalkAllLevelsCountVisits(ns: seq<Node>, base: int, echoUp: bool)
    ensures LevelEchoes(WalkAll(ns, true, false), base, echoUp) == Count(base + 1, SizeAll(ns))
    ensures LevelAfter(WalkAll(ns, true, false), base) == base + SizeAll(ns)
    decreases SizeAll(ns), 1
  {
    if ns != [] {
      WalkLevelsCountVisits(ns[0], base, echoUp);
      WalkAllLevelsCountVisits(ns[1..], base + Size(ns[0]), echoUp);
      LevelEchoesAppend(Walk(ns[0], true, false), WalkAll(ns[1..], true, false), base, echoUp);
      CountAppend(base + 1, Size(ns[0]), SizeAll(ns[1..]));
    }
  }

  /** Runs the tag whose body is `{{ level }}` and shows the resulting output. */
  lemma {:induction false} LevelOutput(uid: int, iter: string, root: Node, post: Postvisit, st: State, l: int)
    requires iter != "level" && Get(st.ctx, "level") == Num(l)
    requires post == NoPostvisit || post == Postvisit([]) || post == Postvisit([Echo("level")])
    ensures var r := ExecStmt(Traverse(uid, iter, Lit(Obj(root)), [Echo("level")], post), st);
            r.Done? && r.st.out == st.out + Nums(LevelEchoes(Walk(root, true, post.Postvisit?), l, post == Postvisit([Echo("level")])))
  {
    var f := Frame(iter, Obj(root));
    var st1 := st.(stack := [f] + st.stack, backups := st.backups[uid := Backup(Get(st.ctx, iter), Get(st.ctx, "level"))]);
    var t := Walk(root, true, post.Postvisit?);
    VisitEchoesLevels(Lift(t), post, st1, f, l);
    TraverseObject(uid, iter, root, [Echo("level")], post, st);
    LevelEchoesLift(t, l, post == Postvisit([Echo("level")]));
  }

  /**
   * With a `{% postvisit %}`, every node's body sees `level` one above its
   * parent's (the root sees the starting value plus one), and every
   * post-visit body sees its parent's level.
   */
  lemma LevelIsDepthWithPostvisit(uid: int, iter: string, root: Node, echoUp: bool, st: State, l: int)
    requires iter != "level" && Get(st.ctx, "level") == Num(l)
    ensures var post := if echoUp then Postvisit([Echo("level")]) else Postvisit([]);
            var r := ExecStmt(Traverse(uid, iter, Lit(Obj(root)), [Echo("level")], post), st);
            r.Done? && r.st.out == st.out + Nums(DepthLevels(root, l, echoUp))
  {
    var post := if echoUp then Postvisit([Echo("level")]) else Postvisit([]);
    LevelOutput(uid, iter, root, post, st, l);
    WalkLevelsAreDepths(root, l, echoUp);
  }

  /** Without a `{% postvisit %}`, `level` shows `l + 1`, `l + 2`, … in visiting order. */
  lemma LevelCountsVisitsWithoutPostvisit(uid: int, iter: string, root: Node, st: State, l: int)
    requires iter != "level" && Get(st.ctx, "level") == Num(l)
    ensures var r := ExecStmt(Traverse(uid, iter, Lit(Obj(root)), [Echo("level")], NoPostvisit), st);
            r.Done? && r.st.out == st.out + Nums(Count(l + 1, Size(root)))
  {
    LevelOutput(uid, iter, root, NoPostvisit, st, l);
    WalkLevelsCountVisits(root, l, false);
  }

  /**
   * `level` is not reset on entry: when the context has no `level`, the
   * first `level++` gives NaN and every body sees NaN.
   */
  lemma {:induction false} VisitLevelUnset(evs: seq<Event<Value>>, st: State, f: Frame)
    requires Top(st.stack) == Some(f) && f.iter != "level"
    requires Get(st.ctx, "level").Undefined? || Get(st.ctx, "level").NaN?
    requires forall i :: 0 <= i < |evs| ==> evs[i].Down?
    ensures Visit(evs, [Echo("level")], NoPostvisit, st).Done?
    ensures Visit(evs, [Echo("level")], NoPostvisit, st).st.out == st.out + seq(|evs|, _ => NaN)
    decreases |evs|
  {
    if evs != [] {
      var bound := st.ctx[f.iter := evs[0].x];
      var next := st.(ctx := bound["level" := Increment(Get(bound, "level"))]);
      EchoBlock("level", next);
      VisitLevelUnset(evs[1..], next.(out := next.out + [NaN]), f);
      assert [NaN] + seq(|evs| - 1, _ => NaN) == seq(|evs|, _ => NaN);
    }
  }

  lemma LevelUnsetShowsNaN(uid: int, iter: string, root: Node, st: State)
    requires iter != "level" && "level" !in st.ctx
    ensures var r := ExecStmt(Traverse(uid, iter, Lit(Obj(root)), [Echo("level")], NoPostvisit), st);
            r.Done? && r.st.out == st.out + seq(Size(root), _ => NaN)
  {
    var f := Frame(iter, Obj(root));
    var st1 := st.(stack := [f] + st.stack, backups := st.backups[uid := Backup(Get(st.ctx, iter), Get(st.ctx, "level"))]);
    var t := Walk(root, true, false);
    DownOnlyIsPreOrder(root);
    forall i | 0 <= i < |Lift(t)| ensures Lift(t)[i].Down? {
      AllDownsLifted(PreOrder(root), i);
    }
    VisitLevelUnset(Lift(t), st1, f);
    VisitKeepsOthers(Lift(t), [Echo("level")], NoPostvisit, st1, f);
    EchoKeepsBackups(Lift(t), st1, f);
  }

  lemma {:induction false} AllDownsLifted(ns: seq<Node>, i: nat)
    requires i < |ns|
    ensures Lift(Downs(ns))[i] == Down(Obj(ns[i]))
  {
    if i > 0 {
      AllDownsLifted(ns[1..], i - 1);
    }
  }

  /** Bodies made only of output statements leave the backups alone. */
  lemma {:induction false} EchoKeepsBackups(evs: seq<Event<Value>>, st: State, f: Frame)
    requires Top(st.stack) == Some(f)
    ensures Visit(evs, [Echo("level")], NoPostvisit, st).Done? ==>
            Visit(evs, [Echo("level")], NoPostvisit, st).st.backups == st.backups
    decreases |evs|
  {
    if evs != [] {
      var next := Entered(evs[0], f, st);
      var block := if evs[0].Down? then [Echo("level")] else [];
      EchoBlock("level", next);
      match Exec(block, next)
      case Failed(_, _) =>
      case Done(st') => EchoKeepsBackups(evs[1..], st', f);
    }
  }
}
