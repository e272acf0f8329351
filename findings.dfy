/**
 * Two behaviours of the emitted code that look unintended, each modelled as
 * written and next to a corrected version.
 *
 * 1. The uid of a tag is the clock reading at compile time (index.js:77) and
 *    names the global `__bkp<uid>`. Two nested tags compiled within the same
 *    millisecond share that global: the inner tag sets it to `undefined` when
 *    it finishes, and the outer tag's restore then reads `.iter` of
 *    `undefined` and throws. Numbering the tags with a counter gives every
 *    open tag its own global: then no template throws on a cleared backup,
 *    and one whose trees are all literal objects or arrays written in the
 *    template always completes.
 *
 * 2. Without a `{% postvisit %}` the walk gets no `up` callback, so `level`
 *    is never decremented (index.js:84-88, 101-109): it counts the nodes
 *    visited so far instead of giving the depth. Installing the `up`
 *    callback always (an empty post-visit block) makes `level` the depth and
 *    leaves the output of the body unchanged.
 */
module Findings {
  import opened Wrappers
  import opened TreeWalk
  import opened JsValues
  import opened Runtime
  import opened Emitter
  import opened Rendering

  // ---------------------------------------------------------------------------
  // Finding 1: uids from the clock
  // ---------------------------------------------------------------------------

  /** The uids of all tags in a block, nested tags included. */
  function Uids(ss: seq<Stmt>): (us: set<int>)
    ensures ss != [] ==> StmtUids(ss[0]) <= us
    decreases BlockSize(ss), 2
  {
    if ss == [] then {} else StmtUids(ss[0]) + Uids(ss[1..])
  }

  function StmtUids(s: Stmt): (us: set<int>)
    ensures s.Traverse? ==> s.uid in us
    decreases StmtSize(s), 1
  {
    match s
    case Echo(_) => {}
    case Traverse(uid, _, _, body, NoPostvisit) => {uid} + Uids(body)
    case Traverse(uid, _, _, body, Postvisit(p)) => {uid} + Uids(body) + Uids(p)
  }

  /** As written: every tag compiled at clock reading `clock` gets that uid. */
  function StampUids(ss: seq<Stmt>, clock: int): (r: seq<Stmt>)
    ensures |r| == |ss|
    ensures Uids(r) <= {clock}
    decreases BlockSize(ss), 2
  {
    if ss == [] then []
    else
      var r := [StampStmt(ss[0], clock)] + StampUids(ss[1..], clock);
      assert r[0] == StampStmt(ss[0], clock) && r[1..] == StampUids(ss[1..], clock);
      r
  }

  function StampStmt(s: Stmt, clock: int): (r: Stmt)
    ensures r.Traverse? <==> s.Traverse?
    ensures StmtUids(r) <= {clock}
    decreases StmtSize(s), 1
  {
    match s
    case Echo(_) => s
    case Traverse(_, iter, tree, body, NoPostvisit) =>
      Traverse(clock, iter, tree, StampUids(body, clock), NoPostvisit)
    case Traverse(_, iter, tree, body, Postvisit(p)) =>
      Traverse(clock, iter, tree, StampUids(body, clock), Postvisit(StampUids(p, clock)))
  }

  /** Stamping changes nothing but the uids: stamped blocks agree once their uids are all 0. */
  lemma {:induction false} StampKeepsShape(ss: seq<Stmt>, clock: int)
    ensures StampUids(StampUids(ss, clock), 0) == StampUids(ss, 0)
    decreases BlockSize(ss), 2
  {
    if ss != [] {
      var r := StampUids(ss, clock);
      assert r[0] == StampStmt(ss[0], clock) && r[1..] == StampUids(ss[1..], clock);
      StampStmtKeepsShape(ss[0], clock);
      StampKeepsShape(ss[1..], clock);
    }
  }

  lemma {:induction false} StampStmtKeepsShape(s: Stmt, clock: int)
    ensures StampStmt(StampStmt(s, clock), 0) == StampStmt(s, 0)
    decreases StmtSize(s), 1
  {
    match s
    case Echo(_) =>
    case Traverse(_, _, _, body, NoPostvisit) =>
      StampKeepsShape(body, clock);
    case Traverse(_, _, _, body, Postvisit(p)) =>
      StampKeepsShape(body, clock);
      StampKeepsShape(p, clock);
  }

  /**
   * A tag nested directly in another one, both compiled in the same
   * millisecond and both over a leaf node: the render throws when the outer
   * tag restores, and the outer frame is left on the stack.
   */
  lemma SameMillisecondNestingThrows(clock: int, st: State)
    ensures var leaf := Obj(Node(0, Missing));
            var inner := Traverse(0, "inner", Lit(leaf), [], NoPostvisit);
            var outer := Traverse(0, "outer", Lit(leaf), [inner], NoPostvisit);
            var r := Exec(StampUids([outer], clock), st);
            r == Failed(r.st, BackupCleared) && r.st.stack == [Frame("outer", leaf)] + st.stack
  {
    var leaf := Obj(Node(0, Missing));
    var inner := Traverse(0, "inner", Lit(leaf), [], NoPostvisit);
    var outer := Traverse(0, "outer", Lit(leaf), [inner], NoPostvisit);
    var sInner := Traverse(clock, "inner", Lit(leaf), [], NoPostvisit);
    var sOuter := Traverse(clock, "outer", Lit(leaf), [sInner], NoPostvisit);
    assert StampUids([inner], clock) == [sInner];
    assert StampUids([outer], clock) == [sOuter];
    var fo := Frame("outer", leaf);
    var fi := Frame("inner", leaf);
    var evs := Lift(Walk(Node(0, Missing), true, false));
    assert evs == [Down(leaf)] by {
      assert Walk(Node(0, Missing), true, false) == [Down(Node(0, Missing))];
    }
    // the outer tag pushes and saves its backup
    var st1 := st.(stack := [fo] + st.stack,
                   backups := st.backups[clock := Backup(Get(st.ctx, "outer"), Get(st.ctx, "level"))]);
    // its `down` callback binds `outer` and runs the inner tag
    var bound := st1.ctx["outer" := leaf];
    var st2 := st1.(ctx := bound["level" := Increment(Get(bound, "level"))]);
    var st3 := st2.(stack := [fi] + st2.stack,
                    backups := st2.backups[clock := Backup(Get(st2.ctx, "inner"), Get(st2.ctx, "level"))]);
    var bound' := st3.ctx["inner" := leaf];
    var st4 := st3.(ctx := bound'["level" := Increment(Get(bound', "level"))]);
    assert Exec([], st4) == Done(st4);
    assert Visit(evs, [], NoPostvisit, st3) == Done(st4);
    var b := st4.backups[clock];
    var st5 := State(st4.ctx[fi.iter := b.iter]["level" := b.level], st4.out, Popped(st4.stack), st4.backups - {clock});
    assert ExecStmt(sInner, st2) == Done(st5);
    assert [sInner][1..] == [];
    assert Exec([sInner], st2) == Done(st5);
    assert Visit(evs, [sInner], NoPostvisit, st1) == Done(st5);
    // the inner tag cleared the shared global, so the outer restore throws
    assert st5.stack == [fo] + st.stack;
    assert clock !in st5.backups;
    assert ExecStmt(sOuter, st) == Failed(st5, BackupCleared);
    assert [sOuter][1..] == [];
  }

  /**
   * Corrected: tags numbered from `next` on, in compile order. Every uid used
   * lies in `[next, r.1)`, so `r.1` is the next free number.
   */
  function NumberUids(ss: seq<Stmt>, next: int): (r: (seq<Stmt>, int))
    ensures |r.0| == |ss| && r.1 >= next
    ensures forall u :: u in Uids(r.0) ==> next <= u < r.1
    decreases BlockSize(ss), 2
  {
    if ss == [] then ([], next)
    else
      var (s0, n1) := NumberStmt(ss[0], next);
      var (rest, n2) := NumberUids(ss[1..], n1);
      var r := [s0] + rest;
      assert r[0] == s0 && r[1..] == rest;
      (r, n2)
  }

  function NumberStmt(s: Stmt, next: int): (r: (Stmt, int))
    ensures r.1 >= next
    ensures r.0.Traverse? <==> s.Traverse?
    ensures s.Traverse? ==> r.0.uid == next && r.1 > next
    ensures forall u :: u in StmtUids(r.0) ==> next <= u < r.1
    decreases StmtSize(s), 1
  {
    match s
    case Echo(_) => (s, next)
    case Traverse(_, iter, tree, body, NoPostvisit) =>
      var (b, n1) := NumberUids(body, next + 1);
      (Traverse(next, iter, tree, b, NoPostvisit), n1)
    case Traverse(_, iter, tree, body, Postvisit(p)) =>
      var (b, n1) := NumberUids(body, next + 1);
      var (p', n2) := NumberUids(p, n1);
      (Traverse(next, iter, tree, b, Postvisit(p')), n2)
  }

  /** Numbering changes nothing but the uids. */
  lemma {:induction false} NumberKeepsShape(ss: seq<Stmt>, next: int)
    ensures StampUids(NumberUids(ss, next).0, 0) == StampUids(ss, 0)
    decreases BlockSize(ss), 2
  {
    if ss != [] {
      var (s0, n1) := NumberStmt(ss[0], next);
      var (rest, n2) := NumberUids(ss[1..], n1);
      var r := [s0] + rest;
      assert r[0] == s0 && r[1..] == rest;
      NumberStmtKeepsShape(ss[0], next);
      NumberKeepsShape(ss[1..], n1);
    }
  }

  lemma {:induction false} NumberStmtKeepsShape(s: Stmt, next: int)
    ensures StampStmt(NumberStmt(s, next).0, 0) == StampStmt(s, 0)
    decreases StmtSize(s), 1
  {
    match s
    case Echo(_) =>
    case Traverse(_, _, _, body, NoPostvisit) =>
      NumberKeepsShape(body, next + 1);
    case Traverse(_, _, _, body, Postvisit(p)) =>
      var (b, n1) := NumberUids(body, next + 1);
      NumberKeepsShape(body, next + 1);
      NumberKeepsShape(p, n1);
  }

  /** No tag reuses the uid of a tag that encloses it, whose uids are `active`. */
  predicate FreshUids(ss: seq<Stmt>, active: set<int>)
    decreases BlockSize(ss), 2
  {
    ss == [] || (FreshStmt(ss[0], active) && FreshUids(ss[1..], active))
  }

  predicate FreshStmt(s: Stmt, active: set<int>)
    decreases StmtSize(s), 1
  {
    match s
    case Echo(_) => true
    case Traverse(uid, _, _, body, post) =>
      uid !in active && FreshUids(body, active + {uid}) &&
      (match post
       case NoPostvisit => true
       case Postvisit(p) => FreshUids(p, active + {uid}))
  }

  /** Every tag walks an object given in the template itself (a node or an array). */
  predicate LiteralTrees(ss: seq<Stmt>)
    decreases BlockSize(ss), 2
  {
    ss == [] || (LiteralTree(ss[0]) && LiteralTrees(ss[1..]))
  }

  predicate LiteralTree(s: Stmt)
    decreases StmtSize(s), 1
  {
    match s
    case Echo(_) => true
    case Traverse(_, _, tree, body, post) =>
      tree.Lit? && (tree.v.Obj? || tree.v.Arr?) && LiteralTrees(body) &&
      (match post
       case NoPostvisit => true
       case Postvisit(p) => LiteralTrees(p))
  }

  /** Numbering from above every enclosing uid gives fresh uids, and keeps the trees. */
  lemma {:induction false} NumberedAreFresh(ss: seq<Stmt>, next: int, active: set<int>)
    requires forall a :: a in active ==> a < next
    ensures FreshUids(NumberUids(ss, next).0, active)
    ensures LiteralTrees(ss) ==> LiteralTrees(NumberUids(ss, next).0)
    decreases BlockSize(ss), 2
  {
    if ss != [] {
      var (s0, n1) := NumberStmt(ss[0], next);
      var (rest, n2) := NumberUids(ss[1..], n1);
      NumberStmtFresh(ss[0], next, active);
      NumberedAreFresh(ss[1..], n1, active);
      var r := [s0] + rest;
      assert r[0] == s0 && r[1..] == rest;
    }
  }

  lemma {:induction false} NumberStmtFresh(s: Stmt, next: int, active: set<int>)
    requires forall a :: a in active ==> a < next
    ensures FreshStmt(NumberStmt(s, next).0, active)
    ensures LiteralTree(s) ==> LiteralTree(NumberStmt(s, next).0)
    decreases StmtSize(s), 1
  {
    match s
    case Echo(_) =>
    case Traverse(_, iter, tree, body, NoPostvisit) =>
      NumberedAreFresh(body, next + 1, active + {next});
    case Traverse(_, iter, tree, body, Postvisit(p)) =>
      var (b, n1) := NumberUids(body, next + 1);
      NumberedAreFresh(body, next + 1, active + {next});
      NumberedAreFresh(p, n1, active + {next});
  }

  /** The backups at the uids in `active` are the same in `st'` as in `st`. */
  ghost predicate KeepsBackupsOn(st: State, st': State, active: set<int>)
  {
    forall u :: u in active ==>
      (u in st'.backups <==> u in st.backups) &&
      (u in st.backups ==> st'.backups[u] == st.backups[u])
  }

  /**
   * A block whose uids are fresh with respect to the tags around it and whose
   * trees are literal objects or arrays always completes, and leaves the backups of the
   * enclosing tags alone.
   */
  lemma {:induction false} FreshBlockCompletes(ss: seq<Stmt>, st: State, active: set<int>)
    requires FreshUids(ss, active) && LiteralTrees(ss)
    ensures Exec(ss, st).Done?
    ensures KeepsBackupsOn(st, Exec(ss, st).st, active)
    decreases BlockSize(ss), 2
  {
    if ss != [] {
      FreshStmtCompletes(ss[0], st, active);
      FreshBlockCompletes(ss[1..], ExecStmt(ss[0], st).st, active);
    }
  }

  lemma {:induction false} FreshStmtCompletes(s: Stmt, st: State, active: set<int>)
    requires FreshStmt(s, active) && LiteralTree(s)
    ensures ExecStmt(s, st).Done?
    ensures KeepsBackupsOn(st, ExecStmt(s, st).st, active)
    decreases StmtSize(s), 1
  {
    match s
    case Echo(_) =>
    case Traverse(uid, iter, tree, body, post) =>
      var v := tree.v;
      var f := Frame(iter, v);
      var saved := Backup(Get(st.ctx, iter), Get(st.ctx, "level"));
      var st1 := st.(stack := [f] + st.stack, backups := st.backups[uid := saved]);
      assert Pushed(st.stack, f) == Ok([f] + st.stack);
      var w := TraverseValue(v, true, post.Postvisit?);
      assert FreshUids(PostBody(post), active + {uid}) && LiteralTrees(PostBody(post));
      FreshVisitCompletes(w.events, body, post, st1, f, active + {uid});
      VisitKeepsOthers(w.events, body, post, st1, f);
      var st2 := Visit(w.events, body, post, st1).st;
      assert uid in st2.backups && st2.backups[uid] == saved;
      assert Top(st2.stack) == Some(f);
  }

  lemma {:induction false} FreshVisitCompletes(evs: seq<Event<Value>>, body: seq<Stmt>, post: Postvisit, st: State, f: Frame, active: set<int>)
    requires Top(st.stack) == Some(f)
    requires FreshUids(body, active) && LiteralTrees(body)
    requires FreshUids(PostBody(post), active) && LiteralTrees(PostBody(post))
    ensures Visit(evs, body, post, st).Done?
    ensures KeepsBackupsOn(st, Visit(evs, body, post, st).st, active)
    decreases BlockSize(body) + BlockSize(PostBody(post)), |evs| + 3
  {
    if evs != [] {
      var next := Entered(evs[0], f, st);
      var block := BlockFor(evs[0], body, post);
      FreshBlockCompletes(block, next, active);
      ExecRestores(block, next);
      FreshVisitCompletes(evs[1..], body, post, Exec(block, next).st, f, active);
    }
  }

  /**
   * When no tag reuses an enclosing tag's uid, whatever the trees, a block
   * never throws `BackupCleared` or `NoCurrentFrame`: it can only fail where
   * `push` rejects a tree or a walk meets `null`. When it completes, the
   * enclosing tags' backups are untouched.
   */
  lemma {:induction false} FreshBlockNeverClears(ss: seq<Stmt>, st: State, active: set<int>)
    requires FreshUids(ss, active)
    ensures Exec(ss, st).Failed? ==> Exec(ss, st).err.PushFailed? || Exec(ss, st).err == ChildrenOfNull
    ensures Exec(ss, st).Done? ==> KeepsBackupsOn(st, Exec(ss, st).st, active)
    decreases BlockSize(ss), 2
  {
    if ss != [] {
      FreshStmtNeverClears(ss[0], st, active);
      match ExecStmt(ss[0], st)
      case Failed(_, _) =>
      case Done(st') => FreshBlockNeverClears(ss[1..], st', active);
    }
  }

  lemma {:induction false} FreshStmtNeverClears(s: Stmt, st: State, active: set<int>)
    requires FreshStmt(s, active)
    ensures ExecStmt(s, st).Failed? ==> ExecStmt(s, st).err.PushFailed? || ExecStmt(s, st).err == ChildrenOfNull
    ensures ExecStmt(s, st).Done? ==> KeepsBackupsOn(st, ExecStmt(s, st).st, active)
    decreases StmtSize(s), 1
  {
    match s
    case Echo(_) =>
    case Traverse(uid, iter, tree, body, post) =>
      var v := Eval(tree, st.ctx);
      var f := Frame(iter, v);
      match Pushed(st.stack, f)
      case Err(_) =>
      case Ok(pushed) =>
        var saved := Backup(Get(st.ctx, iter), Get(st.ctx, "level"));
        var st1 := st.(stack := pushed, backups := st.backups[uid := saved]);
        var w := TraverseValue(v, true, post.Postvisit?);
        assert FreshUids(PostBody(post), active + {uid});
        FreshVisitNeverClears(w.events, body, post, st1, f, active + {uid});
        VisitKeepsOthers(w.events, body, post, st1, f);
  }

  lemma {:induction false} FreshVisitNeverClears(evs: seq<Event<Value>>, body: seq<Stmt>, post: Postvisit, st: State, f: Frame, active: set<int>)
    requires Top(st.stack) == Some(f)
    requires FreshUids(body, active) && FreshUids(PostBody(post), active)
    ensures Visit(evs, body, post, st).Failed? ==>
            Visit(evs, body, post, st).err.PushFailed? || Visit(evs, body, post, st).err == ChildrenOfNull
    ensures Visit(evs, body, post, st).Done? ==> KeepsBackupsOn(st, Visit(evs, body, post, st).st, active)
    decreases BlockSize(body) + BlockSize(PostBody(post)), |evs| + 3
  {
    if evs != [] {
      var next := Entered(evs[0], f, st);
      var block := BlockFor(evs[0], body, post);
      FreshBlockNeverClears(block, next, active);
      ExecRestores(block, next);
      match Exec(block, next)
      case Failed(_, _) =>
      case Done(st') => FreshVisitNeverClears(evs[1..], body, post, st', f, active);
    }
  }

  /**
   * With counter uids, every template, whatever its trees, either completes
   * and restores the context and the stack, or fails only where `push`
   * rejects a tree or a walk meets `null`; it never throws `BackupCleared`.
   */
  lemma NumberedTemplateNeverClears(ss: seq<Stmt>, st: State)
    ensures var r := Exec(NumberUids(ss, 0).0, st);
            (r.Failed? ==> r.err != BackupCleared && (r.err.PushFailed? || r.err == ChildrenOfNull)) &&
            (r.Done? ==> Restored(st, r.st))
  {
    NumberedAreFresh(ss, 0, {});
    FreshBlockNeverClears(NumberUids(ss, 0).0, st, {});
    ExecRestores(NumberUids(ss, 0).0, st);
  }

  /**
   * With counter uids, a template whose tags walk literal objects or arrays
   * always completes,
   * and leaves the context, the stack and the backups as it found them.
   */
  lemma NumberedTemplateCompletes(ss: seq<Stmt>, st: State)
    requires LiteralTrees(ss)
    ensures var r := Exec(NumberUids(ss, 0).0, st);
            r.Done? && Restored(st, r.st)
  {
    NumberedAreFresh(ss, 0, {});
    FreshBlockCompletes(NumberUids(ss, 0).0, st, {});
    ExecRestores(NumberUids(ss, 0).0, st);
  }

  /** The template of the counterexample, numbered, completes. */
  lemma NumberedNestingCompletes(st: State)
    ensures var leaf := Obj(Node(0, Missing));
            var inner := Traverse(0, "inner", Lit(leaf), [], NoPostvisit);
            var outer := Traverse(0, "outer", Lit(leaf), [inner], NoPostvisit);
            var r := Exec(NumberUids([outer], 0).0, st);
            r.Done? && r.st.stack == st.stack
  {
    var leaf := Obj(Node(0, Missing));
    var inner := Traverse(0, "inner", Lit(leaf), [], NoPostvisit);
    var outer := Traverse(0, "outer", Lit(leaf), [inner], NoPostvisit);
    assert LiteralTrees([inner]) by { assert LiteralTree(inner); assert [inner][1..] == []; }
    assert LiteralTrees([outer]) by { assert LiteralTree(outer); assert [outer][1..] == []; }
    NumberedTemplateCompletes([outer], st);
  }

  // ---------------------------------------------------------------------------
  // Finding 2: `level` without a post-visit block
  // ---------------------------------------------------------------------------

  lemma TwoLeavesSize(root: Node)
    requires root.kids.Array? && |root.kids.nodes| == 2
    requires root.kids.nodes[0].kids.Missing? && root.kids.nodes[1].kids.Missing?
    ensures Size(root) == 3
  {
    var ns := root.kids.nodes;
    assert Size(ns[0]) == 1 && Size(ns[1]) == 1;
    assert SizeAll(ns[1..][1..]) == 0;
    assert SizeAll(ns[1..]) == 1;
    assert SizeAll(ns) == 2;
    assert Size(root) == 1 + SizeAll(ns);
  }

  lemma TwoLeavesDepths(root: Node)
    requires root.kids.Array? && |root.kids.nodes| == 2
    requires root.kids.nodes[0].kids.Missing? && root.kids.nodes[1].kids.Missing?
    ensures DepthLevels(root, 0, false) == [1, 2, 2]
  {
    var ns := root.kids.nodes;
    assert DepthLevels(ns[0], 1, false) == [2];
    assert DepthLevels(ns[1], 1, false) == [2];
    assert DepthLevelsAll(ns[1..][1..], 1, false) == [];
    assert DepthLevelsAll(ns[1..], 1, false) == [2];
    assert DepthLevelsAll(ns, 1, false) == [2, 2];
  }

  lemma CountOneToThree()
    ensures Nums(Count(1, 3)) == [Num(1), Num(2), Num(3)]
  {
    assert Count(3, 1) == [3];
    assert Count(2, 2) == [2, 3];
    assert Count(1, 3) == [1, 2, 3];
    assert Nums([3]) == [Num(3)];
    assert Nums([2, 3]) == [Num(2), Num(3)];
  }

  /**
   * As written: `{{ level }}` in the body of a tag without `postvisit`
   * prints 1, 2, 3 for a root and its two leaf children, where the depths
   * are 1, 2, 2.
   */
  lemma LevelWithoutPostvisitIsNotDepth(uid: int, iter: string, root: Node, st: State)
    requires iter != "level" && Get(st.ctx, "level") == Num(0)
    requires root.kids.Array? && |root.kids.nodes| == 2
    requires root.kids.nodes[0].kids.Missing? && root.kids.nodes[1].kids.Missing?
    ensures var r := ExecStmt(Traverse(uid, iter, Lit(Obj(root)), [Echo("level")], NoPostvisit), st);
            r.Done? && r.st.out == st.out + [Num(1), Num(2), Num(3)]
    ensures DepthLevels(root, 0, false) == [1, 2, 2]
  {
    LevelCountsVisitsWithoutPostvisit(uid, iter, root, st, 0);
    assert Nums(Count(1, Size(root))) == [Num(1), Num(2), Num(3)] by {
      TwoLeavesSize(root);
      CountOneToThree();
    }
    TwoLeavesDepths(root);
  }

  /** Corrected: every tag installs the `up` callback; a missing post-visit block becomes an empty one. */
  function AlwaysAscend(ss: seq<Stmt>): (r: seq<Stmt>)
    ensures |r| == |ss|
    ensures Ascending(r)
    decreases BlockSize(ss), 2
  {
    if ss == [] then []
    else
      var r := [AscendStmt(ss[0])] + AlwaysAscend(ss[1..]);
      assert r[0] == AscendStmt(ss[0]) && r[1..] == AlwaysAscend(ss[1..]);
      r
  }

  function AscendStmt(s: Stmt): (r: Stmt)
    ensures r.Traverse? <==> s.Traverse?
    ensures s.Traverse? ==> r.uid == s.uid && r.iter == s.iter && r.tree == s.tree && r.post.Postvisit?
    ensures s.Traverse? && s.post.NoPostvisit? ==> r.post == Postvisit([])
    ensures s.Echo? ==> r == s
    ensures AscendingStmt(r)
    decreases StmtSize(s), 1
  {
    match s
    case Echo(_) => s
    case Traverse(uid, iter, tree, body, NoPostvisit) =>
      Traverse(uid, iter, tree, AlwaysAscend(body), Postvisit([]))
    case Traverse(uid, iter, tree, body, Postvisit(p)) =>
      Traverse(uid, iter, tree, AlwaysAscend(body), Postvisit(AlwaysAscend(p)))
  }

  /** Every tag of the block, nested ones included, has a post-visit block. */
  predicate Ascending(ss: seq<Stmt>)
    decreases BlockSize(ss), 2
  {
    ss == [] || (AscendingStmt(ss[0]) && Ascending(ss[1..]))
  }

  predicate AscendingStmt(s: Stmt)
    decreases StmtSize(s), 1
  {
    match s
    case Echo(_) => true
    case Traverse(_, _, _, body, NoPostvisit) => false
    case Traverse(_, _, _, body, Postvisit(p)) => Ascending(body) && Ascending(p)
  }

  /** The correction changes nothing in a block whose tags all have a post-visit block already. */
  lemma {:induction false} AscendKeepsAscending(ss: seq<Stmt>)
    requires Ascending(ss)
    ensures AlwaysAscend(ss) == ss
    decreases BlockSize(ss), 2
  {
    if ss != [] {
      AscendStmtKeepsAscending(ss[0]);
      AscendKeepsAscending(ss[1..]);
    }
  }

  lemma {:induction false} AscendStmtKeepsAscending(s: Stmt)
    requires AscendingStmt(s)
    ensures AscendStmt(s) == s
    decreases StmtSize(s), 1
  {
    match s
    case Echo(_) =>
    case Traverse(_, _, _, body, Postvisit(p)) =>
      AscendKeepsAscending(body);
      AscendKeepsAscending(p);
  }

  /** Installing the `up` callback is idempotent. */
  lemma AscendTwice(ss: seq<Stmt>)
    ensures AlwaysAscend(AlwaysAscend(ss)) == AlwaysAscend(ss)
  {
    AscendKeepsAscending(AlwaysAscend(ss));
  }

  /** After the correction, `{{ level }}` in the body prints the depth of each node. */
  lemma AscendingLevelIsDepth(uid: int, iter: string, root: Node, st: State, l: int)
    requires iter != "level" && Get(st.ctx, "level") == Num(l)
    ensures var r := ExecStmt(AscendStmt(Traverse(uid, iter, Lit(Obj(root)), [Echo("level")], NoPostvisit)), st);
            r.Done? && r.st.out == st.out + Nums(DepthLevels(root, l, false))
  {
    assert AlwaysAscend([Echo("level")]) == [Echo("level")] by { assert [Echo("level")][1..] == []; }
    LevelIsDepthWithPostvisit(uid, iter, root, false, st, l);
  }

  /** The correction leaves what the body prints about the nodes as it was: the pre-order. */
  lemma AscendingKeepsPreOrder(uid: int, iter: string, root: Node, st: State)
    requires iter != "level"
    ensures var tag := Traverse(uid, iter, Lit(Obj(root)), [Echo(iter)], NoPostvisit);
            var r := ExecStmt(AscendStmt(tag), st);
            r.Done? && r.st.out == ExecStmt(tag, st).st.out == st.out + Objs(PreOrder(root))
  {
    assert AlwaysAscend([Echo(iter)]) == [Echo(iter)] by { assert [Echo(iter)][1..] == []; }
    PreOrderOutputFrom(uid, iter, root, st, NoPostvisit);
    PreOrderOutputFrom(uid, iter, root, st, Postvisit([]));
  }
}
