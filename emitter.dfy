/**
 * What the code emitted by `compileTraverse` and `compilePostvisit` does when
 * a template runs (index.js).
 *
 * The emitted snippet of one `traverse` tag:
 *   1. pushes the frame `{iter, tree}` onto the extension's stack;
 *   2. stores `{iter: _ctx[current().iter], level: _ctx.level}` in the global
 *      `__bkp<uid>`, where `uid` is the compile-time clock reading;
 *   3. walks `current().tree`; the `down` callback binds `_ctx[current().iter]`
 *      to the node, does `level++` and runs the body; when a `postvisit` is
 *      present, the `up` callback does `level--`, binds the node again and
 *      runs the post-visit body;
 *   4. writes the backup back into `_ctx[current().iter]` and `_ctx.level`,
 *      sets `__bkp<uid>` to `undefined` and pops the frame.
 * A JavaScript exception stops the render where it was thrown; nothing is
 * popped or restored on the way out.
 *
 * The template around the tags is reduced to output statements `{{ name }}`,
 * which make the bindings visible.
 */
module Emitter {
  import opened Wrappers
  import opened TreeWalk
  import opened JsValues
  import opened Runtime

  /** The tree expression of a tag: a literal value, or a context variable. */
  datatype Expr = Lit(v: Value) | Ref(name: string)

  /** A compiled template statement. */
  datatype Stmt =
    | Echo(name: string)  // `{{ name }}`: outputs `_ctx[name]`
    | Traverse(uid: int, iter: string, tree: Expr, body: seq<Stmt>, post: Postvisit)

  /** The part of a `traverse` block after its `{% postvisit %}` tag, if it has one. */
  datatype Postvisit = NoPostvisit | Postvisit(block: seq<Stmt>)

  /** The value of the global `__bkp<uid>`. */
  datatype Backup = Backup(iter: Value, level: Value)

  /**
   * The state a render works on: the context `_ctx`, the output so far, the
   * extension's frame stack, and the `__bkp<uid>` globals that currently hold
   * an object (a global set to `undefined` is absent).
   */
  datatype State = State(ctx: map<string, Value>, out: seq<Value>, stack: seq<Frame>, backups: map<int, Backup>)

  /** The exceptions the emitted code can raise. */
  datatype Error =
    | PushFailed(e: PushError)  // `push` rejected the tree
    | ChildrenOfNull            // `node.children` on `null` or `undefined`
    | NoCurrentFrame            // `current().iter` on an empty stack
    | BackupCleared             // `__bkp<uid>.iter` after `__bkp<uid>` was set to `undefined`

  /** A completed run, or the state at the moment an exception was thrown. */
  datatype Outcome = Done(st: State) | Failed(st: State, err: Error)

  function PostBody(post: Postvisit): (ss: seq<Stmt>)
    ensures post.NoPostvisit? ==> ss == []
  {
    match post
    case NoPostvisit => []
    case Postvisit(p) => p
  }

  function StmtSize(s: Stmt): (n: nat)
    ensures n >= 1
  {
    match s
    case Echo(_) => 1
    case Traverse(_, _, _, body, NoPostvisit) => 1 + BlockSize(body)
    case Traverse(_, _, _, body, Postvisit(p)) => 1 + BlockSize(body) + BlockSize(p)
  }

  function BlockSize(ss: seq<Stmt>): (n: nat)
    ensures n >= |ss|
  {
    if ss == [] then 0 else StmtSize(ss[0]) + BlockSize(ss[1..])
  }

  /** The host's evaluation of a tree expression. */
  function Eval(e: Expr, ctx: map<string, Value>): (v: Value)
    ensures e.Ref? && e.name !in ctx ==> v.Undefined?
  {
    match e
    case Lit(v) => v
    case Ref(name) => Get(ctx, name)
  }

  // ---------------------------------------------------------------------------
  // Semantics
  // ---------------------------------------------------------------------------

  /**
   * Runs a block of statements in order, stopping at the first exception.
   * Output is only ever appended, also up to an exception.
   */
  function Exec(ss: seq<Stmt>, st: State): (r: Outcome)
    ensures st.out <= r.st.out
    decreases BlockSize(ss), 2
  {
    if ss == [] then Done(st)
    else match ExecStmt(ss[0], st)
      case Failed(st', e) => Failed(st', e)
      case Done(st') => Exec(ss[1..], st')
  }

  /**
   * One statement. A tag whose tree `push` rejects throws and changes
   * nothing; a `null` tree passes `push` but never completes (its walk
   * throws after the first callback); output is only appended.
   */
  function ExecStmt(s: Stmt, st: State): (r: Outcome)
    ensures st.out <= r.st.out
    ensures s.Echo? ==> r.Done?
    ensures s.Traverse? && TypeOf(Eval(s.tree, st.ctx)) != "object" ==>
            r == Failed(st, PushFailed(NotAnObject(TypeOf(Eval(s.tree, st.ctx)))))
    ensures s.Traverse? && Eval(s.tree, st.ctx).Null? ==> r.Failed?
    decreases StmtSize(s), 1
  {
    match s
    case Echo(name) => Done(st.(out := st.out + [Get(st.ctx, name)]))
    case Traverse(uid, iter, tree, body, post) =>
      var v := Eval(tree, st.ctx);
      match Pushed(st.stack, Frame(iter, v))
      case Err(e) => Failed(st, PushFailed(e))
      case Ok(pushed) =>
        // `current()` is the frame just pushed
        var saved := Backup(Get(st.ctx, iter), Get(st.ctx, "level"));
        var st1 := st.(stack := pushed, backups := st.backups[uid := saved]);
        var w := TraverseValue(v, true, post.Postvisit?);
        match Visit(w.events, body, post, st1)
        case Failed(st2, e) => Failed(st2, e)
        case Done(st2) => if w.threw then Failed(st2, ChildrenOfNull) else Restore(uid, st2)
  }

  /**
   * A `null` tree passes `push`, gets its `down` callback, and then the walk
   * throws on `null.children`: the tag fails with its frame still on the
   * stack and its backup global still set, since nothing pops on that path.
   */
  lemma NullTreeLeavesFrame(uid: int, iter: string, post: Postvisit, st: State)
    ensures var r := ExecStmt(Traverse(uid, iter, Lit(Null), [], post), st);
            r.Failed? && r.err == ChildrenOfNull &&
            r.st.stack == [Frame(iter, Null)] + st.stack && uid in r.st.backups
  {
    var f := Frame(iter, Null);
    var st1 := st.(stack := [f] + st.stack, backups := st.backups[uid := Backup(Get(st.ctx, iter), Get(st.ctx, "level"))]);
    var next := Entered(Down(Null), f, st1);
    assert Exec([], next) == Done(next);
    VisitStep([Down(Null)], [], post, st1, f);
    assert Visit([Down(Null)], [], post, st1) == Done(next);
  }

  /** The callbacks, one event at a time. */
  function Visit(evs: seq<Event<Value>>, body: seq<Stmt>, post: Postvisit, st: State): (r: Outcome)
    ensures st.out <= r.st.out
    decreases BlockSize(body) + BlockSize(PostBody(post)), |evs| + 3
  {
    if evs == [] then Done(st)
    else
      match Top(st.stack)
      case None =>
        // `up` lowers `level` before it asks for the current frame
        if evs[0].Down? then Failed(st, NoCurrentFrame)
        else Failed(st.(ctx := st.ctx["level" := Decrement(Get(st.ctx, "level"))]), NoCurrentFrame)
      case Some(f) =>
        match Exec(BlockFor(evs[0], body, post), Entered(evs[0], f, st))
        case Failed(st', e) => Failed(st', e)
        case Done(st') => Visit(evs[1..], body, post, st')
  }

  /**
   * The state a callback runs its block in: `down` binds the node and then
   * increments `level`; `up` decrements `level` and then binds the node.
   */
  function Entered(ev: Event<Value>, f: Frame, st: State): (st': State)
    ensures st'.out == st.out && st'.stack == st.stack && st'.backups == st.backups
    ensures ev.Down? ==> Get(st'.ctx, "level") == Increment(Get(st.ctx[f.iter := ev.x], "level"))
    ensures ev.Up? && f.iter != "level" ==> Get(st'.ctx, "level") == Decrement(Get(st.ctx, "level"))
    ensures f.iter != "level" ==> Get(st'.ctx, f.iter) == ev.x
    ensures forall k :: k != f.iter && k != "level" ==> Get(st'.ctx, k) == Get(st.ctx, k)
  {
    match ev
    case Down(v) =>
      var bound := st.ctx[f.iter := v];
      st.(ctx := bound["level" := Increment(Get(bound, "level"))])
    case Up(v) =>
      st.(ctx := st.ctx["level" := Decrement(Get(st.ctx, "level"))][f.iter := v])
  }

  /** The block a callback runs: the body for `down`, the post-visit body for `up`. */
  function BlockFor(ev: Event<Value>, body: seq<Stmt>, post: Postvisit): (ss: seq<Stmt>)
    ensures BlockSize(ss) <= BlockSize(body) + BlockSize(PostBody(post))
  {
    if ev.Down? then body else PostBody(post)
  }

  /**
   * A tag over an object tree runs the callbacks of its walk on top of its
   * own frame; when they complete and leave the stack and the backups as
   * they found them, the tag completes with the output they produced.
   */
  lemma TraverseObject(uid: int, iter: string, root: Node, body: seq<Stmt>, post: Postvisit, st: State)
    ensures var st1 := st.(stack := [Frame(iter, Obj(root))] + st.stack,
                           backups := st.backups[uid := Backup(Get(st.ctx, iter), Get(st.ctx, "level"))]);
            var v := Visit(Lift(Walk(root, true, post.Postvisit?)), body, post, st1);
            v.Done? && v.st.stack == st1.stack && v.st.backups == st1.backups ==>
            ExecStmt(Traverse(uid, iter, Lit(Obj(root)), body, post), st).Done? &&
            ExecStmt(Traverse(uid, iter, Lit(Obj(root)), body, post), st).st.out == v.st.out
  {
  }

  /** One callback under frame `f`: when its block completes, the walk goes on from the state it left. */
  lemma VisitStep(evs: seq<Event<Value>>, body: seq<Stmt>, post: Postvisit, st: State, f: Frame)
    requires evs != [] && Top(st.stack) == Some(f)
    ensures var r := Exec(BlockFor(evs[0], body, post), Entered(evs[0], f, st));
            r.Failed? ==> Visit(evs, body, post, st) == r
    ensures var r := Exec(BlockFor(evs[0], body, post), Entered(evs[0], f, st));
            r.Done? ==> Visit(evs, body, post, st) == Visit(evs[1..], body, post, r.st)
  {
  }

  /** Step 4: write the backup back, clear the global, pop the frame. */
  function Restore(uid: int, st: State): (r: Outcome)
    ensures r.Done? <==> st.stack != [] && uid in st.backups
    ensures r.Failed? ==> r.st == st && (r.err == NoCurrentFrame <==> st.stack == [])
    ensures r.Done? ==>
            r.st.stack == Popped(st.stack) && r.st.out == st.out && uid !in r.st.backups &&
            r.st.backups == st.backups - {uid} &&
            Get(r.st.ctx, "level") == st.backups[uid].level &&
            (st.stack[0].iter != "level" ==> Get(r.st.ctx, st.stack[0].iter) == st.backups[uid].iter) &&
            (forall k :: k != "level" && k != st.stack[0].iter ==> Get(r.st.ctx, k) == Get(st.ctx, k))
  {
    match Top(st.stack)
    case None => Failed(st, NoCurrentFrame)
    case Some(f) =>
      if uid !in st.backups then Failed(st, BackupCleared)
      else
        var b := st.backups[uid];
        Done(State(st.ctx[f.iter := b.iter]["level" := b.level], st.out, Popped(st.stack), st.backups - {uid}))
  }

  // ---------------------------------------------------------------------------
  // A completed tag leaves the context and the stack as it found them
  // ---------------------------------------------------------------------------

  /**
   * `st'` looks like `st` to the template: every context variable reads the
   * same, the stack is the same, no backup appeared or changed, and output
   * was only appended.
   */
  ghost predicate Restored(st: State, st': State)
  {
    st'.stack == st.stack &&
    st.out <= st'.out &&
    (forall k :: Get(st'.ctx, k) == Get(st.ctx, k)) &&
    (forall u :: u in st'.backups ==> u in st.backups && st'.backups[u] == st.backups[u])
  }

  /**
   * A block that completes restores every binding it touched: the iterator
   * variable and `level` of each tag get their earlier values back (a tag
   * nested in another one included), and each pushed frame is popped again.
   */
  lemma {:induction false} ExecRestores(ss: seq<Stmt>, st: State)
    ensures Exec(ss, st).Done? ==> Restored(st, Exec(ss, st).st)
    decreases BlockSize(ss), 2
  {
    if ss != [] {
      ExecStmtRestores(ss[0], st);
      match ExecStmt(ss[0], st)
      case Failed(_, _) =>
      case Done(st') => ExecRestores(ss[1..], st');
    }
  }

  lemma {:induction false} ExecStmtRestores(s: Stmt, st: State)
    ensures ExecStmt(s, st).Done? ==> Restored(st, ExecStmt(s, st).st)
    decreases StmtSize(s), 1
  {
    match s
    case Echo(_) =>
    case Traverse(uid, iter, tree, body, post) =>
      var v := Eval(tree, st.ctx);
      match Pushed(st.stack, Frame(iter, v))
      case Err(_) =>
      case Ok(pushed) =>
        var saved := Backup(Get(st.ctx, iter), Get(st.ctx, "level"));
        var st1 := st.(stack := pushed, backups := st.backups[uid := saved]);
        var w := TraverseValue(v, true, post.Postvisit?);
        VisitKeepsOthers(w.events, body, post, st1, Frame(iter, v));
        match Visit(w.events, body, post, st1)
        case Failed(_, _) =>
        case Done(st2) =>
          if !w.threw && uid in st2.backups {
            var st3 := Restore(uid, st2).st;
            assert st2.backups[uid] == saved;
            forall k ensures Get(st3.ctx, k) == Get(st.ctx, k) {
              if k != iter && k != "level" {
                assert Get(st2.ctx, k) == Get(st1.ctx, k);
              }
            }
          }
  }

  /**
   * The callbacks of one tag change only its iterator variable and `level`,
   * and leave the stack (whose current frame is the tag's own) as it was.
   */
  lemma {:induction false} VisitKeepsOthers(evs: seq<Event<Value>>, body: seq<Stmt>, post: Postvisit, st: State, f: Frame)
    requires Top(st.stack) == Some(f)
    ensures Visit(evs, body, post, st).Done? ==>
      var st' := Visit(evs, body, post, st).st;
      st'.stack == st.stack && st.out <= st'.out &&
      (forall k :: k != f.iter && k != "level" ==> Get(st'.ctx, k) == Get(st.ctx, k)) &&
      (forall u :: u in st'.backups ==> u in st.backups && st'.backups[u] == st.backups[u])
    decreases BlockSize(body) + BlockSize(PostBody(post)), |evs| + 3
  {
    if evs != [] {
      var next := Entered(evs[0], f, st);
      var block := BlockFor(evs[0], body, post);
      ExecRestores(block, next);
      match Exec(block, next)
      case Failed(_, _) =>
      case Done(st') => VisitKeepsOthers(evs[1..], body, post, st', f);
    }
  }
}
