# swig-traverse in Dafny

A model of `index.js` from swig-traverse. That file is a Swig template-engine extension that adds a
`{% traverse <iter> in <tree> %} … {% postvisit %} … {% endtraverse %}` tag pair. The model covers:

- **The tree walk** `traverse(node, down, up)` (`walk.dfy`, module `TreeWalk`). It is a pure function
  from a tree to its callback trace. Lemmas prove that the trace is the pre-order (down only) or the
  post-order (up only), that it is well bracketed, that it has two events per node, and that an
  absent callback removes exactly its own events.
- **The values involved** (`values.dfy`, module `JsValues`): JavaScript `typeof` (where `typeof null`
  is `"object"`), `_ctx[k]` lookup with `undefined` for a missing key, and the `++`/`--` operators.
- **The extension object** `swigTraverse` (`runtime.dfy`, module `Runtime`). It is a class whose
  `stack` field is a `seq<Frame>`. `Push` checks the tree's type and unshifts, `Pop` shifts and
  `Current` reads `stack[0]`. The same operations also exist as functions on values, and the module
  has `traverse` applied to any value (`TraverseValue`).
- **The argument parsers** `parseTraverse` and `parsePostvisit` (`parser.dfy`, module `TagParser`).
  The three handlers are functions from the closure state to a reply (throw, consume, or hand the
  token on to the host). They also appear as methods of a class holding the closure flags and the
  host's lists. A tag's argument list is a fold over its tokens.
- **What the emitted code does at render time** (`emitter.dfy`, module `Emitter`). The code is
  modelled as a state transformer over the render context, the output, the frame stack and the
  `__bkp<uid>` globals. The main theorem (`ExecRestores`) states that a block that completes leaves
  every context variable and the stack as it found them, nested tags included.
- **Consequences for rendered output** (`rendering.dfy`, module `Rendering`): pre-order output,
  depth-first output with a post-visit block, what `{{ level }}` prints, and an array as the tree.
- **Two findings** (`findings.dfy`, module `Findings`). Each one has an as-written member that shows
  the problem and a corrected member with the intended property proved.

Some consequences of how `index.js` is written, each proved in the model:
- A tag does not reset `level` when it starts. It continues from whatever `_ctx.level` holds, and an
  unset `level` prints `NaN` (`Rendering.LevelUnsetShowsNaN`).
- `parseTraverse` throws only from its NUMBER and COMPARATOR handlers, so an empty argument list is
  accepted (`TagParser.AcceptsEmptyArguments`).
- A tree has children only through its `children` property. An array given as the tree is visited
  once, as one node (`Rendering.ArrayTreeVisitedOnce`).
- A number before `in`, or outside a host state that admits one, throws
  `Unexpected number "<token>" on line <line>.` (`TagParser.RejectsNumberAt`, `TagParser.Message`).
- `level` goes down only in the `up` callback, which is installed only when a `postvisit` block is
  present (finding 2).
- An exception leaves the pushed frame on the stack, because the emitted code has no error path that
  pops it: a null tree (`Emitter.NullTreeLeavesFrame`) and finding 1 (`Findings.SameMillisecondNestingThrows`).

## Model

| member | source | states |
|---|---|---|
| TreeWalk.LeafWalk | index.js:158-169 | a node whose `children` is missing (any falsy value) or empty gives its `down`, then its `up`, and nothing else |
| TreeWalk.DownOnlyIsPreOrder | index.js:158-165 | with only `down` given, the trace is `Down` of each node in pre-order (the node, then each child's subtree in array order) |
| TreeWalk.DownOnlyIsPreOrderAll | index.js:162-165 | the same for a list of sibling subtrees walked by `forEach` |
| TreeWalk.UpOnlyIsPostOrder | index.js:162-168 | with only `up` given, the trace is `Up` of each node in post-order: a node's `up` comes after every descendant's |
| TreeWalk.UpOnlyIsPostOrderAll | index.js:162-165 | the same for a list of sibling subtrees |
| TreeWalk.AbsentCallbackDropsItsEvents | index.js:159-161 | the trace with some callbacks absent is the full trace with exactly those callbacks' events removed, the rest unchanged and in order |
| TreeWalk.AbsentCallbackDropsItsEventsAll | index.js:163-165 | the same for a list of sibling subtrees |
| TreeWalk.KeepTwice | index.js:159-161 | dropping the events of absent callbacks is idempotent |
| TreeWalk.WalkIsBracketed | index.js:158-169 | a subtree's full trace is one balanced block (`Down(n)`, its children's blocks, `Up(n)`), so whatever follows it sees the same open nodes |
| TreeWalk.WalkAllIsBracketed | index.js:162-165 | a sequence of sibling blocks is balanced as a whole |
| TreeWalk.WalkBalanced | index.js:158-169 | the full trace of a tree closes every node it opens, starts with `Down(root)` and ends with `Up(root)` |
| TreeWalk.Walk | index.js:158-169 | the trace has one `down` event per node when `down` is given and one `up` event per node when `up` is given; it starts with `Down(node)` when `down` is given and ends with `Up(node)` when `up` is given |
| TreeWalk.Children | index.js:162 | `node.children` defaulting to `[]`: a missing `children` gives no children, an array gives its elements |
| TreeWalk.WalkAll | index.js:162-165 | the `forEach` over the children contributes one event per node of each kept kind, over all the sibling subtrees |
| TreeWalk.PreOrder | index.js:158-165 | the reference pre-order lists each node of the subtree once, starting with the node itself |
| TreeWalk.Keep | index.js:159-161 | dropping absent callbacks keeps only events whose callback is given, and keeps everything when both are given |
| TreeWalk.WalkAllAppend | index.js:163-165 | walking a concatenation of sibling lists is walking each list in turn |
| TreeWalk.SizeAllAppend | index.js:162-165 | the node count of a concatenation of sibling lists is the sum of their counts |
| TreeWalk.KeepAppend | index.js:159-161 | dropping events commutes with concatenating traces |
| JsValues.TypeOf | index.js:178 | `typeof` is "object" exactly for `null`, objects and arrays |
| JsValues.Get | index.js:82 | `_ctx[k]` is the bound value, and `undefined` for a missing key |
| JsValues.ToNumber | index.js:86 | the numeric conversion behind `++`/`--`: numbers unchanged, `null` 0, booleans 0 or 1, `undefined`, functions and objects `NaN` |
| JsValues.Increment | index.js:86 | `level++` adds one to a number and stores `NaN` when `level` is undefined |
| JsValues.Decrement | index.js:104 | `level--` subtracts one from a number and stores `NaN` when `level` is undefined |
| Runtime.Top | index.js:186-188 | `current()` is a frame exactly when the stack is not empty |
| Runtime.Popped | index.js:183-185 | `pop()` removes the first frame, and on an empty stack changes nothing |
| Runtime.Pushed | index.js:177-182 | `push` fails exactly on a tree whose `typeof` is not "object", with the `typeof` in the error; otherwise the frame becomes current and popping gives back the old stack (LIFO) |
| Runtime.PushMessage | index.js:179 | the push error text is the fixed lead, the `typeof` of the tree, and "` given." |
| Runtime.PushAcceptsNull | index.js:178 | `push` accepts a `null` tree, because `typeof null` is "object" |
| Runtime.TraverseValue | index.js:158-169 | on an object node the trace is the walk; on `null`/`undefined` the walk throws after `down`; any other value (an array included) is visited once with no children |
| Runtime.TraverseExtension.constructor | index.js:173 | the extension starts with an empty stack |
| Runtime.TraverseExtension.Push | index.js:177-182 | throws on a non-object tree and leaves the stack as it was; otherwise puts the frame at index 0, in front of the old stack |
| Runtime.TraverseExtension.Pop | index.js:183-185 | the new stack is the old one without its first frame, and nothing else changes |
| Runtime.TraverseExtension.Current | index.js:186-188 | returns the first frame of the stack, or nothing when the stack is empty |
| Runtime.PushCurrentPop | index.js:177-188 | after `push(f)`, `current()` is `f`, and the following `pop()` restores the previous stack exactly |
| Runtime.ArgsLift | index.js:160 | the callbacks receive the walked nodes as object values, in trace order |
| Runtime.KeepLift | index.js:159-161 | dropping absent callbacks' events commutes with handing nodes to the callbacks |
| TagParser.OnNumber | index.js:114-126 | a number throws "Unexpected number" unless `in` was accepted and the innermost host state is ARRAYOPEN, CURLYOPEN, CURLYCLOSE, FUNCTION or FILTER; an accepted number goes to the host and changes nothing |
| TagParser.LastState | index.js:115 | the innermost host state is the last entry of `state`, and there is none exactly when `state` is empty |
| TagParser.NumberStates | index.js:117-121 | five host states admit a number, and none of them is a token type that a handler owns |
| TagParser.OnVar | index.js:128-138 | after `in` with `firstVar` set, a variable goes to the host; otherwise it is appended to `out`, and it sets `firstVar` when `out` was empty and leaves it as it was otherwise; it never throws |
| TagParser.OnComparator | index.js:140-146 | throws "Unexpected token" exactly when the comparator is not `in` or no variable came first; otherwise sets `ready` and appends `out.length` to `filterApplyIdx` |
| TagParser.Dispatch | index.js:114-146 | only the NUMBER and COMPARATOR handlers throw; a token of any other type goes to the host untouched, and a token handed on does not change the closure state |
| TagParser.Step | index.js:111-149 | one token: of the handlers only the NUMBER and COMPARATOR ones throw, and any other error is the host throwing on a token handed on to it; the flags are never cleared, only a variable can set `firstVar`, only a comparator can set `ready`, and `ready` is set only by `in` after `firstVar` |
| TagParser.Run | index.js:111-149 | a token list fails either with the host's own error or with "Unexpected number" or "Unexpected token" from the handlers, and the flags never go from set to unset |
| TagParser.ParseTraverse | index.js:111-149 | the handlers of a whole argument list throw only those two errors, any other failure being the host's; on success `ready` implies `firstVar`, and `ready` holds exactly when the list has a comparator |
| TagParser.Message | index.js:123 | an error message (here and at index.js:142 and 153) is its lead text, the token's own text, `" on line `, the line number (which reads back as the line) and a full stop |
| TagParser.DigitsRoundTrip | index.js:123 | the decimal numeral of the line number reads back as that number |
| TagParser.RunAppend | index.js:111-149 | parsing a concatenation of token lists is parsing the first and continuing from its state, or its error |
| TagParser.RunAt | index.js:111-149 | the parse of `pre + [x] + post` is the parse of `pre`, then the one step on `x`, then the parse of `post`, stopping at the first error |
| TagParser.AcceptedComparatorIsIn | index.js:140-146 | in any accepted argument list, every comparator is `in` and comes after a variable has set `firstVar` |
| TagParser.AcceptedNumberIsInExpression | index.js:114-126 | in any accepted argument list, every number comes after `in` and in one of the five host states that admit a number |
| TagParser.RejectsComparatorAt | index.js:140-143 | conversely, a comparator that is not `in`, or comes before any variable, after an accepted prefix makes the whole list fail with "Unexpected token" on it |
| TagParser.RejectsNumberAt | index.js:114-124 | conversely, a number before `in` or in any other host state, after an accepted prefix, makes the whole list fail with "Unexpected number" on it |
| TagParser.HostThrowsAt | index.js:125-131 | a token handed on to the host after an accepted prefix, on which the host throws, makes the whole list fail with the host's message |
| TagParser.RunReachable | index.js:128-146 | for any host, starting from a state where `ready` implies `firstVar`, every accepted token list ends in such a state: `in` is accepted only after a variable has set `firstVar` |
| TagParser.IteratorIsFirstOutput | index.js:128-137 | a first variable token is consumed by the closure, not the host: it becomes `out[0]` and sets `firstVar`, which stays set after any accepted rest |
| TagParser.ReadyIffComparator | index.js:140-146 | for any host, in an accepted token list `ready` holds at the end exactly when it held at the start or a comparator was met |
| TagParser.ParsesChildInNode | index.js:128-146 | `traverse child in node` pushes `child` as `out[0]`, records filter index 1 on `in`, and hands `node` with those lists to the host; the result has both flags set and the host's lists, or is the host's error when it throws |
| TagParser.RejectsLeadingNumber | index.js:114-124 | `traverse 5 in tree` fails with "Unexpected number" on `5` |
| TagParser.RejectsMisplacedComparator | index.js:140-143 | a comparator before any variable fails with "Unexpected token" on that comparator |
| TagParser.AcceptsEmptyArguments | index.js:111-149 | an empty argument list is accepted and leaves the initial state |
| TagParser.TraverseArgs.constructor | index.js:111-112 | a fresh tag starts with both flags unset and both lists empty |
| TagParser.TraverseArgs.HandleNumber | index.js:114-126 | the NUMBER closure throws, or hands the token on, exactly as `OnNumber` says, and changes nothing |
| TagParser.TraverseArgs.HandleVar | index.js:128-138 | the VAR closure updates `firstVar` and `out` exactly as `OnVar` says |
| TagParser.TraverseArgs.HandleComparator | index.js:140-146 | the COMPARATOR closure updates `ready` and `filterApplyIdx` exactly as `OnComparator` says, and changes nothing when it throws |
| TagParser.PostvisitValid | index.js:155 | `parsePostvisit` returns true exactly when the stack of open tags is non-empty and its innermost tag is named `traverse` |
| TagParser.PostvisitTokens | index.js:152-154 | a `postvisit` tag fails exactly when it has a token, on its first token |
| TagParser.PostvisitRejectsArgument | index.js:152-154 | `postvisit foo` fails on `foo` |
| Emitter.ExecRestores | index.js:79-94 | a template block that completes leaves the stack as it was, every context variable (each tag's iterator variable and `level` included) reading as before, output only appended, and no backup global newly set or changed, though one that an enclosing tag set under the same uid may be cleared (see ## Findings) |
| Emitter.Exec | index.js:79-94 | a block runs its statements in order, stops at the first exception, and only ever appends to the output |
| Emitter.ExecStmt | index.js:79-94 | `{{ x }}` always completes; a tag whose tree `typeof` is not "object" throws the push error and changes nothing; a `null` tree passes the check but the tag never completes; output is only appended |
| Emitter.NullTreeLeavesFrame | index.js:81-93 | a `null` tree passes `push`, and the walk then throws on `null.children`: the tag fails with its frame still on the stack and its backup global still set |
| Emitter.Visit | index.js:84-109 | the callbacks run their blocks in event order, stop at the first exception, and only append to the output |
| Emitter.Entered | index.js:85-105 | `down` binds the node to the iterator variable and then increments `level`; `up` decrements `level` and binds the node; no other variable, nor the output, stack or backups, changes |
| Emitter.Restore | index.js:90-93 | the restore completes exactly when there is a current frame and the backup global is set; it then writes back the saved iterator variable and `level`, clears the backup, pops the frame and changes nothing else; otherwise it throws and changes nothing |
| Emitter.ExecStmtRestores | index.js:81-93 | one `traverse` tag that completes pushes and pops its frame and writes back the iterator variable and `level` saved before the walk |
| Emitter.VisitKeepsOthers | index.js:84-88 | the callbacks of a tag change only its iterator variable and `level` (the nested blocks restore everything else), and leave the stack with the tag's frame current |
| Rendering.EchoBlock | index.js:85 | `{{ name }}` appends the value bound to `name`, `undefined` when it is unbound |
| Rendering.VisitEchoesNodes | index.js:84-88 | with body `{{ n }}`, the callbacks print each node they receive, and with a `{{ n }}` post-visit block also each node on the way up |
| Rendering.PreOrderOutput | index.js:79-94 | `{% traverse n in root %}{{ n }}{% endtraverse %}` prints the nodes in pre-order and completes |
| Rendering.PreOrderOutputFrom | index.js:101-109 | an empty post-visit block prints the same pre-order |
| Rendering.DownArgsArePreOrder | index.js:159-165 | the nodes the `down` callback receives are the pre-order of the tree, whether or not an `up` callback is given |
| Rendering.DepthFirstOutput | index.js:101-109 | with `{{ n }}` in both blocks the output is every node on the way down and again on the way up, in walk order |
| Rendering.ArrayTreeVisitedOnce | index.js:162 | an array given as the tree is printed once as itself; its elements are not visited |
| Rendering.VisitEchoesLevels | index.js:84-88 | with body `{{ level }}`, the output is the running `level` counter after each `++`, and after each `--` when the post-visit block prints it |
| Rendering.WalkLevelsAreDepths | index.js:158-169 | with both callbacks, the counter after each `down` is the node's depth below the starting value, and it is back at the start after each subtree |
| Rendering.WalkLevelsCountVisits | index.js:159-165 | with only `down`, the counter after the k-th `down` is the start plus k |
| Rendering.LevelOutput | index.js:79-109 | what `{{ level }}` in the body of a tag prints, for each kind of post-visit block |
| Rendering.LevelIsDepthWithPostvisit | index.js:101-109 | with a `postvisit` block, `{{ level }}` in the body prints each node's depth counted from the starting `level` |
| Rendering.LevelCountsVisitsWithoutPostvisit | index.js:84-88 | without a `postvisit` block, `{{ level }}` prints the visit count: l+1, l+2, … up to l plus the node count |
| Rendering.LevelUnsetShowsNaN | index.js:86 | with no `level` in the context, `{{ level }}` prints `NaN` once per node, because nothing resets it to 0 |
| Findings.SameMillisecondNestingThrows | index.js:77-93 | two nested tags compiled in the same millisecond share `__bkp<uid>`, so the outer restore throws and its frame stays on the stack |
| Findings.StampUids | index.js:77 | as written: every tag compiled at one clock reading gets that reading as its uid |
| Findings.StampStmt | index.js:77 | the same for one statement; a tag stays a tag |
| Findings.StampKeepsShape | index.js:77 | stamping changes nothing but the uids |
| Findings.NumberUids | index.js:77 | counter uids: every uid in the numbered block lies in `[next, r.1)`, so the returned counter is free |
| Findings.NumberStmt | index.js:77 | a numbered tag gets the counter's value, its nested tags numbers above it, and the returned counter is above all of them |
| Findings.NumberKeepsShape | index.js:77 | numbering changes nothing but the uids |
| Findings.NumberedAreFresh | index.js:77 | counter uids never reuse the uid of an enclosing tag |
| Findings.FreshBlockCompletes | index.js:79-94 | when no tag reuses an enclosing tag's uid and every tree is a literal object or array written in the template, the block completes and the enclosing tags' backups survive |
| Findings.FreshBlockNeverClears | index.js:79-94 | when no tag reuses an enclosing tag's uid, whatever the trees, a block fails only with a push error or a `null` walk, never on a cleared backup, and when it completes the enclosing tags' backups survive |
| Findings.NumberedTemplateNeverClears | index.js:77-94 | with counter uids, every template either completes and restores the context and the stack, or fails only with a push error or a `null` walk, never on a cleared backup |
| Findings.NumberedTemplateCompletes | index.js:79-94 | with counter uids, every template whose trees are all literal objects or arrays written in the template completes and restores the context and the stack |
| Findings.NumberedNestingCompletes | index.js:79-94 | the template that throws with clock uids completes with counter uids |
| Findings.LevelWithoutPostvisitIsNotDepth | index.js:84-88 | as written, a root with two leaf children prints levels 1, 2, 3, while the depths are 1, 2, 2 |
| Findings.AlwaysAscend | index.js:101-109 | corrected compile: every tag of the block, nested ones included, gets a post-visit block, so its `up` callback is always installed |
| Findings.AscendStmt | index.js:101-109 | the same for one statement: a tag keeps its uid, iterator variable and tree and gets a post-visit block, an empty one when it had none; `{{ x }}` is left as it is |
| Findings.AscendKeepsAscending | index.js:101-109 | a block whose tags all have a post-visit block is left exactly as it is |
| Findings.AscendTwice | index.js:101-109 | installing the `up` callback is idempotent |
| Findings.AscendingLevelIsDepth | index.js:101-105 | when the `up` callback is always installed, `{{ level }}` prints each node's depth |
| Findings.AscendingKeepsPreOrder | index.js:101-105 | always installing the `up` callback does not change what the body prints about the nodes |

## Left out

- Uid generation and text splicing: the clock reading, the `.replace(/UID/g, …)` and `YIELD` splicing, and the emitted code as text (index.js:77, 95-97, 102, 107-108) are not modelled. A tag's uid is a field of the statement, and the emitted code is modelled by what it does.
- The Swig host is not modelled. This covers `parser.on` registration, `swig.setExtension` and `swig.setTag` (index.js:171-191), and the compiler callback `compiler(content, …)` (index.js:73-75). Swig's own handling of a token handed on to it (its `parseVar`, filters and the rest) is the parameter `host`, a function from the lists `out` and `filterApplyIdx` and the token to new lists or to the message it throws. It may change both lists arbitrarily and may throw on any token handed on to it; the message is an arbitrary string. It cannot change the closure's `firstVar` and `ready`, so the parser lemmas hold for every host. The host's `state` stack arrives with each token.
- Host expression evaluation: the tree argument is a literal value or a context variable (`Emitter.Eval`).
- Template statements other than `{{ name }}` are not modelled. Swig's printing of `null`/`undefined` as empty text is not modelled either: the output is a sequence of values.
- JsValues.ToNumber: numbers are integers, and strings and arrays convert only in the empty case (to 0); any other string or array gives `NaN`. Floating point is not modelled.
- TreeWalk.Node: a `children` property is either missing (standing for any falsy value) or an array of nodes. A truthy non-array `children`, and array elements that are not objects, are not modelled.
- Cyclic trees and stack exhaustion are not modelled: trees are finite datatypes.
- A repeated `{% postvisit %}` inside one tag is not modelled. `postvisit` is registered without the block flag (index.js:191), so it never becomes the innermost open tag and a second one still passes `parsePostvisit` (index.js:155). Each one closes a callback and opens another (index.js:103-108), but `traverse` takes only `down` and `up` (index.js:158), so every block after the second `postvisit` is compiled and never run. The statement `Traverse` carries at most one post-visit block.
- Concurrency is not modelled: several renders sharing the one extension object at once.

## Findings

| source | as written | input that shows it | evidently intended | confidence | as-written member | corrected member |
|---|---|---|---|---|---|---|
| index.js:77-92 | the backup global `__bkp<uid>` is named by the compile-time clock reading in milliseconds; a nested tag compiled in the same millisecond shares it, sets it to `undefined`, and the outer tag's restore then throws on `.iter` of `undefined` | `{% traverse a in leaf %}{% traverse b in leaf %}{% endtraverse %}{% endtraverse %}` with both tags compiled in the same millisecond | every open tag has its own backup, so nesting never throws and restores both bindings | not executed | Findings.SameMillisecondNestingThrows | Findings.NumberedTemplateNeverClears |
| index.js:84-88, 101-109 | `level--` runs only in the `up` callback, which exists only with a `postvisit` block; without one, `level` counts the visited nodes | a root with two leaf children and body `{{ level }}` starting from `level` 0: prints 1, 2, 3 | `level` is the depth of the node (1, 2, 2) | not executed | Findings.LevelWithoutPostvisitIsNotDepth | Findings.AscendingLevelIsDepth |
