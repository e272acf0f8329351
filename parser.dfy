/**
 * The argument parsers of the `traverse` and `postvisit` tags (index.js,
 * `parseTraverse` and `parsePostvisit`).
 *
 * The host parser lexes the tag's arguments and hands each token to the
 * handler registered for its type. A handler may throw, may consume the
 * token, or may return true, which hands the token on to the host's own
 * handling; a token type with no handler goes to the host's own handling as
 * well. The lists `out` and `filterApplyIdx` belong to the host parser, and its
 * own handling may change them in any way (push onto them, splice filter calls
 * into `out`) and it may throw; it is the parameter `host`, which sees and
 * returns only those two lists, or the message it throws, since the flags
 * `firstVar` and `ready` are the handlers' closure variables. Each token
 * arrives together with the host parser's `state` stack at that moment, whose
 * last entry the NUMBER handler inspects.
 */
module TagParser {
  import opened Wrappers

  /** The host's token types; those the handlers name, and the rest as `Other`. */
  datatype TokenType =
    | Number | Var | Comparator
    | ArrayOpen | CurlyOpen | CurlyClose | Function | Filter
    | Other(name: string)

  /** A lexed token; `text` is its `match`. */
  datatype Token = Token(kind: TokenType, text: string)

  /** A token together with the host parser's `state` stack when it arrives. */
  datatype Input = Input(token: Token, state: seq<TokenType>)

  /**
   * The handlers' closure flags `firstVar` and `ready` (both start out
   * `undefined`, i.e. false) and the host parser's `out` and
   * `filterApplyIdx` lists they push onto.
   */
  datatype ParseState = ParseState(firstVar: bool, ready: bool, out: seq<string>, filterApplyIdx: seq<nat>)

  const Initial := ParseState(false, false, [], [])

  /** The two host-parser lists, as the host's own token handling sees and leaves them. */
  datatype HostLists = HostLists(out: seq<string>, filterApplyIdx: seq<nat>)

  /** The host's own handling of a handed-on token: the new lists, or the message it throws. */
  type Host = (HostLists, Input) -> Result<HostLists, string>

  datatype ParseError =
    | UnexpectedNumber(text: string, line: nat)
    | UnexpectedToken(text: string, line: nat)
    | TokenInPostvisit(text: string, line: nat)

  /** Why an argument list is rejected: a handler threw, or the host's own handling threw. */
  datatype TagError = HandlerError(error: ParseError) | HostError(message: string)

  /** The decimal numeral of the line number, as `'… on line ' + line` writes it. */
  function Digits(n: nat): (s: string)
    ensures |s| > 0
    ensures forall i :: 0 <= i < |s| ==> '0' <= s[i] <= '9'
  {
    if n < 10 then [(48 + n) as char] else Digits(n / 10) + [(48 + n % 10) as char]
  }

  /** The number a decimal numeral denotes. */
  function NumeralValue(s: string): (n: int)
  {
    if s == [] then 0 else NumeralValue(s[..|s| - 1]) * 10 + (s[|s| - 1] as int - 48)
  }

  /** The line number can be read back from its numeral. */
  lemma {:induction false} DigitsRoundTrip(n: nat)
    ensures NumeralValue(Digits(n)) == n
  {
    var s := Digits(n);
    if n < 10 {
      assert s[..|s| - 1] == [];
    } else {
      assert s[..|s| - 1] == Digits(n / 10);
      DigitsRoundTrip(n / 10);
    }
  }

  /** The text of a message up to the token it names. */
  function Lead(e: ParseError): (lead: string)
  {
    match e
    case UnexpectedNumber(_, _) => "Unexpected number \""
    case UnexpectedToken(_, _) => "Unexpected token \""
    case TokenInPostvisit(_, _) => "\"postvisit\" tag does not accept any tokens. Found \""
  }

  /**
   * The text of the `Error` each parser throws: a fixed lead naming the kind
   * of error, then the token's text, then `" on line `, then the line number,
   * then a full stop.
   * The token and the line can be read back from the message.
   */
  function Message(e: ParseError): (m: string)
    ensures |m| > |Lead(e)| + |e.text| + |Digits(e.line)|
    ensures m[..|Lead(e)|] == Lead(e)
    ensures m[|Lead(e)|..|Lead(e)| + |e.text|] == e.text
    ensures m[|Lead(e)| + |e.text|..|m| - 1 - |Digits(e.line)|] == "\" on line "
    ensures NumeralValue(m[|m| - 1 - |Digits(e.line)|..|m| - 1]) == e.line
    ensures m[|m| - 1] == '.'
  {
    var m := Lead(e) + e.text + "\" on line " + Digits(e.line) + ".";
    MessageParts(Lead(e), e.text, Digits(e.line));
    DigitsRoundTrip(e.line);
    m
  }

  /** Where the lead, the token and the numeral sit in a message. */
  lemma MessageParts(lead: string, text: string, d: string)
    ensures var m := lead + text + "\" on line " + d + ".";
            m[..|lead|] == lead && m[|lead|..|lead| + |text|] == text &&
            m[|lead| + |text|..|m| - 1 - |d|] == "\" on line " &&
            m[|m| - 1 - |d|..|m| - 1] == d && m[|m| - 1] == '.'
  {
    var named := lead + text + "\" on line ";
    var m := named + d + ".";
    Parts(named, d, ".");
    Parts(lead, text, "\" on line ");
    SlicesOfPrefix(m, named, 0, |lead|);
    SlicesOfPrefix(m, named, |lead|, |lead| + |text|);
    SlicesOfPrefix(m, named, |lead| + |text|, |named|);
  }

  /** The parts of a concatenation can be cut back out of it. */
  lemma Parts(a: string, b: string, c: string)
    ensures (a + b + c)[..|a|] == a
    ensures (a + b + c)[|a|..|a| + |b|] == b
    ensures (a + b + c)[|a| + |b|..] == c
  {
  }

  lemma SlicesOfPrefix(m: string, x: string, i: nat, j: nat)
    requires |x| <= |m| && m[..|x|] == x && i <= j <= |x|
    ensures m[i..j] == x[i..j]
  {
    assert forall k :: i <= k < j ==> m[k] == m[..|x|][k];
  }

  /** What a handler does with a token: throws, consumes it, or hands it on to the host. */
  datatype Reply = Threw(error: ParseError) | Consumed(st: ParseState) | HandedOn(st: ParseState)

  // ---------------------------------------------------------------------------
  // The three handlers of `parseTraverse`
  // ---------------------------------------------------------------------------

  /** The parser states in which a number may appear inside the tree expression. */
  function NumberStates(): (ts: set<TokenType>)
    ensures |ts| == 5
    ensures Number !in ts && Var !in ts && Comparator !in ts
  {
    {ArrayOpen, CurlyOpen, CurlyClose, Function, Filter}
  }

  /** `this.state[this.state.length - 1]`, or `null` on an empty state stack. */
  function LastState(state: seq<TokenType>): (last: Option<TokenType>)
    ensures last.Some? <==> state != []
    ensures last.Some? ==> last.value == state[|state| - 1]
  {
    if state == [] then None else Some(state[|state| - 1])
  }

  /**
   * NUMBER: a number is an error unless `in` was already accepted and the
   * innermost host state is an array, an object literal, a call or a filter;
   * an accepted number goes to the host unchanged.
   */
  function OnNumber(st: ParseState, tok: Token, state: seq<TokenType>, line: nat): (r: Reply)
    ensures r.Threw? <==> !st.ready || LastState(state).None? || LastState(state).value !in NumberStates()
    ensures r.Threw? ==> r.error == UnexpectedNumber(tok.text, line)
    ensures !r.Threw? ==> r == HandedOn(st)
  {
    var last := LastState(state);
    if !st.ready || last.None? || last.value !in NumberStates() then Threw(UnexpectedNumber(tok.text, line))
    else HandedOn(st)
  }

  /**
   * VAR: once `in` has been accepted a variable belongs to the tree
   * expression and goes to the host. Before that, the variable's text is
   * pushed onto `out`; if `out` was empty it is the iterator variable and
   * `firstVar` is set.
   */
  function OnVar(st: ParseState, tok: Token): (r: Reply)
    ensures !r.Threw?
    ensures st.ready && st.firstVar ==> r == HandedOn(st)
    ensures !(st.ready && st.firstVar) ==> r.Consumed? && r.st.out == st.out + [tok.text]
    ensures !(st.ready && st.firstVar) && st.out == [] ==> r.st.firstVar && r.st.out == [tok.text]
    ensures !(st.ready && st.firstVar) && st.out != [] ==> r.st.firstVar == st.firstVar
    ensures r.st.ready == st.ready && r.st.filterApplyIdx == st.filterApplyIdx
    ensures st.firstVar ==> r.st.firstVar
  {
    if st.ready && st.firstVar then HandedOn(st)
    else Consumed(st.(firstVar := st.firstVar || st.out == [], out := st.out + [tok.text]))
  }

  /**
   * COMPARATOR: only `in`, and only after the iterator variable; accepting it
   * sets `ready` and records the current length of `out` in `filterApplyIdx`.
   */
  function OnComparator(st: ParseState, tok: Token, line: nat): (r: Reply)
    ensures r.Threw? <==> tok.text != "in" || !st.firstVar
    ensures r.Threw? ==> r.error == UnexpectedToken(tok.text, line)
    ensures !r.Threw? ==> r.Consumed? && r.st.ready && r.st.firstVar && r.st.out == st.out
    ensures !r.Threw? ==> r.st.filterApplyIdx == st.filterApplyIdx + [|st.out|]
  {
    if tok.text != "in" || !st.firstVar then Threw(UnexpectedToken(tok.text, line))
    else Consumed(st.(ready := true, filterApplyIdx := st.filterApplyIdx + [|st.out|]))
  }

  /** The handler registered for the token's type; other types go straight to the host. */
  function Dispatch(st: ParseState, input: Input, line: nat): (r: Reply)
    ensures r.Threw? ==> input.token.kind == Number || input.token.kind == Comparator
    ensures input.token.kind != Number && input.token.kind != Var && input.token.kind != Comparator ==> r == HandedOn(st)
    ensures r.HandedOn? ==> r.st == st
  {
    match input.token.kind
    case Number => OnNumber(st, input.token, input.state, line)
    case Var => OnVar(st, input.token)
    case Comparator => OnComparator(st, input.token, line)
    case _ => HandedOn(st)
  }

  /**
   * One token: its handler, then (if handed on) the host's own handling of
   * the two lists. Only a VAR can set `firstVar` and only an accepted `in`
   * can set `ready`; neither is ever cleared; of the handlers only the
   * NUMBER and COMPARATOR ones throw, and the host throws only on a token
   * handed on to it.
   */
  function Step(st: ParseState, input: Input, line: nat, host: Host): (r: Result<ParseState, TagError>)
    ensures r.Err? && r.error.HandlerError? ==> input.token.kind == Number || input.token.kind == Comparator
    ensures r.Err? && r.error.HandlerError? ==> Dispatch(st, input, line) == Threw(r.error.error)
    ensures r.Err? && r.error.HostError? ==>
            Dispatch(st, input, line).HandedOn? && host(HostLists(st.out, st.filterApplyIdx), input) == Err(r.error.message)
    ensures r.Ok? ==> (st.firstVar ==> r.value.firstVar) && (st.ready ==> r.value.ready)
    ensures r.Ok? && input.token.kind != Var ==> r.value.firstVar == st.firstVar
    ensures r.Ok? && input.token.kind != Comparator ==> r.value.ready == st.ready
    ensures r.Ok? && !st.ready && r.value.ready ==> st.firstVar && input.token.text == "in"
  {
    match Dispatch(st, input, line)
    case Threw(e) => Err(HandlerError(e))
    case Consumed(st') => Ok(st')
    case HandedOn(st') =>
      match host(HostLists(st'.out, st'.filterApplyIdx), input)
      case Err(m) => Err(HostError(m))
      case Ok(h) => Ok(st'.(out := h.out, filterApplyIdx := h.filterApplyIdx))
  }

  /**
   * The whole argument list of one `traverse` tag: the first error thrown,
   * or the final state. Its handlers only ever throw their two errors (any
   * other error is the host's); when it succeeds,
   * `ready` implies `firstVar` and holds exactly when the list had a
   * comparator.
   */
  function ParseTraverse(inputs: seq<Input>, line: nat, host: Host): (r: Result<ParseState, TagError>)
    ensures r.Err? && r.error.HandlerError? ==> r.error.error.UnexpectedNumber? || r.error.error.UnexpectedToken?
    ensures r.Ok? ==> (r.value.ready ==> r.value.firstVar)
    ensures r.Ok? ==> (r.value.ready <==> Comparators(inputs) > 0)
  {
    RunReachable(Initial, inputs, line, host);
    var r := Run(Initial, inputs, line, host);
    if r.Ok? then ReadyIffComparator(Initial, inputs, line, host); r else r
  }

  /** The fold: each token in turn, stopping at the first error. */
  function Run(st: ParseState, inputs: seq<Input>, line: nat, host: Host): (r: Result<ParseState, TagError>)
    ensures r.Err? && r.error.HandlerError? ==> r.error.error.UnexpectedNumber? || r.error.error.UnexpectedToken?
    ensures r.Ok? ==> (st.firstVar ==> r.value.firstVar) && (st.ready ==> r.value.ready)
    decreases |inputs|
  {
    if inputs == [] then Ok(st)
    else match Step(st, inputs[0], line, host)
      case Err(e) => Err(e)
      case Ok(st') => Run(st', inputs[1..], line, host)
  }

  // ---------------------------------------------------------------------------
  // Properties of the token fold
  // ---------------------------------------------------------------------------

  /** Parsing a concatenation is parsing the first part and carrying on from its state. */
  lemma {:induction false} RunAppend(st: ParseState, a: seq<Input>, b: seq<Input>, line: nat, host: Host)
    ensures Run(st, a + b, line, host) ==
            match Run(st, a, line, host) case Err(e) => Err(e) case Ok(mid) => Run(mid, b, line, host)
    decreases |a|
  {
    if a == [] {
      assert a + b == b;
    } else {
      assert (a + b)[0] == a[0];
      assert (a + b)[1..] == a[1..] + b;
      match Step(st, a[0], line, host)
      case Err(e) =>
      case Ok(mid) => RunAppend(mid, a[1..], b, line, host);
    }
  }

  /**
   * After any accepted token list `ready` implies `firstVar`: `in` is only
   * accepted once the iterator variable was seen, whatever the host does
   * with its lists.
   */
  lemma {:induction false} RunReachable(st: ParseState, inputs: seq<Input>, line: nat, host: Host)
    requires st.ready ==> st.firstVar
    ensures Run(st, inputs, line, host).Ok? ==> (Run(st, inputs, line, host).value.ready ==> Run(st, inputs, line, host).value.firstVar)
    decreases |inputs|
  {
    if inputs != [] {
      match Step(st, inputs[0], line, host)
      case Err(e) =>
      case Ok(mid) => RunReachable(mid, inputs[1..], line, host);
    }
  }

  /**
   * The usual tag `traverse <name> …`: the first variable is pushed as
   * `out[0]` and sets `firstVar`, which stays set after any accepted rest.
   */
  lemma IteratorIsFirstOutput(v: Token, state: seq<TokenType>, rest: seq<Input>, line: nat, host: Host)
    requires v.kind == Var
    ensures Run(Initial, [Input(v, state)], line, host) == Ok(ParseState(true, false, [v.text], []))
    ensures ParseTraverse([Input(v, state)] + rest, line, host).Ok? ==>
            ParseTraverse([Input(v, state)] + rest, line, host).value.firstVar
  {
    RunAppend(Initial, [Input(v, state)], rest, line, host);
    assert [Input(v, state)][1..] == [];
  }

  /** Number of comparator tokens in a token sequence. */
  function Comparators(inputs: seq<Input>): (n: nat)
    ensures n <= |inputs|
  {
    if inputs == [] then 0 else (if inputs[0].token.kind == Comparator then 1 else 0) + Comparators(inputs[1..])
  }

  /**
   * A successful parse ends with `ready` set exactly when it started so or
   * met at least one comparator (necessarily an accepted `in`).
   */
  lemma {:induction false} ReadyIffComparator(st: ParseState, inputs: seq<Input>, line: nat, host: Host)
    requires Run(st, inputs, line, host).Ok?
    ensures Run(st, inputs, line, host).value.ready <==> st.ready || Comparators(inputs) > 0
    decreases |inputs|
  {
    if inputs != [] {
      var mid := Step(st, inputs[0], line, host).value;
      ReadyIffComparator(mid, inputs[1..], line, host);
    }
  }

  /**
   * `traverse child in node`: `child` becomes `out[0]`, the `in` records the
   * filter index 1, and the tree expression `node` is left to the host, which
   * receives those lists and produces the final ones, or throws.
   */
  lemma ParsesChildInNode(line: nat, host: Host)
    ensures var i2 := Input(Token(Var, "node"), []);
            var h := host(HostLists(["child"], [1]), i2);
            ParseTraverse([Input(Token(Var, "child"), []), Input(Token(Comparator, "in"), []), i2], line, host) ==
            if h.Ok? then Ok(ParseState(true, true, h.value.out, h.value.filterApplyIdx)) else Err(HostError(h.error))
  {
    var i0, i1, i2 := Input(Token(Var, "child"), []), Input(Token(Comparator, "in"), []), Input(Token(Var, "node"), []);
    var s1 := ParseState(true, false, ["child"], []);
    var s2 := ParseState(true, true, ["child"], [1]);
    assert Step(Initial, i0, line, host) == Ok(s1);
    assert |s1.out| == 1;
    assert s1.filterApplyIdx + [|s1.out|] == [1];
    assert Step(s1, i1, line, host) == Ok(s2);
    assert [i0, i1, i2][1..] == [i1, i2];
    assert [i1, i2][1..] == [i2];
  }

  /** The state after the tokens `pre`, when they are accepted. */
  lemma {:induction false} RunAt(pre: seq<Input>, x: Input, post: seq<Input>, line: nat, host: Host)
    ensures Run(Initial, pre + [x] + post, line, host) ==
            match Run(Initial, pre, line, host)
            case Err(e) => Err(e)
            case Ok(mid) =>
              match Step(mid, x, line, host)
              case Err(e) => Err(e)
              case Ok(next) => Run(next, post, line, host)
  {
    assert pre + [x] + post == pre + ([x] + post);
    RunAppend(Initial, pre, [x] + post, line, host);
    assert ([x] + post)[0] == x && ([x] + post)[1..] == post;
  }

  /**
   * Anywhere in an accepted argument list, a comparator is `in` and comes
   * after the iterator variable.
   */
  lemma AcceptedComparatorIsIn(pre: seq<Input>, tok: Token, s: seq<TokenType>, post: seq<Input>, line: nat, host: Host)
    requires tok.kind == Comparator
    requires ParseTraverse(pre + [Input(tok, s)] + post, line, host).Ok?
    ensures tok.text == "in"
    ensures Run(Initial, pre, line, host).Ok? && Run(Initial, pre, line, host).value.firstVar
  {
    RunAt(pre, Input(tok, s), post, line, host);
  }

  /**
   * Anywhere in an accepted argument list, a number comes after `in` and
   * inside an array, an object literal, a call or a filter.
   */
  lemma AcceptedNumberIsInExpression(pre: seq<Input>, tok: Token, s: seq<TokenType>, post: seq<Input>, line: nat, host: Host)
    requires tok.kind == Number
    requires ParseTraverse(pre + [Input(tok, s)] + post, line, host).Ok?
    ensures Run(Initial, pre, line, host).Ok? && Run(Initial, pre, line, host).value.ready
    ensures LastState(s).Some? && LastState(s).value in NumberStates()
  {
    RunAt(pre, Input(tok, s), post, line, host);
  }

  /** Conversely, a comparator that breaks the rule makes the whole list fail on it. */
  lemma RejectsComparatorAt(pre: seq<Input>, tok: Token, s: seq<TokenType>, post: seq<Input>, line: nat, host: Host)
    requires tok.kind == Comparator
    requires Run(Initial, pre, line, host).Ok?
    requires tok.text != "in" || !Run(Initial, pre, line, host).value.firstVar
    ensures ParseTraverse(pre + [Input(tok, s)] + post, line, host) == Err(HandlerError(UnexpectedToken(tok.text, line)))
  {
    RunAt(pre, Input(tok, s), post, line, host);
  }

  /** Conversely, a number before `in` or outside the five host states that admit one makes the whole list fail on it. */
  lemma RejectsNumberAt(pre: seq<Input>, tok: Token, s: seq<TokenType>, post: seq<Input>, line: nat, host: Host)
    requires tok.kind == Number
    requires Run(Initial, pre, line, host).Ok?
    requires !Run(Initial, pre, line, host).value.ready || LastState(s).None? || LastState(s).value !in NumberStates()
    ensures ParseTraverse(pre + [Input(tok, s)] + post, line, host) == Err(HandlerError(UnexpectedNumber(tok.text, line)))
  {
    RunAt(pre, Input(tok, s), post, line, host);
  }

  /**
   * A token handed on to the host after an accepted prefix, on which the
   * host's own handling throws, makes the whole list fail with that message.
   */
  lemma HostThrowsAt(pre: seq<Input>, x: Input, post: seq<Input>, line: nat, host: Host)
    requires Run(Initial, pre, line, host).Ok?
    requires var mid := Run(Initial, pre, line, host).value;
             Dispatch(mid, x, line).HandedOn? && host(HostLists(mid.out, mid.filterApplyIdx), x).Err?
    ensures var mid := Run(Initial, pre, line, host).value;
            ParseTraverse(pre + [x] + post, line, host) == Err(HostError(host(HostLists(mid.out, mid.filterApplyIdx), x).error))
  {
    RunAt(pre, x, post, line, host);
  }

  /** `traverse 5 in tree` fails on the number `5`. */
  lemma RejectsLeadingNumber(state: seq<TokenType>, rest: seq<Input>, line: nat, host: Host)
    ensures ParseTraverse([Input(Token(Number, "5"), state)] + rest, line, host) == Err(HandlerError(UnexpectedNumber("5", line)))
  {
  }

  /** A comparator other than `in`, or `in` before any variable, is rejected. */
  lemma RejectsMisplacedComparator(tok: Token, state: seq<TokenType>, rest: seq<Input>, line: nat, host: Host)
    requires tok.kind == Comparator
    ensures ParseTraverse([Input(tok, state)] + rest, line, host) == Err(HandlerError(UnexpectedToken(tok.text, line)))
  {
  }

  /** An empty argument list is accepted as it is: the handlers never run and nothing checks for `in`. */
  lemma AcceptsEmptyArguments(line: nat, host: Host)
    ensures ParseTraverse([], line, host) == Ok(Initial)
  {
  }

  // ---------------------------------------------------------------------------
  // The handlers as the closures that update their flags
  // ---------------------------------------------------------------------------

  /** The closure state of one `parseTraverse` call together with the host parser's two lists. */
  class TraverseArgs {
    var firstVar: bool
    var ready: bool
    var out: seq<string>
    var filterApplyIdx: seq<nat>
    const line: nat

    function State(): (s: ParseState)
      reads this
    {
      ParseState(firstVar, ready, out, filterApplyIdx)
    }

    /** A fresh tag: no flags set, both lists empty. */
    constructor (line: nat)
      ensures State() == Initial && this.line == line
    {
      firstVar, ready, out, filterApplyIdx := false, false, [], [];
      this.line := line;
    }

    /** The NUMBER handler; `handOn` is its `return true`. */
    method HandleNumber(tok: Token, state: seq<TokenType>) returns (err: Option<ParseError>, handOn: bool)
      modifies this
      ensures State() == old(State())
      ensures OnNumber(old(State()), tok, state, line) ==
              if err.Some? then Threw(err.value) else if handOn then HandedOn(State()) else Consumed(State())
    {
      var last := LastState(state);
      if !ready || last.None? || last.value !in NumberStates() {
        err, handOn := Some(UnexpectedNumber(tok.text, line)), false;
        return;
      }
      err, handOn := None, true;
    }

    /** The VAR handler. */
    method HandleVar(tok: Token) returns (handOn: bool)
      modifies this
      ensures OnVar(old(State()), tok) == if handOn then HandedOn(State()) else Consumed(State())
    {
      if ready && firstVar {
        return true;
      }
      if |out| == 0 {
        firstVar := true;
      }
      out := out + [tok.text];
      handOn := false;
    }

    /** The COMPARATOR handler. */
    method HandleComparator(tok: Token) returns (err: Option<ParseError>)
      modifies this
      ensures OnComparator(old(State()), tok, line) == if err.Some? then Threw(err.value) else Consumed(State())
      ensures err.Some? ==> State() == old(State())
    {
      if tok.text != "in" || !firstVar {
        return Some(UnexpectedToken(tok.text, line));
      }
      ready := true;
      filterApplyIdx := filterApplyIdx + [|out|];
      err := None;
    }
  }

  // ---------------------------------------------------------------------------
  // `postvisit`
  // ---------------------------------------------------------------------------

  /** An entry of the host's stack of open tags (innermost last). */
  datatype OpenTag = OpenTag(name: string)

  /** The value `parsePostvisit` returns: whether the innermost open tag is a `traverse`. */
  function PostvisitValid(stack: seq<OpenTag>): (ok: bool)
    ensures ok <==> |stack| > 0 && stack[|stack| - 1].name == "traverse"
    ensures ok ==> exists i :: 0 <= i < |stack| && stack[i].name == "traverse"
  {
    |stack| > 0 && stack[|stack| - 1].name == "traverse"
  }

  /** The catch-all handler of `postvisit`: the first token of any type is an error. */
  function PostvisitTokens(inputs: seq<Input>, line: nat): (r: Option<ParseError>)
    ensures r.None? <==> inputs == []
    ensures r.Some? ==> r.value == TokenInPostvisit(inputs[0].token.text, line)
  {
    if inputs == [] then None else Some(TokenInPostvisit(inputs[0].token.text, line))
  }

  /** `postvisit foo` fails on `foo`, whatever the nesting. */
  lemma PostvisitRejectsArgument(state: seq<TokenType>, rest: seq<Input>, line: nat)
    ensures PostvisitTokens([Input(Token(Var, "foo"), state)] + rest, line) == Some(TokenInPostvisit("foo", line))
  {
  }
}
