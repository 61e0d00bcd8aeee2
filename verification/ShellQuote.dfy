// shellQuote (internal/sandbox/agent.go) against a reading of the Shell Command Language of
// POSIX.1-2017: quoting by sections 2.2.1 to 2.2.3, token recognition by section 2.3. What
// the shell would go on to expand when it is not quoted ends in Unmodelled, for ever. Telling
// IO_NUMBERs and reserved words from other words comes later and is not part of this model.

module ShellQuote {
  import opened Common

  // ---------------------------------------------------------------- the code

  /** strings.ReplaceAll(a, "'", `'\''`). */
  function Escaped(a: string): string {
    if a == [] then []
    else (if a[0] == '\'' then ['\'', '\\', '\'', '\''] else [a[0]]) + Escaped(a[1..])
  }

  function Quoted(a: string): string {
    ['\''] + Escaped(a) + ['\'']
  }

  /** The quoted arguments joined by single spaces. */
  function QuotedAll(args: seq<string>): string {
    if args == [] then []
    else if |args| == 1 then Quoted(args[0])
    else QuotedAll(args[..|args| - 1]) + [' '] + Quoted(args[|args| - 1])
  }

  method QuoteArgs(args: seq<string>) returns (b: string)
    ensures b == QuotedAll(args)
  {
    b := "";
    for i := 0 to |args|
      invariant b == QuotedAll(args[..i])
    {
      assert args[..i + 1][..i] == args[..i];
      ghost var before := b;
      if i > 0 {
        b := b + [' '];
      }
      b := b + ['\''];
      b := b + Escaped(args[i]);
      b := b + ['\''];
      ghost var sep: string := if i > 0 then [' '] else [];
      assert b == before + sep + Quoted(args[i]);
    }
    assert args[..|args|] == args;
  }

  // ---------------------------------------------------------------- the shell

  datatype Token = Word(text: string) | Operator(text: string)

  datatype Mode =
    | Between                                // no token begun
    | InWord(text: string)
    | InSingle(text: string)                 // section 2.2.2
    | InDouble(text: string)                 // section 2.2.3
    | InDoubleEscape(text: string)
    | AfterBackslash(begun: Option<string>)  // section 2.2.1, the word begun if any
    | InOperator(text: string)
    | InComment
    | Unmodelled

  /** The tokens delimited so far and what is being read. */
  datatype State = State(done: seq<Token>, mode: Mode)

  const OPERATORS: set<string> := {"&", "|", ";", "<", ">", "(", ")",
    "&&", "||", ";;", "<<", ">>", "<&", ">&", "<>", ">|", "<<-"}

  predicate IsBlank(c: char) {
    c == ' ' || c == '\t'
  }

  predicate IsOperatorStart(c: char) {
    c in {'&', '|', ';', '<', '>', '(', ')'}
  }

  /** Unquoted, these start an expansion or a pattern; NUL cannot be passed to a shell at all. */
  predicate NeedsExpansion(c: char) {
    c in {'$', '`', '*', '?', '[', '~', '\0'}
  }

  /** One character where a token may begin (section 2.3, rules 4 to 10). */
  function Begin(done: seq<Token>, c: char): State {
    if IsBlank(c) then State(done, Between)
    else if c == '\n' then State(done + [Operator("\n")], Between)
    else if c == '\'' then State(done, InSingle(""))
    else if c == '"' then State(done, InDouble(""))
    else if c == '\\' then State(done, AfterBackslash(None))
    else if c == '#' then State(done, InComment)
    else if IsOperatorStart(c) then State(done, InOperator([c]))
    else if NeedsExpansion(c) then State(done, Unmodelled)
    else State(done, InWord([c]))
  }

  function Step(s: State, c: char): State {
    match s.mode
    case Between => Begin(s.done, c)
    case InWord(w) =>
      if IsBlank(c) || c == '\n' || IsOperatorStart(c) then Begin(s.done + [Word(w)], c)
      else if c == '\'' then State(s.done, InSingle(w))
      else if c == '"' then State(s.done, InDouble(w))
      else if c == '\\' then State(s.done, AfterBackslash(Some(w)))
      else if NeedsExpansion(c) then State(s.done, Unmodelled)
      else State(s.done, InWord(w + [c]))
    case InSingle(w) =>
      if c == '\'' then State(s.done, InWord(w))
      else if c == '\0' then State(s.done, Unmodelled)
      else State(s.done, InSingle(w + [c]))
    case InDouble(w) =>
      if c == '"' then State(s.done, InWord(w))
      else if c == '\\' then State(s.done, InDoubleEscape(w))
      else if c in {'$', '`', '\0'} then State(s.done, Unmodelled)
      else State(s.done, InDouble(w + [c]))
    case InDoubleEscape(w) =>
      if c in {'$', '`', '"', '\\'} then State(s.done, InDouble(w + [c]))
      else if c == '\n' then State(s.done, InDouble(w))
      else if c == '\0' then State(s.done, Unmodelled)
      else State(s.done, InDouble(w + ['\\', c]))
    case AfterBackslash(begun) =>
      if c == '\n' then State(s.done, if begun.Some? then InWord(begun.value) else Between)
      else if c == '\0' then State(s.done, Unmodelled)
      else State(s.done, InWord((if begun.Some? then begun.value else "") + [c]))
    case InOperator(op) =>
      if op + [c] in OPERATORS then State(s.done, InOperator(op + [c]))
      else Begin(s.done + [Operator(op)], c)
    case InComment =>
      if c == '\n' then State(s.done + [Operator("\n")], Between)
      else if c == '\0' then State(s.done, Unmodelled)
      else s
    case Unmodelled => s
  }

  function Run(s: State, text: string): State
    decreases |text|
  {
    if text == [] then s else Run(Step(s, text[0]), text[1..])
  }

  const START := State([], Between)

  /** The tokens of a whole text after quote removal; None for an open quote or an expansion. */
  function Tokenize(text: string): Option<seq<Token>> {
    var s := Run(START, text);
    match s.mode
    case Between => Some(s.done)
    case InComment => Some(s.done)
    case InWord(w) => Some(s.done + [Word(w)])
    case InOperator(op) => Some(s.done + [Operator(op)])
    case _ => None
  }

  // ---------------------------------------------------------------- the round trip

  predicate NulFree(args: seq<string>) {
    forall a <- args :: '\0' !in a
  }

  function Words(args: seq<string>): seq<Token> {
    seq(|args|, i requires 0 <= i < |args| => Word(args[i]))
  }

  lemma {:induction false} RunAppend(s: State, a: string, b: string)
    ensures Run(s, a + b) == Run(Run(s, a), b)
    decreases |a|
  {
    if a == [] {
      assert a + b == b;
    } else {
      assert (a + b)[1..] == a[1..] + b;
      RunAppend(Step(s, a[0]), a[1..], b);
    }
  }

  lemma RunOne(s: State, c: char)
    ensures Run(s, [c]) == Step(s, c)
  {}

  /** An embedded quote closes the quotes, adds an escaped quote and opens them again. */
  lemma EscapedQuoteIsOneQuote(done: seq<Token>, w: string)
    ensures Run(State(done, InSingle(w)), ['\'', '\\', '\'', '\'']) == State(done, InSingle(w + ['\'']))
  {
    var q, b := '\'', '\\';
    var s := State(done, InSingle(w));
    assert [q, b, q, q] == [q] + ([b] + ([q] + [q]));
    RunAppend(s, [q], [b] + ([q] + [q]));
    RunOne(s, q);
    RunAppend(Step(s, q), [b], [q] + [q]);
    RunOne(Step(s, q), b);
    RunAppend(Step(Step(s, q), b), [q], [q]);
    RunOne(Step(Step(s, q), b), q);
    RunOne(Step(Step(Step(s, q), b), q), q);
  }

  /** Inside single quotes the escaped text is read back as the argument, whatever is in it. */
  lemma {:induction false} EscapedReadsBack(done: seq<Token>, w: string, a: string)
    requires '\0' !in a
    ensures Run(State(done, InSingle(w)), Escaped(a)) == State(done, InSingle(w + a))
    decreases |a|
  {
    if a == [] {
      assert w + a == w;
    } else {
      var head := if a[0] == '\'' then ['\'', '\\', '\'', '\''] else [a[0]];
      RunAppend(State(done, InSingle(w)), head, Escaped(a[1..]));
      if a[0] == '\'' {
        EscapedQuoteIsOneQuote(done, w);
      } else {
        RunOne(State(done, InSingle(w)), a[0]);
      }
      EscapedReadsBack(done, w + [a[0]], a[1..]);
      assert w + [a[0]] + a[1..] == w + a;
    }
  }

  lemma QuotedReadsBack(done: seq<Token>, a: string)
    requires '\0' !in a
    ensures Run(State(done, Between), Quoted(a)) == State(done, InWord(a))
  {
    var q := ['\''];
    assert Quoted(a) == q + (Escaped(a) + q);
    RunAppend(State(done, Between), q, Escaped(a) + q);
    RunOne(State(done, Between), '\'');
    RunAppend(State(done, InSingle("")), Escaped(a), q);
    EscapedReadsBack(done, "", a);
    assert "" + a == a;
    RunOne(State(done, InSingle(a)), '\'');
  }

  /** After the quoted arguments the shell has all but the last and is about to end that one. */
  lemma {:induction false} QuotedAllReadsBack(done: seq<Token>, args: seq<string>)
    requires args != [] && NulFree(args)
    ensures Run(State(done, Between), QuotedAll(args))
         == State(done + Words(args[..|args| - 1]), InWord(args[|args| - 1]))
  {
    var init, last := args[..|args| - 1], args[|args| - 1];
    assert last in args;
    if |args| == 1 {
      assert done + Words(init) == done;
      QuotedReadsBack(done, last);
    } else {
      assert forall a <- init :: a in args;
      QuotedAllReadsBack(done, init);
      var s := Run(State(done, Between), QuotedAll(init));
      var before := done + Words(init[..|init| - 1]);
      assert before + [Word(init[|init| - 1])] == done + Words(init);
      RunAppend(State(done, Between), QuotedAll(init) + [' '], Quoted(last));
      RunAppend(State(done, Between), QuotedAll(init), [' ']);
      RunOne(s, ' ');
      QuotedReadsBack(done + Words(init), last);
    }
  }

  /**
   * In the middle of a command: wherever a token may begin, the quoted arguments and a space
   * add exactly the arguments as words, so whatever follows is read as it would be alone.
   */
  lemma QuotedInCommand(done: seq<Token>, args: seq<string>, rest: string)
    requires NulFree(args)
    ensures Run(State(done, Between), QuotedAll(args) + [' '] + rest) == Run(State(done + Words(args), Between), rest)
  {
    var start := State(done, Between);
    RunAppend(start, QuotedAll(args) + [' '], rest);
    RunAppend(start, QuotedAll(args), [' ']);
    RunOne(Run(start, QuotedAll(args)), ' ');
    if args == [] {
      assert done + Words(args) == done;
    } else {
      QuotedAllReadsBack(done, args);
      assert done + Words(args[..|args| - 1]) + [Word(args[|args| - 1])] == done + Words(args);
    }
  }

  /** The shell reads back exactly the arguments, for every list without a NUL. */
  lemma QuoteRoundTrip(args: seq<string>)
    requires NulFree(args)
    ensures Tokenize(QuotedAll(args)) == Some(Words(args))
  {
    var done: seq<Token> := [];
    if args != [] {
      QuotedAllReadsBack(done, args);
      assert done + Words(args[..|args| - 1]) + [Word(args[|args| - 1])] == Words(args);
    } else {
      assert Words(args) == done;
    }
  }

  // ---------------------------------------------------------------- and only those lists

  lemma {:induction false} UnmodelledForEver(done: seq<Token>, text: string)
    ensures Run(State(done, Unmodelled), text).mode.Unmodelled?
  {
    if text != [] {
      UnmodelledForEver(done, text[1..]);
    }
  }

  lemma {:induction false} NulStopsTheShell(s: State, text: string)
    requires '\0' in text
    ensures Run(s, text).mode.Unmodelled?
    decreases |text|
  {
    if text[0] == '\0' {
      assert Step(s, '\0').mode.Unmodelled? by {
        NulIsUnmodelled(s);
      }
      UnmodelledForEver(Step(s, '\0').done, text[1..]);
    } else {
      NulStopsTheShell(Step(s, text[0]), text[1..]);
    }
  }

  lemma NulIsUnmodelled(s: State)
    ensures Step(s, '\0').mode.Unmodelled?
  {
    if s.mode.InOperator? {
      assert (s.mode.text + ['\0'])[|s.mode.text|] == '\0';
      assert forall op <- OPERATORS :: '\0' !in op;
    }
  }

  lemma {:induction false} EscapedKeepsNul(a: string)
    requires '\0' in a
    ensures '\0' in Escaped(a)
  {
    if a[0] != '\0' {
      EscapedKeepsNul(a[1..]);
    }
  }

  lemma {:induction false} QuotedAllKeepsNul(args: seq<string>)
    requires !NulFree(args)
    ensures '\0' in QuotedAll(args)
  {
    var last := args[|args| - 1];
    if '\0' in last {
      EscapedKeepsNul(last);
    } else {
      var a :| a in args && '\0' in a;
      assert args == args[..|args| - 1] + [last];
      assert a in args[..|args| - 1];
      QuotedAllKeepsNul(args[..|args| - 1]);
    }
  }

  /** NUL is the only thing quoting cannot carry. */
  lemma RoundTripIffNulFree(args: seq<string>)
    ensures Tokenize(QuotedAll(args)) == Some(Words(args)) <==> NulFree(args)
  {
    if NulFree(args) {
      QuoteRoundTrip(args);
    } else {
      QuotedAllKeepsNul(args);
      NulStopsTheShell(START, QuotedAll(args));
    }
  }
}
