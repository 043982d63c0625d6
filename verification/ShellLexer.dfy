/**
 * How a POSIX shell splits a command line into tokens: backslash, single and double quotes
 * (sections 2.2.1 to 2.2.3 of the Shell Command Language volume of POSIX.1-2017) and token
 * recognition (section 2.3). A `$` or backquote that would start an expansion is kept as an
 * active symbol; its text is read character by character. Here-documents are not covered.
 */
module ShellLexer {

  import opened Common

  /** A character of a word: taken as it stands, or still to be expanded. */
  datatype Sym = Lit(c: char) | Active(c: char)

  type Word = seq<Sym>

  datatype Token = Word(word: Word) | Op(op: string) | Newline

  datatype Mode =
    | Between
    | Bare(word: Word)
    | Single(word: Word)
    | Double(word: Word)
    | Escaped(before: Option<Word>)
    | DoubleEscaped(word: Word)
    | Operator(first: char)
    | Comment

  datatype State = State(done: seq<Token>, mode: Mode)

  predicate IsBlank(c: char) {
    c == ' ' || c == '\t'
  }

  predicate IsOperatorChar(c: char) {
    c == '&' || c == '|' || c == ';' || c == '<' || c == '>' || c == '(' || c == ')'
  }

  predicate IsTwoCharOperator(a: char, b: char) {
    (a == b && (a == '&' || a == '|' || a == ';' || a == '<' || a == '>')) ||
    ((a == '<' || a == '>') && b == '&') || (a == '<' && b == '>') || (a == '>' && b == '|')
  }

  /** Unquoted characters that start an expansion or a pattern. */
  predicate IsActiveChar(c: char) {
    c == '$' || c == '`' || c == '*' || c == '?' || c == '[' || c == '~'
  }

  function StepBare(done: seq<Token>, w: Word, c: char): State {
    if IsBlank(c) then State(done + [Word(w)], Between)
    else if c == '\n' then State(done + [Word(w), Newline], Between)
    else if IsOperatorChar(c) then State(done + [Word(w)], Operator(c))
    else if c == '\'' then State(done, Single(w))
    else if c == '"' then State(done, Double(w))
    else if c == '\\' then State(done, Escaped(Some(w)))
    else if IsActiveChar(c) then State(done, Bare(w + [Active(c)]))
    else State(done, Bare(w + [Lit(c)]))
  }

  function StepBetween(done: seq<Token>, c: char): State {
    if IsBlank(c) then State(done, Between)
    else if c == '\n' then State(done + [Newline], Between)
    else if c == '#' then State(done, Comment)
    else if IsOperatorChar(c) then State(done, Operator(c))
    else if c == '\\' then State(done, Escaped(None))
    else StepBare(done, [], c)
  }

  function Step(st: State, c: char): State {
    match st.mode
    case Between => StepBetween(st.done, c)
    case Bare(w) => StepBare(st.done, w, c)
    case Single(w) => if c == '\'' then State(st.done, Bare(w)) else State(st.done, Single(w + [Lit(c)]))
    case Double(w) =>
      if c == '"' then State(st.done, Bare(w))
      else if c == '\\' then State(st.done, DoubleEscaped(w))
      else if c == '$' || c == '`' then State(st.done, Double(w + [Active(c)]))
      else State(st.done, Double(w + [Lit(c)]))
    case Escaped(before) =>
      if c == '\n' then State(st.done, match before case None => Between case Some(w) => Bare(w))
      else State(st.done, Bare((match before case None => [] case Some(w) => w) + [Lit(c)]))
    case DoubleEscaped(w) =>
      if c == '\n' then State(st.done, Double(w))
      else if c == '$' || c == '`' || c == '"' || c == '\\' then State(st.done, Double(w + [Lit(c)]))
      else State(st.done, Double(w + [Lit('\\'), Lit(c)]))
    case Operator(a) =>
      if IsTwoCharOperator(a, c) then State(st.done + [Op([a, c])], Between)
      else StepBetween(st.done + [Op([a])], c)
    case Comment => if c == '\n' then State(st.done + [Newline], Between) else st
  }

  function Run(st: State, s: string): State
    decreases |s|
  {
    if s == [] then st else Run(Step(st, s[0]), s[1..])
  }

  /** The end of input: an open quote or a dangling backslash is an error. */
  function Finish(st: State): Option<seq<Token>> {
    match st.mode
    case Between => Some(st.done)
    case Comment => Some(st.done)
    case Bare(w) => Some(st.done + [Word(w)])
    case Operator(a) => Some(st.done + [Op([a])])
    case _ => None
  }

  function Lex(s: string): Option<seq<Token>> {
    Finish(Run(State([], Between), s))
  }

  /** A word whose every character stands for itself. */
  function Text(s: string): (w: Word)
    ensures |w| == |s| && forall i :: 0 <= i < |s| ==> w[i] == Lit(s[i])
  {
    seq(|s|, i requires 0 <= i < |s| => Lit(s[i]))
  }

  lemma {:induction false} RunAppend(st: State, a: string, b: string)
    ensures Run(st, a + b) == Run(Run(st, a), b)
    decreases |a|
  {
    if a == [] {
      assert a + b == b;
    } else {
      assert (a + b)[0] == a[0] && (a + b)[1..] == a[1..] + b;
      RunAppend(Step(st, a[0]), a[1..], b);
    }
  }

  lemma RunOne(st: State, c: char)
    ensures Run(st, [c]) == Step(st, c)
  {
    assert Run(Step(st, c), [c][1..]) == Step(st, c);
  }

  // ---- Unquoted plain text ----

  predicate IsPlainChar(c: char) {
    !IsBlank(c) && c != '\n' && !IsOperatorChar(c) && c != '\'' && c != '"' && c != '\\' && !IsActiveChar(c)
  }

  predicate IsPlain(s: string) {
    forall i :: 0 <= i < |s| ==> IsPlainChar(s[i])
  }

  /** Text that is a word of itself: a `#` starts a comment only at the start of a word. */
  predicate IsPlainWord(s: string) {
    s != [] && s[0] != '#' && IsPlain(s)
  }

  lemma {:induction false} RunPlainInWord(done: seq<Token>, w: Word, s: string)
    requires IsPlain(s)
    ensures Run(State(done, Bare(w)), s) == State(done, Bare(w + Text(s)))
    decreases |s|
  {
    if s == [] {
      assert w + Text(s) == w;
    } else {
      assert IsPlainChar(s[0]);
      RunPlainInWord(done, w + [Lit(s[0])], s[1..]);
      assert w + Text(s) == (w + [Lit(s[0])]) + Text(s[1..]);
    }
  }

  lemma RunPlainBetween(done: seq<Token>, s: string)
    requires IsPlainWord(s)
    ensures Run(State(done, Between), s) == State(done, Bare(Text(s)))
  {
    assert IsPlainChar(s[0]);
    RunPlainInWord(done, [Lit(s[0])], s[1..]);
    assert Text(s) == [Lit(s[0])] + Text(s[1..]);
    assert Step(State(done, Between), s[0]) == State(done, Bare([] + [Lit(s[0])]));
    assert [] + [Lit(s[0])] == [Lit(s[0])];
  }
}
