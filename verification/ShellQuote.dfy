/**
 * Shell quoting (src/lima/shell.rs) and the command lines built from it (src/provider/launch.rs,
 * src/lima/tmux.rs), read back by the shell lexer.
 */
module ShellQuote {

  import opened Common
  import opened ShellLexer

  /** `replace('\'', "'\"'\"'")`: close the quotes, a double-quoted quote, open them again. */
  function ReplaceQuotes(raw: string): string {
    if raw == [] then []
    else (if raw[0] == '\'' then ['\'', '"', '\'', '"', '\''] else [raw[0]]) + ReplaceQuotes(raw[1..])
  }

  function ShellEscape(raw: string): string {
    ['\''] + ReplaceQuotes(raw) + ['\'']
  }

  lemma RunEscapedChar(done: seq<Token>, w: Word, c: char)
    ensures Run(State(done, Single(w)), if c == '\'' then ['\'', '"', '\'', '"', '\''] else [c]) ==
      State(done, Single(w + [Lit(c)]))
  {
    if c == '\'' {
      var s0 := ['\'', '"', '\'', '"', '\''];
      assert s0[1..] == ['"', '\'', '"', '\''];
      assert ['"', '\'', '"', '\''][1..] == ['\'', '"', '\''];
      assert ['\'', '"', '\''][1..] == ['"', '\''];
      RunOne(State(done, Bare(w + [Lit('\'')])), '\'');
      assert ['"', '\''][1..] == ['\''];
      assert Run(State(done, Double(w + [Lit('\'')])), ['"', '\'']) == State(done, Single(w + [Lit(c)]));
      assert Run(State(done, Double(w)), ['\'', '"', '\'']) == State(done, Single(w + [Lit(c)]));
      assert Run(State(done, Bare(w)), ['"', '\'', '"', '\'']) == State(done, Single(w + [Lit(c)]));
    } else {
      RunOne(State(done, Single(w)), c);
    }
  }

  lemma {:induction false} RunReplaced(done: seq<Token>, w: Word, raw: string)
    ensures Run(State(done, Single(w)), ReplaceQuotes(raw)) == State(done, Single(w + Text(raw)))
    decreases |raw|
  {
    if raw == [] {
      assert w + Text(raw) == w;
    } else {
      var head := if raw[0] == '\'' then ['\'', '"', '\'', '"', '\''] else [raw[0]];
      RunAppend(State(done, Single(w)), head, ReplaceQuotes(raw[1..]));
      RunEscapedChar(done, w, raw[0]);
      RunReplaced(done, w + [Lit(raw[0])], raw[1..]);
      assert w + Text(raw) == (w + [Lit(raw[0])]) + Text(raw[1..]);
    }
  }

  /** The mode reached so far: between words, or inside an unquoted word. */
  function At(done: seq<Token>, cur: Option<Word>): State {
    State(done, match cur case None => Between case Some(w) => Bare(w))
  }

  function Extend(cur: Option<Word>, w: Word): Word {
    match cur case None => w case Some(v) => v + w
  }

  /** An escaped argument adds exactly its own text to the word it stands in, whatever it contains. */
  lemma RunEscaped(done: seq<Token>, cur: Option<Word>, raw: string)
    ensures Run(At(done, cur), ShellEscape(raw)) == State(done, Bare(Extend(cur, Text(raw))))
  {
    var st, v := At(done, cur), Extend(cur, []);
    RunAppend(st, ['\''] + ReplaceQuotes(raw), ['\'']);
    RunAppend(st, ['\''], ReplaceQuotes(raw));
    RunOne(st, '\'');
    assert Step(st, '\'') == State(done, Single(v));
    RunReplaced(done, v, raw);
    RunOne(State(done, Single(v + Text(raw))), '\'');
    assert v + Text(raw) == Extend(cur, Text(raw));
  }

  // ---- Command lines as pieces ----

  /** What the format strings are made of. */
  datatype Piece =
    | Plain(s: string)        // text written as it stands
    | Quoted(s: string)       // an argument passed through ShellEscape
    | Assigned(prefix: string, s: string)  // plain text and an escaped argument in one word
    | Home(s: string)         // "$HOME..." inside double quotes
    | Live(lead: char, s: string)  // an unquoted `$` or `[` and what follows it
    | Blank                   // one space
    | Connect(op: char)       // ` && ` or ` || `
    | Semi                    // `; `
    | EndLine

  function RenderPiece(p: Piece): string {
    match p
    case Plain(s) => s
    case Quoted(s) => ShellEscape(s)
    case Assigned(prefix, s) => prefix + ShellEscape(s)
    case Home(s) => ['"', '$'] + s + ['"']
    case Live(lead, s) => [lead] + s
    case Blank => [' ']
    case Connect(op) => [' ', op, op, ' ']
    case Semi => [';', ' ']
    case EndLine => ['\n']
  }

  function Render(pieces: seq<Piece>): string {
    if pieces == [] then [] else RenderPiece(pieces[0]) + Render(pieces[1..])
  }

  predicate WellFormed(pieces: seq<Piece>) {
    forall p :: p in pieces ==>
      match p
      case Plain(s) => IsPlainWord(s)
      case Assigned(prefix, s) => IsPlainWord(prefix)
      case Home(s) => IsPlain(s)
      case Live(lead, s) => (lead == '$' || lead == '[') && IsPlain(s)
      case Connect(op) => op == '&' || op == '|'
      case _ => true
  }

  predicate IsSeparator(p: Piece) {
    p.Blank? || p.Connect? || p.Semi? || p.EndLine?
  }

  /** The word part a piece stands for. */
  function Meaning(p: Piece): Word
    requires !IsSeparator(p)
  {
    match p
    case Plain(s) => Text(s)
    case Quoted(s) => Text(s)
    case Assigned(prefix, s) => Text(prefix) + Text(s)
    case Home(s) => [Active('$')] + Text(s)
    case Live(lead, s) => [Active(lead)] + Text(s)
  }

  function Flush(cur: Option<Word>): seq<Token> {
    match cur case None => [] case Some(w) => [Word(w)]
  }

  /** The tokens a line of pieces is meant to be: adjacent parts join into words. */
  function Tokens(pieces: seq<Piece>, cur: Option<Word>): seq<Token> {
    if pieces == [] then Flush(cur) else
      match pieces[0]
      case Blank => Flush(cur) + Tokens(pieces[1..], None)
      case Connect(op) => Flush(cur) + [Op([op, op])] + Tokens(pieces[1..], None)
      case Semi => Flush(cur) + [Op([';'])] + Tokens(pieces[1..], None)
      case EndLine => Flush(cur) + [Newline] + Tokens(pieces[1..], None)
      case _ => Tokens(pieces[1..], Some(Extend(cur, Meaning(pieces[0]))))
  }

  lemma {:induction false} RunPlainInDouble(done: seq<Token>, w: Word, s: string)
    requires IsPlain(s)
    ensures Run(State(done, Double(w)), s) == State(done, Double(w + Text(s)))
    decreases |s|
  {
    if s == [] {
      assert w + Text(s) == w;
    } else {
      assert IsPlainChar(s[0]);
      RunPlainInDouble(done, w + [Lit(s[0])], s[1..]);
      assert w + Text(s) == (w + [Lit(s[0])]) + Text(s[1..]);
    }
  }

  lemma RunDollar(done: seq<Token>, cur: Option<Word>)
    ensures Run(At(done, cur), ['"', '$']) == State(done, Double(Extend(cur, [Active('$')])))
  {
    RunAppend(At(done, cur), ['"'], ['$']);
    assert ['"'] + ['$'] == ['"', '$'];
    RunOne(At(done, cur), '"');
    RunOne(State(done, Double(Extend(cur, []))), '$');
    match cur case None => assert [] + [Active('$')] == [Active('$')]; case Some(w) => assert w + [] == w;
  }

  lemma ExtendAppend(cur: Option<Word>, a: Word, b: Word)
    ensures Extend(cur, a) + b == Extend(cur, a + b)
  {
  }

  lemma RunHome(done: seq<Token>, cur: Option<Word>, s: string)
    requires IsPlain(s)
    ensures Run(At(done, cur), ['"', '$'] + s + ['"']) ==
      State(done, Bare(Extend(cur, [Active('$')] + Text(s))))
  {
    var v := Extend(cur, [Active('$')]);
    RunAppend(At(done, cur), ['"', '$'] + s, ['"']);
    RunAppend(At(done, cur), ['"', '$'], s);
    RunDollar(done, cur);
    RunPlainInDouble(done, v, s);
    RunOne(State(done, Double(v + Text(s))), '"');
    ExtendAppend(cur, [Active('$')], Text(s));
  }

  lemma RunLive(done: seq<Token>, cur: Option<Word>, lead: char, s: string)
    requires IsPlain(s) && (lead == '$' || lead == '[')
    ensures Run(At(done, cur), [lead] + s) == State(done, Bare(Extend(cur, [Active(lead)] + Text(s))))
  {
    RunAppend(At(done, cur), [lead], s);
    RunOne(At(done, cur), lead);
    assert [] + [Active(lead)] == [Active(lead)];
    RunPlainInWord(done, Extend(cur, [Active(lead)]), s);
    ExtendAppend(cur, [Active(lead)], Text(s));
  }

  lemma RunWordPiece(done: seq<Token>, cur: Option<Word>, p: Piece)
    requires WellFormed([p]) && !IsSeparator(p)
    ensures Run(At(done, cur), RenderPiece(p)) == State(done, Bare(Extend(cur, Meaning(p))))
  {
    assert p in [p];
    match p
    case Plain(s) =>
      match cur {
        case None => RunPlainBetween(done, s);
        case Some(w) => RunPlainInWord(done, w, s);
      }
    case Quoted(s) => RunEscaped(done, cur, s);
    case Assigned(prefix, s) =>
      RunAppend(At(done, cur), prefix, ShellEscape(s));
      match cur {
        case None => RunPlainBetween(done, prefix);
        case Some(w) => RunPlainInWord(done, w, prefix);
      }
      RunEscaped(done, Some(Extend(cur, Text(prefix))), s);
      ExtendAppend(cur, Text(prefix), Text(s));
    case Home(s) => RunHome(done, cur, s);
    case Live(lead, s) => RunLive(done, cur, lead, s);
  }

  lemma RunSeparator(done: seq<Token>, cur: Option<Word>, c: char)
    requires c == ' ' || c == '\n'
    ensures Run(At(done, cur), [c]) ==
      State(done + Flush(cur) + (if c == '\n' then [Newline] else []), Between)
  {
    RunOne(At(done, cur), c);
    match cur {
      case None => assert done + [] == done; assert done + [Newline] == done + [] + [Newline];
      case Some(w) =>
        assert done + [Word(w), Newline] == done + [Word(w)] + [Newline];
    }
    assert done + Flush(cur) + [] == done + Flush(cur);
  }

  lemma RunConnect(done: seq<Token>, cur: Option<Word>, op: char)
    requires op == '&' || op == '|'
    ensures Run(At(done, cur), [' ', op, op, ' ']) == State(done + Flush(cur) + [Op([op, op])], Between)
  {
    var st, after := At(done, cur), State(done + Flush(cur), Between);
    RunSeparator(done, cur, ' ');
    assert done + Flush(cur) + [] == done + Flush(cur);
    RunAppend(st, [' '], [op, op, ' ']);
    assert [' '] + [op, op, ' '] == [' ', op, op, ' '];
    RunAppend(after, [op], [op, ' ']);
    assert [op] + [op, ' '] == [op, op, ' '];
    RunOne(after, op);
    RunAppend(State(after.done, Operator(op)), [op], [' ']);
    assert [op] + [' '] == [op, ' '];
    RunOne(State(after.done, Operator(op)), op);
    RunOne(State(after.done + [Op([op, op])], Between), ' ');
  }

  lemma RunSemi(done: seq<Token>, cur: Option<Word>)
    ensures Run(At(done, cur), [';', ' ']) == State(done + Flush(cur) + [Op([';'])], Between)
  {
    RunAppend(At(done, cur), [';'], [' ']);
    assert [';'] + [' '] == [';', ' '];
    RunOne(At(done, cur), ';');
    match cur case None => assert done + [] == done; case Some(w) =>
    RunOne(State(done + Flush(cur), Operator(';')), ' ');
  }

  /** The tokens finished and the word begun once a piece has been read. */
  predicate Continues(done: seq<Token>, cur: Option<Word>, p: Piece, done': seq<Token>, cur': Option<Word>) {
    match p
    case Blank => done' == done + Flush(cur) && cur' == None
    case Connect(op) => done' == done + (Flush(cur) + [Op([op, op])]) && cur' == None
    case Semi => done' == done + (Flush(cur) + [Op([';'])]) && cur' == None
    case EndLine => done' == done + (Flush(cur) + [Newline]) && cur' == None
    case _ => done' == done && cur' == Some(Extend(cur, Meaning(p)))
  }

  lemma TokensContinue(done: seq<Token>, cur: Option<Word>, pieces: seq<Piece>, done': seq<Token>, cur': Option<Word>)
    requires pieces != [] && Continues(done, cur, pieces[0], done', cur')
    ensures done' + Tokens(pieces[1..], cur') == done + Tokens(pieces, cur)
  {
    var tail := Tokens(pieces[1..], cur');
    match pieces[0]
    case Blank => Associates(done, Flush(cur), tail);
    case Connect(op) => Associates(done, Flush(cur) + [Op([op, op])], tail);
    case Semi => Associates(done, Flush(cur) + [Op([';'])], tail);
    case EndLine => Associates(done, Flush(cur) + [Newline], tail);
    case _ =>
  }

  lemma Associates(a: seq<Token>, b: seq<Token>, c: seq<Token>)
    ensures a + b + c == a + (b + c)
  {
  }

  lemma RunPiece(done: seq<Token>, cur: Option<Word>, p: Piece) returns (done': seq<Token>, cur': Option<Word>)
    requires WellFormed([p])
    ensures Run(At(done, cur), RenderPiece(p)) == At(done', cur')
    ensures Continues(done, cur, p, done', cur')
  {
    assert p in [p];
    match p
    case Blank =>
      RunSeparator(done, cur, ' ');
      assert done + Flush(cur) + [] == done + Flush(cur);
      done', cur' := done + Flush(cur), None;
    case Connect(op) =>
      RunConnect(done, cur, op);
      Associates(done, Flush(cur), [Op([op, op])]);
      done', cur' := done + (Flush(cur) + [Op([op, op])]), None;
    case Semi =>
      RunSemi(done, cur);
      Associates(done, Flush(cur), [Op([';'])]);
      done', cur' := done + (Flush(cur) + [Op([';'])]), None;
    case EndLine =>
      RunSeparator(done, cur, '\n');
      Associates(done, Flush(cur), [Newline]);
      done', cur' := done + (Flush(cur) + [Newline]), None;
    case _ =>
      RunWordPiece(done, cur, p);
      done', cur' := done, Some(Extend(cur, Meaning(p)));
  }

  lemma {:induction false} RenderAppend(a: seq<Piece>, b: seq<Piece>)
    ensures Render(a + b) == Render(a) + Render(b)
  {
    if a == [] {
      assert a + b == b;
    } else {
      assert (a + b)[0] == a[0] && (a + b)[1..] == a[1..] + b;
      RenderAppend(a[1..], b);
    }
  }

  /** Lexing a rendered line gives exactly the tokens its pieces stand for. */
  lemma {:induction false} LexRender(done: seq<Token>, cur: Option<Word>, pieces: seq<Piece>)
    requires WellFormed(pieces)
    ensures Finish(Run(At(done, cur), Render(pieces))) == Some(done + Tokens(pieces, cur))
    decreases |pieces|
  {
    if pieces == [] {
      assert done + [] == done;
    } else {
      var p, rest := pieces[0], pieces[1..];
      assert p in pieces && forall q :: q in rest ==> q in pieces;
      RunAppend(At(done, cur), RenderPiece(p), Render(rest));
      var done', cur' := RunPiece(done, cur, p);
      LexRender(done', cur', rest);
      TokensContinue(done, cur, pieces, done', cur');
    }
  }

  lemma LexLine(pieces: seq<Piece>)
    requires WellFormed(pieces)
    ensures Lex(Render(pieces)) == Some(Tokens(pieces, None))
  {
    LexRender([], None, pieces);
    assert [] + Tokens(pieces, None) == Tokens(pieces, None);
  }
}
