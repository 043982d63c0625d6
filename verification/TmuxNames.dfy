/**
 * What becomes of the session name and the workspace that the tmux command carries unquoted
 * (src/lima/tmux.rs). Neither is checked for what it contains (src/types.rs, src/session/paths.rs).
 */
module TmuxNames {

  import opened Common
  import opened ShellLexer
  import opened ShellQuote
  import opened ShellCommands
  import opened ShellWords
  import opened TmuxCommands

  // ---- A quoted line read from inside other quotes ----

  function Escape(c: char): string {
    if c == '\'' then ['\'', '"', '\'', '"', '\''] else [c]
  }

  /** Outside quotes, comments and escapes. */
  predicate Outside(m: Mode) {
    m.Between? || m.Bare? || m.Operator?
  }

  /**
   * How a quoted text without backslashes and `#` is read when its opening quote was taken for something
   * else: never inside single quotes.
   */
  predicate Astray(m: Mode) {
    Outside(m) || m.Double?
  }

  lemma RunFive(st: State)
    ensures Run(st, Escape('\'')) == Step(Step(Step(Step(Step(st, '\''), '"'), '\''), '"'), '\'')
  {
    var s := Escape('\'');
    assert s[1..] == ['"', '\'', '"', '\''] && s[1..][1..] == ['\'', '"', '\''];
    assert s[1..][1..][1..] == ['"', '\''] && s[1..][1..][1..][1..] == ['\''];
    RunOne(Step(Step(Step(Step(st, '\''), '"'), '\''), '"'), '\'');
  }

  lemma AstrayStep(st: State, c: char)
    requires Astray(st.mode) && !IsSpecial(c)
    ensures Astray(Run(st, Escape(c)).mode)
  {
    if c == '\'' { RunFive(st); } else { RunOne(st, c); }
  }

  lemma {:induction false} AstrayRun(st: State, text: string)
    requires Astray(st.mode) && Ordinary(text)
    ensures Astray(Run(st, ReplaceQuotes(text)).mode)
    decreases |text|
  {
    if text != [] {
      RunAppend(st, Escape(text[0]), ReplaceQuotes(text[1..]));
      AstrayStep(st, text[0]);
      AstrayRun(Run(st, Escape(text[0])), text[1..]);
    }
  }

  predicate IsSpecial(c: char) {
    c == '#' || c == '\\'
  }

  predicate Ordinary(s: string) {
    forall i :: 0 <= i < |s| ==> !IsSpecial(s[i])
  }

  // ---- The session line ----

  lemma LineEnds(name: string, workspace: string)
    ensures var line := SessionShellLine(name, workspace); line != [] && line[0] == 'e' && line[|line| - 1] == 'l'
  {
    var items := SessionShellItems(name, workspace);
    assert items[0] == Item(Plain(EXPORT), Blank) && Flat(items)[0] == Plain(EXPORT);
    assert Render(Flat(items))[0] == EXPORT[0];
    assert [Plain(LOGIN)][1..] == [] && Render([Plain(LOGIN)]) == LOGIN + [];
  }

  lemma {:induction false} ReplaceLacks(raw: string, c: char)
    requires c != '\'' && c != '"' && c !in raw
    ensures c !in ReplaceQuotes(raw)
  {
    if raw != [] {
      ReplaceLacks(raw[1..], c);
    }
  }

  lemma {:induction false} RenderLacks(items: seq<Item>, c: char)
    requires forall i :: 0 <= i < |items| ==> c !in RenderPiece(items[i].word) && c !in RenderPiece(items[i].after)
    ensures c !in Render(Flat(items))
    decreases |items|
  {
    if items != [] {
      var rest := items[1..];
      RenderLacks(rest, c);
      RenderAppend([items[0].word, items[0].after], Flat(rest));
      RenderPair(items[0].word, items[0].after);
    }
  }

  lemma LineLacks(name: string, workspace: string, c: char)
    requires IsSpecial(c) && c !in name && c !in workspace
    ensures c !in SessionShellLine(name, workspace)
  {
    hide ReplaceQuotes, Flat;
    ReplaceLacks(name, c);
    ReplaceLacks(workspace, c);
    FixedWordsLack(c);
    RenderLacks(SessionShellItems(name, workspace), c);
    assert [Plain(LOGIN)][1..] == [] && Render([Plain(LOGIN)]) == LOGIN + [];
  }

  lemma LineIsOrdinary(name: string, workspace: string)
    requires Ordinary(name) && Ordinary(workspace)
    ensures Ordinary(SessionShellLine(name, workspace))
  {
    LineLacks(name, workspace, '#');
    LineLacks(name, workspace, '\\');
  }

  lemma FixedWordsLack(c: char)
    requires IsSpecial(c)
    ensures c !in EXPORT && c !in ASSIGN_SESSION && c !in SOURCE && c !in SHELLENV && c !in CD && c !in EXEC
    ensures c !in SHELL_OR_BASH && c !in LOGIN
  {
    var home, dir, file := "HOME", "/.agbranch/", "shellenv.sh";
    assert c !in home && c !in dir && c !in file;
  }

  // ---- After the workspace ----

  /** A space and the session line, quoted. */
  function Tail(line: string): string {
    [' '] + ShellEscape(line)
  }

  lemma TailEndsName(name: string, workspace: string)
    ensures EndsName(Tail(SessionShellLine(name, workspace)))
  {
    LineEnds(name, workspace);
  }

  lemma TailOutside(st: State, line: string)
    requires Outside(st.mode)
    ensures Run(st, Tail(line)) == State(Finish(st).value, Bare(Text(line)))
  {
    RunAppend(st, [' '], ShellEscape(line));
    RunOne(st, ' ');
    RunEscaped(Finish(st).value, None, line);
  }

  /** From inside quotes the line ends in a quote that nothing closes. */
  lemma TailInside(st: State, line: string)
    requires (st.mode.Single? || st.mode.Double?) && Ordinary(line)
    ensures Finish(Run(st, Tail(line))) == None
  {
    hide Run, ReplaceQuotes, Ordinary;
    assert Tail(line) == [' ', '\''] + (ReplaceQuotes(line) + ['\'']);
    RunAppend(st, [' ', '\''], ReplaceQuotes(line) + ['\'']);
    RunTwo(st, ' ', '\'');
    var inside := Run(st, [' ', '\'']);
    AstrayRun(inside, line);
    RunAppend(inside, ReplaceQuotes(line), ['\'']);
    RunOne(Run(inside, ReplaceQuotes(line)), '\'');
  }

  /** Without backslashes and `#`, a text ends between quotes or in them, not in an escape or a comment. */
  lemma {:induction false} OrdinaryRun(st: State, s: string)
    requires Ordinary(s) && (Astray(st.mode) || st.mode.Single?)
    ensures Astray(Run(st, s).mode) || Run(st, s).mode.Single?
    decreases |s|
  {
    if s != [] {
      OrdinaryRun(Step(st, s[0]), s[1..]);
    }
  }

  // ---- Main results ----

  /**
   * The command is read as meant, its last word the session line, exactly when session and workspace are
   * plain words; and the shell tmux starts reads that line back to the original session and workspace.
   */
  lemma EnsureSessionUnquotesTwiceIff(socket: string, session: string, window: string, name: string, workspace: string)
    ensures IsPlainWord(session) && IsPlainWord(workspace) <==>
      Lex(EnsureSessionCommand(socket, session, window, name, workspace)) ==
        Some(TokensBefore(socket, session, window) + [W(workspace), W(SessionShellLine(name, workspace))])
    ensures Lex(SessionShellLine(name, workspace)) == Some(SessionShellTokens(name, workspace))
  {
    SessionShellLineLexes(name, workspace);
    if IsPlainWord(session) {
      RunBefore(socket, session, window, workspace + Tail(SessionShellLine(name, workspace)));
      WorkspaceIsWordIff(TokensBefore(socket, session, window), name, workspace);
    } else {
      SessionIsNoWord(socket, session, window, name, workspace);
    }
  }

  lemma WorkspaceIsWordIff(before: seq<Token>, name: string, workspace: string)
    ensures IsPlainWord(workspace) <==>
      Finish(Run(State(before, Between), workspace + Tail(SessionShellLine(name, workspace)))) ==
        Some(before + [W(workspace), W(SessionShellLine(name, workspace))])
  {
    var line := SessionShellLine(name, workspace);
    TailEndsName(name, workspace);
    if IsPlainWord(workspace) {
      RunAppend(State(before, Between), workspace, Tail(line));
      RunPlainBetween(before, workspace);
      TailOutside(State(before, Bare(Text(workspace))), line);
      Associates(before, [W(workspace)], [W(line)]);
      assert [W(workspace)] + [W(line)] == [W(workspace), W(line)];
    } else if Finish(Run(State(before, Between), workspace + Tail(line))).Some? {
      OnlyPlainWords(before, workspace, Tail(line), Finish(Run(State(before, Between), workspace + Tail(line))).value);
      assert (before + [W(workspace), W(line)])[|before|] == W(workspace);
    }
  }

  lemma SessionIsNoWord(socket: string, session: string, window: string, name: string, workspace: string)
    requires !IsPlainWord(session)
    ensures Lex(EnsureSessionCommand(socket, session, window, name, workspace)) !=
      Some(TokensBefore(socket, session, window) + [W(workspace), W(SessionShellLine(name, workspace))])
  {
    var front := Front(socket) + HasSession();
    var rest := CommandAfterSession(socket, session, window, name, workspace);
    FrontTokens(socket);
    HasSessionTokens();
    MeaningAppend(Front(socket), HasSession());
    SpacedTokens(front);
    var before := MeaningOf(front);
    RunAppend(State([], Between), Render(Flat(Spaced(front))), session + rest);
    RunItems([], Spaced(front));
    assert [] + before == before;
    if Finish(Run(State(before, Between), session + rest)).Some? {
      OnlyPlainWords(before, session, rest, Finish(Run(State(before, Between), session + rest)).value);
    }
    assert TokensBefore(socket, session, window)[|before|] == W(session);
  }

  lemma CommandAfterSession(socket: string, session: string, window: string, name: string, workspace: string)
    returns (rest: string)
    ensures EndsName(rest)
    ensures EnsureSessionCommand(socket, session, window, name, workspace) ==
      Render(Flat(Spaced(Front(socket) + HasSession()))) + (session + rest)
  {
    var front, item := Spaced(Front(socket) + HasSession()), Item(Plain(session), OR);
    var last := Spaced(Front(socket) + NewSession(session) + InWindow(window));
    FlatAppend(front, [item] + last);
    FlatAppend([item], last);
    FlatSingle(item);
    RenderAppend(Flat(front), Flat([item] + last));
    RenderAppend([item.word, item.after], Flat(last));
    RenderPair(item.word, item.after);
    var tail := workspace + Tail(SessionShellLine(name, workspace));
    rest := [' ', '|', '|', ' '] + (Render(Flat(last)) + tail);
    JoinStrings(Render(Flat(front)), session, [' ', '|', '|', ' '], Render(Flat(last)), tail);
  }

  lemma JoinStrings(front: string, session: string, or: string, last: string, tail: string)
    ensures front + (session + or + last) + tail == front + (session + (or + (last + tail)))
  {
    StringsAssociate(session + or, last, tail);
    StringsAssociate(session, or, last + tail);
    StringsAssociate(front, session + or + last, tail);
  }

  /**
   * The workspace is read as it stands, so the whole command is read exactly when the workspace alone is:
   * its tokens, however many, take the place of the one word meant. Names with backslashes or `#` aside.
   */
  lemma WorkspaceReadsAsItStands(socket: string, session: string, window: string, name: string, workspace: string)
    requires IsPlainWord(session) && Ordinary(name) && Ordinary(workspace)
    ensures Lex(EnsureSessionCommand(socket, session, window, name, workspace)) ==
      match Lex(workspace)
      case None => None
      case Some(tokens) => Some(TokensBefore(socket, session, window) + tokens + [W(SessionShellLine(name, workspace))])
  {
    RunBefore(socket, session, window, workspace + Tail(SessionShellLine(name, workspace)));
    WorkspaceThenLine(TokensBefore(socket, session, window), name, workspace);
  }

  lemma WorkspaceThenLine(before: seq<Token>, name: string, workspace: string)
    requires Ordinary(name) && Ordinary(workspace)
    ensures Finish(Run(State(before, Between), workspace + Tail(SessionShellLine(name, workspace)))) ==
      match Lex(workspace)
      case None => None
      case Some(tokens) => Some(before + tokens + [W(SessionShellLine(name, workspace))])
  {
    var line, start := SessionShellLine(name, workspace), State([], Between);
    LineIsOrdinary(name, workspace);
    RunAppend(State(before, Between), workspace, Tail(line));
    assert before + [] == before;
    RunAfter(before, start, workspace);
    OrdinaryRun(start, workspace);
    var st := After(before, Run(start, workspace));
    if Outside(st.mode) {
      TailOutside(st, line);
      FinishAfter(before, Run(start, workspace));
    } else {
      TailInside(st, line);
    }
  }

  /** A workspace of two words: the second is one word too many. */
  lemma SpacedWorkspaceSplits(socket: string, session: string, window: string, name: string, a: string, b: string)
    requires IsPlainWord(session) && IsPlainWord(a) && IsPlainWord(b)
    ensures var workspace := a + ([' '] + b);
      Lex(EnsureSessionCommand(socket, session, window, name, workspace)) ==
        Some(TokensBefore(socket, session, window) + [W(a), W(b)] + [W(SessionShellLine(name, workspace))])
  {
    var before, workspace := TokensBefore(socket, session, window), a + ([' '] + b);
    var line := SessionShellLine(name, workspace);
    RunBefore(socket, session, window, workspace + Tail(line));
    RunAppend(State(before, Between), workspace, Tail(line));
    RunTwoWords(before, a, b);
    TailOutside(State(before + [W(a)], Bare(Text(b))), line);
    Associates(before, [W(a)], [W(b)]);
    assert [W(a)] + [W(b)] == [W(a), W(b)];
  }

  lemma RunTwoWords(before: seq<Token>, a: string, b: string)
    requires IsPlainWord(a) && IsPlainWord(b)
    ensures Run(State(before, Between), a + ([' '] + b)) == State(before + [W(a)], Bare(Text(b)))
  {
    RunAppend(State(before, Between), a, [' '] + b);
    RunPlainBetween(before, a);
    RunAppend(State(before, Bare(Text(a))), [' '], b);
    RunOne(State(before, Bare(Text(a))), ' ');
    RunPlainBetween(before + [W(a)], b);
  }

  /** A workspace with an apostrophe opens a quote that nothing closes: the shell rejects the command. */
  lemma ApostropheIsRejected(socket: string, session: string, window: string, name: string, a: string, b: string)
    requires IsPlainWord(session) && Ordinary(name) && Ordinary(a) && Ordinary(b)
    requires '\'' !in a && '"' !in a && '\'' !in b
    ensures Lex(EnsureSessionCommand(socket, session, window, name, a + (['\''] + b))) == None
  {
    WorkspaceReadsAsItStands(socket, session, window, name, a + (['\''] + b));
    var start := State([], Between);
    RunAppend(start, a, ['\''] + b);
    OutsideStays(start, a);
    var st := Run(start, a);
    RunAppend(st, ['\''], b);
    RunOne(st, '\'');
    SingleStays(Run(st, ['\'']), b);
  }

  lemma {:induction false} OutsideStays(st: State, s: string)
    requires Outside(st.mode) && Ordinary(s) && '\'' !in s && '"' !in s
    ensures Outside(Run(st, s).mode)
    decreases |s|
  {
    if s != [] {
      OutsideStays(Step(st, s[0]), s[1..]);
    }
  }

  lemma {:induction false} SingleStays(st: State, s: string)
    requires st.mode.Single? && '\'' !in s
    ensures Run(st, s).mode.Single?
    decreases |s|
  {
    if s != [] {
      SingleStays(Step(st, s[0]), s[1..]);
    }
  }
}
