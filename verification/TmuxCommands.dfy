/** The command that makes sure a session's shell window exists, quoting its session line a second time (src/lima/tmux.rs). */
module TmuxCommands {

  import opened Common
  import opened ShellLexer
  import opened ShellQuote
  import opened ShellCommands

  const TMUX: string := "tmux"
  const SOCKET_FLAG: string := "-S"
  const HAS_SESSION: string := "has-session"
  const TARGET_FLAG: string := "-t"
  const NEW_SESSION: string := "new-session"
  const DETACHED_FLAG: string := "-d"
  const NAME_FLAG: string := "-s"
  const WINDOW_FLAG: string := "-n"
  const DIRECTORY_FLAG: string := "-c"

  const OR: Piece := Connect('|')
  const OR_IF: Token := Op(['|', '|'])

  /** Words with a space after each. */
  function Spaced(words: seq<Piece>): seq<Item> {
    if words == [] then [] else [Item(words[0], Blank)] + Spaced(words[1..])
  }

  predicate AllWords(words: seq<Piece>) {
    forall i :: 0 <= i < |words| ==> !IsSeparator(words[i]) && WellFormed([words[i]])
  }

  function MeaningOf(words: seq<Piece>): seq<Token>
    requires AllWords(words)
  {
    if words == [] then [] else [Word(Meaning(words[0]))] + MeaningOf(words[1..])
  }

  lemma {:induction false} SpacedTokens(words: seq<Piece>)
    requires AllWords(words)
    ensures Valid(Spaced(words)) && ItemTokens(Spaced(words)) == MeaningOf(words)
  {
    if words != [] {
      SpacedTokens(words[1..]);
      SpacedOne(words[0]);
      ItemTokensAppend([Item(words[0], Blank)], Spaced(words[1..]));
    }
  }

  lemma SpacedOne(word: Piece)
    requires !IsSeparator(word) && WellFormed([word])
    ensures Valid([Item(word, Blank)]) && ItemTokens([Item(word, Blank)]) == [Word(Meaning(word))]
  {
    assert word in [word];
    assert [Item(word, Blank)][1..] == [];
  }

  function Front(socket: string): seq<Piece> {
    [Plain(TMUX), Plain(SOCKET_FLAG), Quoted(socket)]
  }

  function HasSession(): seq<Piece> {
    [Plain(HAS_SESSION), Plain(TARGET_FLAG)]
  }

  function NewSession(session: string): seq<Piece> {
    [Plain(NEW_SESSION), Plain(DETACHED_FLAG), Plain(NAME_FLAG), Plain(session)]
  }

  function InWindow(window: string): seq<Piece> {
    [Plain(WINDOW_FLAG), Quoted(window), Plain(DIRECTORY_FLAG)]
  }

  /** Asking for the session, or else making it: everything before the workspace. */
  function ItemsBefore(socket: string, session: string, window: string): seq<Item> {
    Spaced(Front(socket) + HasSession()) +
    ([Item(Plain(session), OR)] + Spaced(Front(socket) + NewSession(session) + InWindow(window)))
  }

  /** The second of `ensure_shell_window_commands`. */
  function EnsureSessionCommand(socket: string, session: string, window: string, name: string, workspace: string): string {
    Render(Flat(ItemsBefore(socket, session, window))) +
    (workspace + ([' '] + ShellEscape(SessionShellLine(name, workspace))))
  }

  lemma SubcommandsArePlain()
    ensures IsPlainWord(HAS_SESSION) && IsPlainWord(NEW_SESSION)
  {
  }

  lemma FrontTokens(socket: string)
    ensures AllWords(Front(socket)) && MeaningOf(Front(socket)) == [W(TMUX), W(SOCKET_FLAG), W(socket)]
  {
    ThreeWords(Plain(TMUX), Plain(SOCKET_FLAG), Quoted(socket));
  }

  lemma OneWord(a: Piece)
    requires !IsSeparator(a) && WellFormed([a])
    ensures AllWords([a]) && MeaningOf([a]) == [Word(Meaning(a))]
  {
    assert [a][1..] == [];
  }

  lemma TwoWords(a: Piece, b: Piece)
    requires !IsSeparator(a) && WellFormed([a]) && !IsSeparator(b) && WellFormed([b])
    ensures AllWords([a, b]) && MeaningOf([a, b]) == [Word(Meaning(a)), Word(Meaning(b))]
  {
    OneWord(b);
    assert [a, b][1..] == [b];
  }

  lemma ThreeWords(a: Piece, b: Piece, c: Piece)
    requires !IsSeparator(a) && WellFormed([a]) && !IsSeparator(b) && WellFormed([b]) && !IsSeparator(c) && WellFormed([c])
    ensures AllWords([a, b, c]) && MeaningOf([a, b, c]) == [Word(Meaning(a)), Word(Meaning(b)), Word(Meaning(c))]
  {
    TwoWords(b, c);
    assert [a, b, c][1..] == [b, c];
  }

  lemma {:induction false} MeaningAppend(a: seq<Piece>, b: seq<Piece>)
    requires AllWords(a) && AllWords(b)
    ensures AllWords(a + b) && MeaningOf(a + b) == MeaningOf(a) + MeaningOf(b)
  {
    if a == [] {
      assert a + b == b;
    } else {
      assert (a + b)[0] == a[0] && (a + b)[1..] == a[1..] + b;
      MeaningAppend(a[1..], b);
    }
  }

  lemma HasSessionTokens()
    ensures AllWords(HasSession()) && MeaningOf(HasSession()) == [W(HAS_SESSION), W(TARGET_FLAG)]
  {
    SubcommandsArePlain();
    TwoWords(Plain(HAS_SESSION), Plain(TARGET_FLAG));
  }

  lemma NewSessionTokens(session: string)
    requires IsPlainWord(session)
    ensures AllWords(NewSession(session))
    ensures MeaningOf(NewSession(session)) == [W(NEW_SESSION), W(DETACHED_FLAG)] + [W(NAME_FLAG), W(session)]
  {
    SubcommandsArePlain();
    TwoWords(Plain(NEW_SESSION), Plain(DETACHED_FLAG));
    TwoWords(Plain(NAME_FLAG), Plain(session));
    MeaningAppend([Plain(NEW_SESSION), Plain(DETACHED_FLAG)], [Plain(NAME_FLAG), Plain(session)]);
    assert NewSession(session) == [Plain(NEW_SESSION), Plain(DETACHED_FLAG)] + [Plain(NAME_FLAG), Plain(session)];
  }

  lemma InWindowTokens(window: string)
    ensures AllWords(InWindow(window)) && MeaningOf(InWindow(window)) == [W(WINDOW_FLAG), W(window), W(DIRECTORY_FLAG)]
  {
    ThreeWords(Plain(WINDOW_FLAG), Quoted(window), Plain(DIRECTORY_FLAG));
  }

  /** What the guest shell reads before the workspace: look for the session, or make it. */
  function TokensBefore(socket: string, session: string, window: string): seq<Token> {
    var tmux := [W(TMUX), W(SOCKET_FLAG), W(socket)];
    tmux + [W(HAS_SESSION), W(TARGET_FLAG)] +
    ([W(session), OR_IF] +
     (tmux + ([W(NEW_SESSION), W(DETACHED_FLAG)] + [W(NAME_FLAG), W(session)]) +
      [W(WINDOW_FLAG), W(window), W(DIRECTORY_FLAG)]))
  }

  lemma ItemsBeforeTokens(socket: string, session: string, window: string)
    requires IsPlainWord(session)
    ensures Valid(ItemsBefore(socket, session, window))
    ensures ItemTokens(ItemsBefore(socket, session, window)) == TokensBefore(socket, session, window)
  {
    FrontTokens(socket);
    HasSessionTokens();
    NewSessionTokens(session);
    InWindowTokens(window);
    MeaningAppend(Front(socket), HasSession());
    MeaningAppend(Front(socket), NewSession(session));
    MeaningAppend(Front(socket) + NewSession(session), InWindow(window));
    JoinItems(Front(socket) + HasSession(), session, Front(socket) + NewSession(session) + InWindow(window));
  }

  lemma JoinItems(before: seq<Piece>, session: string, after: seq<Piece>)
    requires AllWords(before) && AllWords(after) && IsPlainWord(session)
    ensures var items := Spaced(before) + ([Item(Plain(session), OR)] + Spaced(after));
      Valid(items) && ItemTokens(items) == MeaningOf(before) + ([W(session), OR_IF] + MeaningOf(after))
  {
    SpacedTokens(before);
    SpacedTokens(after);
    SessionOr(session);
    ItemTokensAppend([Item(Plain(session), OR)], Spaced(after));
    ItemTokensAppend(Spaced(before), [Item(Plain(session), OR)] + Spaced(after));
  }

  lemma SessionOr(session: string)
    requires IsPlainWord(session)
    ensures Valid([Item(Plain(session), OR)]) && ItemTokens([Item(Plain(session), OR)]) == [W(session), OR_IF]
  {
    assert [Item(Plain(session), OR)][1..] == [];
  }

  // ---- Reading it ----

  lemma {:induction false} RunItems(done: seq<Token>, items: seq<Item>)
    requires Valid(items)
    ensures Run(State(done, Between), Render(Flat(items))) == State(done + ItemTokens(items), Between)
    decreases |items|
  {
    if items == [] {
      assert done + [] == done;
    } else {
      var item, rest := items[0], items[1..];
      var head := [Word(Meaning(item.word))] + Separation(item.after);
      RenderAppend([item.word, item.after], Flat(rest));
      RenderPair(item.word, item.after);
      RunAppend(State(done, Between), RenderPiece(item.word) + RenderPiece(item.after), Render(Flat(rest)));
      RunItem(done, item);
      RunItems(done + head, rest);
      Associates(done, head, ItemTokens(rest));
    }
  }

  lemma RunItem(done: seq<Token>, item: Item)
    requires ValidItem(item)
    ensures Run(State(done, Between), RenderPiece(item.word) + RenderPiece(item.after)) ==
      State(done + ([Word(Meaning(item.word))] + Separation(item.after)), Between)
  {
    assert item.word in [item.word, item.after] && item.after in [item.word, item.after];
    RunAppend(State(done, Between), RenderPiece(item.word), RenderPiece(item.after));
    RunWordPiece(done, None, item.word);
    var w := Meaning(item.word);
    var done', cur' := RunPiece(done, Some(w), item.after);
    assert Flush(Some(w)) + [] == Flush(Some(w));
  }

  /** What is read up to the workspace, when the session is a plain word. */
  lemma RunBefore(socket: string, session: string, window: string, rest: string)
    requires IsPlainWord(session)
    ensures Run(State([], Between), Render(Flat(ItemsBefore(socket, session, window))) + rest) ==
      Run(State(TokensBefore(socket, session, window), Between), rest)
  {
    ItemsBeforeTokens(socket, session, window);
    RunAppend(State([], Between), Render(Flat(ItemsBefore(socket, session, window))), rest);
    RunItems([], ItemsBefore(socket, session, window));
    assert [] + TokensBefore(socket, session, window) == TokensBefore(socket, session, window);
  }
}
