/**
 * The command lines the tool builds for the guest shell: argument lists, the ssh bootstrap
 * (src/lima/shell.rs), the session shell line (src/provider/launch.rs) and the tmux commands
 * that quote it a second time (src/lima/tmux.rs).
 */
module ShellCommands {

  import opened Common
  import opened ShellLexer
  import opened ShellQuote

  // ---- Argument lists ----

  /** `map(shell_escape).join(" ")`. */
  function ArgPieces(args: seq<string>): seq<Piece> {
    if args == [] then []
    else if |args| == 1 then [Quoted(args[0])]
    else [Quoted(args[0]), Blank] + ArgPieces(args[1..])
  }

  function JoinEscaped(args: seq<string>): string {
    if args == [] then []
    else if |args| == 1 then ShellEscape(args[0])
    else ShellEscape(args[0]) + [' '] + JoinEscaped(args[1..])
  }

  function Words(args: seq<string>): (r: seq<Token>)
    ensures |r| == |args| && forall i :: 0 <= i < |args| ==> r[i] == Word(Text(args[i]))
  {
    seq(|args|, i requires 0 <= i < |args| => Word(Text(args[i])))
  }

  lemma {:induction false} ArgPiecesAreQuoted(args: seq<string>)
    ensures forall p :: p in ArgPieces(args) ==> p == Blank || p.Quoted?
    ensures WellFormed(ArgPieces(args))
  {
    if |args| > 1 { ArgPiecesAreQuoted(args[1..]); }
  }

  lemma {:induction false} RenderArgPieces(args: seq<string>)
    ensures Render(ArgPieces(args)) == JoinEscaped(args)
  {
    if |args| == 1 {
      assert ArgPieces(args)[1..] == [];
      assert ShellEscape(args[0]) + [] == ShellEscape(args[0]);
    } else if |args| > 1 {
      RenderArgPieces(args[1..]);
      RenderAppend([Quoted(args[0]), Blank], ArgPieces(args[1..]));
      assert [Quoted(args[0]), Blank][1..] == [Blank] && [Blank][1..] == [];
      assert Render([Blank]) == [' '];
    }
  }

  lemma {:induction false} TokensOfArgs(args: seq<string>)
    ensures Tokens(ArgPieces(args), None) == Words(args)
  {
    if |args| == 1 {
      assert ArgPieces(args)[1..] == [];
    } else if |args| > 1 {
      TokensOfArgs(args[1..]);
    }
  }

  /** The shell splits the joined, escaped arguments back into exactly those arguments. */
  lemma ArgumentsRoundTrip(args: seq<string>)
    ensures Lex(JoinEscaped(args)) == Some(Words(args))
  {
    ArgPiecesAreQuoted(args);
    LexLine(ArgPieces(args));
    TokensOfArgs(args);
    RenderArgPieces(args);
  }

  /** So no two argument lists are ever joined into the same line. */
  lemma JoinEscapedInjective(a: seq<string>, b: seq<string>)
    requires JoinEscaped(a) == JoinEscaped(b)
    ensures a == b
  {
    ArgumentsRoundTrip(a);
    ArgumentsRoundTrip(b);
    forall i | 0 <= i < |a| ensures a[i] == b[i] {
      assert Words(a)[i] == Words(b)[i];
    }
  }

  // ---- Lines as words, each with what follows it ----

  datatype Item = Item(word: Piece, after: Piece)

  predicate ValidItem(item: Item) {
    !IsSeparator(item.word) && IsSeparator(item.after) && WellFormed([item.word, item.after])
  }

  predicate Valid(items: seq<Item>) {
    forall i :: 0 <= i < |items| ==> ValidItem(items[i])
  }

  function Flat(items: seq<Item>): seq<Piece> {
    if items == [] then [] else [items[0].word, items[0].after] + Flat(items[1..])
  }

  function W(s: string): Token {
    Word(Text(s))
  }

  function Separation(sep: Piece): seq<Token> {
    match sep
    case Connect(op) => [Op([op, op])]
    case Semi => [Op([';'])]
    case EndLine => [Newline]
    case _ => []
  }

  /** One token a word, followed by the token its separator is, if any. */
  function ItemTokens(items: seq<Item>): seq<Token>
    requires Valid(items)
  {
    if items == [] then []
    else [Word(Meaning(items[0].word))] + Separation(items[0].after) + ItemTokens(items[1..])
  }

  lemma TokensOfItem(item: Item, rest: seq<Piece>)
    requires ValidItem(item)
    ensures Tokens([item.word, item.after] + rest, None) ==
      [Word(Meaning(item.word))] + Separation(item.after) + Tokens(rest, None)
  {
    var pieces := [item.word, item.after] + rest;
    assert pieces[1..] == [item.after] + rest;
    assert pieces[1..][1..] == rest;
    assert [Word(Meaning(item.word))] + [] == [Word(Meaning(item.word))];
  }

  lemma {:induction false} TokensOfItems(items: seq<Item>, rest: seq<Piece>)
    requires Valid(items)
    ensures Tokens(Flat(items) + rest, None) == ItemTokens(items) + Tokens(rest, None)
  {
    if items == [] {
      assert [] + rest == rest && [] + Tokens(rest, None) == Tokens(rest, None);
    } else {
      var head := [items[0].word, items[0].after];
      assert Flat(items) + rest == head + (Flat(items[1..]) + rest);
      TokensOfItem(items[0], Flat(items[1..]) + rest);
      TokensOfItems(items[1..], rest);
      Associates([Word(Meaning(items[0].word))] + Separation(items[0].after), ItemTokens(items[1..]), Tokens(rest, None));
    }
  }

  lemma {:induction false} FlatIsWellFormed(items: seq<Item>)
    requires Valid(items)
    ensures WellFormed(Flat(items))
  {
    if items != [] {
      FlatIsWellFormed(items[1..]);
    }
  }

  /** A rendered line of words lexes to those words, then to whatever the rest of it is. */
  lemma LexItems(items: seq<Item>, rest: seq<Piece>)
    requires Valid(items) && WellFormed(rest)
    ensures Lex(Render(Flat(items)) + Render(rest)) == Some(ItemTokens(items) + Tokens(rest, None))
  {
    FlatIsWellFormed(items);
    RenderAppend(Flat(items), rest);
    LexLine(Flat(items) + rest);
    TokensOfItems(items, rest);
  }

  // ---- The session shell line ----

  const EXPORT := "export"
  const ASSIGN_SESSION := "AGBRANCH_SESSION="
  const SOURCE := "source"
  const SHELLENV := "HOME" + "/.agbranch/" + "shellenv.sh"
  const CD := "cd"
  const EXEC := "exec"
  const SHELL_OR_BASH := "{SHELL:-/bin/bash}"
  const LOGIN := "-l"

  const AND: Piece := Connect('&')

  lemma WordsArePlain()
    ensures IsPlain(EXPORT) && IsPlain(SOURCE) && IsPlain(CD) && IsPlain(EXEC) && IsPlain(LOGIN)
  {
  }

  lemma AssignmentIsPlain()
    ensures IsPlain(ASSIGN_SESSION)
  {
  }

  lemma ShellenvIsPlain()
    ensures IsPlain(SHELLENV)
  {
    var home, dir, file := "HOME", "/.agbranch/", "shellenv.sh";
    assert IsPlain(home) && IsPlain(dir) && IsPlain(file);
  }

  function ExportSession(session: string): seq<Item> {
    [Item(Plain(EXPORT), Blank), Item(Assigned(ASSIGN_SESSION, session), AND)]
  }

  function SourceShellenv(): seq<Item> {
    [Item(Plain(SOURCE), Blank), Item(Home(SHELLENV), AND)]
  }

  function EnterDirectory(dir: string): seq<Item> {
    [Item(Plain(CD), Blank), Item(Quoted(dir), AND)]
  }

  function LoginShell(): seq<Item> {
    [Item(Plain(EXEC), Blank), Item(Live('$', SHELL_OR_BASH), Blank)]
  }

  function SessionShellItems(session: string, workspace: string): seq<Item> {
    ExportSession(session) + SourceShellenv() + EnterDirectory(workspace) + LoginShell()
  }

  /** `build_session_shell_line`. */
  function SessionShellLine(session: string, workspace: string): string {
    Render(Flat(SessionShellItems(session, workspace))) + Render([Plain(LOGIN)])
  }

  function SessionShellTokens(session: string, workspace: string): seq<Token> {
    [W(EXPORT), Word(Text(ASSIGN_SESSION) + Text(session)), AND_IF] +
    [W(SOURCE), Word([Active('$')] + Text(SHELLENV)), AND_IF] +
    [W(CD), W(workspace), AND_IF] +
    [W(EXEC), Word([Active('$')] + Text(SHELL_OR_BASH)), W(LOGIN)]
  }

  const AND_IF: Token := Op(['&', '&'])

  lemma {:induction false} ItemTokensAppend(a: seq<Item>, b: seq<Item>)
    requires Valid(a) && Valid(b)
    ensures Valid(a + b) && ItemTokens(a + b) == ItemTokens(a) + ItemTokens(b)
  {
    if a == [] {
      assert a + b == b;
    } else {
      assert (a + b)[0] == a[0] && (a + b)[1..] == a[1..] + b;
      ItemTokensAppend(a[1..], b);
      Associates([Word(Meaning(a[0].word))] + Separation(a[0].after), ItemTokens(a[1..]), ItemTokens(b));
    }
  }

  lemma TwoItems(p: Piece, q: Piece, after: Piece)
    requires ValidItem(Item(p, Blank)) && ValidItem(Item(q, after))
    ensures ItemTokens([Item(p, Blank), Item(q, after)]) == [Word(Meaning(p)), Word(Meaning(q))] + Separation(after)
  {
    var items := [Item(p, Blank), Item(q, after)];
    assert items[1..] == [items[1]] && items[1..][1..] == [];
    assert ItemTokens(items[1..]) == [Word(Meaning(q))] + Separation(after);
  }

  lemma ExportSessionTokens(session: string)
    ensures Valid(ExportSession(session))
    ensures ItemTokens(ExportSession(session)) == [W(EXPORT), Word(Text(ASSIGN_SESSION) + Text(session)), AND_IF]
  {
    WordsArePlain();
    AssignmentIsPlain();
    TwoItems(Plain(EXPORT), Assigned(ASSIGN_SESSION, session), AND);
  }

  lemma SourceShellenvTokens()
    ensures Valid(SourceShellenv())
    ensures ItemTokens(SourceShellenv()) == [W(SOURCE), Word([Active('$')] + Text(SHELLENV)), AND_IF]
  {
    WordsArePlain();
    ShellenvIsPlain();
    TwoItems(Plain(SOURCE), Home(SHELLENV), AND);
  }

  lemma EnterDirectoryTokens(dir: string)
    ensures Valid(EnterDirectory(dir))
    ensures ItemTokens(EnterDirectory(dir)) == [W(CD), W(dir), AND_IF]
  {
    WordsArePlain();
    TwoItems(Plain(CD), Quoted(dir), AND);
  }

  lemma LoginTokens()
    ensures WellFormed([Plain(LOGIN)]) && Tokens([Plain(LOGIN)], None) == [W(LOGIN)]
  {
    WordsArePlain();
    assert [Plain(LOGIN)][1..] == [];
  }

  lemma ShellOrBashIsPlain()
    ensures IsPlain(SHELL_OR_BASH)
  {
  }

  lemma ExecTokensOfShell()
    ensures Valid(LoginShell())
    ensures ItemTokens(LoginShell()) == [W(EXEC), Word([Active('$')] + Text(SHELL_OR_BASH))]
  {
    hide IsPlain, Text, ItemTokens;
    WordsArePlain();
    ShellOrBashIsPlain();
    TwoItems(Plain(EXEC), Live('$', SHELL_OR_BASH), Blank);
  }

  lemma LoginShellTokens()
    ensures Valid(LoginShell()) && WellFormed([Plain(LOGIN)])
    ensures ItemTokens(LoginShell()) + Tokens([Plain(LOGIN)], None) ==
      [W(EXEC), Word([Active('$')] + Text(SHELL_OR_BASH)), W(LOGIN)]
  {
    hide LoginShell, ItemTokens, Tokens, WellFormed;
    ExecTokensOfShell();
    LoginTokens();
  }

  /** The session line exports the session, sources the environment, enters the workspace and starts a login shell. */
  lemma SessionShellLineLexes(session: string, workspace: string)
    ensures Lex(SessionShellLine(session, workspace)) == Some(SessionShellTokens(session, workspace))
  {
    ExportSessionTokens(session);
    SourceShellenvTokens();
    EnterDirectoryTokens(workspace);
    LoginShellTokens();
    ItemTokensAppend(ExportSession(session), SourceShellenv());
    ItemTokensAppend(ExportSession(session) + SourceShellenv(), EnterDirectory(workspace));
    var front := ExportSession(session) + SourceShellenv() + EnterDirectory(workspace);
    ItemTokensAppend(front, LoginShell());
    LexItems(SessionShellItems(session, workspace), [Plain(LOGIN)]);
    Associates(ItemTokens(front), ItemTokens(LoginShell()), Tokens([Plain(LOGIN)], None));
  }

  /**
   * The tmux commands end in the session line, quoted once more. Whatever precedes it, the outer
   * shell hands tmux the line itself as one word, and the inner shell reads that word back to the
   * original session and workspace.
   */
  lemma BootstrapUnquotesTwice(before: string, tokens: seq<Token>, session: string, workspace: string)
    requires Run(State([], Between), before) == State(tokens, Between)
    ensures Lex(before + ShellEscape(SessionShellLine(session, workspace))) ==
      Some(tokens + [W(SessionShellLine(session, workspace))])
    ensures Lex(SessionShellLine(session, workspace)) == Some(SessionShellTokens(session, workspace))
  {
    var line := SessionShellLine(session, workspace);
    RunAppend(State([], Between), before, ShellEscape(line));
    RunEscaped(tokens, None, line);
    SessionShellLineLexes(session, workspace);
  }

  // ---- The ssh command ----

  datatype SshSpec = SshSpec(
    configFile: string, hostAlias: string, session: string, workdir: string,
    forwardAgent: bool, forceTty: bool, secretFile: Option<string>, command: Option<seq<string>>)

  /** `if [ -f F ]; then set -a && . F && set +a; fi`, and what joins it to the next command. */
  function LoadSecrets(file: string): seq<Item> {
    IfFile(file) + (ThenSet() + (SourceFile(file) + (UnsetAll() + EndIf())))
  }

  function IfFile(file: string): seq<Item> {
    [Item(Plain("if"), Blank), Item(Live('[', ""), Blank)] +
    ([Item(Plain("-f"), Blank), Item(Quoted(file), Blank)] + [Item(Plain("]"), Semi)])
  }

  function ThenSet(): seq<Item> {
    [Item(Plain("then"), Blank)] + [Item(Plain("set"), Blank), Item(Plain("-a"), AND)]
  }

  function SourceFile(file: string): seq<Item> {
    [Item(Plain("."), Blank), Item(Quoted(file), AND)]
  }

  function UnsetAll(): seq<Item> {
    [Item(Plain("set"), Blank), Item(Plain("+a"), Semi)]
  }

  function EndIf(): seq<Item> {
    [Item(Plain("fi"), AND)]
  }

  /** What the guest shell is told to do before the final `exec`. */
  function SshPreamble(spec: SshSpec): seq<Item> {
    EnterDirectory(spec.workdir) + ExportSession(spec.session) + SourceShellenv() +
    (match spec.secretFile case None => [] case Some(file) => LoadSecrets(file))
  }

  lemma LoadWordsArePlain()
    ensures IsPlain("if") && IsPlain("-f") && IsPlain("]") && IsPlain("then") && IsPlain("set") && IsPlain("")
    ensures IsPlain("-a") && IsPlain(".") && IsPlain("+a") && IsPlain("fi")
  {
  }

  lemma OneItem(p: Piece, after: Piece)
    requires ValidItem(Item(p, after))
    ensures Valid([Item(p, after)]) && ItemTokens([Item(p, after)]) == [Word(Meaning(p))] + Separation(after)
  {
    assert [Item(p, after)][1..] == [];
  }

  lemma IfTokens()
    ensures var items := [Item(Plain("if"), Blank), Item(Live('[', ""), Blank)];
      Valid(items) && ItemTokens(items) == [W("if"), Word([Active('[')])]
  {
    LoadWordsArePlain();
    TwoItems(Plain("if"), Live('[', ""), Blank);
    assert Text("") == [] && [Active('[')] + [] == [Active('[')];
  }

  lemma TestTokens(file: string)
    ensures var items := [Item(Plain("-f"), Blank), Item(Quoted(file), Blank)];
      Valid(items) && ItemTokens(items) == [W("-f"), W(file)]
    ensures Valid([Item(Plain("]"), Semi)]) && ItemTokens([Item(Plain("]"), Semi)]) == [W("]"), Op([';'])]
  {
    LoadWordsArePlain();
    TwoItems(Plain("-f"), Quoted(file), Blank);
    OneItem(Plain("]"), Semi);
  }

  lemma IfFileTokens(file: string)
    ensures Valid(IfFile(file))
    ensures ItemTokens(IfFile(file)) == [W("if"), Word([Active('[')])] + ([W("-f"), W(file)] + [W("]"), Op([';'])])
  {
    hide ItemTokens, Valid;
    IfTokens();
    TestTokens(file);
    ItemTokensAppend([Item(Plain("-f"), Blank), Item(Quoted(file), Blank)], [Item(Plain("]"), Semi)]);
    ItemTokensAppend([Item(Plain("if"), Blank), Item(Live('[', ""), Blank)],
                     [Item(Plain("-f"), Blank), Item(Quoted(file), Blank)] + [Item(Plain("]"), Semi)]);
  }

  lemma ThenSetTokens()
    ensures Valid(ThenSet()) && ItemTokens(ThenSet()) == [W("then")] + [W("set"), W("-a"), AND_IF]
  {
    LoadWordsArePlain();
    OneItem(Plain("then"), Blank);
    TwoItems(Plain("set"), Plain("-a"), AND);
    ItemTokensAppend([Item(Plain("then"), Blank)], [Item(Plain("set"), Blank), Item(Plain("-a"), AND)]);
  }

  lemma SourceFileTokens(file: string)
    ensures Valid(SourceFile(file)) && ItemTokens(SourceFile(file)) == [W("."), W(file), AND_IF]
  {
    LoadWordsArePlain();
    TwoItems(Plain("."), Quoted(file), AND);
  }

  lemma UnsetAllTokens()
    ensures Valid(UnsetAll()) && ItemTokens(UnsetAll()) == [W("set"), W("+a"), Op([';'])]
    ensures Valid(EndIf()) && ItemTokens(EndIf()) == [W("fi"), AND_IF]
  {
    LoadWordsArePlain();
    TwoItems(Plain("set"), Plain("+a"), Semi);
    OneItem(Plain("fi"), AND);
  }

  /** What the guest shell reads of it. */
  function SecretsTokens(file: string): seq<Token> {
    ([W("if"), Word([Active('[')])] + ([W("-f"), W(file)] + [W("]"), Op([';'])])) +
    (([W("then")] + [W("set"), W("-a"), AND_IF]) +
     ([W("."), W(file), AND_IF] + ([W("set"), W("+a"), Op([';'])] + [W("fi"), AND_IF])))
  }

  lemma LoadSecretsTokens(file: string)
    ensures Valid(LoadSecrets(file)) && ItemTokens(LoadSecrets(file)) == SecretsTokens(file)
  {
    hide IfFile, ThenSet, SourceFile, UnsetAll, EndIf, ItemTokens, Valid;
    IfFileTokens(file);
    ThenSetTokens();
    SourceFileTokens(file);
    UnsetAllTokens();
    ItemTokensAppend(UnsetAll(), EndIf());
    ItemTokensAppend(SourceFile(file), UnsetAll() + EndIf());
    ItemTokensAppend(ThenSet(), SourceFile(file) + (UnsetAll() + EndIf()));
    ItemTokensAppend(IfFile(file), ThenSet() + (SourceFile(file) + (UnsetAll() + EndIf())));
  }

  /** What the guest shell reads of everything before the final `exec`, written out. */
  function SshTokens(spec: SshSpec): seq<Token> {
    [W(CD), W(spec.workdir), AND_IF] +
    [W(EXPORT), Word(Text(ASSIGN_SESSION) + Text(spec.session)), AND_IF] +
    [W(SOURCE), Word([Active('$')] + Text(SHELLENV)), AND_IF] +
    match spec.secretFile case None => [] case Some(file) => SecretsTokens(file)
  }

  lemma SshPreambleTokens(spec: SshSpec)
    ensures Valid(SshPreamble(spec)) && ItemTokens(SshPreamble(spec)) == SshTokens(spec)
  {
    hide ItemTokens, Valid, LoadSecrets, SecretsTokens, EnterDirectory, ExportSession, SourceShellenv;
    EnterDirectoryTokens(spec.workdir);
    ExportSessionTokens(spec.session);
    SourceShellenvTokens();
    ItemTokensAppend(EnterDirectory(spec.workdir), ExportSession(spec.session));
    ItemTokensAppend(EnterDirectory(spec.workdir) + ExportSession(spec.session), SourceShellenv());
    match spec.secretFile
    case None =>
      assert SshPreamble(spec) == EnterDirectory(spec.workdir) + ExportSession(spec.session) + SourceShellenv();
    case Some(file) =>
      LoadSecretsTokens(file);
      ItemTokensAppend(EnterDirectory(spec.workdir) + ExportSession(spec.session) + SourceShellenv(), LoadSecrets(file));
  }

  lemma {:induction false} FlatAppend(a: seq<Item>, b: seq<Item>)
    ensures Flat(a + b) == Flat(a) + Flat(b)
  {
    if a == [] {
      assert a + b == b;
    } else {
      assert (a + b)[0] == a[0] && (a + b)[1..] == a[1..] + b;
      FlatAppend(a[1..], b);
    }
  }

  /** The text of a list of items, without the separator after the last of them. */
  function Open(items: seq<Item>): string
    requires items != []
  {
    Render(Flat(items[..|items| - 1])) + RenderPiece(items[|items| - 1].word)
  }

  lemma OpenThenSeparator(items: seq<Item>)
    requires items != []
    ensures Render(Flat(items)) == Open(items) + RenderPiece(items[|items| - 1].after)
  {
    hide Flat, Render, RenderPiece;
    var front, last := items[..|items| - 1], items[|items| - 1];
    assert items == front + [last];
    FlatAppend(front, [last]);
    FlatSingle(last);
    RenderAppend(Flat(front), [last.word, last.after]);
    RenderPair(last.word, last.after);
    StringsAssociate(Render(Flat(front)), RenderPiece(last.word), RenderPiece(last.after));
  }

  lemma FlatSingle(item: Item)
    ensures Flat([item]) == [item.word, item.after]
  {
    assert [item][1..] == [];
    assert [item.word, item.after] + [] == [item.word, item.after];
  }

  lemma RenderPair(p: Piece, q: Piece)
    ensures Render([p, q]) == RenderPiece(p) + RenderPiece(q)
  {
    assert [p, q][1..] == [q] && [q][1..] == [];
    assert RenderPiece(q) + [] == RenderPiece(q);
    assert Render([q]) == RenderPiece(q);
  }

  lemma StringsAssociate(a: string, b: string, c: string)
    ensures a + b + c == a + (b + c)
  {
  }

  /** The base of the bootstrap: enter the directory, export the session, source the environment. */
  function SshBase(spec: SshSpec): seq<Item> {
    EnterDirectory(spec.workdir) + ExportSession(spec.session) + SourceShellenv()
  }

  /** Appending ` && ` and further items to an open line is the open line of all the items. */
  lemma OpenAppend(items: seq<Item>, more: seq<Item>)
    requires items != [] && more != [] && items[|items| - 1].after == AND
    ensures Open(items + more) == Open(items) + RenderPiece(AND) + Open(more)
  {
    var front, last := more[..|more| - 1], more[|more| - 1];
    assert (items + more)[..|items + more| - 1] == items + front;
    assert (items + more)[|items + more| - 1] == last;
    FlatAppend(items, front);
    RenderAppend(Flat(items), Flat(front));
    OpenThenSeparator(items);
    StringsAssociate(Render(Flat(items)), Render(Flat(front)), RenderPiece(last.word));
  }

  function ExecTokens(command: Option<seq<string>>): seq<Token> {
    match command
    case None => [W(EXEC), Word([Active('$')] + Text(SHELL_OR_BASH)), W(LOGIN)]
    case Some(args) => [W(EXEC)] + Words(args)
  }

  /**
   * `build_ssh_command`: the ssh options, then one argument that the guest shell reads as: enter the
   * directory, export the session, load the environment and any secrets, and exec exactly the
   * given command, or a login shell when there is none.
   */
  method BuildSshCommand(spec: SshSpec) returns (args: seq<string>, bootstrap: string)
    ensures args == ["-F", spec.configFile] +
      ((if spec.forwardAgent then ["-A"] else []) + (if spec.forceTty || spec.command.None? then ["-t"] else [])) +
      [spec.hostAlias, bootstrap]
    ensures Lex(bootstrap) == Some(SshTokens(spec) + ExecTokens(spec.command))
  {
    args := ["-F", spec.configFile];
    if spec.forwardAgent { args := args + ["-A"]; }
    if spec.forceTty || spec.command == None { args := args + ["-t"]; }
    args := args + [spec.hostAlias];
    bootstrap := OpenBootstrap(spec);
    bootstrap := bootstrap + RenderPiece(AND);
    bootstrap := FinishWithExec(SshPreamble(spec), bootstrap, spec.command);
    SshPreambleTokens(spec);
    args := args + [bootstrap];
  }

  method OpenBootstrap(spec: SshSpec) returns (line: string)
    ensures Valid(SshPreamble(spec))
    ensures line + RenderPiece(AND) == Render(Flat(SshPreamble(spec)))
  {
    SshPreambleTokens(spec);
    line := Open(SshBase(spec));
    match spec.secretFile {
      case None =>
        assert SshBase(spec) + [] == SshBase(spec);
      case Some(file) =>
        OpenAppend(SshBase(spec), LoadSecrets(file));
        line := line + RenderPiece(AND) + Open(LoadSecrets(file));
    }
    OpenThenSeparator(SshPreamble(spec));
  }

  method FinishWithExec(items: seq<Item>, line: string, command: Option<seq<string>>) returns (r: string)
    requires Valid(items) && line == Render(Flat(items))
    ensures Lex(r) == Some(ItemTokens(items) + ExecTokens(command))
  {
    match command {
      case None =>
        r := line + (Render(Flat(LoginShell())) + Render([Plain(LOGIN)]));
        LexThenLogin(items);
      case Some(args) =>
        r := line + (RenderPiece(Plain(EXEC)) + RenderPiece(Blank) + JoinEscaped(args));
        LexThenExec(items, args);
    }
  }

  lemma LexThenLogin(items: seq<Item>)
    requires Valid(items)
    ensures Lex(Render(Flat(items)) + (Render(Flat(LoginShell())) + Render([Plain(LOGIN)]))) ==
      Some(ItemTokens(items) + [W(EXEC), Word([Active('$')] + Text(SHELL_OR_BASH)), W(LOGIN)])
  {
    LoginShellTokens();
    RenderAppend(Flat(LoginShell()), [Plain(LOGIN)]);
    FlatIsWellFormed(LoginShell());
    LexItems(items, Flat(LoginShell()) + [Plain(LOGIN)]);
    TokensOfItems(LoginShell(), [Plain(LOGIN)]);
  }

  lemma LexThenExec(items: seq<Item>, args: seq<string>)
    requires Valid(items)
    ensures Lex(Render(Flat(items)) + (RenderPiece(Plain(EXEC)) + RenderPiece(Blank) + JoinEscaped(args))) ==
      Some(ItemTokens(items) + ([W(EXEC)] + Words(args)))
  {
    WordsArePlain();
    var exec := Item(Plain(EXEC), Blank);
    FlatSingle(exec);
    ArgPiecesAreQuoted(args);
    RenderArgPieces(args);
    RenderPair(Plain(EXEC), Blank);
    RenderAppend([Plain(EXEC), Blank], ArgPieces(args));
    LexItems(items, [Plain(EXEC), Blank] + ArgPieces(args));
    TokensOfArgs(args);
    assert [W(EXEC)] + [] == [W(EXEC)];
  }

  // ---- The agent line ----

  function AgentItems(session: string, workspace: string): seq<Item> {
    ExportSession(session) + SourceShellenv() + EnterDirectory(workspace)
  }

  /** `build_agent_shell_line`, for a command of any length. */
  function AgentShellLine(session: string, workspace: string, command: seq<string>): string {
    Render(Flat(AgentItems(session, workspace))) + (RenderPiece(Plain(EXEC)) + RenderPiece(Blank) + JoinEscaped(command))
  }

  function AgentShellTokens(session: string, workspace: string, command: seq<string>): seq<Token> {
    [W(EXPORT), Word(Text(ASSIGN_SESSION) + Text(session)), AND_IF] +
    [W(SOURCE), Word([Active('$')] + Text(SHELLENV)), AND_IF] +
    [W(CD), W(workspace), AND_IF] + ExecTokens(Some(command))
  }

  /** The agent line ends by running exactly the given command, in the workspace. */
  lemma AgentShellLineLexes(session: string, workspace: string, command: seq<string>)
    ensures Lex(AgentShellLine(session, workspace, command)) == Some(AgentShellTokens(session, workspace, command))
  {
    ExportSessionTokens(session);
    SourceShellenvTokens();
    EnterDirectoryTokens(workspace);
    ItemTokensAppend(ExportSession(session), SourceShellenv());
    ItemTokensAppend(ExportSession(session) + SourceShellenv(), EnterDirectory(workspace));
    LexThenExec(AgentItems(session, workspace), command);
  }
}
