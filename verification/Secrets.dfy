/** Merging environment inputs and writing them as a file the guest shell sources (src/policy/secrets.rs). */
module Secrets {

  import opened Common
  import opened ShellLexer
  import opened ShellQuote
  import opened ShellCommands

  // ---- Entries ----

  /** `split_once('=')`. */
  function SplitOnce(s: string): (r: Option<(string, string)>)
    ensures r.Some? <==> '=' in s
    ensures r.Some? ==> '=' !in r.value.0 && s == r.value.0 + ['='] + r.value.1
  {
    if s == [] then None
    else if s[0] == '=' then Some(([], s[1..]))
    else match SplitOnce(s[1..])
      case None => None
      case Some((k, v)) => Some(([s[0]] + k, v))
  }

  lemma {:induction false} SplitOnceAtFirst(k: string, v: string)
    requires '=' !in k
    ensures SplitOnce(k + ['='] + v) == Some((k, v))
  {
    var s := k + ['='] + v;
    if k == [] {
      assert s[1..] == v;
    } else {
      assert s[0] == k[0] && s[1..] == k[1..] + ['='] + v;
      assert k[0] in k && k == [k[0]] + k[1..];
      SplitOnceAtFirst(k[1..], v);
    }
  }

  /** `str::lines`: split at newlines, dropping a carriage return before each and a last empty line. */
  function Lines(s: string): seq<string> {
    LinesFrom([], s)
  }

  function LinesFrom(line: string, s: string): seq<string>
    decreases |s|
  {
    if s == [] then (if line == [] then [] else [line])
    else if s[0] == '\n' then [DropCarriageReturn(line)] + LinesFrom([], s[1..])
    else LinesFrom(line + [s[0]], s[1..])
  }

  function DropCarriageReturn(line: string): string {
    if line != [] && line[|line| - 1] == '\r' then line[..|line| - 1] else line
  }

  /** A line as a file may hold it: its text, and how it is ended. */
  datatype Ended = Ended(text: string, crlf: bool)

  /** No newline within, and a last carriage return only before another one. */
  predicate IsEnded(line: Ended) {
    '\n' !in line.text && (line.crlf || line.text == DropCarriageReturn(line.text))
  }

  function LineText(line: Ended): string {
    line.text + (if line.crlf then ['\r'] else []) + ['\n']
  }

  function FileText(lines: seq<Ended>, last: string): string {
    if lines == [] then last else LineText(lines[0]) + FileText(lines[1..], last)
  }

  function Texts(lines: seq<Ended>): (r: seq<string>)
    ensures |r| == |lines| && forall i :: 0 <= i < |lines| ==> r[i] == lines[i].text
  {
    seq(|lines|, i requires 0 <= i < |lines| => lines[i].text)
  }

  lemma {:induction false} LinesFromText(line: string, s: string, rest: string)
    requires '\n' !in s
    ensures LinesFrom(line, s + rest) == LinesFrom(line + s, rest)
    decreases |s|
  {
    if s == [] {
      assert s + rest == rest && line + s == line;
    } else {
      assert s[0] in s && (s + rest)[1..] == s[1..] + rest && line + [s[0]] + s[1..] == line + s;
      LinesFromText(line + [s[0]], s[1..], rest);
    }
  }

  lemma LinesFromNewline(line: string, rest: string)
    ensures LinesFrom(line, ['\n'] + rest) == [DropCarriageReturn(line)] + LinesFrom([], rest)
  {
    assert (['\n'] + rest)[1..] == rest;
  }

  lemma ReturnIsDropped(line: Ended)
    requires IsEnded(line)
    ensures DropCarriageReturn(line.text + (if line.crlf then ['\r'] else [])) == line.text
  {
    if line.crlf {
      var text := line.text + ['\r'];
      assert text[..|text| - 1] == line.text;
    } else {
      assert line.text + [] == line.text;
    }
  }

  lemma OneLine(line: Ended, rest: string)
    requires IsEnded(line)
    ensures LinesFrom([], LineText(line) + rest) == [line.text] + LinesFrom([], rest)
  {
    hide LinesFrom, DropCarriageReturn;
    var text := line.text + (if line.crlf then ['\r'] else []);
    assert LineText(line) + rest == text + (['\n'] + rest);
    LinesFromText([], text, ['\n'] + rest);
    assert [] + text == text;
    LinesFromNewline(text, rest);
    ReturnIsDropped(line);
  }

  lemma LastLine(last: string)
    requires '\n' !in last
    ensures LinesFrom([], last) == if last == [] then [] else [last]
  {
    LinesFromText([], last, []);
    assert last + [] == last && [] + last == last;
  }

  /**
   * However lines are ended, with newlines or with carriage returns too, and whether or not the last one is
   * ended at all, reading the file gives back exactly their texts.
   */
  lemma {:induction false} LinesReadBack(lines: seq<Ended>, last: string)
    requires (forall line :: line in lines ==> IsEnded(line)) && '\n' !in last
    ensures Lines(FileText(lines, last)) == Texts(lines) + (if last == [] then [] else [last])
    decreases |lines|
  {
    hide LinesFrom, IsEnded;
    LastLine(last);
    if lines == [] {
      assert Texts(lines) == [];
    } else {
      assert lines[0] in lines;
      OneLine(lines[0], FileText(lines[1..], last));
      LinesReadBack(lines[1..], last);
      assert Texts(lines) == [lines[0].text] + Texts(lines[1..]);
    }
  }

  /** And every file is made of lines like that. */
  lemma {:induction false} FilesAreLines(s: string) returns (lines: seq<Ended>, last: string)
    ensures (forall line :: line in lines ==> IsEnded(line)) && '\n' !in last
    ensures s == FileText(lines, last)
    decreases |s|
  {
    if s == [] {
      lines, last := [], [];
    } else {
      var c := s[0];
      lines, last := FilesAreLines(s[1..]);
      assert s == [c] + s[1..];
      if c == '\n' {
        var line := Ended([], false);
        assert [line][1..] == [] && ([line] + lines)[1..] == lines;
        assert LineText(line) == ['\n'];
        lines := [line] + lines;
      } else if lines == [] {
        last := [c] + last;
      } else {
        lines := Prepended(c, lines, last);
      }
    }
  }

  /** A character in front of the first line; a carriage return in front of an empty one belongs to its end. */
  lemma Prepended(c: char, lines: seq<Ended>, last: string) returns (r: seq<Ended>)
    requires c != '\n' && lines != [] && forall line :: line in lines ==> IsEnded(line)
    ensures (forall line :: line in r ==> IsEnded(line)) && FileText(r, last) == [c] + FileText(lines, last)
  {
    var first, rest := lines[0], lines[1..];
    assert first in lines && forall line :: line in rest ==> line in lines;
    var next := PrependedOne(c, first);
    hide IsEnded, LineText;
    r := [next] + rest;
    assert r[1..] == rest;
    assert [c] + (LineText(first) + FileText(rest, last)) == ([c] + LineText(first)) + FileText(rest, last);
  }

  lemma PrependedOne(c: char, first: Ended) returns (next: Ended)
    requires c != '\n' && IsEnded(first)
    ensures IsEnded(next) && LineText(next) == [c] + LineText(first)
  {
    if c == '\r' && first == Ended([], false) {
      next := Ended([], true);
    } else {
      next := Ended([c] + first.text, first.crlf);
      if first.text != [] { assert next.text[|next.text| - 1] == first.text[|first.text| - 1]; }
      if !first.crlf { NoLastReturn(first.text); }
    }
  }

  lemma NoLastReturn(text: string)
    requires text == DropCarriageReturn(text)
    ensures text == [] || text[|text| - 1] != '\r'
  {
    assert text != [] ==> |text[..|text| - 1]| < |text|;
  }

  /** Unicode `White_Space`, which `trim` removes. */
  predicate IsWhitespace(c: char) {
    var n := c as int;
    9 <= n <= 13 || n == 0x20 || n == 0x85 || n == 0xA0 || n == 0x1680 || 0x2000 <= n <= 0x200A ||
    n == 0x2028 || n == 0x2029 || n == 0x202F || n == 0x205F || n == 0x3000
  }

  predicate IsBlankLine(line: string) {
    forall i :: 0 <= i < |line| ==> IsWhitespace(line[i])
  }

  function NonBlank(lines: seq<string>): seq<string> {
    if lines == [] then []
    else (if IsBlankLine(lines[0]) then [] else [lines[0]]) + NonBlank(lines[1..])
  }

  /** Blank lines are left out, and nothing else, wherever they stand. */
  lemma {:induction false} NonBlankSplits(before: seq<string>, line: string, after: seq<string>)
    ensures NonBlank(before + [line] + after) ==
      NonBlank(before) + (if forall c :: c in line ==> IsWhitespace(c) then [] else [line]) + NonBlank(after)
  {
    var all := before + [line] + after;
    if before == [] {
      assert all[1..] == after && all[0] == line;
    } else {
      assert all[0] == before[0] && all[1..] == before[1..] + [line] + after;
      NonBlankSplits(before[1..], line, after);
    }
  }

  datatype MergeError = Unreadable | InvalidEntry(entry: string)

  type Env = map<string, string>

  /** The entries a merge comes to, in order: it gets no further than a file that does not read. */
  function Entries(files: seq<Option<string>>, inline: seq<string>): seq<string> {
    if files == [] then inline
    else if files[0].None? then []
    else NonBlank(Lines(files[0].value)) + Entries(files[1..], inline)
  }

  predicate AreEntries(entries: seq<string>) {
    forall e :: e in entries ==> '=' in e
  }

  ghost predicate IsFirstInvalid(entries: seq<string>, entry: string) {
    exists i :: 0 <= i < |entries| && IsInvalidAt(entries, i) && entries[i] == entry
  }

  predicate IsInvalidAt(entries: seq<string>, i: nat)
    requires i < |entries|
  {
    '=' !in entries[i] && AreEntries(entries[..i])
  }

  /** The value the last entry for a key gives it. */
  function LastValue(entries: seq<string>, key: string): Option<string> {
    if entries == [] then None else
      match SplitOnce(entries[|entries| - 1])
      case Some((k, v)) => if k == key then Some(v) else LastValue(entries[..|entries| - 1], key)
      case None => LastValue(entries[..|entries| - 1], key)
  }

  ghost predicate IsMergeOf(env: Env, entries: seq<string>) {
    && (forall e :: e in entries ==> SplitOnce(e).Some?)
    && forall k :: LastValue(entries, k) == (if k in env then Some(env[k]) else None)
  }

  lemma MergeOne(env: Env, entries: seq<string>, entry: string)
    requires IsMergeOf(env, entries) && SplitOnce(entry).Some?
    ensures var (k, v) := SplitOnce(entry).value; IsMergeOf(env[k := v], entries + [entry])
  {
    assert (entries + [entry])[..|entries + [entry]| - 1] == entries;
  }

  /** Inserts the given entries, later ones overriding earlier ones, up to the first without `=`. */
  method MergeEntries(merged: Env, entries: seq<string>, ghost before: seq<string>) returns (r: Result<Env, MergeError>)
    requires IsMergeOf(merged, before)
    ensures r.Ok? ==> IsMergeOf(r.value, before + entries) && AreEntries(entries)
    ensures r.Err? ==> r.error.InvalidEntry? && IsFirstInvalid(entries, r.error.entry)
  {
    var env := merged;
    assert before + entries[..0] == before;
    for i := 0 to |entries|
      invariant IsMergeOf(env, before + entries[..i]) && AreEntries(entries[..i])
    {
      match SplitOnce(entries[i]) {
        case None =>
          assert IsInvalidAt(entries, i);
          return Err(InvalidEntry(entries[i]));
        case Some((k, v)) =>
          MergeOne(env, before + entries[..i], entries[i]);
          assert before + entries[..i] + [entries[i]] == before + entries[..i + 1];
          env := env[k := v];
      }
    }
    assert entries[..|entries|] == entries;
    r := Ok(env);
  }

  lemma InvalidLater(before: seq<string>, entries: seq<string>, after: seq<string>, entry: string)
    requires AreEntries(before) && IsFirstInvalid(entries, entry)
    ensures IsFirstInvalid(before + entries + after, entry) && !AreEntries(before + entries + after)
  {
    var i :| 0 <= i < |entries| && IsInvalidAt(entries, i) && entries[i] == entry;
    var all := before + entries + after;
    assert all[..|before| + i] == before + entries[..i] && all[|before| + i] == entry;
    assert IsInvalidAt(all, |before| + i);
  }

  /** `merge_env_inputs`: files first, then inline entries; a file that does not read is `None`. */
  method MergeEnvInputs(inline: seq<string>, files: seq<Option<string>>) returns (r: Result<Env, MergeError>)
    ensures r.Ok? <==> None !in files && AreEntries(Entries(files, inline))
    ensures r.Ok? ==> IsMergeOf(r.value, Entries(files, inline))
    ensures r == Err(Unreadable) <==> None in files && AreEntries(Entries(files, inline))
    ensures r.Err? && r.error.InvalidEntry? ==> IsFirstInvalid(Entries(files, inline), r.error.entry)
  {
    var merged: Env := map[];
    ghost var before: seq<string> := [];
    for i := 0 to |files|
      invariant None !in files[..i]
      invariant IsMergeOf(merged, before) && AreEntries(before)
      invariant before + Entries(files[i..], inline) == Entries(files, inline)
    {
      assert files[i..][0] == files[i] && files[i..][1..] == files[i + 1..];
      match files[i] {
        case None => return Err(Unreadable);
        case Some(contents) =>
          var lines := NonBlank(Lines(contents));
          var step := MergeEntries(merged, lines, before);
          assert before + lines + Entries(files[i + 1..], inline) == Entries(files, inline);
          if step.Err? {
            InvalidLater(before, lines, Entries(files[i + 1..], inline), step.error.entry);
            return step;
          }
          merged := step.value;
          before := before + lines;
      }
    }
    assert files[..|files|] == files && files[|files|..] == [];
    r := MergeEntries(merged, inline, before);
    if r.Err? {
      InvalidLater(before, inline, [], r.error.entry);
      assert before + inline + [] == before + inline;
    }
  }

  // ---- The rendered file ----

  predicate IsNameStart(c: char) {
    'a' <= c <= 'z' || 'A' <= c <= 'Z' || c == '_'
  }

  /** A name the shell can assign to: letters, digits and underscores, not starting with a digit. */
  predicate IsPosixName(s: string) {
    s != [] && IsNameStart(s[0]) && forall i :: 0 <= i < |s| ==> IsNameStart(s[i]) || '0' <= s[i] <= '9'
  }

  /** `#!/bin/sh` as a comment line. */
  const SHEBANG := "#!/bin/sh"
  const SET := "set"
  const STRICT := "-eu"

  function SecretLine(key: string, value: string): string {
    EXPORT + [' '] + key + ['='] + ShellEscape(value) + ['\n']
  }

  function SecretLines(env: Env, order: seq<string>): string
    requires forall k :: k in order ==> k in env
  {
    if order == [] then [] else SecretLine(order[0], env[order[0]]) + SecretLines(env, order[1..])
  }

  function SecretFile(env: Env, order: seq<string>): string
    requires forall k :: k in order ==> k in env
  {
    SHEBANG + ['\n'] + (SET + [' '] + STRICT + ['\n']) + SecretLines(env, order)
  }

  /** The order of keys in the map: by their characters, which is also by their bytes in UTF-8. */
  predicate TextLe(a: string, b: string) {
    a == [] || (b != [] && (a[0] < b[0] || (a[0] == b[0] && TextLe(a[1..], b[1..]))))
  }

  lemma {:induction false} TextTotal(a: string, b: string)
    ensures TextLe(a, b) || TextLe(b, a)
  {
    if a != [] && b != [] { TextTotal(a[1..], b[1..]); }
  }

  lemma {:induction false} TextTransitive(a: string, b: string, c: string)
    requires TextLe(a, b) && TextLe(b, c)
    ensures TextLe(a, c)
  {
    if a != [] && a[0] == b[0] && b[0] == c[0] { TextTransitive(a[1..], b[1..], c[1..]); }
  }

  predicate IsLeast(key: string, keys: set<string>) {
    key in keys && forall k :: k in keys ==> TextLe(key, k)
  }

  lemma {:induction false} LeastExists(keys: set<string>) returns (key: string)
    requires keys != {}
    ensures IsLeast(key, keys)
    decreases keys
  {
    var k :| k in keys;
    TextTotal(k, k);
    if keys == {k} {
      key := k;
    } else {
      var least := LeastExists(keys - {k});
      TextTotal(k, least);
      key := if TextLe(k, least) then k else least;
      forall other | other in keys ensures TextLe(key, other) {
        if other != k && key == k { TextTransitive(k, least, other); }
      }
    }
  }

  /** All the keys, once each and in order. */
  ghost predicate IsOrderOf(order: seq<string>, env: Env) {
    (forall k :: k in order <==> k in env) && Ascends(order)
  }

  predicate Ascends(order: seq<string>) {
    forall i, j :: 0 <= i < j < |order| ==> order[i] != order[j] && TextLe(order[i], order[j])
  }

  ghost predicate AllBefore(order: seq<string>, keys: set<string>) {
    forall i, k :: 0 <= i < |order| && k in keys ==> TextLe(order[i], k)
  }

  lemma LeastIsNext(order: seq<string>, keys: set<string>, key: string)
    requires Ascends(order) && AllBefore(order, keys) && IsLeast(key, keys) && key !in order
    ensures Ascends(order + [key]) && AllBefore(order + [key], keys - {key})
  {
  }

  lemma {:induction false} SecretLinesAppend(env: Env, order: seq<string>, key: string)
    requires key in env && forall k :: k in order ==> k in env
    ensures SecretLines(env, order + [key]) == SecretLines(env, order) + SecretLine(key, env[key])
  {
    if order == [] {
      assert [] + [key] == [key] && [key][1..] == [];
      assert SecretLine(key, env[key]) + [] == SecretLine(key, env[key]);
    } else {
      assert (order + [key])[0] == order[0] && (order + [key])[1..] == order[1..] + [key];
      SecretLinesAppend(env, order[1..], key);
    }
  }

  lemma NothingYet(env: Env)
    ensures Ascends([]) && AllBefore([], env.Keys) && SecretLines(env, []) == []
  {
  }

  /** `render_guest_secret_file`: the map is read in the order of its keys. */
  method RenderGuestSecretFile(env: Env) returns (rendered: string, order: seq<string>)
    ensures IsOrderOf(order, env)
    ensures rendered == SecretFile(env, order)
  {
    rendered := SHEBANG + ['\n'] + (SET + [' '] + STRICT + ['\n']);
    hide Ascends, AllBefore, SecretLine, SecretLines, TextLe;
    NothingYet(env);
    ghost var header := rendered;
    order := [];
    var left := env.Keys;
    while left != {}
      invariant left <= env.Keys
      invariant forall k :: k in order <==> k in env && k !in left
      invariant Ascends(order) && AllBefore(order, left)
      invariant rendered == header + SecretLines(env, order)
      decreases left
    {
      ghost var least := LeastExists(left);
      var key :| key in left && IsLeast(key, left);
      SecretLinesAppend(env, order, key);
      LeastIsNext(order, left, key);
      rendered := rendered + SecretLine(key, env[key]);
      order := order + [key];
      left := left - {key};
    }
  }

  // ---- What the shell makes of it ----

  /** The text of a word without expansions. */
  function Literal(w: Word): Option<string> {
    if w == [] then Some([])
    else match (w[0], Literal(w[1..]))
      case (Lit(c), Some(s)) => Some([c] + s)
      case _ => None
  }

  lemma {:induction false} LiteralOfText(s: string)
    ensures Literal(Text(s)) == Some(s)
  {
    if s != [] {
      LiteralOfText(s[1..]);
      assert Text(s)[1..] == Text(s[1..]);
      assert s == [s[0]] + s[1..];
    }
  }

  /** A command of two words: `set -eu` changes no variable, `export NAME=value` assigns one. */
  function RunCommand(a: Word, b: Word, env: Env): Option<Env> {
    match (Literal(a), Literal(b))
    case (Some(command), Some(arg)) =>
      if command == SET && arg == STRICT then Some(env)
      else if command == EXPORT && SplitOnce(arg).Some? && IsPosixName(SplitOnce(arg).value.0) then
        Some(env[SplitOnce(arg).value.0 := SplitOnce(arg).value.1])
      else None
    case _ => None
  }

  /** Runs a script of empty lines and two-word commands; anything else is an error. */
  function Evaluate(tokens: seq<Token>, env: Env): Option<Env>
    decreases |tokens|
  {
    if tokens == [] then Some(env)
    else if tokens[0].Newline? then Evaluate(tokens[1..], env)
    else if |tokens| >= 3 && tokens[0].Word? && tokens[1].Word? && tokens[2].Newline? then
      match RunCommand(tokens[0].word, tokens[1].word, env)
      case None => None
      case Some(next) => Evaluate(tokens[3..], next)
    else None
  }

  function Source(text: string): Option<Env> {
    match Lex(text) case None => None case Some(tokens) => Evaluate(tokens, map[])
  }

  /** Whatever a script does, the variables it sets have assignable names. */
  lemma {:induction false} EvaluateSetsNames(tokens: seq<Token>, env: Env)
    requires forall k :: k in env ==> IsPosixName(k)
    ensures Evaluate(tokens, env).Some? ==> forall k :: k in Evaluate(tokens, env).value ==> IsPosixName(k)
    decreases |tokens|
  {
    if tokens == [] {
    } else if tokens[0].Newline? {
      EvaluateSetsNames(tokens[1..], env);
    } else if |tokens| >= 3 && tokens[0].Word? && tokens[1].Word? && tokens[2].Newline? {
      match RunCommand(tokens[0].word, tokens[1].word, env)
      case None =>
      case Some(next) => EvaluateSetsNames(tokens[3..], next);
    }
  }

  function ExportItems(key: string, value: string): seq<Item> {
    [Item(Plain(EXPORT), Blank), Item(Assigned(key + ['='], value), EndLine)]
  }

  function SecretItems(env: Env, order: seq<string>): seq<Item>
    requires forall k :: k in order ==> k in env
  {
    if order == [] then [] else ExportItems(order[0], env[order[0]]) + SecretItems(env, order[1..])
  }

  ghost predicate AllNames(keys: seq<string>) {
    forall k :: k in keys ==> IsPosixName(k)
  }

  lemma NameIsPlain(key: string)
    requires IsPosixName(key)
    ensures IsPlain(key + ['=']) && '=' !in key
  {
  }

  lemma SecretItemIsValid(key: string, value: string)
    requires IsPosixName(key)
    ensures ValidItem(Item(Plain(EXPORT), Blank)) && ValidItem(Item(Assigned(key + ['='], value), EndLine))
    ensures Valid(ExportItems(key, value))
  {
    WordsArePlain();
    NameIsPlain(key);
  }

  lemma {:induction false} SecretItemsAreValid(env: Env, order: seq<string>)
    requires (forall k :: k in order ==> k in env) && AllNames(order)
    ensures Valid(SecretItems(env, order))
  {
    if order != [] {
      SecretItemIsValid(order[0], env[order[0]]);
      SecretItemsAreValid(env, order[1..]);
    }
  }

  lemma RenderSecretItem(key: string, value: string, rest: seq<Item>)
    ensures Render(Flat(ExportItems(key, value) + rest)) == SecretLine(key, value) + Render(Flat(rest))
  {
    var a, b := Item(Plain(EXPORT), Blank), Item(Assigned(key + ['='], value), EndLine);
    assert [a, b] + rest == [a] + ([b] + rest);
    FlatAppend([a], [b] + rest);
    FlatAppend([b], rest);
    FlatSingle(a);
    FlatSingle(b);
    RenderAppend([a.word, a.after], [b.word, b.after] + Flat(rest));
    RenderAppend([b.word, b.after], Flat(rest));
    RenderPair(a.word, a.after);
    RenderPair(b.word, b.after);
    SecretLineParts(key, value, Render(Flat(rest)));
  }

  lemma SecretLineParts(key: string, value: string, rest: string)
    ensures EXPORT + [' '] + ((key + ['='] + ShellEscape(value)) + ['\n'] + rest) == SecretLine(key, value) + rest
  {
  }

  lemma {:induction false} RenderSecretItems(env: Env, order: seq<string>)
    requires forall k :: k in order ==> k in env
    ensures Render(Flat(SecretItems(env, order))) == SecretLines(env, order)
  {
    if order != [] {
      RenderSecretItem(order[0], env[order[0]], SecretItems(env, order[1..]));
      RenderSecretItems(env, order[1..]);
    }
  }

  lemma {:induction false} RunComment(done: seq<Token>, s: string)
    requires forall i :: 0 <= i < |s| ==> s[i] != '\n'
    ensures Run(State(done, Comment), s) == State(done, Comment)
    decreases |s|
  {
    if s != [] { RunComment(done, s[1..]); }
  }

  lemma RunShebang()
    ensures Run(State([], Between), SHEBANG + ['\n']) == State([Newline], Between)
  {
    var st := State([], Between);
    RunAppend(st, SHEBANG, ['\n']);
    assert forall i :: 0 <= i < |SHEBANG| ==> SHEBANG[i] != '\n';
    RunComment([], SHEBANG[1..]);
    assert Step(st, SHEBANG[0]) == State([], Comment);
    RunOne(State([], Comment), '\n');
    assert [] + [Newline] == [Newline];
  }

  function StrictItems(): seq<Item> {
    [Item(Plain(SET), Blank), Item(Plain(STRICT), EndLine)]
  }

  lemma StrictItemsRender()
    ensures Valid(StrictItems()) && Render(Flat(StrictItems())) == SET + [' '] + STRICT + ['\n']
    ensures ItemTokens(StrictItems()) == [W(SET), W(STRICT), Newline]
  {
    var a, b := Item(Plain(SET), Blank), Item(Plain(STRICT), EndLine);
    assert IsPlain(SET) && IsPlain(STRICT);
    TwoItems(Plain(SET), Plain(STRICT), EndLine);
    assert StrictItems() == [a] + [b];
    FlatAppend([a], [b]);
    FlatSingle(a);
    FlatSingle(b);
    RenderAppend([a.word, a.after], [b.word, b.after]);
    RenderPair(a.word, a.after);
    RenderPair(b.word, b.after);
  }

  /** The file is the shebang line and the rendering of the header and export items. */
  lemma SecretFileRenders(env: Env, order: seq<string>)
    requires forall k :: k in order ==> k in env
    ensures SecretFile(env, order) == (SHEBANG + ['\n']) + Render(Flat(StrictItems() + SecretItems(env, order)))
  {
    var items := SecretItems(env, order);
    StrictItemsRender();
    RenderSecretItems(env, order);
    FlatAppend(StrictItems(), items);
    RenderAppend(Flat(StrictItems()), Flat(items));
    StringsAssociate(SHEBANG + ['\n'], SET + [' '] + STRICT + ['\n'], SecretLines(env, order));
  }

  lemma LexAfterShebang(items: seq<Item>)
    requires Valid(items)
    ensures Lex((SHEBANG + ['\n']) + Render(Flat(items))) == Some([Newline] + ItemTokens(items))
  {
    RunAppend(State([], Between), SHEBANG + ['\n'], Render(Flat(items)));
    RunShebang();
    FlatIsWellFormed(items);
    LexRender([Newline], None, Flat(items));
    TokensOfItems(items, []);
    assert Flat(items) + [] == Flat(items);
    assert ItemTokens(items) + [] == ItemTokens(items);
  }

  /** The rendered file lexes to the header and one export a key. */
  lemma SecretFileLexes(env: Env, order: seq<string>)
    requires (forall k :: k in order ==> k in env) && AllNames(order)
    ensures Valid(SecretItems(env, order))
    ensures Lex(SecretFile(env, order)) ==
      Some([Newline] + ([W(SET), W(STRICT), Newline] + ItemTokens(SecretItems(env, order))))
  {
    SecretItemsAreValid(env, order);
    StrictItemsRender();
    ItemTokensAppend(StrictItems(), SecretItems(env, order));
    SecretFileRenders(env, order);
    LexAfterShebang(StrictItems() + SecretItems(env, order));
  }

  lemma RunExport(key: string, value: string, env: Env)
    requires IsPosixName(key)
    ensures RunCommand(Text(EXPORT), Text(key + ['=']) + Text(value), env) == Some(env[key := value])
  {
    NameIsPlain(key);
    var arg := key + ['='] + value;
    assert Text(key + ['=']) + Text(value) == Text(arg);
    LiteralOfText(EXPORT);
    LiteralOfText(arg);
    SplitOnceAtFirst(key, value);
    assert EXPORT != SET;
  }

  lemma RunStrict(env: Env)
    ensures RunCommand(Text(SET), Text(STRICT), env) == Some(env)
  {
    LiteralOfText(SET);
    LiteralOfText(STRICT);
  }

  ghost function Restricted(env: Env, order: seq<string>): Env
    requires forall k :: k in order ==> k in env
  {
    map k | k in order :: env[k]
  }

  /** One export line at the front of a script. */
  lemma EvaluateExport(key: string, value: string, rest: seq<Item>, acc: Env)
    requires IsPosixName(key) && Valid(rest)
    ensures Valid(ExportItems(key, value) + rest)
    ensures Evaluate(ItemTokens(ExportItems(key, value) + rest), acc) == Evaluate(ItemTokens(rest), acc[key := value])
  {
    SecretItemIsValid(key, value);
    ItemTokensAppend(ExportItems(key, value), rest);
    TwoItems(Plain(EXPORT), Assigned(key + ['='], value), EndLine);
    RunExport(key, value, acc);
  }

  lemma RestrictedStep(env: Env, order: seq<string>, acc: Env)
    requires order != [] && forall k :: k in order ==> k in env
    ensures acc[order[0] := env[order[0]]] + Restricted(env, order[1..]) == acc + Restricted(env, order)
  {
    assert order == [order[0]] + order[1..];
  }

  lemma {:induction false} EvaluateExports(env: Env, order: seq<string>, acc: Env)
    requires (forall k :: k in order ==> k in env) && AllNames(order)
    requires Valid(SecretItems(env, order))
    ensures Evaluate(ItemTokens(SecretItems(env, order)), acc) == Some(acc + Restricted(env, order))
  {
    if order == [] {
      assert acc + Restricted(env, order) == acc;
    } else {
      SecretItemsAreValid(env, order[1..]);
      EvaluateExport(order[0], env[order[0]], SecretItems(env, order[1..]), acc);
      EvaluateExports(env, order[1..], acc[order[0] := env[order[0]]]);
      RestrictedStep(env, order, acc);
    }
  }

  /** The header of the file sets nothing. */
  lemma EvaluateHeader(rest: seq<Token>)
    ensures Evaluate([Newline] + ([W(SET), W(STRICT), Newline] + rest), map[]) == Evaluate(rest, map[])
  {
    var script := [W(SET), W(STRICT), Newline] + rest;
    assert ([Newline] + script)[1..] == script;
    RunStrict(map[]);
  }

  lemma SourcesBack(env: Env, order: seq<string>)
    requires IsOrderOf(order, env) && AllNames(order)
    ensures Source(SecretFile(env, order)) == Some(env)
  {
    SecretFileLexes(env, order);
    EvaluateHeader(ItemTokens(SecretItems(env, order)));
    EvaluateExports(env, order, map[]);
    RestrictedToAll(env, order);
  }

  lemma RestrictedToAll(env: Env, order: seq<string>)
    requires IsOrderOf(order, env)
    ensures map[] + Restricted(env, order) == env
  {
  }

  /** Sourcing the rendered file gives back the environment exactly when every key is an assignable name. */
  lemma RenderedFileSourcesBackIff(env: Env, order: seq<string>)
    requires IsOrderOf(order, env)
    ensures Source(SecretFile(env, order)) == Some(env) <==> forall k :: k in env ==> IsPosixName(k)
  {
    if forall k :: k in env ==> IsPosixName(k) {
      SourcesBack(env, order);
    } else if Lex(SecretFile(env, order)).Some? {
      EvaluateSetsNames(Lex(SecretFile(env, order)).value, map[]);
    }
  }
}
