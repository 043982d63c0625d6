/** Which texts, written into a command line as they stand, the shell reads as the word they are. */
module ShellWords {

  import opened Common
  import opened ShellLexer
  import opened ShellQuote
  import opened ShellCommands

  // ---- Reading does not depend on the tokens before ----

  function After(before: seq<Token>, st: State): State {
    State(before + st.done, st.mode)
  }

  lemma StepBareAfter(before: seq<Token>, done: seq<Token>, w: Word, c: char)
    ensures StepBare(before + done, w, c) == After(before, StepBare(done, w, c))
  {
    Associates(before, done, [Word(w)]);
    Associates(before, done, [Word(w), Newline]);
  }

  lemma StepBetweenAfter(before: seq<Token>, done: seq<Token>, c: char)
    ensures StepBetween(before + done, c) == After(before, StepBetween(done, c))
  {
    Associates(before, done, [Newline]);
    StepBareAfter(before, done, [], c);
  }

  lemma StepAfter(before: seq<Token>, st: State, c: char)
    ensures Step(After(before, st), c) == After(before, Step(st, c))
  {
    match st.mode
    case Between => StepBetweenAfter(before, st.done, c);
    case Bare(w) => StepBareAfter(before, st.done, w, c);
    case Operator(a) =>
      Associates(before, st.done, [Op([a, c])]);
      Associates(before, st.done, [Op([a])]);
      StepBetweenAfter(before, st.done + [Op([a])], c);
    case Comment => Associates(before, st.done, [Newline]);
    case _ =>
  }

  lemma {:induction false} RunAfter(before: seq<Token>, st: State, s: string)
    ensures Run(After(before, st), s) == After(before, Run(st, s))
    decreases |s|
  {
    if s != [] {
      StepAfter(before, st, s[0]);
      RunAfter(before, Step(st, s[0]), s[1..]);
    }
  }

  lemma FinishAfter(before: seq<Token>, st: State)
    ensures Finish(After(before, st)) == match Finish(st) case None => None case Some(r) => Some(before + r)
  {
    match st.mode
    case Bare(w) => Associates(before, st.done, [Word(w)]);
    case Operator(a) => Associates(before, st.done, [Op([a])]);
    case _ =>
  }

  // ---- What has been read stays read ----

  /** The tokens and the part of a word that a state has already settled. */
  predicate Foretells(st: State, r: seq<Token>) {
    st.done <= r &&
    match st.mode
    case Between => true
    case Bare(w) => BeginsWord(r, |st.done|, w)
    case Single(w) => BeginsWord(r, |st.done|, w)
    case Double(w) => BeginsWord(r, |st.done|, w)
    case DoubleEscaped(w) => BeginsWord(r, |st.done|, w)
    case Escaped(before) => before.Some? ==> BeginsWord(r, |st.done|, before.value)
    case Operator(a) => |r| > |st.done| && r[|st.done|].Op?
    case Comment => |r| > |st.done| ==> r[|st.done|] == Newline
  }

  predicate BeginsWord(r: seq<Token>, n: nat, w: Word) {
    n < |r| && r[n].Word? && w <= r[n].word
  }

  lemma StepForetells(st: State, c: char, r: seq<Token>)
    requires Foretells(Step(st, c), r)
    ensures Foretells(st, r)
  {
  }

  lemma {:induction false} RunForetells(st: State, s: string)
    requires Finish(Run(st, s)).Some?
    ensures Foretells(st, Finish(Run(st, s)).value)
    decreases |s|
  {
    if s != [] {
      RunForetells(Step(st, s[0]), s[1..]);
      StepForetells(st, s[0], Finish(Run(st, s)).value);
    }
  }

  // ---- A word that is not plain falls behind ----

  predicate IsQuoting(c: char) {
    c == '\'' || c == '"' || c == '\\'
  }

  /** What quoting is made of, and what may be skipped before a word or joined in one. */
  predicate IsFiller(c: char) {
    IsQuoting(c) || IsBlank(c) || c == '\n'
  }

  /** The part of a word that has been read so far. */
  function PartOf(m: Mode): Word {
    match m
    case Bare(w) => w
    case Single(w) => w
    case Double(w) => w
    case DoubleEscaped(w) => w
    case Escaped(Some(w)) => w
    case _ => []
  }

  /**
   * `p` characters of the text have been read, and fewer of them have come out, all as they are. From the
   * first quote, backslash or skipped blank on, the text can then only have been more of the same: a
   * character comes out as itself only where an earlier one of the text stands, and the rest is quoting.
   */
  predicate Lags(m: Mode, text: string, k: nat, p: nat) {
    && !m.Operator? && !m.Comment?
    && k <= |PartOf(m)| < p <= |text| && PartOf(m) == Text(text[..|PartOf(m)|])
    && (forall i :: k <= i < p ==> IsFiller(text[i]))
    && (m.DoubleEscaped? ==> |PartOf(m)| + 2 <= p)
    && (m.Escaped? ==> text[p - 1] == '\\')
  }

  predicate ReadsAs(r: seq<Token>, n: nat, text: string) {
    n < |r| && r[n] == W(text)
  }

  lemma PartIsBegun(st: State, text: string, r: seq<Token>)
    requires Foretells(st, r) && ReadsAs(r, |st.done|, text)
    ensures !st.mode.Operator? && !st.mode.Comment? && |PartOf(st.mode)| <= |text|
    ensures PartOf(st.mode) == Text(text[..|PartOf(st.mode)|])
  {
    var w := PartOf(st.mode);
    assert w <= Text(text);
    assert forall i :: 0 <= i < |w| ==> w[i] == Text(text)[i];
  }

  /** One more character of the text: it stays behind. */
  lemma LagStep(st: State, text: string, k: nat, p: nat, r: seq<Token>)
    requires Lags(st.mode, text, k, p) && p < |text|
    requires Foretells(Step(st, text[p]), r) && ReadsAs(r, |st.done|, text)
    ensures Step(st, text[p]).done == st.done && Lags(Step(st, text[p]).mode, text, k, p + 1)
  {
    var next, c, m := Step(st, text[p]), text[p], |PartOf(st.mode)|;
    StaysInWord(st, text, c, r);
    PartIsBegun(next, text, r);
    assert m < |PartOf(next.mode)| ==> PartOf(next.mode)[m] == Lit(text[m]);
    assert m + 1 < |PartOf(next.mode)| ==> PartOf(next.mode)[m + 1] == Lit(text[m + 1]);
  }

  /** The word cannot end while it is shorter than the text. */
  lemma StaysInWord(st: State, text: string, c: char, r: seq<Token>)
    requires !st.mode.Operator? && !st.mode.Comment? && |PartOf(st.mode)| < |text|
    requires Foretells(Step(st, c), r) && ReadsAs(r, |st.done|, text)
    ensures Step(st, c).done == st.done
  {
  }

  lemma {:induction false} LagRun(st: State, text: string, k: nat, p: nat, rest: string, r: seq<Token>) returns (end: State)
    requires Lags(st.mode, text, k, p) && ReadsAs(r, |st.done|, text)
    requires Finish(Run(st, text[p..] + rest)) == Some(r)
    ensures end.done == st.done && Lags(end.mode, text, k, |text|) && Finish(Run(end, rest)) == Some(r)
    decreases |text| - p
  {
    if p == |text| {
      assert text[p..] + rest == rest;
      end := st;
    } else {
      assert text[p..] + rest == [text[p]] + (text[p + 1..] + rest);
      assert ([text[p]] + (text[p + 1..] + rest))[1..] == text[p + 1..] + rest;
      RunForetells(Step(st, text[p]), text[p + 1..] + rest);
      LagStep(st, text, k, p, r);
      end := LagRun(Step(st, text[p]), text, k, p + 1, rest, r);
    }
  }

  /** What follows a name in the command: ` |`, or ` 'e`. */
  predicate EndsName(rest: string) {
    |rest| >= 3 && rest[0] == ' ' && (rest[1] == '|' || (rest[1] == '\'' && rest[2] == 'e'))
  }

  lemma RunTwo(st: State, a: char, b: char)
    ensures Run(st, [a, b]) == Step(Step(st, a), b)
  {
    assert [a, b][1..] == [b];
    RunOne(Step(st, a), b);
  }

  lemma ForetellsThree(st: State, rest: string, r: seq<Token>)
    requires |rest| >= 3 && Finish(Run(st, rest)) == Some(r)
    ensures Foretells(Step(st, rest[0]), r) && Foretells(Step(Step(st, rest[0]), rest[1]), r)
    ensures Foretells(Step(Step(Step(st, rest[0]), rest[1]), rest[2]), r)
  {
    var s1, s2 := Step(st, rest[0]), Step(Step(st, rest[0]), rest[1]);
    assert rest[1..][0] == rest[1] && rest[1..][1..] == rest[2..] && rest[2..][0] == rest[2];
    RunForetells(s1, rest[1..]);
    RunForetells(s2, rest[2..]);
    RunForetells(Step(s2, rest[2]), rest[2..][1..]);
  }

  /** What is behind at the end of the name does not catch up with it there. */
  lemma NeverCatchesUp(st: State, text: string, k: nat, rest: string, r: seq<Token>)
    requires Lags(st.mode, text, k, |text|) && EndsName(rest) && Finish(Run(st, rest)) == Some(r)
    ensures !ReadsAs(r, |st.done|, text)
  {
    if ReadsAs(r, |st.done|, text) {
      var m := |PartOf(st.mode)|;
      var s1 := Step(st, ' ');
      ForetellsThree(st, rest, r);
      StaysInWord(st, text, ' ', r);
      PartIsBegun(s1, text, r);
      assert m < |PartOf(s1.mode)| ==> PartOf(s1.mode)[m] == Lit(text[m]);
      AfterTheBlank(s1, text, k, rest, r);
    }
  }

  lemma AfterTheBlank(s1: State, text: string, k: nat, rest: string, r: seq<Token>)
    requires k <= |PartOf(s1.mode)| <= |text| && (forall i :: k <= i < |text| ==> IsFiller(text[i]))
    requires s1.mode.Between? || s1.mode.Single? || s1.mode.Double? || (s1.mode.Bare? && |PartOf(s1.mode)| < |text|)
    requires s1.mode.Between? ==> text != []
    requires EndsName(rest) && Foretells(Step(s1, rest[1]), r) && Foretells(Step(Step(s1, rest[1]), rest[2]), r)
    ensures !ReadsAs(r, |s1.done|, text)
  {
    var w, s2 := PartOf(s1.mode), Step(s1, rest[1]);
    if rest[1] == '|' && (s1.mode.Between? || s1.mode.Bare?) {
      EndsEarly(s1, text, '|', r);
    } else if rest[1] == '|' {
      NoFillerComesOut(s2, text, k, w, '|', r);
    } else {
      NoFillerComesOut(Step(s2, rest[2]), text, k, PartOf(s2.mode), 'e', r);
    }
  }

  lemma EndsEarly(st: State, text: string, c: char, r: seq<Token>)
    requires st.mode.Between? || st.mode.Bare?
    requires |PartOf(st.mode)| < |text| && Foretells(Step(st, c), r) && IsOperatorChar(c)
    ensures !ReadsAs(r, |st.done|, text)
  {
  }

  /** A character that is no filler cannot come out among the last of the text, or after it. */
  lemma NoFillerComesOut(st: State, text: string, k: nat, w: Word, c: char, r: seq<Token>)
    requires Foretells(st, r) && PartOf(st.mode) == w + [Lit(c)] && k <= |w| && !IsFiller(c)
    requires forall i :: k <= i < |text| ==> IsFiller(text[i])
    ensures !ReadsAs(r, |st.done|, text)
  {
    assert PartOf(st.mode)[|w|] == Lit(c);
    if |st.done| < |r| && r[|st.done|].Word? && |w| < |text| {
      assert Text(text)[|w|] == Lit(text[|w|]);
    }
  }

  // ---- Only plain words are read as themselves ----

  /** The first character that does not stand for itself. */
  lemma FallsBehind(st: State, text: string, p: nat, r: seq<Token>)
    requires p < |text| && (st.mode == Bare(Text(text[..p])) || (st.mode == Between && p == 0))
    requires !IsPlainChar(text[p]) || (st.mode == Between && text[p] == '#')
    requires Foretells(Step(st, text[p]), r) && ReadsAs(r, |st.done|, text)
    ensures Step(st, text[p]).done == st.done && Lags(Step(st, text[p]).mode, text, p, p + 1)
  {
    StaysInWord(st, text, text[p], r);
    PartIsBegun(Step(st, text[p]), text, r);
    ComesOut(Step(st, text[p]), text, p, r);
  }

  lemma ComesOut(st: State, text: string, i: nat, r: seq<Token>)
    requires Foretells(st, r) && ReadsAs(r, |st.done|, text)
    ensures i < |PartOf(st.mode)| ==> i < |text| && PartOf(st.mode)[i] == Lit(text[i])
  {
    PartIsBegun(st, text, r);
  }

  lemma {:induction false} InsideWord(done: seq<Token>, text: string, p: nat, rest: string, r: seq<Token>)
    requires p < |text| && !IsPlain(text[p..]) && EndsName(rest)
    requires Finish(Run(State(done, Bare(Text(text[..p]))), text[p..] + rest)) == Some(r)
    ensures !ReadsAs(r, |done|, text)
    decreases |text| - p
  {
    var st, c := State(done, Bare(Text(text[..p]))), text[p];
    assert text[p..] + rest == [c] + (text[p + 1..] + rest);
    assert ([c] + (text[p + 1..] + rest))[1..] == text[p + 1..] + rest;
    RunForetells(Step(st, c), text[p + 1..] + rest);
    if IsPlainChar(c) {
      assert Text(text[..p]) + [Lit(c)] == Text(text[..p + 1]);
      if p + 1 < |text| { InsideWord(done, text, p + 1, rest, r); }
    } else if ReadsAs(r, |done|, text) {
      FallsBehind(st, text, p, r);
      var end := LagRun(Step(st, c), text, p, p + 1, rest, r);
      NeverCatchesUp(end, text, p, rest, r);
    }
  }

  lemma AtTheStart(done: seq<Token>, text: string, rest: string, r: seq<Token>)
    requires text != [] && !IsPlainWord(text) && EndsName(rest)
    requires Finish(Run(State(done, Between), text + rest)) == Some(r)
    ensures !ReadsAs(r, |done|, text)
  {
    var st, c := State(done, Between), text[0];
    assert (text + rest)[0] == c && (text + rest)[1..] == text[1..] + rest;
    RunForetells(Step(st, c), text[1..] + rest);
    if IsPlainChar(c) && c != '#' {
      assert [] + [Lit(c)] == Text(text[..1]);
      InsideWord(done, text, 1, rest, r);
    } else if ReadsAs(r, |done|, text) {
      FallsBehind(st, text, 0, r);
      var end := LagRun(Step(st, c), text, 0, 1, rest, r);
      NeverCatchesUp(end, text, 0, rest, r);
    }
  }

  lemma NothingIsNoWord(done: seq<Token>, rest: string, r: seq<Token>)
    requires EndsName(rest) && Finish(Run(State(done, Between), rest)) == Some(r)
    ensures !ReadsAs(r, |done|, [])
  {
    ForetellsThree(State(done, Between), rest, r);
  }

  /** A name, up to the blank that ends it, is read as itself exactly when it is a plain word. */
  lemma OnlyPlainWords(done: seq<Token>, text: string, rest: string, r: seq<Token>)
    requires EndsName(rest) && Finish(Run(State(done, Between), text + rest)) == Some(r)
    ensures ReadsAs(r, |done|, text) <==> IsPlainWord(text)
  {
    if IsPlainWord(text) {
      RunAppend(State(done, Between), text, rest);
      RunPlainBetween(done, text);
      RunForetells(Step(State(done, Bare(Text(text))), ' '), rest[1..]);
    } else if text == [] {
      assert text + rest == rest;
      NothingIsNoWord(done, rest, r);
    } else {
      AtTheStart(done, text, rest, r);
    }
  }
}
