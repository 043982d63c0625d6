/**
 * Publishing a synced session: the review branch and the hidden head ref move together, by
 * compare-and-swap, while other publishers and outside writers move refs and add commits
 * (src/git/session_refs.rs). Git is the environment: a command works, exits with a failure,
 * or ends in an error after which its effect may or may not have happened.
 */
module SessionRefs {

  import opened Common

  // ---- Commits ----

  type Oid = string

  type Commits = map<Oid, set<Oid>>

  /** A walk along parents, from a commit back to one of its ancestors. */
  ghost predicate Walk(commits: Commits, path: seq<Oid>, from: Oid, to: Oid) {
    && path != [] && path[0] == from && path[|path| - 1] == to
    && (forall k :: 0 <= k < |path| ==> path[k] in commits)
    && forall k :: 0 <= k < |path| - 1 ==> path[k + 1] in commits[path[k]]
  }

  /** `git merge-base --is-ancestor a b`: a commit is its own ancestor. */
  ghost predicate Ancestor(commits: Commits, a: Oid, b: Oid) {
    exists path :: Walk(commits, path, b, a)
  }

  /** Commits are only ever added, and a commit's parents never change. */
  predicate Grows(before: Commits, after: Commits) {
    forall c :: c in before ==> c in after && after[c] == before[c]
  }

  lemma AncestorSelf(commits: Commits, a: Oid)
    requires a in commits
    ensures Ancestor(commits, a, a)
  {
    assert Walk(commits, [a], a, a);
  }

  lemma AncestorStable(before: Commits, after: Commits, a: Oid, b: Oid)
    requires Grows(before, after) && Ancestor(before, a, b)
    ensures Ancestor(after, a, b)
  {
    var path :| Walk(before, path, b, a);
    assert Walk(after, path, b, a);
  }

  lemma AncestorTransitive(commits: Commits, a: Oid, b: Oid, c: Oid)
    requires Ancestor(commits, a, b) && Ancestor(commits, b, c)
    ensures Ancestor(commits, a, c)
  {
    var late :| Walk(commits, late, c, b);
    var early :| Walk(commits, early, b, a);
    var path := late + early[1..];
    forall k | 0 <= k < |path| - 1 ensures path[k + 1] in commits[path[k]] {
      if k >= |late| - 1 {
        assert path[k] == early[k - (|late| - 1)] && path[k + 1] == early[k - (|late| - 1) + 1];
      }
    }
    assert Walk(commits, path, c, a);
  }

  // ---- Refs ----

  type Ref = string

  /** Git's all-zero object name: as an expected value it means the ref must not exist. */
  const ZEROS: Oid := Zeros(40)

  function Zeros(n: nat): (r: string)
    ensures |r| == n && forall i :: 0 <= i < n ==> r[i] == '0'
  {
    if n == 0 then [] else ['0'] + Zeros(n - 1)
  }

  lemma ZerosAreForty()
    ensures |ZEROS| == 40 && forall i :: 0 <= i < 40 ==> ZEROS[i] == '0'
  {
  }

  datatype Repo = Repo(commits: Commits, refs: map<Ref, Oid>)

  function ReviewRef(session: string): Ref {
    "refs/heads/" + ("agbranch/" + session)
  }

  function HeadRef(session: string): Ref {
    "refs/agbranch/sessions/" + (session + "/head")
  }

  /** A review branch is never a hidden head, whatever the sessions are called. */
  lemma ReviewIsNotHead(s: string, t: string)
    ensures ReviewRef(s) != HeadRef(t)
  {
    assert ReviewRef(s)[5] == 'h' && HeadRef(t)[5] == 'a';
  }

  predicate Matches(refs: map<Ref, Oid>, name: Ref, expected: Oid) {
    if expected == ZEROS then name !in refs else name in refs && refs[name] == expected
  }

  datatype Job = Job(session: string, source: Oid, expectedHead: Oid)

  /** The transaction can commit: both refs have their expected values and the new value is a commit. */
  predicate CanCommit(repo: Repo, job: Job, expectedReview: Oid) {
    && job.source in repo.commits
    && Matches(repo.refs, ReviewRef(job.session), expectedReview)
    && Matches(repo.refs, HeadRef(job.session), job.expectedHead)
  }

  function Committed(repo: Repo, job: Job): Repo {
    repo.(refs := repo.refs[ReviewRef(job.session) := job.source][HeadRef(job.session) := job.source])
  }

  // ---- One publisher ----

  /** `Ok(true)`, `Ok(false)` or an error. */
  datatype Outcome = Published | Refused | Errored

  datatype Pc = Begin | Found | Read(current: Oid) | Ready(expectedReview: Oid) | Done(outcome: Outcome)

  /** How a git command ends; a broken transaction may or may not have landed. */
  datatype End = Works | Fails | Breaks(landed: bool)

  /** One command of `publish_synced_refs`. */
  ghost function Advance(repo: Repo, job: Job, pc: Pc, end: End): (Repo, Pc) {
    match pc
    case Begin =>
      (repo, if end.Breaks? then Done(Errored)
             else if end.Works? && ReviewRef(job.session) in repo.refs then Found
             else Ready(ZEROS))
    case Found =>
      (repo, if end.Works? && ReviewRef(job.session) in repo.refs then Read(repo.refs[ReviewRef(job.session)])
             else Done(Errored))
    case Read(current) =>
      (repo, if end.Breaks? || (end.Works? && !(current in repo.commits && job.source in repo.commits)) then Done(Errored)
             else if end.Works? && Ancestor(repo.commits, current, job.source) then Ready(current)
             else Done(Refused))
    case Ready(expected) =>
      if end.Works? && CanCommit(repo, job, expected) then (Committed(repo, job), Done(Published))
      else if end.Breaks? then
        (if end.landed && CanCommit(repo, job, expected) then Committed(repo, job) else repo, Done(Errored))
      else (repo, Done(Refused))
    case Done(_) => (repo, pc)
  }

  // ---- Which command ends a call, and how ----

  /** The command breaks, or the ref it found cannot be resolved, or a commit it asks about is unknown. */
  predicate Errs(repo: Repo, job: Job, pc: Pc, end: End) {
    match pc
    case Begin => end.Breaks?
    case Found => !end.Works? || ReviewRef(job.session) !in repo.refs
    case Read(current) => end.Breaks? || (end.Works? && !({current, job.source} <= repo.commits.Keys))
    case Ready(_) => end.Breaks?
    case Done(_) => false
  }

  /** The review branch is no ancestor of the source, or the transaction does not commit. */
  ghost predicate Declines(repo: Repo, job: Job, pc: Pc, end: End) {
    match pc
    case Read(current) =>
      end.Fails? ||
      (end.Works? && current in repo.commits && job.source in repo.commits && !Ancestor(repo.commits, current, job.source))
    case Ready(expected) => end.Fails? || (end.Works? && !CanCommit(repo, job, expected))
    case _ => false
  }

  predicate Publishes(repo: Repo, job: Job, pc: Pc, end: End) {
    pc.Ready? && end.Works? && CanCommit(repo, job, pc.expectedReview)
  }

  /** What ends a call, and otherwise what it knows next: the branch's value, which is then what it expects. */
  lemma CommandEndsCallIff(repo: Repo, job: Job, pc: Pc, end: End)
    requires !pc.Done?
    ensures var pc' := Advance(repo, job, pc, end).1;
      && (pc' == Done(Errored) <==> Errs(repo, job, pc, end))
      && (pc' == Done(Refused) <==> Declines(repo, job, pc, end))
      && (pc' == Done(Published) <==> Publishes(repo, job, pc, end))
      && !pc'.Begin?
      && (pc'.Found? ==> pc.Begin? && ReviewRef(job.session) in repo.refs)
      && (pc'.Read? ==> pc.Found? && ReviewRef(job.session) in repo.refs && pc'.current == repo.refs[ReviewRef(job.session)])
      && (pc'.Ready? ==> if pc.Begin? then pc' == Ready(ZEROS) else pc == Read(pc'.expectedReview))
      && (pc.Begin? && end.Works? ==> (pc'.Found? <==> ReviewRef(job.session) in repo.refs))
  {
  }

  /** What a publisher knows when it asks for the transaction. */
  ghost predicate Checked(repo: Repo, job: Job, pc: Pc) {
    pc.Ready? ==> pc.expectedReview == ZEROS || Ancestor(repo.commits, pc.expectedReview, job.source)
  }

  lemma CheckedIsStable(before: Repo, after: Repo, job: Job, pc: Pc)
    requires Grows(before.commits, after.commits) && Checked(before, job, pc)
    ensures Checked(after, job, pc)
  {
    if pc.Ready? && pc.expectedReview != ZEROS {
      AncestorStable(before.commits, after.commits, pc.expectedReview, job.source);
    }
  }

  /** A step either leaves the repository alone or moves both refs, the review branch from nothing or an ancestor. */
  ghost predicate MovesForward(before: Repo, after: Repo, job: Job) {
    var review, head := ReviewRef(job.session), HeadRef(job.session);
    && after.commits == before.commits
    && job.source in before.commits
    && (review in before.refs ==> Ancestor(before.commits, before.refs[review], job.source))
    && Matches(before.refs, head, job.expectedHead)
    && review in after.refs && after.refs[review] == job.source
    && head in after.refs && after.refs[head] == job.source
    && forall name :: name != review && name != head ==>
         (name in after.refs <==> name in before.refs) && (name in before.refs ==> after.refs[name] == before.refs[name])
  }

  lemma CommitMovesForward(repo: Repo, job: Job, expected: Oid)
    requires CanCommit(repo, job, expected) && Checked(repo, job, Ready(expected))
    ensures MovesForward(repo, Committed(repo, job), job)
  {
    ReviewIsNotHead(job.session, job.session);
  }

  /**
   * Both refs or neither, errors included; success means both were moved by this very step; a plain
   * refusal moved nothing; and no publisher succeeds once the review branch differs from what it read.
   */
  lemma EveryStepIsAllOrNothing(repo: Repo, job: Job, pc: Pc, end: End)
    requires Checked(repo, job, pc)
    ensures var (repo', pc') := Advance(repo, job, pc, end);
      && (repo' == repo || MovesForward(repo, repo', job))
      && (pc' == Done(Published) && pc != pc' ==> MovesForward(repo, repo', job))
      && (pc' == Done(Refused) ==> repo' == repo)
      && (pc.Ready? && !Matches(repo.refs, ReviewRef(job.session), pc.expectedReview) ==>
            repo' == repo && pc' != Done(Published))
  {
    if pc.Ready? && CanCommit(repo, job, pc.expectedReview) {
      CommitMovesForward(repo, job, pc.expectedReview);
    }
  }

  // ---- Any number of publishers, outside writers and new commits ----

  datatype Thread = Thread(job: Job, pc: Pc)

  datatype World = World(repo: Repo, threads: map<nat, Thread>)

  datatype Label = Start(pid: nat, job: Job) | Command(pid: nat, end: End) | Outside(repo: Repo)

  ghost predicate Enabled(w: World, l: Label) {
    match l
    case Start(_, _) => true
    case Command(pid, _) => pid in w.threads
    case Outside(repo) => Grows(w.repo.commits, repo.commits)
  }

  ghost function Next(w: World, l: Label): World
    requires Enabled(w, l)
  {
    match l
    case Start(pid, job) => w.(threads := w.threads[pid := Thread(job, Begin)])
    case Command(pid, end) =>
      var t := w.threads[pid];
      var (repo, pc) := Advance(w.repo, t.job, t.pc, end);
      World(repo, w.threads[pid := Thread(t.job, pc)])
    case Outside(repo) => w.(repo := repo)
  }

  ghost predicate IsRun(ws: seq<World>, ls: seq<Label>) {
    && |ws| == |ls| + 1 && ws[0].threads == map[]
    && forall i :: 0 <= i < |ls| ==> Enabled(ws[i], ls[i]) && ws[i + 1] == Next(ws[i], ls[i])
  }

  ghost predicate AllChecked(w: World) {
    forall pid :: pid in w.threads ==> Checked(w.repo, w.threads[pid].job, w.threads[pid].pc)
  }

  lemma NextKeepsChecked(w: World, l: Label)
    requires Enabled(w, l) && AllChecked(w)
    ensures AllChecked(Next(w, l)) && Grows(w.repo.commits, Next(w, l).repo.commits)
  {
    var w' := Next(w, l);
    forall pid | pid in w'.threads ensures Checked(w'.repo, w'.threads[pid].job, w'.threads[pid].pc) {
      if pid in w.threads && w'.threads[pid] == w.threads[pid] {
        CheckedIsStable(w.repo, w'.repo, w.threads[pid].job, w.threads[pid].pc);
      }
    }
  }

  lemma {:induction false} RunKeepsChecked(ws: seq<World>, ls: seq<Label>, i: nat)
    requires IsRun(ws, ls) && i < |ws|
    ensures AllChecked(ws[i])
  {
    if i > 0 {
      RunKeepsChecked(ws, ls, i - 1);
      NextKeepsChecked(ws[i - 1], ls[i - 1]);
    }
  }

  /**
   * In every run, each command of each publisher moves both refs forward together, or nothing at all, also
   * when it ends in an error; and a publisher that has read a value the review branch no longer has moves
   * nothing and does not succeed.
   */
  lemma PublishersOnlyMoveForward(ws: seq<World>, ls: seq<Label>, i: nat)
    requires IsRun(ws, ls) && i < |ls| && ls[i].Command?
    ensures var before, after := ws[i].threads[ls[i].pid], ws[i + 1].threads[ls[i].pid];
      && (ws[i + 1].repo == ws[i].repo || MovesForward(ws[i].repo, ws[i + 1].repo, before.job))
      && (after.pc == Done(Published) && !before.pc.Done? ==> MovesForward(ws[i].repo, ws[i + 1].repo, before.job))
      && (after.pc == Done(Refused) ==> ws[i + 1].repo == ws[i].repo)
      && (before.pc.Ready? && !Matches(ws[i].repo.refs, ReviewRef(before.job.session), before.pc.expectedReview) ==>
            ws[i + 1].repo == ws[i].repo && after.pc != Done(Published))
  {
    RunKeepsChecked(ws, ls, i);
    var t := ws[i].threads[ls[i].pid];
    EveryStepIsAllOrNothing(ws[i].repo, t.job, t.pc, ls[i].end);
  }

  // ---- One ancestry chain ----

  /** Outside steps may do anything except write this ref. */
  ghost predicate OnlyPublishersWrite(ws: seq<World>, ls: seq<Label>, name: Ref)
    requires IsRun(ws, ls)
  {
    forall i :: 0 <= i < |ls| && ls[i].Outside? ==> SameRef(ws[i].repo, ls[i].repo, name)
  }

  ghost predicate SameRef(a: Repo, b: Repo, name: Ref) {
    if name in a.refs then name in b.refs && b.refs[name] == a.refs[name] else name !in b.refs
  }

  /** Every ref names a commit. */
  ghost predicate NamesCommits(repo: Repo) {
    forall name :: name in repo.refs ==> repo.refs[name] in repo.commits
  }

  ghost predicate Descends(early: Repo, late: Repo, name: Ref) {
    && Grows(early.commits, late.commits)
    && (name in early.refs ==> name in late.refs && Ancestor(late.commits, early.refs[name], late.refs[name]))
  }

  lemma NextDescends(w: World, l: Label, session: string)
    requires Enabled(w, l) && AllChecked(w) && NamesCommits(w.repo)
    requires l.Outside? ==> SameRef(w.repo, l.repo, ReviewRef(session))
    ensures Descends(w.repo, Next(w, l).repo, ReviewRef(session))
  {
    var name, w' := ReviewRef(session), Next(w, l);
    NextKeepsChecked(w, l);
    if l.Command? {
      var t := w.threads[l.pid];
      EveryStepIsAllOrNothing(w.repo, t.job, t.pc, l.end);
      ReviewIsNotHead(session, t.job.session);
    }
    if name in w.repo.refs {
      AncestorSelf(w.repo.commits, w.repo.refs[name]);
      AncestorStable(w.repo.commits, w'.repo.commits, w.repo.refs[name], w.repo.refs[name]);
    }
  }

  lemma DescendsTransitive(a: Repo, b: Repo, c: Repo, name: Ref)
    requires Descends(a, b, name) && Descends(b, c, name)
    ensures Descends(a, c, name)
  {
    if name in a.refs {
      AncestorStable(b.commits, c.commits, a.refs[name], b.refs[name]);
      AncestorTransitive(c.commits, a.refs[name], b.refs[name], c.refs[name]);
    }
  }

  /**
   * If only publishers write a review branch, then it never disappears again and every value it ever
   * held is an ancestor of every later one: its values form one ancestry chain.
   */
  lemma {:induction false} ReviewBranchIsAChain(ws: seq<World>, ls: seq<Label>, session: string, i: nat, j: nat)
    requires IsRun(ws, ls) && OnlyPublishersWrite(ws, ls, ReviewRef(session))
    requires forall k :: 0 <= k < |ws| ==> NamesCommits(ws[k].repo)
    requires i <= j < |ws|
    ensures Descends(ws[i].repo, ws[j].repo, ReviewRef(session))
    decreases j - i
  {
    var name := ReviewRef(session);
    if i == j {
      if name in ws[i].repo.refs { AncestorSelf(ws[i].repo.commits, ws[i].repo.refs[name]); }
    } else {
      ReviewBranchIsAChain(ws, ls, session, i, j - 1);
      RunKeepsChecked(ws, ls, j - 1);
      NextDescends(ws[j - 1], ls[j - 1], session);
      DescendsTransitive(ws[i].repo, ws[j - 1].repo, ws[j].repo, name);
    }
  }

  // ---- A publisher left alone ----

  ghost function Alone(repo: Repo, job: Job, pc: Pc, commands: nat): (Repo, Pc)
    decreases commands
  {
    if commands == 0 then (repo, pc)
    else var (r, p) := Advance(repo, job, pc, Works); Alone(r, job, p, commands - 1)
  }

  /** Undisturbed, and with git working, four commands publish exactly when that is a fast forward from the expected head. */
  lemma AlonePublishesIff(repo: Repo, job: Job)
    requires NamesCommits(repo) && ZEROS !in repo.commits
    ensures Alone(repo, job, Begin, 4).1 == Done(Published) <==>
      && job.source in repo.commits
      && (ReviewRef(job.session) in repo.refs ==>
            Ancestor(repo.commits, repo.refs[ReviewRef(job.session)], job.source))
      && Matches(repo.refs, HeadRef(job.session), job.expectedHead)
    ensures Alone(repo, job, Begin, 4).1.Done?
  {
    var review := ReviewRef(job.session);
    if review in repo.refs {
      assert Alone(repo, job, Begin, 4) == Alone(repo, job, Found, 3);
      assert Alone(repo, job, Found, 3) == Alone(repo, job, Read(repo.refs[review]), 2);
      if job.source in repo.commits && Ancestor(repo.commits, repo.refs[review], job.source) {
        AloneCommits(repo, job, repo.refs[review], 0);
      } else {
        DoneStays(repo, job, Advance(repo, job, Read(repo.refs[review]), Works).1.outcome, 1);
      }
    } else {
      AloneCommits(repo, job, ZEROS, 2);
    }
  }

  /**
   * And it ends in an error exactly when there is a review branch and one of the two commits is unknown;
   * refused, exactly when they are known and the branch is no ancestor, or when the head has moved, or
   * when there is no review branch and the source is unknown.
   */
  lemma AloneErrsOrRefusesIff(repo: Repo, job: Job)
    requires NamesCommits(repo) && ZEROS !in repo.commits
    ensures Alone(repo, job, Begin, 4).1 == Done(Errored) <==>
      ReviewRef(job.session) in repo.refs && job.source !in repo.commits
    ensures Alone(repo, job, Begin, 4).1 == Done(Refused) <==>
      if job.source !in repo.commits then ReviewRef(job.session) !in repo.refs
      else
        || !Matches(repo.refs, HeadRef(job.session), job.expectedHead)
        || (ReviewRef(job.session) in repo.refs &&
              !Ancestor(repo.commits, repo.refs[ReviewRef(job.session)], job.source))
  {
    var review := ReviewRef(job.session);
    AlonePublishesIff(repo, job);
    if review in repo.refs {
      assert Alone(repo, job, Begin, 4) == Alone(repo, job, Found, 3);
      assert Alone(repo, job, Found, 3) == Alone(repo, job, Read(repo.refs[review]), 2);
      if job.source in repo.commits && Ancestor(repo.commits, repo.refs[review], job.source) {
        AloneCommits(repo, job, repo.refs[review], 0);
      } else {
        DoneStays(repo, job, Advance(repo, job, Read(repo.refs[review]), Works).1.outcome, 1);
      }
    } else {
      AloneCommits(repo, job, ZEROS, 2);
    }
  }

  lemma {:induction false} DoneStays(repo: Repo, job: Job, outcome: Outcome, commands: nat)
    ensures Alone(repo, job, Done(outcome), commands) == (repo, Done(outcome))
  {
    if commands > 0 { DoneStays(repo, job, outcome, commands - 1); }
  }

  lemma AloneCommits(repo: Repo, job: Job, expected: Oid, more: nat)
    ensures Alone(repo, job, Ready(expected), 1 + more) ==
      if CanCommit(repo, job, expected) then (Committed(repo, job), Done(Published)) else (repo, Done(Refused))
  {
    var (r, p) := Advance(repo, job, Ready(expected), Works);
    DoneStays(r, job, p.outcome, more);
  }

  /** A publisher that starts and is then left alone, in the world of all publishers. */
  ghost function PlayAlone(w: World, pid: nat, commands: nat): World
    requires pid in w.threads
    decreases commands
  {
    if commands == 0 then w else PlayAlone(Next(w, Command(pid, Works)), pid, commands - 1)
  }

  lemma {:induction false} PlayIsAlone(w: World, pid: nat, commands: nat)
    requires pid in w.threads
    ensures var end := PlayAlone(w, pid, commands);
      pid in end.threads && (end.repo, end.threads[pid].pc) == Alone(w.repo, w.threads[pid].job, w.threads[pid].pc, commands)
    decreases commands
  {
    if commands > 0 { PlayIsAlone(Next(w, Command(pid, Works)), pid, commands - 1); }
  }

  /** So in the middle of any run: a publisher that starts and is left alone for four commands ends as above. */
  lemma StartedAloneEnds(w: World, pid: nat, job: Job)
    ensures var end := PlayAlone(Next(w, Start(pid, job)), pid, 4);
      pid in end.threads && (end.repo, end.threads[pid].pc) == Alone(w.repo, job, Begin, 4)
  {
    PlayIsAlone(Next(w, Start(pid, job)), pid, 4);
  }

  // ---- The method ----

  /** What one publisher sees: its own commands, and between them anything the others do. */
  ghost predicate IsPublisherTrace(job: Job, trace: seq<(Repo, Pc)>, ends: seq<Option<End>>) {
    && |trace| == |ends| + 1 && trace[0].1 == Begin
    && forall i :: 0 <= i < |ends| ==> TraceStep(job, trace[i], trace[i + 1], ends[i])
  }

  ghost predicate TraceStep(job: Job, s: (Repo, Pc), t: (Repo, Pc), end: Option<End>) {
    match end
    case Some(e) => t == Advance(s.0, job, s.1, e)
    case None => t.1 == s.1 && Grows(s.0.commits, t.0.commits)
  }

  lemma {:induction false} TraceKeepsChecked(job: Job, trace: seq<(Repo, Pc)>, ends: seq<Option<End>>, i: nat)
    requires IsPublisherTrace(job, trace, ends) && i < |trace|
    ensures Checked(trace[i].0, job, trace[i].1)
  {
    if i > 0 {
      TraceKeepsChecked(job, trace, ends, i - 1);
      assert TraceStep(job, trace[i - 1], trace[i], ends[i - 1]);
      match ends[i - 1]
      case Some(e) =>
      case None => CheckedIsStable(trace[i - 1].0, trace[i].0, job, trace[i].1);
    }
  }

  lemma {:induction false} DoneIsForever(job: Job, trace: seq<(Repo, Pc)>, ends: seq<Option<End>>, i: nat, j: nat)
    requires IsPublisherTrace(job, trace, ends) && i <= j < |trace| && trace[i].1.Done?
    ensures trace[j].1 == trace[i].1
  {
    if i < j {
      DoneIsForever(job, trace, ends, i, j - 1);
      assert TraceStep(job, trace[j - 1], trace[j], ends[j - 1]);
    }
  }

  /**
   * A call moves refs at most once, both together and forward, and then it does not report a refusal.
   */
  lemma ACallMovesAtMostOnce(job: Job, trace: seq<(Repo, Pc)>, ends: seq<Option<End>>, i: nat, j: nat)
    requires IsPublisherTrace(job, trace, ends)
    requires i < |ends| && ends[i].Some? && trace[i + 1].0 != trace[i].0
    requires j < |ends| && ends[j].Some? && j != i
    ensures MovesForward(trace[i].0, trace[i + 1].0, job)
    ensures trace[|trace| - 1].1 in {Done(Published), Done(Errored)}
    ensures trace[j + 1].0 == trace[j].0
  {
    TraceKeepsChecked(job, trace, ends, i);
    assert TraceStep(job, trace[i], trace[i + 1], ends[i]);
    assert TraceStep(job, trace[j], trace[j + 1], ends[j]);
    EveryStepIsAllOrNothing(trace[i].0, job, trace[i].1, ends[i].value);
    DoneIsForever(job, trace, ends, i + 1, |trace| - 1);
    if i < j {
      DoneIsForever(job, trace, ends, i + 1, j);
    } else if trace[j + 1].0 != trace[j].0 {
      DoneIsForever(job, trace, ends, j + 1, i);
    }
  }

  /** A call that reports success did move both refs, itself, in one of its own commands. */
  lemma {:induction false} ASuccessMoved(job: Job, trace: seq<(Repo, Pc)>, ends: seq<Option<End>>, n: nat) returns (i: nat)
    requires IsPublisherTrace(job, trace, ends) && n < |trace| && trace[n].1 == Done(Published)
    ensures i < |ends| && ends[i].Some? && trace[i].1.Ready? && trace[i + 1].1 == Done(Published)
    ensures MovesForward(trace[i].0, trace[i + 1].0, job)
    ensures Matches(trace[i].0.refs, ReviewRef(job.session), trace[i].1.expectedReview)
  {
    assert TraceStep(job, trace[n - 1], trace[n], ends[n - 1]);
    if trace[n - 1].1 == Done(Published) {
      i := ASuccessMoved(job, trace, ends, n - 1);
    } else {
      i := n - 1;
      TraceKeepsChecked(job, trace, ends, i);
      EveryStepIsAllOrNothing(trace[i].0, job, trace[i].1, ends[i].value);
    }
  }

  /** The command of a call that ended it. */
  lemma {:induction false} EndOfCall(job: Job, trace: seq<(Repo, Pc)>, ends: seq<Option<End>>, n: nat) returns (i: nat)
    requires IsPublisherTrace(job, trace, ends) && n < |trace| && trace[n].1.Done?
    ensures i < n && ends[i].Some? && !trace[i].1.Done? && trace[i + 1].1 == trace[n].1
  {
    assert TraceStep(job, trace[n - 1], trace[n], ends[n - 1]);
    i := n - 1;
    if trace[n - 1].1.Done? { i := EndOfCall(job, trace, ends, n - 1); }
  }

  ghost predicate ErrsAt(job: Job, trace: seq<(Repo, Pc)>, ends: seq<Option<End>>, i: nat) {
    i < |ends| && i < |trace| && ends[i].Some? && Errs(trace[i].0, job, trace[i].1, ends[i].value)
  }

  ghost predicate DeclinesAt(job: Job, trace: seq<(Repo, Pc)>, ends: seq<Option<End>>, i: nat) {
    i < |ends| && i < |trace| && ends[i].Some? && Declines(trace[i].0, job, trace[i].1, ends[i].value)
  }

  ghost predicate PublishesAt(job: Job, trace: seq<(Repo, Pc)>, ends: seq<Option<End>>, i: nat) {
    i < |ends| && i < |trace| && ends[i].Some? && Publishes(trace[i].0, job, trace[i].1, ends[i].value)
  }

  lemma CommandDecides(job: Job, trace: seq<(Repo, Pc)>, ends: seq<Option<End>>, i: nat)
    requires IsPublisherTrace(job, trace, ends)
    ensures var last := trace[|trace| - 1].1;
      && (ErrsAt(job, trace, ends, i) ==> last == Done(Errored))
      && (DeclinesAt(job, trace, ends, i) ==> last == Done(Refused))
      && (PublishesAt(job, trace, ends, i) ==> last == Done(Published))
  {
    if i < |ends| && ends[i].Some? && !trace[i].1.Done? {
      assert TraceStep(job, trace[i], trace[i + 1], ends[i]);
      CommandEndsCallIff(trace[i].0, job, trace[i].1, ends[i].value);
      if trace[i + 1].1.Done? { DoneIsForever(job, trace, ends, i + 1, |trace| - 1); }
    }
  }

  /**
   * Whatever others do meanwhile: a call errs exactly when one of its commands broke, the branch it found
   * could not be resolved, or a commit it asked about is unknown; it is refused exactly when the value it
   * read is no ancestor of the source, or the transaction's expected values no longer match; and it
   * succeeds exactly when the transaction commits.
   */
  lemma CallEndsIff(job: Job, trace: seq<(Repo, Pc)>, ends: seq<Option<End>>)
    requires IsPublisherTrace(job, trace, ends)
    ensures var last := trace[|trace| - 1].1;
      && (last == Done(Errored) <==> exists i :: ErrsAt(job, trace, ends, i))
      && (last == Done(Refused) <==> exists i :: DeclinesAt(job, trace, ends, i))
      && (last == Done(Published) <==> exists i :: PublishesAt(job, trace, ends, i))
  {
    hide Advance, Errs, Declines, Publishes;
    var last := trace[|trace| - 1].1;
    forall i: nat
      ensures ErrsAt(job, trace, ends, i) ==> last == Done(Errored)
      ensures DeclinesAt(job, trace, ends, i) ==> last == Done(Refused)
      ensures PublishesAt(job, trace, ends, i) ==> last == Done(Published)
    {
      CommandDecides(job, trace, ends, i);
    }
    if last.Done? {
      var i := EndOfCall(job, trace, ends, |trace| - 1);
      assert TraceStep(job, trace[i], trace[i + 1], ends[i]);
      CommandEndsCallIff(trace[i].0, job, trace[i].1, ends[i].value);
      assert last == Done(Errored) ==> ErrsAt(job, trace, ends, i);
      assert last == Done(Refused) ==> DeclinesAt(job, trace, ends, i);
      assert last == Done(Published) ==> PublishesAt(job, trace, ends, i);
    }
  }

  /** How many of these moments are commands. */
  function Count(ends: seq<Option<End>>): nat {
    if ends == [] then 0 else Count(ends[..|ends| - 1]) + if ends[|ends| - 1].Some? then 1 else 0
  }

  /** The commands end, one after the other, as these answers say. */
  predicate Answered(ends: seq<Option<End>>, answers: nat -> End) {
    forall i :: 0 <= i < |ends| && ends[i].Some? ==> ends[i].value == answers(Count(ends[..i]))
  }

  lemma AnsweredNext(ends: seq<Option<End>>, answers: nat -> End, end: Option<End>)
    requires Answered(ends, answers) && (end.Some? ==> end.value == answers(Count(ends)))
    ensures Answered(ends + [end], answers)
    ensures Count(ends + [end]) == Count(ends) + if end.Some? then 1 else 0
  {
    var next := ends + [end];
    assert next[..|ends|] == ends;
    forall i | 0 <= i < |next| && next[i].Some? ensures next[i].value == answers(Count(next[..i])) {
      if i < |ends| { assert next[..i] == ends[..i]; }
    }
  }

  class Host {
    var repo: Repo
    const isAncestor: (Commits, Oid, Oid) -> bool
    /** How git's commands end, and how many have been given. */
    var answers: nat -> End
    var asked: nat

    ghost var start: Repo
    ghost var job: Job
    ghost var trace: seq<(Repo, Pc)>
    ghost var ends: seq<Option<End>>

    /** Git answers ancestry questions correctly, and the trace leads to the present. */
    ghost predicate Valid()
      reads this
    {
      && (forall c, a, b :: isAncestor(c, a, b) <==> Ancestor(c, a, b))
      && IsPublisherTrace(job, trace, ends) && trace[0].0 == start && trace[|trace| - 1].0 == repo
      && Answered(ends, answers) && asked == Count(ends)
    }

    ghost function Pc(): Pc
      reads this
      requires Valid()
    {
      trace[|trace| - 1].1
    }

    /** Other processes move refs and add commits. */
    method Others()
      requires Valid()
      modifies this`repo, this`trace, this`ends
      ensures Valid() && Pc() == old(Pc())
    {
      var next: Repo := *;
      if Grows(repo.commits, next.commits) {
        AnsweredNext(ends, answers, None);
        trace, ends := trace + [(next, Pc())], ends + [None];
        repo := next;
      }
    }

    /** One command of this publisher, as the machine describes it. */
    method Record(after: Repo, ghost pc: Pc)
      requires Valid() && (after, pc) == Advance(repo, job, Pc(), answers(asked))
      modifies this`repo, this`asked, this`trace, this`ends
      ensures Valid() && repo == after && Pc() == pc
    {
      AnsweredNext(ends, answers, Some(answers(asked)));
      trace, ends := trace + [(after, pc)], ends + [Some(answers(asked))];
      repo, asked := after, asked + 1;
    }

    /** `ref_exists`: any failing exit counts as absence. */
    method ReviewExists(j: Job) returns (r: Result<bool, ()>)
      requires Valid() && job == j && Pc() == Begin
      modifies this`repo, this`asked, this`trace, this`ends
      ensures Valid()
      ensures Pc() == match r case Err(_) => Done(Errored) case Ok(yes) => if yes then Found else Ready(ZEROS)
    {
      var end := answers(asked);
      r := if end.Breaks? then Err(()) else Ok(end.Works? && ReviewRef(j.session) in repo.refs);
      Record(repo, match r case Err(_) => Done(Errored) case Ok(yes) => if yes then Found else Ready(ZEROS));
    }

    method ResolveReview(j: Job) returns (r: Result<Oid, ()>)
      requires Valid() && job == j && Pc() == Found
      modifies this`repo, this`asked, this`trace, this`ends
      ensures Valid() && Pc() == match r case Err(_) => Done(Errored) case Ok(oid) => Read(oid)
    {
      var end := answers(asked);
      r := if end.Works? && ReviewRef(j.session) in repo.refs then Ok(repo.refs[ReviewRef(j.session)]) else Err(());
      Record(repo, match r case Err(_) => Done(Errored) case Ok(oid) => Read(oid));
    }

    /** `is_ancestor`: only exit status 1 means no. */
    method ReviewIsAncestor(j: Job, oid: Oid) returns (r: Result<bool, ()>)
      requires Valid() && job == j && Pc() == Read(oid)
      modifies this`repo, this`asked, this`trace, this`ends
      ensures Valid()
      ensures Pc() == match r case Err(_) => Done(Errored) case Ok(yes) => if yes then Ready(oid) else Done(Refused)
    {
      var end := answers(asked);
      if end.Breaks? || (end.Works? && !(oid in repo.commits && j.source in repo.commits)) {
        r := Err(());
      } else {
        r := Ok(end.Works? && isAncestor(repo.commits, oid, j.source));
      }
      Record(repo, match r case Err(_) => Done(Errored) case Ok(yes) => if yes then Ready(oid) else Done(Refused));
    }

    /** `git update-ref --stdin` with both updates. */
    method UpdateBoth(j: Job, expectedReview: Oid) returns (r: Result<bool, ()>)
      requires Valid() && job == j && Pc() == Ready(expectedReview)
      modifies this`repo, this`asked, this`trace, this`ends
      ensures Valid() && Pc() == Done(OutcomeOf(r))
    {
      var end := answers(asked);
      var lands := CanCommit(repo, j, expectedReview) && (end.Works? || (end.Breaks? && end.landed));
      var after := if lands then Committed(repo, j) else repo;
      r := if end.Breaks? then Err(()) else Ok(lands);
      Record(after, Done(OutcomeOf(r)));
    }

    /**
     * `publish_synced_refs`: whatever others do between its commands, it makes exactly the steps of one
     * publisher, whose commands end as the answers say, and reports how they end.
     */
    method PublishSyncedRefs(j: Job, answers: nat -> End) returns (r: Result<bool, ()>)
      requires forall c, a, b :: isAncestor(c, a, b) <==> Ancestor(c, a, b)
      modifies this
      ensures Valid() && job == j && this.answers == answers && start == old(repo)
      ensures r.Err? <==> exists i :: ErrsAt(j, trace, ends, i)
      ensures r == Ok(false) <==> exists i :: DeclinesAt(j, trace, ends, i)
      ensures r == Ok(true) <==> exists i :: PublishesAt(j, trace, ends, i)
    {
      r := Publish(j, answers);
      CallEndsIff(j, trace, ends);
    }

    method Publish(j: Job, answers: nat -> End) returns (r: Result<bool, ()>)
      requires forall c, a, b :: isAncestor(c, a, b) <==> Ancestor(c, a, b)
      modifies this
      ensures Valid() && job == j && this.answers == answers && start == old(repo)
      ensures Pc() == Done(OutcomeOf(r))
    {
      this.answers, asked := answers, 0;
      start, job, trace, ends := repo, j, [(repo, Begin)], [];
      var exists_ := ReviewExists(j);
      if exists_.Err? { return Err(()); }
      var expected := ZEROS;
      Others();
      if exists_.value {
        var oid := ResolveReview(j);
        if oid.Err? { return Err(()); }
        Others();
        var ancestor := ReviewIsAncestor(j, oid.value);
        if ancestor.Err? { return Err(()); }
        if !ancestor.value { return Ok(false); }
        Others();
        expected := oid.value;
      }
      r := UpdateBoth(j, expected);
    }
  }

  function OutcomeOf(r: Result<bool, ()>): Outcome {
    match r case Err(_) => Errored case Ok(yes) => if yes then Published else Refused
  }
}
