/**
 * Following a log while others append to it: the event followers that list everything and skip, and the
 * watcher that lists what is new (src/commands/logs.rs, src/commands/watch.rs, src/db/events.rs).
 */
module EventFollow {

  import opened Common

  type Name = string

  datatype Row = Row(id: nat, session: Name, text: string)

  /** The rows of a log in id order; ids are never used again. */
  datatype Log = Log(rows: seq<Row>, nextId: nat)

  predicate WellFormed(log: Log) {
    && log.nextId > 0
    && (forall i :: 0 <= i < |log.rows| ==> 0 < log.rows[i].id < log.nextId)
    && Increasing(log.rows)
  }

  predicate Increasing(rows: seq<Row>) {
    forall i, j :: 0 <= i < j < |rows| ==> rows[i].id < rows[j].id
  }

  /** `append_event`. */
  function Append(log: Log, session: Name, text: string): Log {
    Log(log.rows + [Row(log.nextId, session, text)], log.nextId + 1)
  }

  /** What others may do meanwhile: append, and delete the rows of sessions that go away. */
  predicate Later(before: Log, after: Log) {
    && WellFormed(after) && before.nextId <= after.nextId
    && forall i :: 0 <= i < |after.rows| && after.rows[i].id < before.nextId ==> after.rows[i] in before.rows
  }

  lemma AppendIsLater(log: Log, session: Name, text: string)
    requires WellFormed(log)
    ensures Later(log, Append(log, session, text))
  {
    var after := Append(log, session, text);
    forall i | 0 <= i < |after.rows| && after.rows[i].id < log.nextId ensures after.rows[i] in log.rows {
      assert i < |log.rows|;
    }
  }

  predicate Matches(row: Row, session: Option<Name>, after: nat) {
    (session.Some? ==> row.session == session.value) && row.id > after
  }

  /** `list_events_since`. */
  function Since(rows: seq<Row>, session: Option<Name>, after: nat): seq<Row> {
    if rows == [] then []
    else (if Matches(rows[0], session, after) then [rows[0]] else []) + Since(rows[1..], session, after)
  }

  lemma {:induction false} SinceHas(rows: seq<Row>, session: Option<Name>, after: nat)
    ensures forall row :: row in Since(rows, session, after) <==> row in rows && Matches(row, session, after)
  {
    if rows != [] {
      SinceHas(rows[1..], session, after);
      assert rows == [rows[0]] + rows[1..];
    }
  }

  lemma {:induction false} SinceIncreases(rows: seq<Row>, session: Option<Name>, after: nat)
    requires Increasing(rows)
    ensures Increasing(Since(rows, session, after))
  {
    if rows != [] {
      SinceIncreases(rows[1..], session, after);
      SinceHas(rows[1..], session, after);
      var rest := Since(rows[1..], session, after);
      forall i | 0 <= i < |rest| ensures rows[0].id < rest[i].id {
        assert rest[i] in rows[1..];
      }
    }
  }

  /** The id of the last row emitted, if any. */
  function LastId(rows: seq<Row>, otherwise: nat): nat {
    if rows == [] then otherwise else rows[|rows| - 1].id
  }

  // ---- Following ----

  /** What a follower emits that finds the log in these states, one poll each. */
  function Followed(polls: seq<Log>, session: Option<Name>, last: nat): seq<Row>
    decreases |polls|
  {
    if polls == [] then []
    else
      var news := Since(polls[0].rows, session, last);
      news + Followed(polls[1..], session, LastId(news, last))
  }

  predicate History(polls: seq<Log>) {
    && (forall k :: 0 <= k < |polls| ==> WellFormed(polls[k]))
    && forall j, k :: 0 <= j < k < |polls| ==> Later(polls[j], polls[k])
  }

  lemma LastIsOld(log: Log, session: Option<Name>, last: nat)
    requires WellFormed(log) && last < log.nextId
    ensures last <= LastId(Since(log.rows, session, last), last) < log.nextId
    ensures forall row :: row in Since(log.rows, session, last) ==> row.id <= LastId(Since(log.rows, session, last), last)
  {
    var news := Since(log.rows, session, last);
    SinceHas(log.rows, session, last);
    SinceIncreases(log.rows, session, last);
    if news != [] {
      assert news[|news| - 1] in news;
    }
  }

  /** Emitted rows match, are new, and were there at some poll. */
  lemma {:induction false} FollowedIsSound(polls: seq<Log>, session: Option<Name>, last: nat)
    requires History(polls) && (polls != [] ==> last < polls[0].nextId)
    ensures forall row :: row in Followed(polls, session, last) ==>
      (session.Some? ==> row.session == session.value) && row.id > last && Seen(polls, row)
    decreases |polls|
  {
    if polls != [] {
      var news := Since(polls[0].rows, session, last);
      SinceHas(polls[0].rows, session, last);
      LastIsOld(polls[0], session, last);
      FollowedIsSound(polls[1..], session, LastId(news, last));
      forall row | row in Followed(polls, session, last) ensures Matches(row, session, last) && Seen(polls, row) {
        if row in news {
          assert row in polls[0].rows;
        } else {
          SeenLater(polls, row);
        }
      }
    }
  }

  lemma SeenLater(polls: seq<Log>, row: Row)
    requires polls != [] && Seen(polls[1..], row)
    ensures Seen(polls, row)
  {
    var k :| 0 <= k < |polls[1..]| && row in polls[1..][k].rows;
    assert row in polls[k + 1].rows;
  }

  predicate Seen(polls: seq<Log>, row: Row) {
    exists k :: 0 <= k < |polls| && row in polls[k].rows
  }

  /** Rows are emitted in id order, so no row is emitted twice. */
  lemma {:induction false} FollowedIncreases(polls: seq<Log>, session: Option<Name>, last: nat)
    requires History(polls) && (polls != [] ==> last < polls[0].nextId)
    ensures Increasing(Followed(polls, session, last))
    decreases |polls|
  {
    if polls != [] {
      var news := Since(polls[0].rows, session, last);
      SinceIncreases(polls[0].rows, session, last);
      LastIsOld(polls[0], session, last);
      FollowedIncreases(polls[1..], session, LastId(news, last));
      FollowedIsSound(polls[1..], session, LastId(news, last));
      var rest := Followed(polls[1..], session, LastId(news, last));
      forall i, j | 0 <= i < |news| && 0 <= j < |rest| ensures news[i].id < rest[j].id {
        assert news[i] in news && rest[j] in rest;
      }
    }
  }

  /** Every matching row with a later id that is there at any poll is emitted. */
  lemma {:induction false} FollowedIsComplete(polls: seq<Log>, session: Option<Name>, last: nat, k: nat, row: Row)
    requires History(polls) && k < |polls| && last < polls[0].nextId
    requires row in polls[k].rows && (session.Some? ==> row.session == session.value) && row.id > last
    ensures row in Followed(polls, session, last)
    decreases |polls|
  {
    var news := Since(polls[0].rows, session, last);
    SinceHas(polls[0].rows, session, last);
    if row !in polls[0].rows {
      LastIsOld(polls[0], session, last);
      assert Later(polls[0], polls[k]);
      assert row.id >= polls[0].nextId;
      FollowedIsComplete(polls[1..], session, LastId(news, last), k - 1, row);
    }
  }

  /** With no deletions, following emits exactly what one listing at the end would. */
  lemma {:induction false} FollowedIsOneListing(polls: seq<Log>, session: Option<Name>, last: nat)
    requires History(polls) && polls != [] && last < polls[0].nextId
    requires forall k :: 0 <= k < |polls| ==> forall row :: row in polls[k].rows ==> row in polls[|polls| - 1].rows
    ensures Followed(polls, session, last) == Since(polls[|polls| - 1].rows, session, last)
  {
    var final := polls[|polls| - 1].rows;
    FollowedIsSound(polls, session, last);
    FollowedIncreases(polls, session, last);
    SinceHas(final, session, last);
    SinceIncreases(final, session, last);
    forall row | row in Since(final, session, last) ensures row in Followed(polls, session, last) {
      FollowedIsComplete(polls, session, last, |polls| - 1, row);
    }
    SameRowsSameOrder(Followed(polls, session, last), Since(final, session, last));
  }

  lemma {:induction false} SameRowsSameOrder(a: seq<Row>, b: seq<Row>)
    requires Increasing(a) && Increasing(b) && forall row :: row in a <==> row in b
    ensures a == b
  {
    assert b != [] ==> b[0] in b;
    if a != [] {
      assert a[0] in a && a[0] in b;
      FirstIsFirst(a, b);
      forall row ensures row in a[1..] <==> row in b[1..] {
        InRest(a, row);
        InRest(b, row);
      }
      SameRowsSameOrder(a[1..], b[1..]);
      assert a == [a[0]] + a[1..] && b == [b[0]] + b[1..];
    }
  }

  lemma FirstIsFirst(a: seq<Row>, b: seq<Row>)
    requires Increasing(a) && Increasing(b) && a != [] && b != [] && forall row :: row in a <==> row in b
    ensures a[0] == b[0]
  {
    assert a[0] in b && b[0] in a;
    var i :| 0 <= i < |b| && b[i] == a[0];
    var j :| 0 <= j < |a| && a[j] == b[0];
  }

  lemma InRest(a: seq<Row>, row: Row)
    requires Increasing(a) && a != []
    ensures row in a[1..] <==> row in a && row != a[0]
  {
    if row in a && row != a[0] {
      var i :| 0 <= i < |a| && a[i] == row;
      assert a[1..][i - 1] == row;
    }
  }

  // ---- The followers ----

  lemma {:induction false} SinceAppend(a: seq<Row>, b: seq<Row>, session: Option<Name>, after: nat)
    ensures Since(a + b, session, after) == Since(a, session, after) + Since(b, session, after)
  {
    if a == [] {
      assert a + b == b;
    } else {
      assert (a + b)[0] == a[0] && (a + b)[1..] == a[1..] + b;
      SinceAppend(a[1..], b, session, after);
    }
  }

  lemma {:induction false} FollowedAppend(polls: seq<Log>, log: Log, session: Option<Name>, start: nat)
    ensures Followed(polls + [log], session, start) ==
      Followed(polls, session, start) + Since(log.rows, session, LastId(Followed(polls, session, start), start))
    decreases |polls|
  {
    if polls == [] {
      assert [] + [log] == [log] && [log][1..] == [];
    } else {
      var news := Since(polls[0].rows, session, start);
      assert (polls + [log])[0] == polls[0] && (polls + [log])[1..] == polls[1..] + [log];
      FollowedAppend(polls[1..], log, session, LastId(news, start));
      var rest := Followed(polls[1..], session, LastId(news, start));
      assert LastId(news + rest, start) == LastId(rest, LastId(news, start));
    }
  }

  function Reversed(rows: seq<Row>): (r: seq<Row>)
    ensures |r| == |rows| && forall i :: 0 <= i < |rows| ==> r[i] == rows[|rows| - 1 - i]
  {
    seq(|rows|, i requires 0 <= i < |rows| => rows[|rows| - 1 - i])
  }

  /** The loop over one listing: rows up to the last emitted one are passed over. */
  function Skipped(rows: seq<Row>, last: nat): seq<Row> {
    if rows == [] then []
    else if rows[0].id <= last then Skipped(rows[1..], last)
    else [rows[0]] + Skipped(rows[1..], rows[0].id)
  }

  lemma {:induction false} SkipNothing(rows: seq<Row>, last: nat)
    requires Increasing(rows) && forall i :: 0 <= i < |rows| ==> rows[i].id > last
    ensures Skipped(rows, last) == rows
  {
    if rows != [] {
      SkipNothing(rows[1..], rows[0].id);
      assert rows == [rows[0]] + rows[1..];
    }
  }

  lemma SkipOne(row: Row, rest: seq<Row>, last: nat)
    requires Increasing([row] + rest)
    ensures Skipped([row] + rest, last) == if row.id <= last then Skipped(rest, last) else [row] + rest
    ensures row.id > last ==> Skipped(rest, last) == rest
  {
    assert ([row] + rest)[1..] == rest;
    forall i | 0 <= i < |rest| ensures rest[i].id > row.id {
      assert ([row] + rest)[i + 1] == rest[i] && ([row] + rest)[0] == row;
    }
    if row.id > last {
      SkipNothing(rest, row.id);
      SkipNothing(rest, last);
    }
  }

  /** Listing everything again, in order, and skipping what is not newer, emits what is new. */
  lemma {:induction false} SkippingIsListing(rows: seq<Row>, session: Option<Name>, last: nat)
    requires Increasing(rows)
    ensures Skipped(Since(rows, session, 0), last) == Since(rows, session, last)
  {
    if rows != [] {
      SkippingIsListing(rows[1..], session, last);
      SinceIncreases(rows, session, 0);
      if Matches(rows[0], session, 0) {
        SkipOne(rows[0], Since(rows[1..], session, 0), last);
      } else {
        assert [] + Since(rows[1..], session, 0) == Since(rows[1..], session, 0);
      }
    }
  }

  predicate IsFollowed(polls: seq<Log>, session: Option<Name>, start: nat, out: seq<Row>, last: nat) {
    out == Followed(polls, session, start) && last == LastId(out, start)
  }

  lemma FollowStep(polls: seq<Log>, log: Log, session: Option<Name>, start: nat, out: seq<Row>, last: nat, news: seq<Row>)
    requires IsFollowed(polls, session, start, out, last) && news == Since(log.rows, session, last)
    ensures IsFollowed(polls + [log], session, start, out + news, LastId(news, last))
  {
    FollowedAppend(polls, log, session, start);
    LastOfBoth(out, news, start);
  }

  lemma LastOfBoth(out: seq<Row>, news: seq<Row>, start: nat)
    ensures LastId(out + news, start) == LastId(news, LastId(out, start))
  {
  }

  /** The catalog's log, and what the followers have found in it. */
  class Catalog {
    var log: Log
    ghost var polls: seq<Log>

    ghost predicate Valid()
      reads this
    {
      WellFormed(log) && History(polls) && (polls != [] ==> Later(polls[|polls| - 1], log))
    }

    constructor (log: Log)
      requires WellFormed(log)
      ensures Valid() && this.log == log && polls == []
    {
      this.log, polls := log, [];
    }

    /** Between polls others append, or delete with their sessions. */
    method Others()
      requires Valid()
      modifies this`log
      ensures Valid() && log.nextId >= old(log).nextId
    {
      var after: Log := *;
      if Later(log, after) {
        if polls != [] { LaterTwice(polls[|polls| - 1], log, after); }
        log := after;
      }
    }

    /** A query of the log as it is now. */
    method ListEventsSince(session: Option<Name>, after: nat) returns (rows: seq<Row>)
      requires Valid()
      modifies this`polls
      ensures Valid() && polls == old(polls) + [log] && rows == Since(log.rows, session, after)
    {
      HistoryGrows(polls, log);
      polls := polls + [log];
      rows := Since(log.rows, session, after);
      LaterSelf(log);
    }

    method ListNewestFirst(session: Option<Name>) returns (rows: seq<Row>)
      requires Valid()
      modifies this`polls
      ensures Valid() && polls == old(polls) + [log] && Reversed(rows) == Since(log.rows, session, 0)
    {
      var listed := ListEventsSince(session, 0);
      rows := Reversed(listed);
      ReversedTwice(listed);
    }

    /** A follower has emitted what it should, and knows the last id of it. */
    ghost predicate Following(session: Option<Name>, start: nat, out: seq<Row>, last: nat)
      reads this
    {
      Valid() && IsFollowed(polls, session, start, out, last)
    }

    /** One poll that lists what is new. */
    method PollSince(session: Option<Name>, ghost start: nat, out: seq<Row>, last: nat) returns (out': seq<Row>, last': nat)
      requires Following(session, start, out, last)
      modifies this`polls
      ensures Following(session, start, out', last') && polls == old(polls) + [log]
    {
      var rows := ListEventsSince(session, last);
      FollowStep(old(polls), log, session, start, out, last, rows);
      out' := out + rows;
      last' := LastId(rows, last);
    }

    /** One poll that lists everything, and emits what is newer than the last emitted. */
    method PollAll(session: Option<Name>, ghost start: nat, out: seq<Row>, last: nat) returns (out': seq<Row>, last': nat)
      requires Following(session, start, out, last)
      modifies this`polls
      ensures Following(session, start, out', last') && polls == old(polls) + [log]
    {
      var rows := ListEventsSince(session, 0);
      SkippingIsListing(log.rows, session, last);
      FollowStep(old(polls), log, session, start, out, last, Skipped(rows, last));
      out', last' := EmitNewer(rows, out, last);
    }

    /** `run_event_logs`; when following, it polls once more until its flag says it was interrupted. */
    method RunEventLogs(session: Name, follow: bool, interrupted: nat) returns (out: seq<Row>)
      requires Valid() && polls == []
      modifies this
      ensures Valid() && out == Followed(polls, Some(session), 0)
      ensures |polls| == (if follow then interrupted + 1 else 1) && polls[0] == old(log)
    {
      var last := 0;
      out := [];
      out, last := PollAll(Some(session), 0, out, last);
      var rounds := if follow then interrupted else 0;
      for i := 0 to rounds
        invariant Following(Some(session), 0, out, last)
        invariant |polls| == i + 1 && polls[0] == old(log)
      {
        Others();
        out, last := PollAll(Some(session), 0, out, last);
      }
    }

    /** `run_sync_logs` over the runs of a session, which are listed newest first. */
    method RunSyncLogs(session: Name, follow: bool, interrupted: nat) returns (out: seq<Row>)
      requires Valid() && polls == []
      modifies this
      ensures Valid() && out == Followed(polls, Some(session), 0)
      ensures |polls| == (if follow then interrupted + 1 else 1) && polls[0] == old(log)
    {
      var last := 0;
      out := [];
      out, last := PollNewestFirst(Some(session), 0, out, last);
      var rounds := if follow then interrupted else 0;
      for i := 0 to rounds
        invariant Following(Some(session), 0, out, last)
        invariant |polls| == i + 1 && polls[0] == old(log)
      {
        Others();
        out, last := PollNewestFirst(Some(session), 0, out, last);
      }
    }

    method PollNewestFirst(session: Option<Name>, ghost start: nat, out: seq<Row>, last: nat)
      returns (out': seq<Row>, last': nat)
      requires Following(session, start, out, last)
      modifies this`polls
      ensures Following(session, start, out', last') && polls == old(polls) + [log]
    {
      var newestFirst := ListNewestFirst(session);
      var rows := Reversed(newestFirst);
      SkippingIsListing(log.rows, session, last);
      FollowStep(old(polls), log, session, start, out, last, Skipped(rows, last));
      out', last' := EmitNewer(rows, out, last);
    }

    /** The watcher: it starts after the newest row there is, and lists what is new at every poll. */
    method Watch(session: Option<Name>, rounds: nat) returns (out: seq<Row>, start: nat)
      requires Valid() && polls == []
      modifies this
      ensures Valid() && out == Followed(polls, session, start)
      ensures IsLatestId(old(log).rows, session, start)
      ensures |polls| == rounds && (polls != [] ==> start < polls[0].nextId)
    {
      start := LatestEventId(session);
      var last := start;
      out := [];
      for i := 0 to rounds
        invariant Following(session, start, out, last)
        invariant |polls| == i && start < log.nextId && (polls != [] ==> start < polls[0].nextId)
      {
        Others();
        out, last := PollSince(session, start, out, last);
      }
    }

    /** `latest_event_id`. */
    method LatestEventId(session: Option<Name>) returns (id: nat)
      requires Valid()
      ensures IsLatestId(log.rows, session, id) && id < log.nextId
    {
      id := 0;
      for i := 0 to |log.rows|
        invariant id == 0 || exists k :: 0 <= k < i && log.rows[k].id == id && Matches(log.rows[k], session, 0)
        invariant forall k :: 0 <= k < i && Matches(log.rows[k], session, 0) ==> log.rows[k].id <= id
        invariant id < log.nextId
      {
        if Matches(log.rows[i], session, 0) && log.rows[i].id > id { id := log.rows[i].id; }
      }
    }
  }

  lemma ReversedTwice(rows: seq<Row>)
    ensures Reversed(Reversed(rows)) == rows
  {
  }

  ghost predicate IsLatestId(rows: seq<Row>, session: Option<Name>, id: nat) {
    && (forall k :: 0 <= k < |rows| && Matches(rows[k], session, 0) ==> rows[k].id <= id)
    && (id == 0 || exists k :: 0 <= k < |rows| && rows[k].id == id && Matches(rows[k], session, 0))
  }

  /** The loop over one listing. */
  method EmitNewer(rows: seq<Row>, out: seq<Row>, last: nat) returns (out': seq<Row>, last': nat)
    ensures out' == out + Skipped(rows, last) && last' == LastId(Skipped(rows, last), last)
  {
    var rest := rows;
    out', last' := out, last;
    while rest != []
      invariant out' + Skipped(rest, last') == out + Skipped(rows, last)
      invariant LastId(Skipped(rest, last'), last') == LastId(Skipped(rows, last), last)
      decreases |rest|
    {
      if rest[0].id > last' {
        EmitOne(out', rest, last');
        LastOfOne(rest[0], Skipped(rest[1..], rest[0].id), last');
        out' := out' + [rest[0]];
        last' := rest[0].id;
      }
      rest := rest[1..];
    }
  }

  lemma LastOfOne(row: Row, rest: seq<Row>, otherwise: nat)
    ensures LastId([row] + rest, otherwise) == LastId(rest, row.id)
  {
  }

  lemma EmitOne(out: seq<Row>, rows: seq<Row>, last: nat)
    requires rows != [] && rows[0].id > last
    ensures out + Skipped(rows, last) == (out + [rows[0]]) + Skipped(rows[1..], rows[0].id)
  {
  }

  lemma LaterTwice(a: Log, b: Log, c: Log)
    requires Later(a, b) && Later(b, c)
    ensures Later(a, c)
  {
  }

  lemma LaterSelf(log: Log)
    requires WellFormed(log)
    ensures Later(log, log)
  {
  }

  lemma HistoryGrows(polls: seq<Log>, log: Log)
    requires History(polls) && WellFormed(log) && (polls != [] ==> Later(polls[|polls| - 1], log))
    ensures History(polls + [log])
  {
    forall j | 0 <= j < |polls| ensures Later(polls[j], log) {
      if j < |polls| - 1 { LaterTwice(polls[j], polls[|polls| - 1], log); }
    }
  }
}
