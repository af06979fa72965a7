/** Batched joins agree with joins that lock and re-read for each operation (server/websocket.go). The batch
    reads the call state once and hands each join the state the previous one returned. */
module BatchJoins {
  import opened CallModel
  import opened CallStore
  import opened CallJobs
  import opened JobSafety
  import opened CallSessions
  import opened CallEngine
  import opened CallInvariant

  // ----- the job query does not depend on the columns a joining bot writes -----

  ghost predicate SameOrderRow(a: Job, b: Job) {
    a.id == b.id && a.callID == b.callID && a.jtype == b.jtype && a.startAt == b.startAt && a.endAt == b.endAt
  }

  ghost predicate SameOrderRows(rows: map<ID, Job>, rows': map<ID, Job>) {
    rows.Keys == rows'.Keys && forall j :: j in rows ==> SameOrderRow(rows[j], rows'[j])
  }

  lemma SameFirstJob(rows: map<ID, Job>, rows': map<ID, Job>, c: ID, t: JobType, j: ID)
    requires SameOrderRows(rows, rows') && IsFirstJob(rows, c, t, j)
    ensures IsFirstJob(rows', c, t, j)
  {
    assert SameOrderRow(rows[j], rows'[j]);
    forall k | IsActiveJob(rows', c, t, k) && k != j ensures JobSortsBefore(rows'[j], rows'[k]) {
      assert SameOrderRow(rows[k], rows'[k]);
      assert IsActiveJob(rows, c, t, k);
    }
  }

  /** Sorting is total, so the query returns the row that sorts first and no other. */
  lemma FirstJobRead(rows: map<ID, Job>, c: ID, t: JobType, j: ID)
    requires JobsKeyed(rows) && IsFirstJob(rows, c, t, j)
    ensures ActiveJob(rows, c, t) == Some(rows[j])
  {
    forall k | IsFirstJob(rows, c, t, k) ensures k == j { assert IsActiveJob(rows, c, t, k); }
  }

  /** A row's place in the query survives a write to the other columns, and the query then returns the new row. */
  lemma ReadAfterWrite(rows: map<ID, Job>, rows': map<ID, Job>, c: ID, t: JobType)
    requires JobsKeyed(rows) && SameOrderRows(rows, rows')
    ensures ActiveJob(rows, c, t).None? ==> ActiveJob(rows', c, t).None?
    ensures ActiveJob(rows, c, t).Some? ==>
              ActiveJob(rows, c, t).value.id in rows' && ActiveJob(rows', c, t) == Some(rows'[ActiveJob(rows, c, t).value.id])
  {
    assert JobsKeyed(rows') by { forall j | j in rows' ensures rows'[j].id == j { assert SameOrderRow(rows[j], rows'[j]); } }
    if j :| IsFirstJob(rows, c, t, j) {
      FirstJobRead(rows, c, t, j);
      SameFirstJob(rows, rows', c, t, j);
      FirstJobRead(rows', c, t, j);
    } else if j :| IsFirstJob(rows', c, t, j) {
      assert SameOrderRows(rows', rows) by {
        forall k | k in rows' ensures SameOrderRow(rows'[k], rows[k]) { assert SameOrderRow(rows[k], rows'[k]); }
      }
      SameFirstJob(rows', rows, c, t, j);
    }
  }

  /** The jobs a bot's join leaves in memory are what the query would return. */
  lemma BotJoinsCoherent(rows: map<ID, Job>, c: ID, jobID: ID, connID: ID)
    requires JobsKeyed(rows)
    ensures var r := BotJoins(JobsOf(rows, c), rows, jobID, connID);
            r.Some? ==> r.value.jobs == JobsOf(r.value.rows, c)
  {
    var r := BotJoins(JobsOf(rows, c), rows, jobID, connID);
    if r.Some? {
      JobsOfBacked(rows, c);
      assert SameOrderRows(rows, r.value.rows);
      ReadAfterWrite(rows, r.value.rows, c, Recording);
      ReadAfterWrite(rows, r.value.rows, c, Transcribing);
      ReadAfterWrite(rows, r.value.rows, c, Captioning);
    }
  }

  // ----- write-through -----

  /** A new call's ID is not the call of any job row either. */
  ghost predicate NoJobsYet(rows: map<ID, Job>, callID: ID) {
    forall j :: j in rows ==> rows[j].callID != callID
  }

  /** The state addSessionToCall hands on is the state that would be read back from the database. */
  lemma JoinCoherent(w: World, limit: nat, a: JoinArgs)
    requires Inv(w, limit) && Enabled(w, limit, Join(a)) && NoJobsYet(w.db.jobs, a.newCallID)
    ensures var o := JoinCall(ReadState(w.db, a.channelID), w.db, limit, a);
            var w' := Next(w, limit, Join(a));
            o.db == w'.db && o.state == ReadState(w'.db, a.channelID) && w'.log == w.log + o.msgs
  {
    var st := ReadState(w.db, a.channelID);
    if Joined(st, w.db, limit, a) { JoinedCoherent(w, limit, a); }
  }

  lemma JoinedCoherent(w: World, limit: nat, a: JoinArgs)
    requires Inv(w, limit) && Enabled(w, limit, Join(a)) && NoJobsYet(w.db.jobs, a.newCallID)
    requires Joined(ReadState(w.db, a.channelID), w.db, limit, a)
    ensures var o := JoinCall(ReadState(w.db, a.channelID), w.db, limit, a);
            o.state == ReadState(o.db, a.channelID)
  {
    var st := ReadState(w.db, a.channelID);
    var base := BaseState(st, a);
    var o := JoinCall(st, w.db, limit, a);
    var call := o.state.value.call;
    BaseFacts(w, limit, a);
    NewCallIffSingleSession(w, limit, a);
    StepKeeps(w, limit, Join(a));
    assert UniqueCall(o.db.calls, a.channelID);
    assert IsActiveCall(o.db.calls, a.channelID, call.id);
    ActiveCallIs(o.db.calls, a.channelID, call.id);
    SessionsOfInsert(w.db.sessions, a.connID, NewSession(call.id, a));
    JoinJobsCoherent(w, limit, a);
  }

  lemma JoinJobsCoherent(w: World, limit: nat, a: JoinArgs)
    requires Inv(w, limit) && Enabled(w, limit, Join(a)) && NoJobsYet(w.db.jobs, a.newCallID)
    ensures var base := BaseState(ReadState(w.db, a.channelID), a);
            var jd := JoinJobs(base, w.db, a);
            jd.Some? ==> jd.value.jobs == JobsOf(jd.value.rows, base.call.id)
  {
    ReadFacts(w, limit, a.channelID);
    var base := BaseState(ReadState(w.db, a.channelID), a);
    JobsOfBacked(w.db.jobs, base.call.id);
    BotJoinsCoherent(w.db.jobs, base.call.id, a.jobID, a.connID);
  }

  // ----- whole batches -----

  predicate JoinsOn(steps: seq<Step>, ch: ID) {
    forall i :: 0 <= i < |steps| ==> steps[i].Join? && steps[i].join.channelID == ch
  }

  /** What the batch does with the state read before it. */
  function JoinBatch(st: Option<CallState>, db: Store, limit: nat, steps: seq<Step>): JoinOutcome
    requires forall i :: 0 <= i < |steps| ==> steps[i].Join?
    decreases |steps|
  {
    if steps == [] then JoinOutcome(st, db, [])
    else
      var o := JoinCall(st, db, limit, steps[0].join);
      var r := JoinBatch(o.state, o.db, limit, steps[1..]);
      r.(msgs := o.msgs + r.msgs)
  }

  /** Every new call's ID is fresh when it would be used. */
  ghost predicate FreshCalls(w: World, limit: nat, steps: seq<Step>)
    requires ValidRun(w, limit, steps) && forall i :: 0 <= i < |steps| ==> steps[i].Join?
    decreases |steps|
  {
    steps == [] || (NoJobsYet(w.db.jobs, steps[0].join.newCallID) && FreshCalls(Next(w, limit, steps[0]), limit, steps[1..]))
  }

  /** Whatever the joins are, refused ones and bots included, one read for the whole batch and one read for each join
      leave the same database, publish the same messages, and end with the state that is in the database. */
  lemma {:induction false} BatchedJoinsAreSequential(w: World, limit: nat, steps: seq<Step>, ch: ID)
    requires Inv(w, limit) && JoinsOn(steps, ch) && ValidRun(w, limit, steps) && FreshCalls(w, limit, steps)
    ensures var r := JoinBatch(ReadState(w.db, ch), w.db, limit, steps);
            var w' := Run(w, limit, steps);
            r.db == w'.db && w.log + r.msgs == w'.log && r.state == ReadState(w'.db, ch)
    decreases |steps|
  {
    if steps != [] {
      var a := steps[0].join;
      var w1 := Next(w, limit, steps[0]);
      JoinCoherent(w, limit, a);
      StepKeeps(w, limit, steps[0]);
      BatchedJoinsAreSequential(w1, limit, steps[1..], ch);
      OneMore(w, w1, limit, steps, ch, JoinCall(ReadState(w.db, ch), w.db, limit, a));
    }
  }

  lemma UnfoldBatch(st: Option<CallState>, db: Store, limit: nat, steps: seq<Step>)
    requires |steps| > 0 && forall i :: 0 <= i < |steps| ==> steps[i].Join?
    ensures var o := JoinCall(st, db, limit, steps[0].join);
            var r := JoinBatch(o.state, o.db, limit, steps[1..]);
            JoinBatch(st, db, limit, steps) == r.(msgs := o.msgs + r.msgs)
  {
  }

  lemma OneMore(w: World, w1: World, limit: nat, steps: seq<Step>, ch: ID, o: JoinOutcome)
    requires |steps| > 0 && JoinsOn(steps, ch) && o == JoinCall(ReadState(w.db, ch), w.db, limit, steps[0].join)
    requires o.db == w1.db && o.state == ReadState(w1.db, ch) && w1.log == w.log + o.msgs
    ensures var r := JoinBatch(ReadState(w1.db, ch), w1.db, limit, steps[1..]);
            var r' := JoinBatch(ReadState(w.db, ch), w.db, limit, steps);
            r'.db == r.db && r'.state == r.state && w.log + r'.msgs == w1.log + r.msgs
  {
    UnfoldBatch(ReadState(w.db, ch), w.db, limit, steps);
    var r := JoinBatch(ReadState(w1.db, ch), w1.db, limit, steps[1..]);
    Regroup(w.log, o.msgs, r.msgs);
  }
}
