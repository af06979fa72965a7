/** Captions in a batch of leaves (server/session.go). The batch goes on holding the captions job it read first; a
    read for each leave moves on to the next one. When exactly that makes a difference, said of the tables before the batch. */
module BatchCaptions {
  import opened CallModel
  import opened CallStore
  import opened CallJobs
  import opened JobSafety
  import opened CallSessions
  import opened CallEngine
  import opened CallInvariant
  import opened BatchLeaves
  import J = BatchJoins

  // ----- the condition -----

  /** The running job that sorts next after the one the query returns. */
  ghost predicate IsSecondJob(rows: map<ID, Job>, callID: ID, t: JobType, k: ID) {
    && IsActiveJob(rows, callID, t, k)
    && exists f :: IsFirstJob(rows, callID, t, f) && f != k
                   && forall m :: IsActiveJob(rows, callID, t, m) && m != f && m != k ==> JobSortsBefore(rows[k], rows[m])
  }

  /** What a leave depends on: the sessions in the call, and the connections registered with the running recording and
      with the running transcription. */
  datatype Facts = Facts(present: set<ID>, recorder: Option<ID>, transcriber: Option<ID>)

  function ConnOf(j: Option<Job>): Option<ID> {
    if j.Some? then Some(j.value.botConnID) else None
  }

  ghost function FactsOf(db: Store, c: ID): Facts {
    Facts(SessionsOf(db.sessions, c).Keys, ConnOf(ActiveJob(db.jobs, c, Recording)), ConnOf(ActiveJob(db.jobs, c, Transcribing)))
  }

  predicate AllLeaves(steps: seq<Step>) {
    forall i :: 0 <= i < |steps| ==> steps[i].Leave?
  }

  /** Leave j removes a session: it is in the call, and no earlier leave is of the same session. */
  predicate Removes(f: Facts, steps: seq<Step>, j: nat)
    requires AllLeaves(steps)
  {
    && j < |steps| && steps[j].leave.originalConnID in f.present
    && forall i :: 0 <= i < j ==> steps[i].leave.originalConnID != steps[j].leave.originalConnID
  }

  predicate EndsJobs(f: Facts, steps: seq<Step>, j: nat)
    requires AllLeaves(steps)
  {
    && Removes(f, steps, j)
    && (f.recorder == Some(steps[j].leave.originalConnID) || f.transcriber == Some(steps[j].leave.originalConnID))
  }

  /** Leave j is the recorder's, while the transcription still runs: it takes the captions along. */
  predicate TakesCaptions(f: Facts, steps: seq<Step>, j: nat)
    requires AllLeaves(steps)
  {
    && Removes(f, steps, j) && f.recorder == Some(steps[j].leave.originalConnID) && f.transcriber.Some?
    && forall i :: 0 <= i < j ==> !EndsJobs(f, steps, i)
  }

  /** Leave j would end captions with this registration. */
  predicate Hits(f: Facts, conn: ID, steps: seq<Step>, j: nat)
    requires AllLeaves(steps)
  {
    Removes(f, steps, j) && (steps[j].leave.connID == conn || TakesCaptions(f, steps, j))
  }

  ghost predicate HitsOneThenOther(f: Facts, a: ID, b: ID, steps: seq<Step>)
    requires AllLeaves(steps)
  {
    exists i, j :: 0 <= i < j < |steps| && Hits(f, a, steps, i) && Hits(f, b, steps, j)
  }

  /** Of the call's two foremost running captions, some leave of the batch would end the first and a later one the second. */
  ghost predicate CaptionsDiverge(db: Store, c: ID, steps: seq<Step>)
    requires AllLeaves(steps)
  {
    exists a, b :: IsFirstJob(db.jobs, c, Captioning, a) && IsSecondJob(db.jobs, c, Captioning, b)
                   && HitsOneThenOther(FactsOf(db, c), db.jobs[a].botConnID, db.jobs[b].botConnID, steps)
  }

  // ----- the condition, leave by leave -----

  function After(f: Facts, l: LeaveArgs): Facts {
    if l.originalConnID !in f.present then f
    else
      var ends := f.recorder == Some(l.originalConnID) || f.transcriber == Some(l.originalConnID);
      Facts(f.present - {l.originalConnID}, if ends then None else f.recorder, if ends then None else f.transcriber)
  }

  lemma TailRemoves(f: Facts, steps: seq<Step>, j: nat)
    requires AllLeaves(steps) && j + 1 < |steps|
    ensures Removes(After(f, steps[0].leave), steps[1..], j) <==> Removes(f, steps, j + 1)
  {
    var tail := steps[1..];
    assert tail[j] == steps[j + 1];
    if Removes(After(f, steps[0].leave), tail, j) {
      forall i | 0 <= i < j + 1 ensures steps[i].leave.originalConnID != steps[j + 1].leave.originalConnID {
        if i > 0 { assert tail[i - 1] == steps[i]; }
      }
    }
    if Removes(f, steps, j + 1) {
      forall i | 0 <= i < j ensures tail[i].leave.originalConnID != tail[j].leave.originalConnID { assert tail[i] == steps[i + 1]; }
    }
  }

  lemma TailEndsJobs(f: Facts, steps: seq<Step>, j: nat)
    requires AllLeaves(steps) && j + 1 < |steps| && !EndsJobs(f, steps, 0)
    ensures EndsJobs(After(f, steps[0].leave), steps[1..], j) <==> EndsJobs(f, steps, j + 1)
  {
    TailRemoves(f, steps, j);
    assert Removes(f, steps, 0) <==> steps[0].leave.originalConnID in f.present;
  }

  lemma TailTakes(f: Facts, steps: seq<Step>, j: nat)
    requires AllLeaves(steps) && j + 1 < |steps|
    ensures TakesCaptions(After(f, steps[0].leave), steps[1..], j) <==> TakesCaptions(f, steps, j + 1)
  {
    TailRemoves(f, steps, j);
    assert Removes(f, steps, 0) <==> steps[0].leave.originalConnID in f.present;
    if !EndsJobs(f, steps, 0) {
      var tail, f1 := steps[1..], After(f, steps[0].leave);
      forall i: nat | i < j ensures EndsJobs(f1, tail, i) <==> EndsJobs(f, steps, i + 1) { TailEndsJobs(f, steps, i); }
      if TakesCaptions(f1, tail, j) {
        forall i | 0 <= i < j + 1 ensures !EndsJobs(f, steps, i) { if i > 0 { assert !EndsJobs(f1, tail, i - 1); } }
      }
      if TakesCaptions(f, steps, j + 1) {
        forall i: nat | i < j ensures !EndsJobs(f1, tail, i) { assert !EndsJobs(f, steps, i + 1); }
      }
    }
  }

  lemma TailHits(f: Facts, conn: ID, steps: seq<Step>, j: nat)
    requires AllLeaves(steps) && j + 1 < |steps|
    ensures Hits(After(f, steps[0].leave), conn, steps[1..], j) <==> Hits(f, conn, steps, j + 1)
  {
    TailRemoves(f, steps, j);
    TailTakes(f, steps, j);
    assert steps[1..][j] == steps[j + 1];
  }

  ghost predicate HitsSome(f: Facts, conn: ID, steps: seq<Step>)
    requires AllLeaves(steps)
  {
    exists j :: 0 <= j < |steps| && Hits(f, conn, steps, j)
  }

  lemma UnfoldSome(f: Facts, conn: ID, steps: seq<Step>)
    requires AllLeaves(steps) && steps != []
    ensures HitsSome(f, conn, steps) <==> Hits(f, conn, steps, 0) || HitsSome(After(f, steps[0].leave), conn, steps[1..])
  {
    var tail, f1 := steps[1..], After(f, steps[0].leave);
    if HitsSome(f, conn, steps) && !Hits(f, conn, steps, 0) {
      var j :| 0 <= j < |steps| && Hits(f, conn, steps, j);
      TailHits(f, conn, steps, j - 1);
      assert Hits(f1, conn, tail, j - 1);
    }
    if HitsSome(f1, conn, tail) {
      var j :| 0 <= j < |tail| && Hits(f1, conn, tail, j);
      TailHits(f, conn, steps, j);
      assert Hits(f, conn, steps, j + 1);
    }
  }

  lemma UnfoldPair(f: Facts, a: ID, b: ID, steps: seq<Step>)
    requires AllLeaves(steps) && steps != []
    ensures var tail, f1 := steps[1..], After(f, steps[0].leave);
            HitsOneThenOther(f, a, b, steps) <==>
            if Hits(f, a, steps, 0) then HitsSome(f1, b, tail) else HitsOneThenOther(f1, a, b, tail)
  {
    var tail, f1 := steps[1..], After(f, steps[0].leave);
    forall j: nat | j + 1 < |steps|
      ensures Hits(f1, a, tail, j) <==> Hits(f, a, steps, j + 1)
      ensures Hits(f1, b, tail, j) <==> Hits(f, b, steps, j + 1)
    {
      TailHits(f, a, steps, j);
      TailHits(f, b, steps, j);
    }
    if HitsOneThenOther(f, a, b, steps) {
      var i, j :| 0 <= i < j < |steps| && Hits(f, a, steps, i) && Hits(f, b, steps, j);
      assert Hits(f1, b, tail, j - 1);
      if i > 0 { assert Hits(f1, a, tail, i - 1); }
    }
    if Hits(f, a, steps, 0) {
      if HitsSome(f1, b, tail) {
        var j :| 0 <= j < |tail| && Hits(f1, b, tail, j);
        assert Hits(f, b, steps, j + 1);
      }
    } else if HitsOneThenOther(f1, a, b, tail) {
      var i, j :| 0 <= i < j < |tail| && Hits(f1, a, tail, i) && Hits(f1, b, tail, j);
      assert Hits(f, a, steps, i + 1) && Hits(f, b, steps, j + 1);
    }
  }

  lemma HitsFirst(f: Facts, conn: ID, steps: seq<Step>)
    requires AllLeaves(steps) && steps != []
    ensures var l := steps[0].leave;
            Hits(f, conn, steps, 0) <==>
            l.originalConnID in f.present && (l.connID == conn || (f.recorder == Some(l.originalConnID) && f.transcriber.Some?))
  {
  }

  // ----- reading captions -----

  /** The query depends on the running rows only. */
  lemma ReadSame(rows: map<ID, Job>, rows': map<ID, Job>, c: ID, t: JobType)
    requires JobsKeyed(rows) && JobsKeyed(rows')
    requires forall k :: IsActiveJob(rows, c, t, k) <==> IsActiveJob(rows', c, t, k)
    requires forall k :: IsActiveJob(rows, c, t, k) ==> k in rows' && rows'[k] == rows[k]
    ensures ActiveJob(rows', c, t) == ActiveJob(rows, c, t)
  {
    assert forall k :: IsFirstJob(rows', c, t, k) <==> IsFirstJob(rows, c, t, k);
    if k :| IsFirstJob(rows, c, t, k) {
      J.FirstJobRead(rows, c, t, k);
      J.FirstJobRead(rows', c, t, k);
    }
  }

  /** The captions that come up once the first have ended. */
  ghost function NextCaptions(rows: map<ID, Job>, c: ID): Option<Job> {
    var first := ActiveJob(rows, c, Captioning);
    if first.None? then None else ActiveJob(EndRows(rows, {first.value.id}, 1), c, Captioning)
  }

  lemma NextIsSecond(rows: map<ID, Job>, c: ID, b: ID)
    requires JobsKeyed(rows)
    ensures IsSecondJob(rows, c, Captioning, b) <==> b in rows && NextCaptions(rows, c) == Some(rows[b])
  {
    ActiveJobFound(rows, c, Captioning);
    var first := ActiveJob(rows, c, Captioning);
    if f :| IsFirstJob(rows, c, Captioning, f) {
      J.FirstJobRead(rows, c, Captioning, f);
      var rows1 := EndRows(rows, {f}, 1);
      assert forall k :: IsActiveJob(rows1, c, Captioning, k) <==> IsActiveJob(rows, c, Captioning, k) && k != f;
      ActiveJobFound(rows1, c, Captioning);
      if IsSecondJob(rows, c, Captioning, b) {
        var f' :| IsFirstJob(rows, c, Captioning, f') && f' != b
                  && forall m :: IsActiveJob(rows, c, Captioning, m) && m != f' && m != b ==> JobSortsBefore(rows[b], rows[m]);
        assert IsActiveJob(rows, c, Captioning, f') && f' == f;
        assert IsFirstJob(rows1, c, Captioning, b);
        J.FirstJobRead(rows1, c, Captioning, b);
      }
      if k :| IsFirstJob(rows1, c, Captioning, k) {
        J.FirstJobRead(rows1, c, Captioning, k);
        assert IsSecondJob(rows, c, Captioning, k);
      }
    }
  }

  lemma DivergeMeans(db: Store, c: ID, steps: seq<Step>)
    requires JobsKeyed(db.jobs) && AllLeaves(steps)
    ensures var first, second := ActiveJob(db.jobs, c, Captioning), NextCaptions(db.jobs, c);
            CaptionsDiverge(db, c, steps) <==>
            first.Some? && second.Some? && HitsOneThenOther(FactsOf(db, c), first.value.botConnID, second.value.botConnID, steps)
  {
    var first, second := ActiveJob(db.jobs, c, Captioning), NextCaptions(db.jobs, c);
    ActiveJobFound(db.jobs, c, Captioning);
    if CaptionsDiverge(db, c, steps) {
      var a, b :| IsFirstJob(db.jobs, c, Captioning, a) && IsSecondJob(db.jobs, c, Captioning, b)
                  && HitsOneThenOther(FactsOf(db, c), db.jobs[a].botConnID, db.jobs[b].botConnID, steps);
      J.FirstJobRead(db.jobs, c, Captioning, a);
      NextIsSecond(db.jobs, c, b);
    }
    if first.Some? && second.Some? {
      ActiveJobFound(EndRows(db.jobs, {first.value.id}, 1), c, Captioning);
      NextIsSecond(db.jobs, c, second.value.id);
      FirstOfRead(db.jobs, c);
    }
  }

  lemma FirstOfRead(rows: map<ID, Job>, c: ID)
    requires JobsKeyed(rows) && ActiveJob(rows, c, Captioning).Some?
    ensures var id := ActiveJob(rows, c, Captioning).value.id;
            id in rows && IsFirstJob(rows, c, Captioning, id) && rows[id] == ActiveJob(rows, c, Captioning).value
  {
    ActiveJobFound(rows, c, Captioning);
  }

  // ----- one leave -----

  /** What is left of the sessions and of the jobs after a leave that removes a session. */
  lemma RunRows(w: World, limit: nat, l: LeaveArgs, c: ID)
    requires Inv(w, limit) && Enabled(w, limit, Leave(l)) && IsActiveCall(w.db.calls, l.channelID, c)
    requires l.originalConnID in SessionsOf(w.db.sessions, c)
    ensures var db' := Next(w, limit, Leave(l)).db;
            && SessionsOf(db'.sessions, c) == SessionsOf(w.db.sessions, c) - {l.originalConnID}
            && db'.jobs == EndRows(w.db.jobs, EndedRows(JobsOf(w.db.jobs, c), l.originalConnID, l.connID), l.now)
  {
    StartSim(w, limit, l.channelID, c);
    LeaveShape(w, limit, l);
    JobsOfBacked(w.db.jobs, c);
    BatchRows(StateOf(w.db, c), w.db, l);
  }

  /** What a leave depends on, after it. */
  lemma FactsAfter(db: Store, c: ID, l: LeaveArgs, db': Store)
    requires JobsKeyed(db.jobs) && OneOfEach(db.jobs) && l.now > 0 && l.originalConnID in SessionsOf(db.sessions, c)
    requires SessionsOf(db'.sessions, c) == SessionsOf(db.sessions, c) - {l.originalConnID}
    requires db'.jobs == EndRows(db.jobs, EndedRows(JobsOf(db.jobs, c), l.originalConnID, l.connID), l.now)
    ensures FactsOf(db', c) == After(FactsOf(db, c), l)
  {
    JobsOfBacked(db.jobs, c);
    EndedFacts(db.jobs, c, l);
  }

  lemma EndedFacts(rows: map<ID, Job>, c: ID, l: LeaveArgs)
    requires JobsKeyed(rows) && OneOfEach(rows) && l.now > 0
    ensures var j := JobsOf(rows, c);
            var rows' := EndRows(rows, EndedRows(j, l.originalConnID, l.connID), l.now);
            && ActiveJob(rows', c, Recording) == (if RegisteredBot(j, l.originalConnID) then None else j.recording)
            && ActiveJob(rows', c, Transcribing) == (if RegisteredBot(j, l.originalConnID) then None else j.transcription)
  {
    var j := JobsOf(rows, c);
    JobsOfBacked(rows, c);
    var ids := EndedRows(j, l.originalConnID, l.connID);
    assert UniqueJob(rows, c, Recording) && UniqueJob(rows, c, Transcribing);
    ReadAfterEnd(rows, ids, l.now, c, Recording);
    ReadAfterEnd(rows, ids, l.now, c, Transcribing);
  }

  /** The jobs in memory, the batch's table and the table of the one-at-a-time run, before a leave and after it. */
  ghost predicate JobsStep(removes: bool, m: Jobs, rows: map<ID, Job>, rows': map<ID, Job>, c: ID, l: LeaveArgs,
                           m2: Jobs, rows2: map<ID, Job>, rows2': map<ID, Job>)
  {
    if removes then
      && m2 == JobsAfterLeave(m, l.originalConnID, l.connID, l.now)
      && rows2 == EndRows(rows, EndedRows(m, l.originalConnID, l.connID), l.now)
      && rows2' == EndRows(rows', EndedRows(JobsOf(rows', c), l.originalConnID, l.connID), l.now)
    else
      m2 == m && rows2 == rows && rows2' == rows'
  }

  /** One leave of the batch against one with its own read. */
  ghost predicate OneLeave(m: CallState, b: Store, w: World, l: LeaveArgs, c: ID, m2: CallState, b2: Store, w2: World) {
    && FactsOf(w2.db, c) == After(FactsOf(w.db, c), l)
    && JobsStep(l.originalConnID in FactsOf(w.db, c).present, m.jobs, b.jobs, w.db.jobs, c, l, m2.jobs, b2.jobs, w2.db.jobs)
  }

  lemma BatchRows(m: CallState, b: Store, l: LeaveArgs)
    requires Backed(m.jobs, b.jobs) && DistinctIDs(m.jobs) && l.now > 0 && l.originalConnID in m.sessions
    ensures var r := RemoveUserSession(Some(m), b, l);
            && r.db.jobs == EndRows(b.jobs, EndedRows(m.jobs, l.originalConnID, l.connID), l.now)
            && r.state.value.jobs == JobsAfterLeave(m.jobs, l.originalConnID, l.connID, l.now)
  {
    BotLeavesByRow(m.jobs, b.jobs, l.originalConnID, l.connID, l.now);
  }

  lemma TakeLeave(m: CallState, b: Store, w: World, limit: nat, l: LeaveArgs, c: ID)
    requires Inv(w, limit) && Enabled(w, limit, Leave(l)) && Sim(m, b, w, l.channelID, c)
    ensures var o := RemoveUserSession(Some(m), b, l);
            o.state.Some? && OneLeave(m, b, w, l, c, o.state.value, o.db, Next(w, limit, Leave(l)))
  {
    ReadUnderSim(m, b, w, limit, l.channelID, c);
    if l.originalConnID in m.sessions {
      BatchRows(m, b, l);
      RunRows(w, limit, l, c);
      FactsAfter(w.db, c, l, Next(w, limit, Leave(l)).db);
    }
  }

  // ----- three stages of a batch -----

  /** The batch still holds the captions a fresh read returns. */
  ghost predicate Together(m: Jobs, rows: map<ID, Job>, rows': map<ID, Job>, c: ID) {
    RowsSim(rows, rows', true) && m.liveCaptions == ActiveJob(rows', c, Captioning)
  }

  /** It holds captions that have ended. */
  ghost predicate Behind(m: Jobs, rows: map<ID, Job>, rows': map<ID, Job>) {
    RowsSim(rows, rows', true) && m.liveCaptions.Some? && !Running(m.liveCaptions)
  }

  /** Other captions have ended by now, but not for the batch. */
  ghost predicate Apart(m: Jobs, rows: map<ID, Job>, rows': map<ID, Job>, c: ID, k: ID) {
    && IsActiveJob(rows, c, Captioning, k) && k in rows' && rows'[k].endAt != 0
    && m.liveCaptions.Some? && m.liveCaptions.value.id != k
  }

  /** The leave ends the captions a fresh read returns. */
  predicate EndsFresh(removes: bool, j: Jobs, l: LeaveArgs) {
    removes && CaptionsEnd(j, l.originalConnID, l.connID)
  }

  lemma ApartStep(removes: bool, m: Jobs, rows: map<ID, Job>, rows': map<ID, Job>, c: ID, l: LeaveArgs,
                  m2: Jobs, rows2: map<ID, Job>, rows2': map<ID, Job>, k: ID)
    requires JobsStep(removes, m, rows, rows', c, l, m2, rows2, rows2') && Apart(m, rows, rows', c, k) && Backed(m, rows) && l.now > 0
    ensures Apart(m2, rows2, rows2', c, k)
  {
  }

  /** Behind, it stays so and the captions a fresh read returns stay the same, unless the leave ends these. */
  lemma BehindStep(removes: bool, m: Jobs, rows: map<ID, Job>, rows': map<ID, Job>, c: ID, l: LeaveArgs,
                   m2: Jobs, rows2: map<ID, Job>, rows2': map<ID, Job>)
    requires JobsStep(removes, m, rows, rows', c, l, m2, rows2, rows2') && Behind(m, rows, rows')
    requires JobsSim(m, rows, rows', c) && JobsKeyed(rows') && l.now > 0
    ensures var lc := ActiveJob(rows', c, Captioning);
            if EndsFresh(removes, JobsOf(rows', c), l) then lc.Some? && Apart(m2, rows2, rows2', c, lc.value.id)
            else Behind(m2, rows2, rows2') && ActiveJob(rows2', c, Captioning) == lc
  {
    if removes {
      var j := JobsOf(rows', c);
      JobsOfBacked(rows', c);
      if EndsFresh(removes, j, l) {
        assert RowSim(rows[j.liveCaptions.value.id], rows'[j.liveCaptions.value.id], true);
      } else {
        RowsSimEnd(m, j, rows, rows', true, l.originalConnID, l.connID, l.now);
        ReadUntouched(rows', EndedRows(j, l.originalConnID, l.connID), l.now, c);
      }
    }
  }

  /** Together, it stays so and the next captions stay the same, unless the leave ends the captions: then the batch is
      behind, and a fresh read returns the next ones. */
  lemma TogetherStep(removes: bool, m: Jobs, rows: map<ID, Job>, rows': map<ID, Job>, c: ID, l: LeaveArgs,
                     m2: Jobs, rows2: map<ID, Job>, rows2': map<ID, Job>)
    requires JobsStep(removes, m, rows, rows', c, l, m2, rows2, rows2') && Together(m, rows, rows', c)
    requires JobsSim(m, rows, rows', c) && JobsKeyed(rows') && l.now > 0
    ensures if EndsFresh(removes, JobsOf(rows', c), l) then
              Behind(m2, rows2, rows2') && ActiveJob(rows2', c, Captioning) == NextCaptions(rows', c)
            else
              && Together(m2, rows2, rows2', c) && NextCaptions(rows2', c) == NextCaptions(rows', c)
              && ActiveJob(rows2', c, Captioning) == ActiveJob(rows', c, Captioning)
  {
    if removes {
      var j := JobsOf(rows', c);
      JobsOfBacked(rows', c);
      RowsSimEnd(m, j, rows, rows', true, l.originalConnID, l.connID, l.now);
      SameRowsEnd(m, j, l.originalConnID, l.connID);
      if EndsFresh(removes, j, l) { CaptionsGone(rows', c, l); } else { CaptionsKept(rows', c, l); }
    }
  }

  lemma CaptionsGone(rows: map<ID, Job>, c: ID, l: LeaveArgs)
    requires JobsKeyed(rows) && l.now > 0 && CaptionsEnd(JobsOf(rows, c), l.originalConnID, l.connID)
    ensures ActiveJob(EndRows(rows, EndedRows(JobsOf(rows, c), l.originalConnID, l.connID), l.now), c, Captioning) == NextCaptions(rows, c)
  {
    JobsOfBacked(rows, c);
    var j := JobsOf(rows, c);
    ReadSame(EndRows(rows, {j.liveCaptions.value.id}, 1), EndRows(rows, EndedRows(j, l.originalConnID, l.connID), l.now), c, Captioning);
  }

  lemma CaptionsKept(rows: map<ID, Job>, c: ID, l: LeaveArgs)
    requires JobsKeyed(rows) && l.now > 0 && !CaptionsEnd(JobsOf(rows, c), l.originalConnID, l.connID)
    ensures var rows2 := EndRows(rows, EndedRows(JobsOf(rows, c), l.originalConnID, l.connID), l.now);
            ActiveJob(rows2, c, Captioning) == ActiveJob(rows, c, Captioning) && NextCaptions(rows2, c) == NextCaptions(rows, c)
  {
    JobsOfBacked(rows, c);
    var j := JobsOf(rows, c);
    var rows2 := EndRows(rows, EndedRows(j, l.originalConnID, l.connID), l.now);
    ReadUntouched(rows, EndedRows(j, l.originalConnID, l.connID), l.now, c);
    if j.liveCaptions.Some? {
      var first := {j.liveCaptions.value.id};
      ReadSame(EndRows(rows, first, 1), EndRows(rows2, first, 1), c, Captioning);
    }
  }

  /** Rows of other types end: the captions query returns the same. */
  lemma ReadUntouched(rows: map<ID, Job>, ids: set<ID>, now: nat, c: ID)
    requires JobsKeyed(rows) && forall k :: k in ids && k in rows ==> rows[k].jtype != Captioning
    ensures ActiveJob(EndRows(rows, ids, now), c, Captioning) == ActiveJob(rows, c, Captioning)
  {
    ReadSame(rows, EndRows(rows, ids, now), c, Captioning);
  }

  lemma FreshIsHit(db: Store, c: ID, steps: seq<Step>)
    requires JobsKeyed(db.jobs) && AllLeaves(steps) && steps != []
    ensures var lc := ActiveJob(db.jobs, c, Captioning);
            var f := FactsOf(db, c);
            EndsFresh(steps[0].leave.originalConnID in f.present, JobsOf(db.jobs, c), steps[0].leave)
            <==> lc.Some? && Hits(f, lc.value.botConnID, steps, 0)
  {
    JobsOfBacked(db.jobs, c);
    var lc := ActiveJob(db.jobs, c, Captioning);
    if lc.Some? { HitsFirst(FactsOf(db, c), lc.value.botConnID, steps); }
  }

  // ----- to the end of the batch -----

  /** One leave of a simulated batch, with everything it keeps. */
  lemma Advance(m: CallState, b: Store, w: World, limit: nat, steps: seq<Step>, ch: ID, c: ID)
    returns (m2: CallState, b2: Store, w2: World)
    requires Inv(w, limit) && LeavesOn(steps, ch) && ValidRun(w, limit, steps) && Sim(m, b, w, ch, c) && steps != []
    ensures OneLeave(m, b, w, steps[0].leave, c, m2, b2, w2)
    ensures Inv(w2, limit) && LeavesOn(steps[1..], ch) && ValidRun(w2, limit, steps[1..]) && Sim(m2, b2, w2, ch, c)
    ensures LeaveBatch(Some(m), b, steps).db == LeaveBatch(Some(m2), b2, steps[1..]).db
    ensures Run(w, limit, steps) == Run(w2, limit, steps[1..])
  {
    var l := steps[0].leave;
    var o := RemoveUserSession(Some(m), b, l);
    StepKeeps(w, limit, steps[0]);
    LeaveSimStep(m, b, w, limit, l, c);
    TakeLeave(m, b, w, limit, l, c);
    UnfoldBatch(Some(m), b, steps);
    m2, b2, w2 := o.state.value, o.db, Next(w, limit, steps[0]);
  }

  /** The captions end up the same in the batch and in the one-at-a-time run, up to the time they ended. */
  ghost predicate SameCaptions(m: CallState, b: Store, w: World, limit: nat, steps: seq<Step>, ch: ID)
    requires LeavesOn(steps, ch) && ValidRun(w, limit, steps)
  {
    SameStore(LeaveBatch(Some(m), b, steps).db, Run(w, limit, steps).db, true)
  }

  /** Captions of the call are left running by one and not by the other. */
  ghost predicate OthersRun(m: CallState, b: Store, w: World, limit: nat, steps: seq<Step>, ch: ID, c: ID)
    requires LeavesOn(steps, ch) && ValidRun(w, limit, steps)
  {
    !SameRunning(LeaveBatch(Some(m), b, steps).db.jobs, Run(w, limit, steps).db.jobs, c, Captioning)
  }

  lemma {:induction false} ApartToTheEnd(m: CallState, b: Store, w: World, limit: nat, steps: seq<Step>, ch: ID, c: ID, k: ID)
    requires Inv(w, limit) && LeavesOn(steps, ch) && ValidRun(w, limit, steps) && Sim(m, b, w, ch, c)
    requires Apart(m.jobs, b.jobs, w.db.jobs, c, k)
    ensures !SameCaptions(m, b, w, limit, steps, ch) && OthersRun(m, b, w, limit, steps, ch, c)
    decreases |steps|
  {
    if steps == [] {
      assert !RowSim(b.jobs[k], w.db.jobs[k], true);
      assert !IsActiveJob(w.db.jobs, c, Captioning, k);
    } else {
      var l := steps[0].leave;
      var m2, b2, w2 := Advance(m, b, w, limit, steps, ch, c);
      ApartStep(l.originalConnID in FactsOf(w.db, c).present, m.jobs, b.jobs, w.db.jobs, c, l, m2.jobs, b2.jobs, w2.db.jobs, k);
      ApartToTheEnd(m2, b2, w2, limit, steps[1..], ch, c, k);
    }
  }

  /** Once behind, the batch ends up with other captions exactly if some leave ends those a fresh read returns. */
  lemma {:induction false} BehindToTheEnd(m: CallState, b: Store, w: World, limit: nat, steps: seq<Step>, ch: ID, c: ID)
    requires Inv(w, limit) && LeavesOn(steps, ch) && ValidRun(w, limit, steps) && Sim(m, b, w, ch, c)
    requires Behind(m.jobs, b.jobs, w.db.jobs)
    ensures var lc := ActiveJob(w.db.jobs, c, Captioning);
            SameCaptions(m, b, w, limit, steps, ch) <==> !(lc.Some? && HitsSome(FactsOf(w.db, c), lc.value.botConnID, steps))
    ensures !SameCaptions(m, b, w, limit, steps, ch) ==> OthersRun(m, b, w, limit, steps, ch, c)
    decreases |steps|
  {
    var lc := ActiveJob(w.db.jobs, c, Captioning);
    if steps == [] {
      assert SameCaptions(m, b, w, limit, steps, ch);
    } else {
      var l := steps[0].leave;
      var removes := l.originalConnID in FactsOf(w.db, c).present;
      var m2, b2, w2 := Advance(m, b, w, limit, steps, ch, c);
      BehindStep(removes, m.jobs, b.jobs, w.db.jobs, c, l, m2.jobs, b2.jobs, w2.db.jobs);
      FreshIsHit(w.db, c, steps);
      if lc.Some? { UnfoldSome(FactsOf(w.db, c), lc.value.botConnID, steps); }
      if EndsFresh(removes, JobsOf(w.db.jobs, c), l) {
        ApartToTheEnd(m2, b2, w2, limit, steps[1..], ch, c, lc.value.id);
      } else {
        BehindToTheEnd(m2, b2, w2, limit, steps[1..], ch, c);
      }
    }
  }

  lemma {:induction false} TogetherToTheEnd(m: CallState, b: Store, w: World, limit: nat, steps: seq<Step>, ch: ID, c: ID)
    requires Inv(w, limit) && LeavesOn(steps, ch) && ValidRun(w, limit, steps) && Sim(m, b, w, ch, c)
    requires Together(m.jobs, b.jobs, w.db.jobs, c)
    ensures var first, second := ActiveJob(w.db.jobs, c, Captioning), NextCaptions(w.db.jobs, c);
            SameCaptions(m, b, w, limit, steps, ch) <==>
            !(first.Some? && second.Some?
              && HitsOneThenOther(FactsOf(w.db, c), first.value.botConnID, second.value.botConnID, steps))
    ensures !SameCaptions(m, b, w, limit, steps, ch) ==> OthersRun(m, b, w, limit, steps, ch, c)
    decreases |steps|
  {
    var first, second := ActiveJob(w.db.jobs, c, Captioning), NextCaptions(w.db.jobs, c);
    if steps == [] {
      assert SameCaptions(m, b, w, limit, steps, ch);
    } else {
      var l := steps[0].leave;
      var removes := l.originalConnID in FactsOf(w.db, c).present;
      var m2, b2, w2 := Advance(m, b, w, limit, steps, ch, c);
      TogetherStep(removes, m.jobs, b.jobs, w.db.jobs, c, l, m2.jobs, b2.jobs, w2.db.jobs);
      FreshIsHit(w.db, c, steps);
      if first.Some? && second.Some? { UnfoldPair(FactsOf(w.db, c), first.value.botConnID, second.value.botConnID, steps); }
      if EndsFresh(removes, JobsOf(w.db.jobs, c), l) {
        BehindToTheEnd(m2, b2, w2, limit, steps[1..], ch, c);
      } else {
        TogetherToTheEnd(m2, b2, w2, limit, steps[1..], ch, c);
      }
    }
  }

  // ----- the theorem -----

  /** Of an ongoing call: the same captions run afterwards, and the rows are the same, under the same condition. */
  lemma OngoingCaptions(w: World, limit: nat, steps: seq<Step>, ch: ID, c: ID)
    requires Inv(w, limit) && LeavesOn(steps, ch) && ValidRun(w, limit, steps) && IsActiveCall(w.db.calls, ch, c)
    ensures var r := LeaveBatch(ReadState(w.db, ch), w.db, steps).db;
            var s := Run(w, limit, steps).db;
            && (SameStore(r, s, true) <==> !CaptionsDiverge(w.db, c, steps))
            && (SameRunning(r.jobs, s.jobs, c, Captioning) <==> !CaptionsDiverge(w.db, c, steps))
  {
    StartSim(w, limit, ch, c);
    assert RowsSim(w.db.jobs, w.db.jobs, true);
    TogetherToTheEnd(StateOf(w.db, c), w.db, w, limit, steps, ch, c);
    DivergeMeans(w.db, c, steps);
    var r, s := LeaveBatch(ReadState(w.db, ch), w.db, steps).db, Run(w, limit, steps).db;
    if SameStore(r, s, true) { SameRunningJobs(r, s, true, c, Captioning); }
  }

  /** For any list of leaves: one read for the batch and one for each leave leave the same captions, up to the time they
      ended, if and only if no leave of the batch ends the call's foremost captions before a later one ends the next. */
  lemma CaptionsAgreeIff(w: World, limit: nat, steps: seq<Step>, ch: ID)
    requires Inv(w, limit) && LeavesOn(steps, ch) && ValidRun(w, limit, steps)
    ensures SameStore(LeaveBatch(ReadState(w.db, ch), w.db, steps).db, Run(w, limit, steps).db, true)
            <==> forall c :: IsActiveCall(w.db.calls, ch, c) ==> !CaptionsDiverge(w.db, c, steps)
  {
    ReadFacts(w, limit, ch);
    if c :| IsActiveCall(w.db.calls, ch, c) {
      assert UniqueCall(w.db.calls, ch);
      OngoingCaptions(w, limit, steps, ch, c);
    } else {
      assert ReadState(w.db, ch).None? by { ActiveCallFound(w.db.calls, ch); }
      IdleLeaves(w, limit, steps, ch);
      assert RowsSim(w.db.jobs, w.db.jobs, true);
    }
  }

  /** In particular whenever the call has at most one captions row running. */
  lemma OneCaptionsRowAgrees(w: World, limit: nat, steps: seq<Step>, ch: ID)
    requires Inv(w, limit) && LeavesOn(steps, ch) && ValidRun(w, limit, steps)
    requires forall c :: IsActiveCall(w.db.calls, ch, c) ==> UniqueJob(w.db.jobs, c, Captioning)
    ensures SameStore(LeaveBatch(ReadState(w.db, ch), w.db, steps).db, Run(w, limit, steps).db, true)
  {
    CaptionsAgreeIff(w, limit, steps, ch);
  }
}
