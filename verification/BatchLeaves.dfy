/** Batched leaves agree with leaves that lock and re-read for each operation (server/session.go). The batch
    keeps one state in memory, in which ended jobs and an ended call stay visible; a fresh read shows neither. */
module BatchLeaves {
  import opened CallModel
  import opened CallStore
  import opened CallJobs
  import opened JobSafety
  import opened CallSessions
  import opened CallEngine
  import opened CallInvariant

  // ----- what a leave does to the jobs, said row by row -----

  /** The captions end with the session registered for them, or with the recording's bot when it takes a running
      transcription along. */
  predicate CaptionsEnd(j: Jobs, originalConnID: ID, connID: ID) {
    && j.liveCaptions.Some?
    && (|| (Running(j.liveCaptions) && j.liveCaptions.value.botConnID == connID)
        || (Running(j.recording) && j.recording.value.botConnID == originalConnID && Running(j.transcription)))
  }

  function JobsAfterLeave(j: Jobs, originalConnID: ID, connID: ID, now: nat): Jobs {
    var reg := RegisteredBot(j, originalConnID);
    Jobs(if reg then Ended(j.recording, now) else j.recording,
         if reg then Ended(j.transcription, now) else j.transcription,
         if CaptionsEnd(j, originalConnID, connID) then Some(j.liveCaptions.value.(endAt := now)) else j.liveCaptions)
  }

  function EndedRows(j: Jobs, originalConnID: ID, connID: ID): set<ID> {
    var reg := RegisteredBot(j, originalConnID);
    IDOf(j.recording, reg && Running(j.recording)) + IDOf(j.transcription, reg && Running(j.transcription))
    + IDOf(j.liveCaptions, CaptionsEnd(j, originalConnID, connID))
  }

  /** Each row a leave ends is ended once, in place, and no other row is touched. */
  lemma BotLeavesByRow(j: Jobs, rows: map<ID, Job>, originalConnID: ID, connID: ID, now: nat)
    requires Backed(j, rows) && DistinctIDs(j) && now > 0
    ensures BotLeaves(j, rows, originalConnID, connID, now) ==
            JobsDb(JobsAfterLeave(j, originalConnID, connID, now), EndRows(rows, EndedRows(j, originalConnID, connID), now))
  {
    BotLeavesEndsBoth(j, rows, originalConnID, connID, now);
    var r := BotLeaves(j, rows, originalConnID, connID, now);
    assert r.rows == EndRows(rows, EndedRows(j, originalConnID, connID), now);
  }

  // ----- the two job tables, in step -----

  /** Recordings and transcriptions agree to the letter. With `captions`, these agree as well, up to the time at which they
      ended. */
  ghost predicate RowSim(a: Job, b: Job, captions: bool) {
    && a.id == b.id && a.callID == b.callID && a.jtype == b.jtype
    && (a.jtype != Captioning ==> a == b)
    && (captions ==> a.(endAt := b.endAt) == b && (a.endAt == 0 <==> b.endAt == 0))
  }

  ghost predicate RowsSim(rows: map<ID, Job>, rows': map<ID, Job>, captions: bool) {
    rows.Keys == rows'.Keys && forall k :: k in rows ==> RowSim(rows[k], rows'[k], captions)
  }

  function Live(j: Option<Job>): Option<Job> {
    if Running(j) then j else None
  }

  /** The jobs in memory over the batch's table `rows`, against the table `rows'` of the one-at-a-time run. */
  ghost predicate JobsSim(m: Jobs, rows: map<ID, Job>, rows': map<ID, Job>, c: ID) {
    && Backed(m, rows) && DistinctIDs(m) && RowsSim(rows, rows', false)
    && Live(m.recording) == ActiveJob(rows', c, Recording)
    && Live(m.transcription) == ActiveJob(rows', c, Transcribing)
  }

  lemma ReadAfterEnd(rows: map<ID, Job>, ids: set<ID>, now: nat, c: ID, t: JobType)
    requires JobsKeyed(rows) && UniqueJob(rows, c, t) && now > 0
    ensures var r := ActiveJob(rows, c, t);
            ActiveJob(EndRows(rows, ids, now), c, t) == if r.Some? && r.value.id !in ids then r else None
    ensures UniqueJob(EndRows(rows, ids, now), c, t)
  {
    var rows' := EndRows(rows, ids, now);
    ActiveJobFound(rows, c, t);
    ActiveJobFound(rows', c, t);
    assert forall k :: IsActiveJob(rows', c, t, k) <==> IsActiveJob(rows, c, t, k) && k !in ids;
    var r := ActiveJob(rows, c, t);
    if r.Some? && r.value.id !in ids { ActiveJobIs(rows', c, t, r.value.id); }
  }

  /** The sets of rows ended in memory and after a fresh read differ at most in captions that had ended before. */
  lemma SameRowsEnd(m: Jobs, j: Jobs, originalConnID: ID, connID: ID)
    requires Live(m.recording) == j.recording && Live(m.transcription) == j.transcription
    ensures RegisteredBot(m, originalConnID) <==> RegisteredBot(j, originalConnID)
    ensures IDOf(m.recording, Running(m.recording)) == IDOf(j.recording, Running(j.recording))
    ensures IDOf(m.transcription, Running(m.transcription)) == IDOf(j.transcription, Running(j.transcription))
    ensures Live(m.liveCaptions) == j.liveCaptions && Running(m.liveCaptions) ==>
              (CaptionsEnd(m, originalConnID, connID) <==> CaptionsEnd(j, originalConnID, connID))
  {
  }

  lemma RowsSimEnd(m: Jobs, j: Jobs, rows: map<ID, Job>, rows': map<ID, Job>, captions: bool, originalConnID: ID, connID: ID, now: nat)
    requires RowsSim(rows, rows', captions) && Backed(m, rows) && Backed(j, rows') && now > 0
    requires Live(m.recording) == j.recording && Live(m.transcription) == j.transcription
    requires captions ==>
               Live(m.liveCaptions) == j.liveCaptions
               || (m.liveCaptions.Some? && !Running(m.liveCaptions) && !CaptionsEnd(j, originalConnID, connID))
    ensures RowsSim(EndRows(rows, EndedRows(m, originalConnID, connID), now), EndRows(rows', EndedRows(j, originalConnID, connID), now), captions)
  {
    SameRowsEnd(m, j, originalConnID, connID);
    var ids, ids' := EndedRows(m, originalConnID, connID), EndedRows(j, originalConnID, connID);
    forall k | k in rows
      ensures RowSim(EndRows(rows, ids, now)[k], EndRows(rows', ids', now)[k], captions)
    {
      assert RowSim(rows[k], rows'[k], captions);
    }
  }

  /** One leave keeps the jobs in step. */
  lemma JobsSimStep(m: Jobs, rows: map<ID, Job>, rows': map<ID, Job>, c: ID, originalConnID: ID, connID: ID, now: nat)
    requires JobsSim(m, rows, rows', c) && JobsKeyed(rows') && OneOfEach(rows') && now > 0
    ensures var r := BotLeaves(m, rows, originalConnID, connID, now);
            var q := BotLeaves(JobsOf(rows', c), rows', originalConnID, connID, now);
            JobsSim(r.jobs, r.rows, q.rows, c)
  {
    var j := JobsOf(rows', c);
    JobsOfBacked(rows', c);
    BotLeavesByRow(m, rows, originalConnID, connID, now);
    BotLeavesByRow(j, rows', originalConnID, connID, now);
    BotLeavesOK(JobsDb(m, rows), originalConnID, connID, now);
    RowsSimEnd(m, j, rows, rows', false, originalConnID, connID, now);
    SameRowsEnd(m, j, originalConnID, connID);
    var ids := EndedRows(j, originalConnID, connID);
    assert UniqueJob(rows', c, Recording) && UniqueJob(rows', c, Transcribing);
    ReadAfterEnd(rows', ids, now, c, Recording);
    ReadAfterEnd(rows', ids, now, c, Transcribing);
  }

  // ----- the state in memory against the database of the one-at-a-time run -----

  ghost predicate Sim(m: CallState, b: Store, w: World, ch: ID, c: ID) {
    && c in w.db.calls && m.call == w.db.calls[c]
    && b.calls == w.db.calls && b.sessions == w.db.sessions
    && m.sessions == SessionsOf(w.db.sessions, c)
    && JobsSim(m.jobs, b.jobs, w.db.jobs, c)
    && (m.call.endAt == 0 ==> IsActiveCall(w.db.calls, ch, c))
    && forall d :: IsActiveCall(w.db.calls, ch, d) ==> d == c
  }

  /** Apart from the jobs, a leave depends only on the call and its sessions. */
  lemma SameLeave(m: CallState, st: CallState, b: Store, s: Store, l: LeaveArgs)
    requires m.call == st.call && m.sessions == st.sessions && b.calls == s.calls && b.sessions == s.sessions
    requires l.now > 0 && l.originalConnID in m.sessions
    ensures var r := RemoveUserSession(Some(m), b, l);
            var q := RemoveUserSession(Some(st), s, l);
            && r.msgs == q.msgs && r.db.calls == q.db.calls && r.db.sessions == q.db.sessions
            && r.state.value.call == q.state.value.call && r.state.value.sessions == q.state.value.sessions
            && r.db.jobs == BotLeaves(m.jobs, b.jobs, l.originalConnID, l.connID, l.now).rows
            && r.state.value.jobs == BotLeaves(m.jobs, b.jobs, l.originalConnID, l.connID, l.now).jobs
            && q.db.jobs == BotLeaves(st.jobs, s.jobs, l.originalConnID, l.connID, l.now).rows
  {
  }

  lemma ReadUnderSim(m: CallState, b: Store, w: World, limit: nat, ch: ID, c: ID)
    requires Inv(w, limit) && Sim(m, b, w, ch, c)
    ensures ReadState(w.db, ch) == if m.call.endAt == 0 then Some(StateOf(w.db, c)) else None
    ensures m.call.endAt != 0 ==> m.sessions == map[]
  {
    assert CallOK(w.db.calls[c], SessionsOf(w.db.sessions, c), w.joined[c], limit);
    ReadFacts(w, limit, ch);
    if m.call.endAt == 0 {
      assert UniqueCall(w.db.calls, ch);
      ActiveCallIs(w.db.calls, ch, c);
    }
  }

  lemma LeaveSimStep(m: CallState, b: Store, w: World, limit: nat, l: LeaveArgs, c: ID)
    requires Inv(w, limit) && Enabled(w, limit, Leave(l)) && Sim(m, b, w, l.channelID, c)
    ensures var r := RemoveUserSession(Some(m), b, l);
            var w' := Next(w, limit, Leave(l));
            r.state.Some? && Sim(r.state.value, r.db, w', l.channelID, c) && w'.log == w.log + r.msgs
  {
    ReadUnderSim(m, b, w, limit, l.channelID, c);
    if l.originalConnID in m.sessions {
      var st := StateOf(w.db, c);
      SameLeave(m, st, b, w.db, l);
      LeaveShape(w, limit, l);
      JobsSimStep(m.jobs, b.jobs, w.db.jobs, c, l.originalConnID, l.connID, l.now);
      var q := RemoveUserSession(Some(st), w.db, l);
      forall d | IsActiveCall(q.db.calls, l.channelID, d) ensures d == c {
        assert d != c ==> IsActiveCall(w.db.calls, l.channelID, d);
      }
    }
  }

  // ----- whole batches -----

  predicate LeavesOn(steps: seq<Step>, ch: ID) {
    forall i :: 0 <= i < |steps| ==> steps[i].Leave? && steps[i].leave.channelID == ch && steps[i].leave.now > 0
  }

  /** What the batch does with the state read before it. */
  function LeaveBatch(st: Option<CallState>, db: Store, steps: seq<Step>): LeaveOutcome
    requires forall i :: 0 <= i < |steps| ==> steps[i].Leave? && steps[i].leave.now > 0
    decreases |steps|
  {
    if steps == [] then LeaveOutcome(st, db, [])
    else
      var o := RemoveUserSession(st, db, steps[0].leave);
      var r := LeaveBatch(o.state, o.db, steps[1..]);
      r.(msgs := o.msgs + r.msgs)
  }

  /** Equal stores, captions aside; with `captions`, these too, up to the time at which they ended. */
  ghost predicate SameStore(b: Store, s: Store, captions: bool) {
    b.calls == s.calls && b.sessions == s.sessions && RowsSim(b.jobs, s.jobs, captions)
  }

  lemma {:induction false} SimulatedLeaves(m: CallState, b: Store, w: World, limit: nat, steps: seq<Step>, ch: ID, c: ID)
    requires Inv(w, limit) && LeavesOn(steps, ch) && ValidRun(w, limit, steps) && Sim(m, b, w, ch, c)
    ensures var r := LeaveBatch(Some(m), b, steps);
            var w' := Run(w, limit, steps);
            SameStore(r.db, w'.db, false) && w.log + r.msgs == w'.log
    decreases |steps|
  {
    if steps != [] {
      var l := steps[0].leave;
      var w1 := Next(w, limit, steps[0]);
      var o := RemoveUserSession(Some(m), b, l);
      StepKeeps(w, limit, steps[0]);
      LeaveSimStep(m, b, w, limit, l, c);
      SimulatedLeaves(o.state.value, o.db, w1, limit, steps[1..], ch, c);
      UnfoldBatch(Some(m), b, steps);
      Regroup(w.log, o.msgs, LeaveBatch(o.state, o.db, steps[1..]).msgs);
    }
  }

  lemma UnfoldBatch(st: Option<CallState>, db: Store, steps: seq<Step>)
    requires |steps| > 0 && forall i :: 0 <= i < |steps| ==> steps[i].Leave? && steps[i].leave.now > 0
    ensures var o := RemoveUserSession(st, db, steps[0].leave);
            var r := LeaveBatch(o.state, o.db, steps[1..]);
            LeaveBatch(st, db, steps) == r.(msgs := o.msgs + r.msgs)
  {
  }

  lemma {:induction false} BatchSnoc(st: Option<CallState>, db: Store, steps: seq<Step>, s: Step)
    requires s.Leave? && s.leave.now > 0 && forall i :: 0 <= i < |steps| ==> steps[i].Leave? && steps[i].leave.now > 0
    ensures var r := LeaveBatch(st, db, steps);
            var o := RemoveUserSession(r.state, r.db, s.leave);
            LeaveBatch(st, db, steps + [s]) == LeaveOutcome(o.state, o.db, r.msgs + o.msgs)
    decreases |steps|
  {
    var all := steps + [s];
    UnfoldBatch(st, db, all);
    if steps == [] {
      assert all[1..] == [];
    } else {
      assert all[0] == steps[0] && all[1..] == steps[1..] + [s];
      var o := RemoveUserSession(st, db, steps[0].leave);
      BatchSnoc(o.state, o.db, steps[1..], s);
      UnfoldBatch(st, db, steps);
      var r := LeaveBatch(o.state, o.db, steps[1..]);
      Regroup(o.msgs, r.msgs, RemoveUserSession(r.state, r.db, s.leave).msgs);
    }
  }

  /** A batch on a channel with no active call does nothing, and neither do its leaves one at a time. */
  lemma {:induction false} IdleLeaves(w: World, limit: nat, steps: seq<Step>, ch: ID)
    requires LeavesOn(steps, ch) && ValidRun(w, limit, steps) && ReadState(w.db, ch).None?
    ensures LeaveBatch(None, w.db, steps) == LeaveOutcome(None, w.db, [])
    ensures Run(w, limit, steps).db == w.db && Run(w, limit, steps).log == w.log
    decreases |steps|
  {
    if steps != [] {
      var w1 := Next(w, limit, steps[0]);
      assert w1.log == w.log;
      IdleLeaves(w1, limit, steps[1..], ch);
    }
  }

  lemma RowsSimSelf(w: World, limit: nat, c: ID)
    requires Inv(w, limit)
    ensures JobsSim(JobsOf(w.db.jobs, c), w.db.jobs, w.db.jobs, c)
  {
    JobsOfBacked(w.db.jobs, c);
  }

  /** Whatever the leaves are, repeated ones, leaves after the one that ends the call and bots included, one read for
      the whole batch and one read for each leave leave the same call, sessions, recordings and transcriptions and
      publish the same messages. */
  lemma BatchedLeavesAreSequential(w: World, limit: nat, steps: seq<Step>, ch: ID)
    requires Inv(w, limit) && LeavesOn(steps, ch) && ValidRun(w, limit, steps)
    ensures var r := LeaveBatch(ReadState(w.db, ch), w.db, steps);
            var w' := Run(w, limit, steps);
            SameStore(r.db, w'.db, false) && w.log + r.msgs == w'.log
  {
    ReadFacts(w, limit, ch);
    var st := ReadState(w.db, ch);
    if st.None? {
      IdleLeaves(w, limit, steps, ch);
      assert w.log + [] == w.log;
    } else {
      StartSim(w, limit, ch, st.value.call.id);
      SimulatedLeaves(st.value, w.db, w, limit, steps, ch, st.value.call.id);
    }
  }

  lemma StartSim(w: World, limit: nat, ch: ID, c: ID)
    requires Inv(w, limit) && IsActiveCall(w.db.calls, ch, c)
    ensures ReadState(w.db, ch) == Some(StateOf(w.db, c)) && Sim(StateOf(w.db, c), w.db, w, ch, c)
  {
    RowsSimSelf(w, limit, c);
    assert UniqueCall(w.db.calls, ch);
    ActiveCallIs(w.db.calls, ch, c);
  }

  ghost predicate SameRunning(a: map<ID, Job>, b: map<ID, Job>, c: ID, t: JobType) {
    forall k :: IsActiveJob(a, c, t, k) <==> IsActiveJob(b, c, t, k)
  }

  /** Stores that are the same in this sense have the same running jobs. */
  lemma SameRunningJobs(b: Store, s: Store, captions: bool, c: ID, t: JobType)
    requires SameStore(b, s, captions) && (captions || t != Captioning)
    ensures SameRunning(b.jobs, s.jobs, c, t)
  {
    forall j ensures IsActiveJob(b.jobs, c, t, j) <==> IsActiveJob(s.jobs, c, t, j) {
      if j in b.jobs { assert RowSim(b.jobs[j], s.jobs[j], captions); }
    }
  }
}
