/** Two runs from the empty world, step by step: one into a call with two running captions rows, on which a batch of
    leaves and the same leaves one by one come apart, and one in which a recording outlives its bot. */
module WitnessRuns {
  import opened CallModel
  import opened CallStore
  import opened CallJobs
  import opened JobSafety
  import opened CallSessions
  import opened CallEngine
  import opened CallInvariant
  import opened CallTheorems
  import J = BatchJoins
  import L = BatchLeaves
  import B = BatchCaptions

  /** User 2 starts call 5 in channel 3 from connection 20 and is its host all along. */
  const HOST: ID := 2
  const CHANNEL: ID := 3
  const CALL: Call := Call(5, CHANNEL, 1, 0, 1, NONE, NONE, HOST, [], 0, Props([HOST], NONE, NONE, 0, 9, {HOST}, NONE, map[]))

  function Joining(userID: ID, connID: ID, jobID: ID, now: nat): Step {
    Join(JoinArgs(CHANNEL, userID, connID, jobID, now, true, NoManager, 9, if userID == BOT then 1000 else 5, HOST, NONE, NONE, true))
  }

  function Present(connID: ID, userID: ID, joinAt: nat): Session {
    Session(connID, 5, userID, joinAt, false, 0, false)
  }

  ghost predicate At(w: World, sessions: map<ID, Session>, rows: map<ID, Job>, rec: nat, tr: nat) {
    && w.db == Store(map[5 := CALL], sessions, rows) && w.conns == sessions.Keys && w.recGaps == rec && w.trGaps == tr
    && SessionsOf(sessions, 5) == sessions
  }

  lemma Reads(w: World, sessions: map<ID, Session>, rows: map<ID, Job>, rec: nat, tr: nat)
    requires At(w, sessions, rows, rec, tr)
    ensures ReadState(w.db, CHANNEL) == Some(CallState(CALL, sessions, JobsOf(rows, 5)))
  {
    assert UniqueCall(w.db.calls, CHANNEL);
    ActiveCallIs(w.db.calls, CHANNEL, 5);
  }

  /** j is the running job of its type that the query returns. */
  ghost predicate Foremost(rows: map<ID, Job>, t: JobType, j: ID) {
    && IsActiveJob(rows, 5, t, j)
    && forall k :: k in rows && k != j && IsActiveJob(rows, 5, t, k) ==> JobSortsBefore(rows[j], rows[k])
  }

  ghost predicate Queried(rows: map<ID, Job>, t: JobType, j: Option<ID>) {
    if j.Some? then Foremost(rows, t, j.value) else forall k :: k in rows ==> !IsActiveJob(rows, 5, t, k)
  }

  lemma Query(rows: map<ID, Job>, t: JobType, j: Option<ID>)
    requires JobsKeyed(rows) && Queried(rows, t, j)
    ensures ActiveJob(rows, 5, t) == if j.Some? then Some(rows[j.value]) else None
  {
    if j.Some? {
      assert IsFirstJob(rows, 5, t, j.value);
      J.FirstJobRead(rows, 5, t, j.value);
    } else {
      ActiveJobFound(rows, 5, t);
    }
  }

  lemma Jobs5(rows: map<ID, Job>, r: Option<ID>, t: Option<ID>, l: Option<ID>)
    requires JobsKeyed(rows) && Queried(rows, Recording, r) && Queried(rows, Transcribing, t) && Queried(rows, Captioning, l)
    ensures JobsOf(rows, 5) == Jobs(if r.Some? then Some(rows[r.value]) else None,
                                    if t.Some? then Some(rows[t.value]) else None,
                                    if l.Some? then Some(rows[l.value]) else None)
  {
    Query(rows, Recording, r);
    Query(rows, Transcribing, t);
    Query(rows, Captioning, l);
  }

  // ----- the steps -----

  lemma FirstHost()
    ensures var a := Joining(HOST, 20, NONE, 1).join; HostChosen(NewCall(a), a)
  {
    var a := Joining(HOST, 20, NONE, 1).join;
    var ss := NewCall(a).sessions[20 := NewSession(5, a)];
    assert ss[20].userID == HOST && JoinedFirst(ss, 20);
  }

  lemma Starts()
    ensures Enabled(EMPTY, 0, Joining(HOST, 20, NONE, 1))
    ensures At(Next(EMPTY, 0, Joining(HOST, 20, NONE, 1)), map[20 := Present(20, HOST, 1)], map[], 0, 0)
  {
    ActiveCallFound(map[], CHANNEL);
    FirstHost();
    var none: map<ID, Session> := map[];
    SessionsOfInsert(none, 20, Present(20, HOST, 1));
    assert SessionsOf(none, 5) == none;
    assert none[20 := Present(20, HOST, 1)] == map[20 := Present(20, HOST, 1)];
    assert |none[20 := Present(20, HOST, 1)]| == 1;
  }

  lemma BotEnters(w: World, sessions: map<ID, Session>, rows: map<ID, Job>, rec: nat, tr: nat, connID: ID, jobID: ID, now: nat, rows': map<ID, Job>)
    requires At(w, sessions, rows, rec, tr) && connID != NONE && connID !in sessions && now > 0
    requires 20 in sessions && sessions[20].userID == HOST && |sessions| >= 1
    requires BotJoins(JobsOf(rows, 5), rows, jobID, connID).Some? && BotJoins(JobsOf(rows, 5), rows, jobID, connID).value.rows == rows'
    ensures Enabled(w, 0, Joining(BOT, connID, jobID, now))
    ensures At(Next(w, 0, Joining(BOT, connID, jobID, now)), sessions[connID := Present(connID, BOT, now)], rows', rec, tr)
  {
    Reads(w, sessions, rows, rec, tr);
    var a := Joining(BOT, connID, jobID, now).join;
    var ss := sessions[connID := NewSession(5, a)];
    assert ss[20].userID == HOST;
    assert InCall(ss, HOST);
    assert |ss| == |sessions| + 1;
    assert AdmittedCall(CALL, a) == CALL;
    SessionsOfInsert(sessions, connID, NewSession(5, a));
  }

  lemma JobRuns(w: World, sessions: map<ID, Session>, t: JobTable, s: JobStep, t': JobTable)
    requires At(w, sessions, t.rows, t.rec, t.tr) && JobEnabled(t, s) && RunJobStep(t, CALL, JobsOf(t.rows, 5), s) == t'
    ensures Enabled(w, 0, RunJob(CHANNEL, s)) && At(Next(w, 0, RunJob(CHANNEL, s)), sessions, t'.rows, t'.rec, t'.tr)
  {
    Reads(w, sessions, t.rows, t.rec, t.tr);
  }

  ghost predicate Path(steps: seq<Step>, w: World) {
    ValidRun(EMPTY, 0, steps) && Run(EMPTY, 0, steps) == w
  }

  lemma Further(steps: seq<Step>, w: World, s: Step)
    requires Path(steps, w) && Enabled(w, 0, s)
    ensures Path(steps + [s], Next(w, 0, s))
  {
    RunSnoc(EMPTY, 0, steps, s);
  }

  // ----- the job tables on the way to two captions rows -----

  const R2: map<ID, Job> := map[6 := NewJob(6, 5, Recording, HOST, 2)]
  const R3: map<ID, Job> := map[6 := R2[6].(jobID := 60), 10 := NewJob(10, 5, Transcribing, HOST, 3), 8 := NewJob(8, 5, Captioning, HOST, 3)]
  const R4: map<ID, Job> := map[6 := R3[6], 10 := R3[10].(jobID := 70), 8 := R3[8].(jobID := 70)]
  const R5: map<ID, Job> := map[6 := R4[6], 10 := R4[10].(botConnID := 40), 8 := R4[8].(botConnID := 40)]
  const R6: map<ID, Job> := map[6 := R5[6].(endAt := 6), 10 := R5[10].(endAt := 6, err := TR_TIMEOUT), 8 := R5[8]]
  const R7: map<ID, Job> := map[6 := R6[6], 10 := R6[10], 8 := R6[8], 11 := NewJob(11, 5, Recording, HOST, 7)]
  const R8: map<ID, Job> := map[6 := R6[6], 10 := R6[10], 8 := R6[8], 11 := R7[11].(jobID := 61),
                                12 := NewJob(12, 5, Transcribing, HOST, 8), 7 := NewJob(7, 5, Captioning, HOST, 8)]
  const R9: map<ID, Job> := map[6 := R6[6], 10 := R6[10], 8 := R6[8], 11 := R8[11],
                                12 := R8[12].(botConnID := 30), 7 := R8[7].(botConnID := 30)]

  const S2 := StartRec(HOST, 6, 2)
  const S3 := RecReturns(HOST, Ran(60), Some(10), Some(8), 3)
  const S4 := TrReturns(true, Ran(70), 4)
  const S6 := TrTimeout(70, true, 6)
  const S7 := StartRec(HOST, 11, 7)
  const S8 := RecReturns(HOST, Ran(61), Some(12), Some(7), 8)

  lemma Table2()
    ensures RunJobStep(JobTable(map[], 0, 0), CALL, JobsOf(map[], 5), S2) == JobTable(R2, 1, 0)
  {
    Jobs5(map[], None, None, None);
  }

  lemma Table3()
    ensures RunJobStep(JobTable(R2, 1, 0), CALL, JobsOf(R2, 5), S3) == JobTable(R3, 0, 1)
  {
    Jobs5(R2, Some(6), None, None);
  }

  lemma Table4()
    ensures RunJobStep(JobTable(R3, 0, 1), CALL, JobsOf(R3, 5), S4) == JobTable(R4, 0, 0)
  {
    Jobs5(R3, Some(6), Some(10), Some(8));
  }

  lemma Table5()
    ensures BotJoins(JobsOf(R4, 5), R4, 10, 40).Some? && BotJoins(JobsOf(R4, 5), R4, 10, 40).value.rows == R5
  {
    Jobs5(R4, Some(6), Some(10), Some(8));
  }

  lemma Table6()
    ensures RunJobStep(JobTable(R5, 0, 0), CALL, JobsOf(R5, 5), S6) == JobTable(R6, 0, 0)
  {
    Jobs5(R5, Some(6), Some(10), Some(8));
  }

  lemma Table7()
    ensures RunJobStep(JobTable(R6, 0, 0), CALL, JobsOf(R6, 5), S7) == JobTable(R7, 1, 0)
  {
    Jobs5(R6, None, None, Some(8));
  }

  lemma Table8()
    ensures RunJobStep(JobTable(R7, 1, 0), CALL, JobsOf(R7, 5), S8) == JobTable(R8, 0, 1)
  {
    Jobs5(R7, Some(11), None, Some(8));
  }

  lemma Table9()
    ensures BotJoins(JobsOf(R8, 5), R8, 12, 30).Some? && BotJoins(JobsOf(R8, 5), R8, 12, 30).value.rows == R9
  {
    Jobs5(R8, Some(11), Some(12), Some(7));
  }

  lemma JobOnPath(steps: seq<Step>, w: World, sessions: map<ID, Session>, t: JobTable, s: JobStep, t': JobTable)
    returns (steps': seq<Step>, w': World)
    requires Path(steps, w) && At(w, sessions, t.rows, t.rec, t.tr)
    requires JobEnabled(t, s) && RunJobStep(t, CALL, JobsOf(t.rows, 5), s) == t'
    ensures Path(steps', w') && At(w', sessions, t'.rows, t'.rec, t'.tr)
  {
    JobRuns(w, sessions, t, s, t');
    Further(steps, w, RunJob(CHANNEL, s));
    steps', w' := steps + [RunJob(CHANNEL, s)], Next(w, 0, RunJob(CHANNEL, s));
  }

  lemma BotOnPath(steps: seq<Step>, w: World, sessions: map<ID, Session>, t: JobTable, connID: ID, jobID: ID, now: nat, rows': map<ID, Job>)
    returns (steps': seq<Step>, w': World)
    requires Path(steps, w) && At(w, sessions, t.rows, t.rec, t.tr) && connID != NONE && connID !in sessions && now > 0
    requires 20 in sessions && sessions[20].userID == HOST && |sessions| >= 1
    requires BotJoins(JobsOf(t.rows, 5), t.rows, jobID, connID).Some? && BotJoins(JobsOf(t.rows, 5), t.rows, jobID, connID).value.rows == rows'
    ensures Path(steps', w') && At(w', sessions[connID := Present(connID, BOT, now)], rows', t.rec, t.tr)
  {
    BotEnters(w, sessions, t.rows, t.rec, t.tr, connID, jobID, now, rows');
    Further(steps, w, Joining(BOT, connID, jobID, now));
    steps', w' := steps + [Joining(BOT, connID, jobID, now)], Next(w, 0, Joining(BOT, connID, jobID, now));
  }

  const ALONE: map<ID, Session> := map[20 := Present(20, HOST, 1)]
  const WITH_BOT: map<ID, Session> := ALONE[40 := Present(40, BOT, 5)]
  const WITH_BOTS: map<ID, Session> := WITH_BOT[30 := Present(30, BOT, 9)]

  lemma StartOnPath() returns (steps: seq<Step>, w: World)
    ensures Path(steps, w) && At(w, ALONE, map[], 0, 0)
  {
    Starts();
    assert Path([], EMPTY);
    Further([], EMPTY, Joining(HOST, 20, NONE, 1));
    steps, w := [] + [Joining(HOST, 20, NONE, 1)], Next(EMPTY, 0, Joining(HOST, 20, NONE, 1));
  }

  lemma FirstCaptions() returns (steps: seq<Step>, w: World)
    ensures Path(steps, w) && At(w, ALONE, R4, 0, 0)
  {
    steps, w := StartOnPath();
    Table2();
    steps, w := JobOnPath(steps, w, ALONE, JobTable(map[], 0, 0), S2, JobTable(R2, 1, 0));
    Table3();
    steps, w := JobOnPath(steps, w, ALONE, JobTable(R2, 1, 0), S3, JobTable(R3, 0, 1));
    Table4();
    steps, w := JobOnPath(steps, w, ALONE, JobTable(R3, 0, 1), S4, JobTable(R4, 0, 0));
  }

  /** The first transcription times out, which leaves its captions and its bot. */
  lemma TimedOut() returns (steps: seq<Step>, w: World)
    ensures Path(steps, w) && At(w, WITH_BOT, R6, 0, 0)
  {
    steps, w := FirstCaptions();
    Table5();
    steps, w := BotOnPath(steps, w, ALONE, JobTable(R4, 0, 0), 40, 10, 5, R5);
    Table6();
    steps, w := JobOnPath(steps, w, WITH_BOT, JobTable(R5, 0, 0), S6, JobTable(R6, 0, 0));
  }

  /** Then a second one is started. */
  lemma SecondCaptions() returns (steps: seq<Step>, w: World)
    ensures Path(steps, w) && At(w, WITH_BOT, R8, 0, 1)
  {
    steps, w := TimedOut();
    Table7();
    steps, w := JobOnPath(steps, w, WITH_BOT, JobTable(R6, 0, 0), S7, JobTable(R7, 1, 0));
    Table8();
    steps, w := JobOnPath(steps, w, WITH_BOT, JobTable(R7, 1, 0), S8, JobTable(R8, 0, 1));
  }

  lemma TwoCaptions() returns (steps: seq<Step>, w: World)
    ensures Path(steps, w) && At(w, WITH_BOTS, R9, 0, 1)
  {
    steps, w := SecondCaptions();
    Table9();
    assert 20 in WITH_BOT && WITH_BOT[20].userID == HOST && |WITH_BOT| >= 1;
    steps, w := BotOnPath(steps, w, WITH_BOT, JobTable(R8, 0, 1), 30, 12, 9, R9);
  }

  // ----- both bots leave -----

  function BotLeaving(connID: ID, now: nat): LeaveArgs {
    LeaveArgs(CHANNEL, BOT, connID, connID, now, NONE, [])
  }

  /** The bot may leave a call that user 2 is in. */
  lemma BotMayLeave(w: World, l: LeaveArgs)
    requires Inv(w, 0) && IsActiveCall(w.db.calls, CHANNEL, 5) && 20 in SessionsOf(w.db.sessions, 5) && SessionsOf(w.db.sessions, 5)[20].userID == HOST
    requires l.channelID == CHANNEL && l.userID == BOT && l.originalConnID != 20 && l.now > 0
    requires l.originalConnID in SessionsOf(w.db.sessions, 5) && SessionsOf(w.db.sessions, 5)[l.originalConnID].userID == BOT
    ensures Enabled(w, 0, Leave(l))
    ensures var w' := Next(w, 0, Leave(l));
            && SessionsOf(w'.db.sessions, 5) == SessionsOf(w.db.sessions, 5) - {l.originalConnID}
            && IsActiveCall(w'.db.calls, CHANNEL, 5)
  {
    L.StartSim(w, 0, CHANNEL, 5);
    var st := StateOf(w.db, 5);
    assert CallOK(st.call, st.sessions, w.joined[5], 0);
    assert SomeoneInCall(st.sessions);
    var left := st.sessions - {l.originalConnID};
    assert 20 in left;
    assert |left| > 0;
    LeaveShape(w, 0, l);
  }

  /** A call with two running captions rows can be reached, and two leaves from which a batch and separate leaves come
      out with different captions running. */
  lemma CaptionsCanDiverge() returns (w: World, steps: seq<Step>)
    ensures Reachable(w, 0) && L.LeavesOn(steps, CHANNEL) && ValidRun(w, 0, steps)
    ensures !L.SameRunning(L.LeaveBatch(ReadState(w.db, CHANNEL), w.db, steps).db.jobs, Run(w, 0, steps).db.jobs, 5, Captioning)
  {
    var path;
    path, w := TwoCaptions();
    steps := [Leave(BotLeaving(30, 10)), Leave(BotLeaving(40, 11))];
    assert Reachable(w, 0);
    ReachableInv(w, 0);
    TwoLeaves(w);
    Diverging(w, steps);
  }

  lemma Diverging(w: World, steps: seq<Step>)
    requires Inv(w, 0) && At(w, WITH_BOTS, R9, 0, 1) && L.LeavesOn(steps, CHANNEL) && ValidRun(w, 0, steps)
    requires steps == [Leave(BotLeaving(30, 10)), Leave(BotLeaving(40, 11))]
    ensures !L.SameRunning(L.LeaveBatch(ReadState(w.db, CHANNEL), w.db, steps).db.jobs, Run(w, 0, steps).db.jobs, 5, Captioning)
  {
    BothHit(w, steps);
    B.OngoingCaptions(w, 0, steps, CHANNEL, 5);
  }

  lemma TwoSteps(w: World, a: Step, b: Step)
    requires Enabled(w, 0, a) && Enabled(Next(w, 0, a), 0, b)
    ensures ValidRun(w, 0, [a, b])
  {
    assert [a, b][1..] == [b] && [b][1..] == [];
    assert ValidRun(Next(w, 0, a), 0, [b]);
  }

  lemma TwoLeaves(w: World)
    requires Inv(w, 0) && At(w, WITH_BOTS, R9, 0, 1)
    ensures ValidRun(w, 0, [Leave(BotLeaving(30, 10)), Leave(BotLeaving(40, 11))])
  {
    var a, b := BotLeaving(30, 10), BotLeaving(40, 11);
    BotMayLeave(w, a);
    StepKeeps(w, 0, Leave(a));
    SecondLeave(Next(w, 0, Leave(a)), b);
    TwoSteps(w, Leave(a), Leave(b));
  }

  lemma SecondLeave(w: World, b: LeaveArgs)
    requires Inv(w, 0) && IsActiveCall(w.db.calls, CHANNEL, 5) && b == BotLeaving(40, 11)
    requires SessionsOf(w.db.sessions, 5) == WITH_BOTS - {30}
    ensures Enabled(w, 0, Leave(b))
  {
    BotMayLeave(w, b);
  }

  lemma BothHit(w: World, steps: seq<Step>)
    requires At(w, WITH_BOTS, R9, 0, 1) && steps == [Leave(BotLeaving(30, 10)), Leave(BotLeaving(40, 11))]
    ensures B.CaptionsDiverge(w.db, 5, steps)
  {
    var f := B.FactsOf(w.db, 5);
    assert IsFirstJob(R9, 5, Captioning, 7);
    assert B.IsSecondJob(R9, 5, Captioning, 8);
    assert 30 in WITH_BOTS.Keys && 40 in WITH_BOTS.Keys;
    assert B.Hits(f, 30, steps, 0) && B.Hits(f, 40, steps, 1);
    assert B.HitsOneThenOther(f, R9[7].botConnID, R9[8].botConnID, steps);
  }

  // ----- a recording outlives its bot -----

  const Q3: map<ID, Job> := map[6 := R2[6].(jobID := 60)]
  const Q4: map<ID, Job> := map[6 := Q3[6].(botConnID := 40)]
  const Q5: map<ID, Job> := map[6 := Q3[6].(botConnID := 41)]

  lemma RecordingStarts() returns (steps: seq<Step>, w: World)
    ensures Path(steps, w) && At(w, ALONE, Q3, 0, 0)
  {
    steps, w := StartOnPath();
    Table2();
    steps, w := JobOnPath(steps, w, ALONE, JobTable(map[], 0, 0), S2, JobTable(R2, 1, 0));
    Jobs5(R2, Some(6), None, None);
    steps, w := JobOnPath(steps, w, ALONE, JobTable(R2, 1, 0), RecReturns(HOST, Ran(60), None, None, 3), JobTable(Q3, 0, 0));
  }

  lemma Recorded() returns (steps: seq<Step>, w: World)
    ensures Path(steps, w) && At(w, WITH_BOT, Q5, 0, 0)
  {
    steps, w := RecordingStarts();
    Jobs5(Q3, Some(6), None, None);
    steps, w := BotOnPath(steps, w, ALONE, JobTable(Q3, 0, 0), 40, 6, 5, Q4);
    Jobs5(Q4, Some(6), None, None);
    steps, w := JobOnPath(steps, w, WITH_BOT, JobTable(Q4, 0, 0), Reconnects(40, 41), JobTable(Q5, 0, 0));
  }

  /** The recorder joins, reconnects once, and leaves: its session is gone and the recording still runs. */
  lemma RecordingOutlivesItsBot() returns (w: World)
    ensures Reachable(w, 0) && IsActiveJob(w.db.jobs, 5, Recording, 6)
    ensures IsActiveCall(w.db.calls, CHANNEL, 5) && !InCall(SessionsOf(w.db.sessions, 5), BOT)
  {
    var steps, w0 := Recorded();
    assert Reachable(w0, 0);
    ReachableInv(w0, 0);
    var l := LeaveArgs(CHANNEL, BOT, 40, 41, 10, NONE, []);
    BotMayLeave(w0, l);
    RecordingStays(w0, l);
    Further(steps, w0, Leave(l));
    w := Next(w0, 0, Leave(l));
  }

  lemma RecordingStays(w: World, l: LeaveArgs)
    requires Inv(w, 0) && At(w, WITH_BOT, Q5, 0, 0) && l == LeaveArgs(CHANNEL, BOT, 40, 41, 10, NONE, []) && Enabled(w, 0, Leave(l))
    ensures IsActiveJob(Next(w, 0, Leave(l)).db.jobs, 5, Recording, 6)
  {
    B.RunRows(w, 0, l, 5);
    NothingEnds();
  }

  lemma NothingEnds()
    ensures IsActiveJob(EndRows(Q5, L.EndedRows(JobsOf(Q5, 5), 40, 41), 10), 5, Recording, 6)
  {
    Jobs5(Q5, Some(6), None, None);
  }
}
