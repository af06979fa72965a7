/** What each job operation achieves, in terms of the running rows of the call before and after. */
module JobOutcomes {
  import opened CallModel
  import opened CallStore
  import opened CallJobs
  import opened JobSafety
  import opened BatchLeaves
  import J = BatchJoins

  /** The call has neither a running recording nor a running transcription. */
  ghost predicate Quiet(rows: map<ID, Job>, callID: ID) {
    forall j :: !IsActiveJob(rows, callID, Recording, j) && !IsActiveJob(rows, callID, Transcribing, j)
  }

  ghost predicate Sound(rows: map<ID, Job>) {
    JobsKeyed(rows) && OneOfEach(rows)
  }

  /** With the rows the query returned ended and none added, nothing is left running. */
  lemma EndedIsQuiet(rows: map<ID, Job>, rows': map<ID, Job>, callID: ID)
    requires Sound(rows) && TableOK(rows, rows')
    requires var j := JobsOf(rows, callID);
             && (j.recording.Some? && j.recording.value.id in rows' ==> rows'[j.recording.value.id].endAt != 0)
             && (j.transcription.Some? && j.transcription.value.id in rows' ==> rows'[j.transcription.value.id].endAt != 0)
    ensures Quiet(rows', callID)
  {
    EvolvesKeeps(rows, rows');
    assert UniqueJob(rows, callID, Recording) && UniqueJob(rows, callID, Transcribing);
    forall k ensures !IsActiveJob(rows', callID, Recording, k) && !IsActiveJob(rows', callID, Transcribing, k) {
      if IsActiveJob(rows, callID, Recording, k) { ActiveJobIs(rows, callID, Recording, k); }
      if IsActiveJob(rows, callID, Transcribing, k) { ActiveJobIs(rows, callID, Transcribing, k); }
    }
  }

  lemma StopsRows(j: Jobs, rows: map<ID, Job>, now: nat)
    requires Backed(j, rows) && DistinctIDs(j) && now > 0
    ensures var r := ShutDownRows(j, rows, now);
            && (Running(j.recording) ==> j.recording.value.id in r && r[j.recording.value.id].endAt == now)
            && (Running(j.transcription) ==> j.transcription.value.id in r && r[j.transcription.value.id].endAt == now)
            && TableOK(rows, r)
  {
    ShutDownOK(JobsDb(j, rows), now);
  }

  /** The rows a coupled shutdown ends: the running jobs, and the captions of a running transcription. */
  function StoppedRows(j: Jobs): set<ID> {
    IDOf(j.recording, Running(j.recording)) + IDOf(j.transcription, Running(j.transcription))
    + IDOf(j.liveCaptions, Running(j.transcription))
  }

  lemma ShutDownByRow(j: Jobs, rows: map<ID, Job>, now: nat)
    requires Backed(j, rows) && DistinctIDs(j)
    ensures ShutDownRows(j, rows, now) == EndRows(rows, StoppedRows(j), now)
  {
  }

  /** The host's stop of a running recording ends both jobs and the captions, each in place, and touches no other row;
      anyone else's, or with no recording running, changes nothing. */
  lemma StopEndsBoth(t: JobTable, call: Call, s: JobStep)
    requires Sound(t.rows) && JobEnabled(t, s) && s.StopRec?
    ensures var j := JobsOf(t.rows, call.id);
            var t' := RunJobStep(t, call, j, s);
            if s.userID == call.HostID() && exists k :: IsActiveJob(t.rows, call.id, Recording, k) then
              Quiet(t'.rows, call.id) && t' == t.(rows := EndRows(t.rows, StoppedRows(j), s.now))
            else t' == t
  {
    var j := JobsOf(t.rows, call.id);
    JobsOfBacked(t.rows, call.id);
    ActiveJobFound(t.rows, call.id, Recording);
    if Running(j.recording) {
      CoupledShutdown(j, t.rows, s.now);
      ShutDownByRow(j, t.rows, s.now);
      StopsRows(j, t.rows, s.now);
      EndedIsQuiet(t.rows, ShutDownRows(j, t.rows, s.now), call.id);
    }
  }

  /** A start by the host creates a running recording exactly when there was none, and goes on to the job service. */
  lemma StartCreatesOne(t: JobTable, call: Call, s: JobStep)
    requires Sound(t.rows) && JobEnabled(t, s) && s.StartRec?
    ensures var t' := RunJobStep(t, call, JobsOf(t.rows, call.id), s);
            if s.userID == call.HostID() && (forall j :: !IsActiveJob(t.rows, call.id, Recording, j)) then
              t'.rows[s.rowID] == Job(s.rowID, call.id, Recording, s.userID, s.now, 0, 0, NONE, NONE, "")
              && IsActiveJob(t'.rows, call.id, Recording, s.rowID) && t'.rows == t.rows[s.rowID := t'.rows[s.rowID]] && t'.rec == t.rec + 1
            else t' == t
  {
    JobsOfBacked(t.rows, call.id);
    ActiveJobFound(t.rows, call.id, Recording);
  }

  /** When the job service answers, the answer goes to the recording that runs now, if any: its ID to one that has none,
      its error to any. A transcription is begun only after the former. */
  lemma AnswerOutcome(t: JobTable, call: Call, s: JobStep, r: ID)
    requires Sound(t.rows) && JobEnabled(t, s) && s.RecReturns?
    ensures var t' := RunJobStep(t, call, JobsOf(t.rows, call.id), s);
            && ((forall j :: !IsActiveJob(t.rows, call.id, Recording, j)) ==> t' == t.(rec := t.rec - 1))
            && (IsActiveJob(t.rows, call.id, Recording, r) ==>
                  && r in t'.rows
                  && (match s.res
                      case Ran(id) => t'.rows[r] == t.rows[r].(jobID := if t.rows[r].jobID == NONE then id else t.rows[r].jobID)
                      case Failed(e) => t' == t.(rec := t.rec - 1, rows := t.rows[r := t.rows[r].(endAt := s.now, err := e)]))
                  && (forall k :: k in t.rows && k != r ==> k in t'.rows && t'.rows[k] == t.rows[k])
                  && (t'.tr == t.tr + 1 <==>
                        (s.res.Ran? && t.rows[r].jobID == NONE && s.transcribe.Some?
                         && forall j :: !IsActiveJob(t.rows, call.id, Transcribing, j)))
                  && (t'.tr != t.tr + 1 ==> t'.tr == t.tr && t'.rows.Keys == t.rows.Keys)
                  && (t'.tr == t.tr + 1 ==> Begun(t.rows, t'.rows, call.id, s)))
  {
    JobsOfBacked(t.rows, call.id);
    ActiveJobFound(t.rows, call.id, Recording);
    ActiveJobFound(t.rows, call.id, Transcribing);
    if IsActiveJob(t.rows, call.id, Recording, r) {
      assert UniqueJob(t.rows, call.id, Recording);
      ActiveJobIs(t.rows, call.id, Recording, r);
    }
  }

  /** The rows of the transcription a recording's start goes on to, and of its captions: added, and nothing else is. */
  ghost predicate Begun(rows: map<ID, Job>, rows': map<ID, Job>, callID: ID, s: JobStep) {
    && s.RecReturns? && s.transcribe.Some?
    && (forall k :: k in rows' <==> k in rows || k == s.transcribe.value || s.captionsID == Some(k))
    && s.transcribe.value in rows'
    && rows'[s.transcribe.value] == Job(s.transcribe.value, callID, Transcribing, s.userID, s.now, 0, 0, NONE, NONE, "")
    && (s.captionsID.Some? ==>
          s.captionsID.value in rows'
          && rows'[s.captionsID.value] == Job(s.captionsID.value, callID, Captioning, s.userID, s.now, 0, 0, NONE, NONE, ""))
  }

  predicate TimesOut(j: Option<Job>, jobID: ID) {
    j.Some? && j.value.startAt == 0 && j.value.jobID == jobID
  }

  function WithError(rows: map<ID, Job>, j: ID, e: string): map<ID, Job> {
    if j in rows then rows[j := rows[j].(err := e)] else rows
  }

  function BothJobs(j: Jobs): set<ID> {
    IDOf(j.recording, Running(j.recording)) + IDOf(j.transcription, Running(j.transcription))
  }

  /** A recording whose bot has not started in time is ended with an error, and takes the transcription and its captions
      along; no other row changes. Otherwise the checker does nothing. */
  lemma RecordingTimeoutOutcome(rows: map<ID, Job>, callID: ID, jobID: ID, now: nat)
    requires Sound(rows) && now > 0
    ensures var j := JobsOf(rows, callID);
            var rows' := RecordingTimeout(j, rows, jobID, now);
            if TimesOut(j.recording, jobID) then
              Quiet(rows', callID) && rows' == EndRows(WithError(rows, j.recording.value.id, REC_TIMEOUT), StoppedRows(j), now)
            else rows' == rows
  {
    var j := JobsOf(rows, callID);
    JobsOfBacked(rows, callID);
    if TimesOut(j.recording, jobID) {
      RecordingTimeoutOK(JobsDb(j, rows), jobID, now);
      var rec := j.recording.value.(endAt := now, err := REC_TIMEOUT);
      var j1 := j.(recording := Some(rec));
      if Running(j1.transcription) {
        CoupledShutdown(j1, UpdateJob(rows, rec), now);
        StopsRows(j1, UpdateJob(rows, rec), now);
      }
      EndedIsQuiet(rows, RecordingTimeout(j, rows, jobID, now), callID);
    }
  }

  /** A transcription whose bot has not started in time takes the recording along, but not its own captions. */
  lemma TranscriptionTimeoutOutcome(rows: map<ID, Job>, callID: ID, jobID: ID, captionsOn: bool, now: nat)
    requires Sound(rows) && now > 0
    ensures var j := JobsOf(rows, callID);
            var rows' := TranscriptionTimeout(j, rows, jobID, captionsOn, now);
            if TimesOut(j.transcription, jobID) then
              Quiet(rows', callID) && rows' == EndRows(WithError(rows, j.transcription.value.id, TR_TIMEOUT), BothJobs(j), now)
            else rows' == rows
  {
    var j := JobsOf(rows, callID);
    JobsOfBacked(rows, callID);
    if TimesOut(j.transcription, jobID) {
      TranscriptionTimeoutOK(JobsDb(j, rows), jobID, captionsOn, now);
      EndedIsQuiet(rows, TranscriptionTimeout(j, rows, jobID, captionsOn, now), callID);
    }
  }

  /** A bot's report is accepted exactly for the running job it names, and a start only for one that has not started. */
  lemma ReportAcceptedIff(rows: map<ID, Job>, callID: ID, t: JobType, rowID: ID, status: BotStatus, captionsOn: bool, now: nat)
    requires Sound(rows) && now > 0
    ensures BotReports(JobsOf(rows, callID), rows, t, rowID, status, captionsOn, now).Some? <==>
            t != Captioning && IsActiveJob(rows, callID, t, rowID) && !status.Unsupported? && (status.Started? ==> rows[rowID].startAt == 0)
  {
    JobsOfBacked(rows, callID);
    ActiveJobFound(rows, callID, t);
    if t != Captioning && IsActiveJob(rows, callID, t, rowID) {
      assert UniqueJob(rows, callID, t);
      ActiveJobIs(rows, callID, t, rowID);
    }
  }

  /** An accepted report of failure ends both jobs and keeps the reported error. Captions end with a recording that fails
      while a transcription runs, but not with a transcription that fails itself. */
  lemma FailureEndsBoth(rows: map<ID, Job>, callID: ID, t: JobType, rowID: ID, e: string, captionsOn: bool, now: nat)
    requires Sound(rows) && now > 0
    ensures var r := BotReports(JobsOf(rows, callID), rows, t, rowID, JobFailed(e), captionsOn, now);
            r.Some? ==>
              var j := JobsOf(rows, callID);
              && Quiet(r.value, callID) && rowID in rows
              && r.value == EndRows(WithError(rows, rowID, e), if t == Recording then StoppedRows(j) else BothJobs(j), now)
  {
    var j := JobsOf(rows, callID);
    JobsOfBacked(rows, callID);
    var r := BotReports(j, rows, t, rowID, JobFailed(e), captionsOn, now);
    if r.Some? {
      BotReportsOK(JobsDb(j, rows), t, rowID, JobFailed(e), captionsOn, now);
      EndedIsQuiet(rows, r.value, callID);
    }
  }

  /** An accepted report of a start marks the row and, for a transcription with captions on, that of its captions; it leaves
      the job running, and is the last one accepted. */
  lemma StartsOnce(rows: map<ID, Job>, callID: ID, t: JobType, rowID: ID, captionsOn: bool, now: nat, again: BotStatus, later: nat)
    requires Sound(rows) && now > 0 && later > 0 && again.Started?
    ensures var r := BotReports(JobsOf(rows, callID), rows, t, rowID, Started, captionsOn, now);
            r.Some? ==>
              && rowID in rows && rowID in r.value && r.value[rowID] == rows[rowID].(startAt := now)
              && (forall k :: k in rows && k != rowID ==>
                    k in r.value
                    && r.value[k] == if t == Transcribing && TakenAlong(rows, callID, captionsOn, k) then rows[k].(startAt := now) else rows[k])
              && IsActiveJob(r.value, callID, t, rowID)
              && BotReports(JobsOf(r.value, callID), r.value, t, rowID, again, captionsOn, later).None?
  {
    var j := JobsOf(rows, callID);
    JobsOfBacked(rows, callID);
    ReportAcceptedIff(rows, callID, t, rowID, Started, captionsOn, now);
    var r := BotReports(j, rows, t, rowID, Started, captionsOn, now);
    if r.Some? {
      BotReportsOK(JobsDb(j, rows), t, rowID, Started, captionsOn, now);
      EvolvesKeeps(rows, r.value);
      ReportAcceptedIff(r.value, callID, t, rowID, again, captionsOn, later);
    }
  }

  /** Removing the session of either running job's registered bot leaves neither running; removing any other session
      touches no recording and no transcription; and no row of another call is touched either way. */
  lemma BotLeaveEndsBoth(rows: map<ID, Job>, callID: ID, originalConnID: ID, connID: ID, now: nat)
    requires Sound(rows) && now > 0
    ensures var j := JobsOf(rows, callID);
            var rows' := BotLeaves(j, rows, originalConnID, connID, now).rows;
            && (RegisteredBot(j, originalConnID) ==> Quiet(rows', callID))
            && (!RegisteredBot(j, originalConnID) ==>
                  forall k :: k in rows && rows[k].jtype != Captioning ==> k in rows' && rows'[k] == rows[k])
            && (forall k :: k in rows && rows[k].callID != callID ==> k in rows' && rows'[k] == rows[k])
  {
    var j := JobsOf(rows, callID);
    JobsOfBacked(rows, callID);
    BotLeavesByRow(j, rows, originalConnID, connID, now);
    BotLeavesOK(JobsDb(j, rows), originalConnID, connID, now);
    if RegisteredBot(j, originalConnID) {
      EndedIsQuiet(rows, BotLeaves(j, rows, originalConnID, connID, now).rows, callID);
    }
  }

  /** A transcription is begun exactly if none runs: its row and, with captions, theirs are added, running, and no other row
      changes. */
  lemma BeginsTranscribing(rows: map<ID, Job>, callID: ID, rowID: ID, captionsID: Option<ID>, userID: ID, now: nat)
    requires Sound(rows) && rowID !in rows && (captionsID.Some? ==> captionsID.value !in rows && captionsID.value != rowID)
    ensures var r := BeginTranscribing(JobsOf(rows, callID), rows, callID, rowID, captionsID, userID, now);
            && (r.Some? <==> rowID != NONE && forall j :: !IsActiveJob(rows, callID, Transcribing, j))
            && (r.Some? ==>
                  && (forall k :: k in rows ==> k in r.value && r.value[k] == rows[k])
                  && (forall k :: k in r.value && k !in rows <==> k == rowID || captionsID == Some(k))
                  && r.value[rowID] == Job(rowID, callID, Transcribing, userID, now, 0, 0, NONE, NONE, "")
                  && (captionsID.Some? ==>
                        r.value[captionsID.value] == Job(captionsID.value, callID, Captioning, userID, now, 0, 0, NONE, NONE, ""))
                  && IsActiveJob(r.value, callID, Transcribing, rowID)
                  && (captionsID.Some? ==> IsActiveJob(r.value, callID, Captioning, captionsID.value)))
  {
    JobsOfBacked(rows, callID);
    ActiveJobFound(rows, callID, Transcribing);
  }

  /** Whether the captions row `k` is the one an operation on the call's transcription takes along. */
  ghost predicate TakenAlong(rows: map<ID, Job>, callID: ID, captionsOn: bool, k: ID) {
    var lc := JobsOf(rows, callID).liveCaptions;
    captionsOn && lc.Some? && lc.value.id == k
  }

  /** The job service's answer about a transcription goes to the one that runs when the lock is retaken, and with captions
      on to its captions: the ID if it has none yet, the error in any case. No other row changes. */
  lemma TranscriptionAnswerOutcome(t: JobTable, call: Call, s: JobStep, r: ID)
    requires Sound(t.rows) && JobEnabled(t, s) && s.TrReturns?
    ensures var t' := RunJobStep(t, call, JobsOf(t.rows, call.id), s);
            && t'.tr == t.tr - 1 && t'.rec == t.rec && t'.rows.Keys == t.rows.Keys
            && ((forall j :: !IsActiveJob(t.rows, call.id, Transcribing, j)) ==> t'.rows == t.rows)
            && (IsActiveJob(t.rows, call.id, Transcribing, r) ==>
                  forall k :: k in t.rows ==>
                    var row := t.rows[k];
                    t'.rows[k] ==
                      match s.res
                      case Ran(id) =>
                        if t.rows[r].jobID == NONE && (k == r || TakenAlong(t.rows, call.id, s.captionsOn, k)) then row.(jobID := id) else row
                      case Failed(e) =>
                        if k == r then row.(endAt := s.now, err := e)
                        else if TakenAlong(t.rows, call.id, s.captionsOn, k) then row.(endAt := s.now) else row)
  {
    JobsOfBacked(t.rows, call.id);
    ActiveJobFound(t.rows, call.id, Transcribing);
    if IsActiveJob(t.rows, call.id, Transcribing, r) {
      assert UniqueJob(t.rows, call.id, Transcribing);
      ActiveJobIs(t.rows, call.id, Transcribing, r);
    }
  }

  predicate BotOf(j: Option<Job>, connID: ID) {
    Running(j) && j.value.botConnID == connID
  }

  /** The transcription's registration moves only when the recording has none to move. */
  predicate TranscriptionMoves(j: Jobs, prev: ID) {
    BotOf(j.transcription, prev) && !BotOf(j.recording, prev)
  }

  /** When the bot's connection is replaced, one registration moves with it: the recording's, or else the transcription's
      with that of its captions. Nothing else of any row changes. */
  lemma ReconnectMovesRegistration(rows: map<ID, Job>, callID: ID, prev: ID, conn: ID)
    requires Sound(rows)
    ensures var j := JobsOf(rows, callID);
            var rows' := BotReconnects(j, rows, prev, conn);
            var moved := if BotOf(j.recording, prev) then {j.recording.value.id}
                         else if TranscriptionMoves(j, prev) then
                           {j.transcription.value.id} + IDOf(j.liveCaptions, BotOf(j.liveCaptions, prev))
                         else {};
            && rows'.Keys == rows.Keys
            && (forall k :: k in rows ==> rows'[k] == if k in moved then rows[k].(botConnID := conn) else rows[k])
    ensures var j := JobsOf(rows, callID);
            var j' := JobsOf(BotReconnects(j, rows, prev, conn), callID);
            j' == AfterReconnect(j, prev, conn)
  {
    var j := JobsOf(rows, callID);
    var rows' := BotReconnects(j, rows, prev, conn);
    JobsOfBacked(rows, callID);
    assert J.SameOrderRows(rows, rows');
    J.ReadAfterWrite(rows, rows', callID, Recording);
    J.ReadAfterWrite(rows, rows', callID, Transcribing);
    J.ReadAfterWrite(rows, rows', callID, Captioning);
  }

  function Moved(j: Option<Job>, moves: bool, conn: ID): Option<Job> {
    if j.Some? && moves then Some(j.value.(botConnID := conn)) else j
  }

  /** A session's original connection is still registered after a reconnect that replaced `prev` by `conn`. */
  predicate StillRegistered(j: Jobs, original: ID, prev: ID, conn: ID) {
    || (Running(j.recording) && original == if BotOf(j.recording, prev) then conn else j.recording.value.botConnID)
    || (Running(j.transcription) && original == if TranscriptionMoves(j, prev) then conn else j.transcription.value.botConnID)
  }

  /** The captions a leave after a reconnect ends. */
  predicate CaptionsLeave(j: Jobs, original: ID, prev: ID, conn: ID) {
    && Running(j.liveCaptions)
    && (|| j.liveCaptions.value.botConnID == conn
        || (TranscriptionMoves(j, prev) && j.liveCaptions.value.botConnID == prev)
        || (Running(j.transcription) && Running(j.recording)
            && original == if BotOf(j.recording, prev) then conn else j.recording.value.botConnID))
  }

  function AfterReconnect(j: Jobs, prev: ID, conn: ID): Jobs {
    Jobs(Moved(j.recording, BotOf(j.recording, prev), conn),
         Moved(j.transcription, TranscriptionMoves(j, prev), conn),
         Moved(j.liveCaptions, TranscriptionMoves(j, prev) && BotOf(j.liveCaptions, prev), conn))
  }

  /** The rows such a leave ends. */
  function LeftRows(j: Jobs, original: ID, prev: ID, conn: ID): set<ID> {
    (if StillRegistered(j, original, prev, conn) then BothJobs(j) else {})
    + IDOf(j.liveCaptions, CaptionsLeave(j, original, prev, conn))
  }

  lemma LeftRowsAre(j: Jobs, original: ID, prev: ID, conn: ID)
    requires j.liveCaptions.Some? ==> Running(j.liveCaptions)
    ensures EndedRows(AfterReconnect(j, prev, conn), original, conn) == LeftRows(j, original, prev, conn)
    ensures RegisteredBot(AfterReconnect(j, prev, conn), original) == StillRegistered(j, original, prev, conn)
  {
  }

  /** The bot leaves after it reconnected. Recordings and transcriptions are matched on its original connection, which the
      reconnect did not change, but their registrations may have moved: both end if one is still under the original
      connection, and otherwise both are left as they are. */
  lemma LeaveAfterReconnect(rows: map<ID, Job>, callID: ID, original: ID, prev: ID, conn: ID, now: nat)
    requires Sound(rows) && now > 0
    ensures var j := JobsOf(rows, callID);
            var rows' := BotReconnects(j, rows, prev, conn);
            BotLeaves(JobsOf(rows', callID), rows', original, conn, now).rows == EndRows(rows', LeftRows(j, original, prev, conn), now)
  {
    var j := JobsOf(rows, callID);
    var rows' := BotReconnects(j, rows, prev, conn);
    ReconnectMovesRegistration(rows, callID, prev, conn);
    assert JobsKeyed(rows');
    JobsOfBacked(rows, callID);
    JobsOfBacked(rows', callID);
    BotLeavesByRow(JobsOf(rows', callID), rows', original, conn, now);
    LeftRowsAre(j, original, prev, conn);
  }

  /** So neither job runs afterwards exactly if one was still registered, or neither ran before. */
  lemma QuietAfterReconnect(rows: map<ID, Job>, callID: ID, original: ID, prev: ID, conn: ID, now: nat)
    requires Sound(rows) && now > 0
    ensures var j := JobsOf(rows, callID);
            var rows' := BotReconnects(j, rows, prev, conn);
            Quiet(BotLeaves(JobsOf(rows', callID), rows', original, conn, now).rows, callID)
            <==> StillRegistered(j, original, prev, conn) || Quiet(rows, callID)
  {
    var j := JobsOf(rows, callID);
    var rows' := BotReconnects(j, rows, prev, conn);
    JobsOfBacked(rows, callID);
    ReconnectMovesRegistration(rows, callID, prev, conn);
    LeaveAfterReconnect(rows, callID, original, prev, conn, now);
    SameKind(rows, rows', j, prev, conn);
    if StillRegistered(j, original, prev, conn) {
      ReconnectSound(rows, callID, prev, conn);
      LeftRowsAre(j, original, prev, conn);
      BotLeaveEndsBoth(rows', callID, original, conn, now);
    } else {
      OnlyCaptionsLeave(rows, rows', callID, original, prev, conn, now);
    }
  }

  ghost predicate SameKinds(rows: map<ID, Job>, rows': map<ID, Job>) {
    && rows.Keys == rows'.Keys
    && forall k :: k in rows ==>
         rows'[k].callID == rows[k].callID && rows'[k].jtype == rows[k].jtype && rows'[k].endAt == rows[k].endAt
  }

  lemma SameKind(rows: map<ID, Job>, rows': map<ID, Job>, j: Jobs, prev: ID, conn: ID)
    requires rows' == BotReconnects(j, rows, prev, conn) && Backed(j, rows)
    ensures SameKinds(rows, rows')
  {
  }

  lemma ReconnectSound(rows: map<ID, Job>, callID: ID, prev: ID, conn: ID)
    requires Sound(rows)
    ensures Sound(BotReconnects(JobsOf(rows, callID), rows, prev, conn))
  {
    JobsOfBacked(rows, callID);
    ReconnectsOK(JobsDb(JobsOf(rows, callID), rows), prev, conn);
    EvolvesKeeps(rows, BotReconnects(JobsOf(rows, callID), rows, prev, conn));
  }

  lemma OnlyCaptionsLeave(rows: map<ID, Job>, rows': map<ID, Job>, callID: ID, original: ID, prev: ID, conn: ID, now: nat)
    requires JobsKeyed(rows) && SameKinds(rows, rows') && !StillRegistered(JobsOf(rows, callID), original, prev, conn)
    ensures Quiet(EndRows(rows', LeftRows(JobsOf(rows, callID), original, prev, conn), now), callID) <==> Quiet(rows, callID)
  {
    JobsOfBacked(rows, callID);
    QuietSame(rows, rows', callID);
    QuietSame(rows', EndRows(rows', LeftRows(JobsOf(rows, callID), original, prev, conn), now), callID);
  }

  lemma QuietSame(rows: map<ID, Job>, rows': map<ID, Job>, callID: ID)
    requires rows.Keys == rows'.Keys
    requires forall k :: k in rows ==>
               rows'[k].callID == rows[k].callID && rows'[k].jtype == rows[k].jtype
               && (rows[k].jtype != Captioning ==> (rows'[k].endAt == 0 <==> rows[k].endAt == 0))
    ensures Quiet(rows, callID) <==> Quiet(rows', callID)
  {
    forall k, t: JobType | t != Captioning ensures IsActiveJob(rows, callID, t, k) <==> IsActiveJob(rows', callID, t, k) {
      assert k in rows <==> k in rows.Keys;
      assert k in rows' <==> k in rows'.Keys;
    }
  }

  /** After the first reconnect of a bot to a new connection its leaving ends the jobs exactly if both were registered to it:
      the registration of only one of them moves. A recorder without a transcription of its own leaves its jobs running. */
  lemma FirstReconnect(j: Jobs, prev: ID, conn: ID)
    ensures conn != prev ==> (StillRegistered(j, prev, prev, conn) <==> BotOf(j.recording, prev) && BotOf(j.transcription, prev))
    ensures conn == prev ==> (StillRegistered(j, prev, prev, conn) <==> RegisteredBot(j, prev))
  {
  }

  /** A bot that is let in is registered with its job; with a transcription, also with the captions a read shows, if these have
      not started; and with nothing else. */
  lemma BotJoinsByRow(rows: map<ID, Job>, callID: ID, jobID: ID, connID: ID)
    requires Sound(rows)
    ensures var r := BotJoins(JobsOf(rows, callID), rows, jobID, connID);
            r.Some? ==>
              && RegisteredBot(r.value.jobs, connID)
              && r.value.rows.Keys == rows.Keys
              && forall k :: k in rows ==>
                   (r.value.rows[k] ==
                     if k == jobID || (IsActiveJob(rows, callID, Transcribing, jobID) && rows[k].startAt == 0 && TakenAlong(rows, callID, true, k))
                     then rows[k].(botConnID := connID) else rows[k])
  {
    JobsOfBacked(rows, callID);
    ActiveJobFound(rows, callID, Captioning);
  }

  /** What is then in memory is what a read would return, and the bot's leaving ends both jobs. */
  lemma JoinThenLeaveEndsBoth(rows: map<ID, Job>, callID: ID, jobID: ID, connID: ID, now: nat)
    requires Sound(rows) && now > 0
    ensures var r := BotJoins(JobsOf(rows, callID), rows, jobID, connID);
            r.Some? ==>
              && r.value.jobs == JobsOf(r.value.rows, callID)
              && Quiet(BotLeaves(r.value.jobs, r.value.rows, connID, connID, now).rows, callID)
  {
    var r := BotJoins(JobsOf(rows, callID), rows, jobID, connID);
    if r.Some? {
      JobsOfBacked(rows, callID);
      BotJoinsByRow(rows, callID, jobID, connID);
      J.BotJoinsCoherent(rows, callID, jobID, connID);
      BotJoinsOK(JobsDb(JobsOf(rows, callID), rows), jobID, connID);
      EvolvesKeeps(rows, r.value.rows);
      BotLeaveEndsBoth(r.value.rows, callID, connID, connID, now);
    }
  }
}
