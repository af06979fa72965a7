/** The in-memory call state as the heap structure it is (server/state.go): a record with slices, maps and pointers
    that several operations of a batch share. */
module CallHeap {
  import opened CallModel

  class IDSet {
    var ids: set<ID>
    constructor (ids: set<ID>) ensures this.ids == ids { this.ids := ids; }
  }

  class Flags {
    var at: map<ID, bool>
    constructor (at: map<ID, bool>) ensures this.at == at { this.at := at; }
  }

  class CallSession {
    const id: ID
    const callID: ID
    const userID: ID
    const joinAt: nat
    var unmuted: bool
    var raisedHand: nat
    var video: bool

    constructor (s: Session)
      ensures Value() == s
    {
      id, callID, userID, joinAt := s.id, s.callID, s.userID, s.joinAt;
      unmuted, raisedHand, video := s.unmuted, s.raisedHand, s.video;
    }

    function Value(): Session
      reads this
    {
      Session(id, callID, userID, joinAt, unmuted, raisedHand, video)
    }
  }

  class SessionMap {
    var at: map<ID, CallSession>
    constructor (at: map<ID, CallSession>) ensures this.at == at { this.at := at; }
  }

  class CallJob {
    const id: ID
    const callID: ID
    const jtype: JobType
    const creatorID: ID
    const initAt: nat
    var startAt: nat
    var endAt: nat
    var jobID: ID
    var botConnID: ID
    var err: string

    constructor (j: Job)
      ensures Value() == j
    {
      id, callID, jtype, creatorID, initAt := j.id, j.callID, j.jtype, j.creatorID, j.initAt;
      startAt, endAt, jobID, botConnID, err := j.startAt, j.endAt, j.jobID, j.botConnID, j.err;
    }

    function Value(): Job
      reads this
    {
      Job(id, callID, jtype, creatorID, initAt, startAt, endAt, jobID, botConnID, err)
    }
  }

  /** public.Call: assigning it copies the plain fields and shares the slices and maps, any of which may be nil. */
  datatype CallStruct = CallStruct(
    id: ID, channelID: ID, startAt: nat, endAt: nat, createAt: nat, postID: ID, threadID: ID, ownerID: ID,
    participants: array?<ID>, screenDuration: int, hosts: array?<ID>, rtcdHost: ID, screenSharingSessionID: ID,
    screenStartAt: nat, nodeID: ID, joined: IDSet?, hostLockedUserID: ID, dismissed: Flags?)
  {
    ghost function Parts(): set<object> {
      (if participants != null then {participants} else {}) + (if hosts != null then {hosts} else {})
      + (if joined != null then {joined} else {}) + (if dismissed != null then {dismissed} else {})
    }

    function Value(): Call
      reads participants, hosts, joined, dismissed
    {
      Call(id, channelID, startAt, endAt, createAt, postID, threadID, ownerID, SliceValue(participants), screenDuration,
           Props(SliceValue(hosts), rtcdHost, screenSharingSessionID, screenStartAt, nodeID,
                 if joined == null then {} else joined.ids, hostLockedUserID,
                 if dismissed == null then map[] else dismissed.at))
    }

    /** Nil in the same places, which the value alone does not tell. */
    ghost predicate NilLike(c: CallStruct) {
      && (participants == null <==> c.participants == null) && (hosts == null <==> c.hosts == null)
      && (joined == null <==> c.joined == null) && (dismissed == null <==> c.dismissed == null)
    }
  }

  function SliceValue(a: array?<ID>): seq<ID>
    reads a
  {
    if a == null then [] else a[..]
  }

  /** make and copy. */
  method CopySlice(a: array?<ID>) returns (b: array?<ID>)
    ensures a == null ==> b == null
    ensures a != null ==> b != null && fresh(b) && b[..] == a[..]
  {
    if a == null { return null; }
    var c := new ID[a.Length];
    for i := 0 to a.Length
      invariant c[..i] == a[..i]
    {
      c[i] := a[i];
    }
    return c;
  }

  method CopyJob(j: CallJob?) returns (k: CallJob?)
    ensures j == null <==> k == null
    ensures j != null ==> fresh(k) && k.Value() == j.Value()
  {
    if j == null { return null; }
    k := new CallJob(j.Value());
  }

  class LiveCall {
    var call: CallStruct
    var sessions: SessionMap
    var recording: CallJob?
    var transcription: CallJob?
    var liveCaptions: CallJob?
    ghost var Repr: set<object>

    ghost predicate Valid()
      reads this, Repr
    {
      && this in Repr && sessions in Repr && call.Parts() <= Repr
      && JobsIn(recording, transcription, liveCaptions, Repr)
      && forall s :: s in sessions.at ==> sessions.at[s] in Repr
    }

    ghost function JobsValue(): Jobs
      reads this, recording, transcription, liveCaptions
    {
      Jobs(JobValue(recording), JobValue(transcription), JobValue(liveCaptions))
    }

    ghost function SessionsValue(): map<ID, Session>
      requires Valid()
      reads this, Repr
    {
      map s | s in sessions.at :: sessions.at[s].Value()
    }

    ghost function Value(): CallState
      requires Valid()
      reads this, Repr
    {
      CallState(call.Value(), SessionsValue(), JobsValue())
    }

    constructor (call: CallStruct, sessions: SessionMap, recording: CallJob?, transcription: CallJob?, liveCaptions: CallJob?,
                 ghost parts: set<object>)
      requires call.Parts() <= parts && sessions in parts && forall s :: s in sessions.at ==> sessions.at[s] in parts
      requires JobsIn(recording, transcription, liveCaptions, parts)
      ensures Valid()
      ensures this.call == call && this.sessions == sessions
      ensures this.recording == recording && this.transcription == transcription && this.liveCaptions == liveCaptions
      ensures Repr == {this} + parts
    {
      this.call, this.sessions := call, sessions;
      this.recording, this.transcription, this.liveCaptions := recording, transcription, liveCaptions;
      Repr := {this} + parts;
    }

    /** The struct copied with everything it refers to. */
    method CloneCall() returns (c: CallStruct)
      ensures fresh(c.Parts()) && c.Value() == call.Value() && c.NilLike(call)
    {
      var participants := CopySlice(call.participants);
      var hosts := CopySlice(call.hosts);
      c := call.(participants := participants, hosts := hosts);
      if call.dismissed != null {
        var d := new Flags(call.dismissed.at);
        c := c.(dismissed := d);
      }
      if call.joined != null {
        var j := new IDSet(call.joined.ids);
        c := c.(joined := j);
      }
    }

    method CloneSessions() returns (m: SessionMap, ghost parts: set<object>)
      ensures m.at.Keys == sessions.at.Keys && m in parts && fresh(parts)
      ensures forall s :: s in m.at ==> m.at[s] in parts && m.at[s].Value() == sessions.at[s].Value()
    {
      var from := sessions.at;
      var copies: map<ID, CallSession> := map[];
      parts := {};
      var rest := from.Keys;
      while exists s :: s in rest
        invariant copies.Keys == from.Keys - rest && rest <= from.Keys
        invariant fresh(parts)
        invariant forall s :: s in copies ==> copies[s] in parts && copies[s].Value() == from[s].Value()
        decreases |rest|
      {
        var s :| s in rest;
        var copy := new CallSession(from[s].Value());
        copies, parts := copies[s := copy], parts + {copy};
        rest := rest - {s};
      }
      m := new SessionMap(copies);
      parts := parts + {m};
    }

    method CloneJobs() returns (recording: CallJob?, transcription: CallJob?, liveCaptions: CallJob?, ghost parts: set<object>)
      ensures Jobs(JobValue(recording), JobValue(transcription), JobValue(liveCaptions)) == JobsValue()
      ensures JobsIn(recording, transcription, liveCaptions, parts) && fresh(parts)
    {
      recording := CopyJob(this.recording);
      transcription := CopyJob(this.transcription);
      liveCaptions := CopyJob(this.liveCaptions);
      parts := (if recording != null then {recording} else {}) + (if transcription != null then {transcription} else {})
               + (if liveCaptions != null then {liveCaptions} else {});
    }
  }

  /** Three separate objects, where they exist, of the given set. */
  ghost predicate JobsIn(recording: CallJob?, transcription: CallJob?, liveCaptions: CallJob?, parts: set<object>) {
    && (recording != null ==> recording in parts && recording != transcription && recording != liveCaptions)
    && (transcription != null ==> transcription in parts && transcription != liveCaptions)
    && (liveCaptions != null ==> liveCaptions in parts)
  }

  function JobValue(j: CallJob?): Option<Job>
    reads j
  {
    if j == null then None else Some(j.Value())
  }

  /** Clone: an equal structure that shares no mutable part with the original. */
  method Clone(cs: LiveCall?) returns (copy: LiveCall?)
    requires cs != null ==> cs.Valid()
    ensures cs == null <==> copy == null
    ensures cs != null ==> copy.Valid() && fresh(copy.Repr) && copy.Value() == cs.Value() && copy.call.NilLike(cs.call)
  {
    if cs == null { return null; }
    var call, sessions, parts := CloneMaps(cs);
    var recording, transcription, liveCaptions, jobParts := cs.CloneJobs();
    copy := Assemble(cs, call, sessions, recording, transcription, liveCaptions, parts + jobParts);
  }

  method Assemble(cs: LiveCall, call: CallStruct, sessions: SessionMap, recording: CallJob?, transcription: CallJob?,
                  liveCaptions: CallJob?, ghost parts: set<object>) returns (copy: LiveCall)
    requires cs.Valid() && call.Value() == cs.call.Value() && call.NilLike(cs.call)
    requires sessions.at.Keys == cs.sessions.at.Keys
    requires forall s :: s in sessions.at ==> sessions.at[s] in parts && sessions.at[s].Value() == cs.sessions.at[s].Value()
    requires Jobs(JobValue(recording), JobValue(transcription), JobValue(liveCaptions)) == cs.JobsValue()
    requires call.Parts() <= parts && sessions in parts && JobsIn(recording, transcription, liveCaptions, parts)
    ensures fresh(copy) && copy.Valid() && copy.Repr == {copy} + parts && copy.Value() == cs.Value() && copy.call == call
  {
    copy := new LiveCall(call, sessions, recording, transcription, liveCaptions, parts);
    SameValue(cs, copy);
  }

  method CloneMaps(cs: LiveCall) returns (call: CallStruct, sessions: SessionMap, ghost parts: set<object>)
    ensures call.Value() == cs.call.Value() && call.NilLike(cs.call) && call.Parts() <= parts
    ensures sessions.at.Keys == cs.sessions.at.Keys && sessions in parts && fresh(parts)
    ensures forall s :: s in sessions.at ==> sessions.at[s] in parts && sessions.at[s].Value() == cs.sessions.at[s].Value()
  {
    call := cs.CloneCall();
    sessions, parts := cs.CloneSessions();
    parts := parts + call.Parts();
  }

  lemma SameValue(cs: LiveCall, copy: LiveCall)
    requires cs.Valid() && copy.Valid() && copy.call.Value() == cs.call.Value() && copy.JobsValue() == cs.JobsValue()
    requires copy.sessions.at.Keys == cs.sessions.at.Keys
    requires forall s :: s in copy.sessions.at ==> copy.sessions.at[s].Value() == cs.sessions.at[s].Value()
    ensures copy.Value() == cs.Value()
  {
    forall s | s in cs.sessions.at ensures s in copy.sessions.at && copy.SessionsValue()[s] == cs.SessionsValue()[s] {
      assert s in copy.sessions.at.Keys;
    }
    assert copy.SessionsValue().Keys == cs.SessionsValue().Keys;
  }
}
