/** The covert audio recorder: a record button, a one-second recording
    clock, the chunks the media recorder delivers, and the newest-first list
    of saved recordings with download and delete. The microphone, the media
    recorder and the audio analyser are represented by the outcomes and
    events they deliver. */
module CovertRecord {
  import opened Base
  import Decimal
  import Lists

  /** A piece of recorded data; only its size matters here. */
  datatype Chunk = Chunk(size: nat)

  /** The recorded audio: its chunks in delivery order and its MIME type. */
  datatype Blob = Blob(parts: seq<Chunk>, mimeType: string)

  datatype Recording = Recording(id: string, duration: nat, time: nat, blob: Option<Blob>)

  /** What the permissions query can report. */
  datatype PermissionState = Granted | Denied | Prompt

  /** The MIME type the recorder is created with. */
  function MimeType(webmSupported: bool): string {
    if webmSupported then "audio/webm" else "audio/mp4"
  }

  /** Both choices are audio types, and the browser's WebM answer decides
      which one is requested. */
  lemma MimeTypeChoice(webm: bool, other: bool)
    ensures MimeType(webm)[..6] == "audio/"
    ensures MimeType(webm) == MimeType(other) <==> webm == other
  {
  }

  /** The record button is disabled exactly when permission is known to be
      refused. */
  predicate RecordButtonEnabled(hasPermission: Option<bool>) {
    hasPermission != Some(false)
  }

  /** `checkMicrophonePermission` as written: anything but `granted`,
      including `prompt` (the state before the user has ever been asked),
      counts as refused; a failed query leaves it unknown. */
  function QueryPermissionAsWritten(state: Option<PermissionState>): Option<bool> {
    if state.None? then None else Some(state.value == Granted)
  }

  /** A first-time user, whose browser reports `prompt`, sees "Microphone
      Access Denied" and a disabled record button, so recording can never
      start and the browser never gets to ask. */
  lemma PromptLocksRecordingAsWritten()
    ensures QueryPermissionAsWritten(Some(Prompt)) == Some(false)
    ensures !RecordButtonEnabled(QueryPermissionAsWritten(Some(Prompt)))
  {
  }

  /** The intended reading: only an explicit refusal counts as refused;
      `prompt` leaves the answer to the browser's own request. */
  function QueryPermission(state: Option<PermissionState>): (r: Option<bool>)
    ensures r == Some(false) <==> state == Some(Denied)
    ensures r == Some(true) <==> state == Some(Granted)
  {
    match state
    case Some(Granted) => Some(true)
    case Some(Denied) => Some(false)
    case _ => None
  }

  /** With the intended reading the button is disabled only after an
      explicit refusal. */
  lemma RecordEnabledUnlessDenied(state: Option<PermissionState>)
    ensures RecordButtonEnabled(QueryPermission(state)) <==> state != Some(Denied)
  {
  }

  /** The part of the recorder that decides a saved recording's duration:
      the clock, whether it runs, and the value of `recordingTime` that the
      `onstop` handler closed over when recording was started. */
  datatype Session = Session(recordingTime: nat, isRecording: bool, captured: nat)

  /** Starting: the handler is created in the render where the button was
      pressed, so it sees the clock as it was then; the clock restarts at 0. */
  function StartSession(s: Session): Session {
    Session(0, true, s.recordingTime)
  }

  /** One second of the recording timer; it only runs while recording. */
  function TickSession(s: Session): Session {
    if s.isRecording then s.(recordingTime := s.recordingTime + 1) else s
  }

  function TickSessions(s: Session, n: nat): Session
    decreases n
  {
    if n == 0 then s else TickSessions(TickSession(s), n - 1)
  }

  function StopSession(s: Session): Session {
    s.(isRecording := false)
  }

  /** The duration the `onstop` handler stores, as written. */
  function SavedDurationAsWritten(s: Session): nat {
    s.captured
  }

  /** The intended duration: the clock when the recorder stopped. */
  function SavedDuration(s: Session): nat {
    s.recordingTime
  }

  lemma {:induction false} TickSessionsCount(s: Session, n: nat)
    requires s.isRecording
    ensures TickSessions(s, n) == s.(recordingTime := s.recordingTime + n)
    decreases n
  {
    if n > 0 {
      TickSessionsCount(TickSession(s), n - 1);
    }
  }

  /** As written, the first recording of a visit is saved as 00:00 however
      long it ran: five seconds of recording are stored with duration 0. */
  lemma StaleDurationAsWritten()
    ensures SavedDurationAsWritten(StopSession(TickSessions(StartSession(Session(0, false, 0)), 5))) == 0
    ensures SavedDuration(StopSession(TickSessions(StartSession(Session(0, false, 0)), 5))) == 5
  {
    TickSessionsCount(StartSession(Session(0, false, 0)), 5);
  }

  /** With the intended reading a recording is saved with the number of
      seconds it ran, whatever came before. */
  lemma SavedDurationIsTimeRecorded(s: Session, n: nat)
    ensures SavedDuration(StopSession(TickSessions(StartSession(s), n))) == n
  {
    TickSessionsCount(StartSession(s), n);
  }

  /** `deleteRecording`: drop every recording with that id. */
  function DeleteById(rs: seq<Recording>, id: string): (r: seq<Recording>)
    ensures |r| <= |rs|
    ensures forall i | 0 <= i < |r| :: r[i].id != id
  {
    Lists.Filter(rs, (x: Recording) => x.id != id)
  }

  /** Deleting keeps exactly the recordings with another id, in order. */
  lemma DeleteByIdKeepsOthers(rs: seq<Recording>, id: string, x: Recording)
    ensures x in DeleteById(rs, id) <==> x in rs && x.id != id
    ensures Lists.IsSubsequence(DeleteById(rs, id), rs)
  {
    Lists.FilterMembership(rs, (x: Recording) => x.id != id, x);
    Lists.FilterIsSubsequence(rs, (x: Recording) => x.id != id);
  }

  /** Deleting an id that is not in the list changes nothing. */
  lemma DeleteAbsentId(rs: seq<Recording>, id: string)
    requires forall i | 0 <= i < |rs| :: rs[i].id != id
    ensures DeleteById(rs, id) == rs
  {
    Lists.FilterKeepsAll(rs, (x: Recording) => x.id != id);
  }

  /** Newest first: recording times do not increase along the list. */
  predicate NewestFirst(rs: seq<Recording>) {
    forall i, j | 0 <= i < j < |rs| :: rs[i].time >= rs[j].time
  }

  /** Prepending a recording at least as recent as the head keeps the list
      newest-first, and deleting keeps it so. */
  lemma SavingKeepsNewestFirst(rs: seq<Recording>, r: Recording, id: string)
    requires NewestFirst(rs)
    requires |rs| > 0 ==> r.time >= rs[0].time
    ensures NewestFirst([r] + rs)
    ensures NewestFirst(DeleteById(rs, id))
  {
    var d := DeleteById(rs, id);
    Lists.FilterIsSubsequence(rs, (x: Recording) => x.id != id);
    forall i, j | 0 <= i < j < |d|
      ensures d[i].time >= d[j].time
    {
      Lists.SubsequenceOrder(d, rs, i, j);
      var a, b :| 0 <= a < b < |rs| && rs[a] == d[i] && rs[b] == d[j];
    }
  }

  /** A saved recording carries its audio: a blob made only of non-empty
      chunks. */
  predicate HasEvidence(r: Recording) {
    r.blob.Some? && forall k | 0 <= k < |r.blob.value.parts| :: r.blob.value.parts[k].size > 0
  }

  /** How an attempt to start recording ends: the microphone is refused;
      or it is granted and the recorder is set up, where `webmSupported` is
      the browser's answer for WebM and `reportedType` is the MIME type the
      created recorder reports (the browser may refine the requested one);
      or setup fails after the stream was obtained, before or after the
      audio context was created. */
  datatype StartOutcome =
    | MicRefused
    | RecorderReady(webmSupported: bool, reportedType: string)
    | SetupFailed(contextCreated: bool)

  /** The component. `stopsPending` counts recorder stops whose `onstop`
      has not yet run; `streamOpen` and `contextOpen` stand for the stream
      and audio-context refs being set. */
  class Recorder {
    var isRecording: bool
    var recordingTime: nat
    var audioLevel: real
    var recordings: seq<Recording>
    var hasPermission: Option<bool>
    var chunks: seq<Chunk>
    var hasRecorder: bool
    var requestedType: string
    var mimeType: string
    var stopsPending: nat
    var streamOpen: bool
    var contextOpen: bool

    /** Only non-empty chunks are ever collected, and every saved recording
      carries a blob of them; while recording, a recorder, a stream and an
      audio context exist. */
    ghost predicate Valid()
      reads this
    {
      && (forall i | 0 <= i < |chunks| :: chunks[i].size > 0)
      && (forall r | r in recordings :: HasEvidence(r))
      && (isRecording ==> hasRecorder && streamOpen && contextOpen)
    }

    constructor ()
      ensures Valid() && !isRecording && recordingTime == 0 && audioLevel == 0.0
      ensures recordings == [] && hasPermission == None && chunks == []
      ensures !hasRecorder && stopsPending == 0 && !streamOpen && !contextOpen
    {
      isRecording, recordingTime, audioLevel := false, 0, 0.0;
      recordings, hasPermission, chunks := [], None, [];
      hasRecorder, requestedType, mimeType, stopsPending := false, "", "", 0;
      streamOpen, contextOpen := false, false;
    }

    /** The mount effect's permission query came back (`None`: it failed).
      The component applies the corrected reading `QueryPermission`; as
      written, `prompt` counts as refused (`QueryPermissionAsWritten`). */
    method CheckPermission(state: Option<PermissionState>)
      requires Valid()
      modifies this`hasPermission
      ensures Valid() && hasPermission == QueryPermission(state)
    {
      hasPermission := QueryPermission(state);
    }

    /** The one-second recording timer fires; it is armed only while recording. */
    method TimerFires()
      requires Valid() && isRecording
      modifies this`recordingTime
      ensures Valid() && recordingTime == old(recordingTime) + 1
    {
      recordingTime := recordingTime + 1;
    }

    /** `startRecording`, pressed while the button shows the microphone. */
    method StartRecording(outcome: StartOutcome)
      requires Valid() && !isRecording && RecordButtonEnabled(hasPermission)
      modifies this
      ensures Valid() && recordings == old(recordings) && stopsPending == old(stopsPending)
      ensures outcome.RecorderReady? ==>
        && isRecording && recordingTime == 0 && chunks == [] && hasPermission == Some(true)
        && hasRecorder && requestedType == MimeType(outcome.webmSupported)
        && mimeType == outcome.reportedType && streamOpen && contextOpen
        && audioLevel == old(audioLevel)
      ensures outcome.MicRefused? ==>
        && hasPermission == Some(false) && !isRecording && recordingTime == old(recordingTime)
        && chunks == old(chunks) && hasRecorder == old(hasRecorder) && mimeType == old(mimeType)
        && requestedType == old(requestedType)
        && streamOpen == old(streamOpen) && contextOpen == old(contextOpen) && audioLevel == old(audioLevel)
      ensures outcome.SetupFailed? ==>
        && hasPermission == Some(false) && !isRecording && recordingTime == old(recordingTime)
        && chunks == old(chunks) && hasRecorder == old(hasRecorder) && mimeType == old(mimeType)
        && requestedType == old(requestedType)
        && streamOpen && contextOpen == (old(contextOpen) || outcome.contextCreated)
        && audioLevel == old(audioLevel)
    {
      match outcome {
        case MicRefused =>
          hasPermission := Some(false);
        case SetupFailed(contextCreated) =>
          streamOpen := true;
          hasPermission := Some(false);
          if contextCreated {
            contextOpen := true;
          }
        case RecorderReady(webm, reported) =>
          streamOpen := true;
          hasPermission := Some(true);
          contextOpen := true;
          hasRecorder := true;
          requestedType := MimeType(webm);
          mimeType := reported;
          chunks := [];
          isRecording := true;
          recordingTime := 0;
      }
    }

    /** The recorder delivers a chunk; empty ones are ignored. */
    method DataAvailable(c: Chunk)
      requires Valid() && hasRecorder
      modifies this`chunks
      ensures Valid() && chunks == old(chunks) + (if c.size > 0 then [c] else [])
    {
      if c.size > 0 {
        chunks := chunks + [c];
      }
    }

    /** `stopRecording`, pressed while recording: stop the recorder, release
      the stream and the audio context, and stop the clock (which keeps its
      final value). */
    method StopRecording()
      requires Valid() && isRecording && RecordButtonEnabled(hasPermission)
      modifies this
      ensures Valid() && !isRecording && audioLevel == 0.0 && !streamOpen && !contextOpen
      ensures stopsPending == old(stopsPending) + 1
      ensures recordingTime == old(recordingTime) && recordings == old(recordings) && chunks == old(chunks)
      ensures hasPermission == old(hasPermission) && hasRecorder == old(hasRecorder) && mimeType == old(mimeType)
      ensures requestedType == old(requestedType)
    {
      if hasRecorder && isRecording {
        stopsPending := stopsPending + 1;
      }
      streamOpen := false;
      contextOpen := false;
      isRecording := false;
      audioLevel := 0.0;
    }

    /** The recorder's `onstop` runs at `now` (milliseconds): the collected
      chunks become a blob of the type the recorder reports, and the new
      recording goes to the front. It is saved with the time the clock shows,
      which is the corrected `SavedDuration`: as written the handler saves
      the stale `recordingTime` it closed over (`SavedDurationAsWritten`). */
    method RecorderStopped(now: nat)
      requires Valid() && stopsPending > 0
      modifies this`recordings, this`stopsPending
      ensures Valid() && stopsPending == old(stopsPending) - 1
      ensures recordings == [Recording(Decimal.NatToString(now), recordingTime, now, Some(Blob(chunks, mimeType)))] + old(recordings)
    {
      var blob := Blob(chunks, mimeType);
      recordings := [Recording(Decimal.NatToString(now), recordingTime, now, Some(blob))] + recordings;
      stopsPending := stopsPending - 1;
    }

    method DeleteRecording(id: string)
      requires Valid()
      modifies this`recordings
      ensures Valid() && recordings == DeleteById(old(recordings), id)
    {
      var kept := DeleteById(recordings, id);
      forall r | r in kept
        ensures HasEvidence(r)
      {
        DeleteByIdKeepsOthers(recordings, id, r);
      }
      recordings := kept;
    }

    /** `downloadRecording` on the `i`th card of the list: the blob handed to
      the browser's download (`URL.createObjectURL` and the anchor click) is
      that recording's, and nothing is handed over when it has none. Every
      saved recording carries a blob, so a listed recording always downloads
      its audio, made of the non-empty chunks the recorder delivered. */
    method Download(i: nat) returns (b: Option<Blob>)
      requires Valid() && i < |recordings|
      ensures b.None? <==> recordings[i].blob.None?
      ensures b.Some? ==> b.value == recordings[i].blob.value
      ensures b.Some? && forall k | 0 <= k < |b.value.parts| :: b.value.parts[k].size > 0
    {
      assert HasEvidence(recordings[i]);
      if recordings[i].blob.None? {
        return None;
      }
      b := recordings[i].blob;
    }

    /** The mount effect's cleanup. It calls the `stopRecording` of the first
      render, which saw `isRecording` false, so a running recorder is not
      stopped; the stream and the audio context are released. */
    method Unmount()
      requires Valid()
      modifies this
      ensures !streamOpen && !contextOpen && !isRecording && audioLevel == 0.0
      ensures stopsPending == old(stopsPending) && recordings == old(recordings) && chunks == old(chunks)
      ensures recordingTime == old(recordingTime) && hasRecorder == old(hasRecorder)
      ensures hasPermission == old(hasPermission) && mimeType == old(mimeType)
      ensures requestedType == old(requestedType)
      ensures forall i | 0 <= i < |chunks| :: chunks[i].size > 0
    {
      streamOpen := false;
      contextOpen := false;
      isRecording := false;
      audioLevel := 0.0;
    }
  }
}
