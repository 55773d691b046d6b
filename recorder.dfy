/**
 * The browser recorder of app.js: it cuts a recording into numbered five-minute chunks,
 * uploads each chunk under a name the server can parse, saves it locally when the upload
 * fails, and keeps `{id, currentChunk}` in `localStorage` so a session can be resumed.
 */
module Recorder {
  import opened Text
  import Transcription

  // ---------------------------------------------------------------------------
  // Names and the timer text
  // ---------------------------------------------------------------------------

  /** CHUNK_DURATION: five minutes, in milliseconds. */
  const ChunkDurationMs := 5 * 60 * 1000
  /** MAX_DURATION: sixty minutes, in milliseconds. */
  const MaxDurationMs := 60 * 60 * 1000
  /** MAX_CHUNKS. */
  const MaxChunks := 12

  /** The fields of a `Date` the recorder reads, in local time; `month` counts from 0. */
  datatype LocalTime = LocalTime(year: nat, month: nat, day: nat, hours: nat, minutes: nat, seconds: nat)

  /** What a `Date` guarantees of its fields; the year has at least two digits. */
  predicate IsCalendarTime(t: LocalTime) {
    t.year >= 10 && t.month < 12 && 1 <= t.day <= 31 && t.hours < 24 && t.minutes < 60 && t.seconds < 60
  }

  /** `s.slice(-2)`: the last two characters, or all of a shorter string. */
  function LastTwo(s: string): (r: string)
    ensures |r| == if |s| >= 2 then 2 else |s|
    ensures EndsWith(s, r)
  {
    if |s| >= 2 then s[|s| - 2..] else s
  }

  /** The last digit of a decimal rendering is the number's last digit. */
  lemma LastDigitOfNatToString(n: nat)
    ensures NatToString(n)[|NatToString(n)| - 1] == DigitChar(n % 10)
  {
  }

  /** The last two digits of the rendering of a number from 10 on are worth the number modulo 100. */
  lemma LastTwoDigits(n: nat)
    requires n >= 10
    ensures AllDigits(LastTwo(NatToString(n))) && |LastTwo(NatToString(n))| == 2
    ensures DecimalValue(LastTwo(NatToString(n))) == n % 100
  {
    var s := NatToString(n);
    var h := NatToString(n / 10);
    assert s == h + [DigitChar(n % 10)];
    LastDigitOfNatToString(n / 10);
    var two := LastTwo(s);
    var tens, units := (n / 10) % 10, n % 10;
    assert two == [DigitChar(tens), DigitChar(units)];
    assert two[..1] == [DigitChar(tens)];
    assert [DigitChar(tens)][..0] == [];
    assert DecimalValue(two[..1]) == tens;
    assert DecimalValue(two) == tens * 10 + units;
    LowTwoDigits(n);
  }

  /** A number modulo 100 is its tens digit times ten plus its units digit. */
  lemma LowTwoDigits(n: nat)
    ensures n % 100 == ((n / 10) % 10) * 10 + n % 10
  {
    var q, u := n / 10, n % 10;
    var k, t := q / 10, q % 10;
    assert n == 10 * q + u;
    assert q == 10 * k + t;
    assert n == 100 * k + (10 * t + u);
    assert 0 <= 10 * t + u < 100;
  }

  /** The three parts of a concatenation are read back by slicing. */
  lemma SliceThree(a: string, b: string, c: string)
    ensures (a + b + c)[..|a|] == a
    ensures (a + b + c)[|a|..|a| + |b|] == b
    ensures (a + b + c)[|a| + |b|..] == c
  {
  }

  /** Three two-digit strings side by side: six digits, read back pair by pair. */
  lemma SixDigits(a: string, b: string, c: string)
    requires |a| == 2 && |b| == 2 && |c| == 2 && AllDigits(a) && AllDigits(b) && AllDigits(c)
    ensures var s := a + b + c;
      |s| == 6 && AllDigits(s) && s[..2] == a && s[2..4] == b && s[4..] == c
  {
    SliceThree(a, b, c);
    AllDigitsConcat(a, b);
    AllDigitsConcat(a + b, c);
  }

  /** A concatenation of digit strings is a digit string. */
  lemma AllDigitsConcat(a: string, b: string)
    requires AllDigits(a) && AllDigits(b)
    ensures AllDigits(a + b)
  {
    forall i | 0 <= i < |a + b| ensures IsDigit((a + b)[i]) {
      if i >= |a| {
        assert (a + b)[i] == b[i - |a|];
      }
    }
  }

  /** `formatDate(date)`: `YYMMDD`, the year's last two digits, the 1-based month and the day. */
  function FormatDate(t: LocalTime): string {
    LastTwo(NatToString(t.year)) + Pad2(t.month + 1) + Pad2(t.day)
  }

  /** `formatDate` is six digits, its parts side by side. */
  lemma FormatDateParts(t: LocalTime)
    requires IsCalendarTime(t)
    ensures var yy, mm, dd := LastTwo(NatToString(t.year)), Pad2(t.month + 1), Pad2(t.day);
      && |yy| == 2 && |mm| == 2 && |dd| == 2
      && FormatDate(t) == yy + mm + dd
      && DecimalValue(yy) == t.year % 100 && DecimalValue(mm) == t.month + 1 && DecimalValue(dd) == t.day
  {
    LastTwoDigits(t.year);
  }

  /**
   * `formatDate` gives six digits from which the year modulo 100, the 1-based month and
   * the day are read back.
   */
  lemma FormatDateRoundTrip(t: LocalTime)
    requires IsCalendarTime(t)
    ensures var s := FormatDate(t);
      && |s| == 6 && AllDigits(s)
      && DecimalValue(s[..2]) == t.year % 100
      && DecimalValue(s[2..4]) == t.month + 1
      && DecimalValue(s[4..]) == t.day
  {
    FormatDateParts(t);
    LastTwoDigits(t.year);
    SixDigits(LastTwo(NatToString(t.year)), Pad2(t.month + 1), Pad2(t.day));
  }

  /** A new session's id: `formatDate(now) + '_' + HH + mm + ss`. */
  function SessionId(t: LocalTime): string {
    FormatDate(t) + "_" + Pad2(t.hours) + Pad2(t.minutes) + Pad2(t.seconds)
  }

  /** The upload name of chunk `n`: `${sessionId}_chunk${NN}.webm`. */
  function ChunkFileName(sessionId: string, n: nat): string {
    sessionId + "_chunk" + Pad2(n) + ".webm"
  }

  /** The shape of a session id: `YYMMDD_HHMMSS`. */
  predicate IsSessionIdShape(id: string) {
    |id| == 13 && AllDigits(id[..6]) && id[6] == '_' && AllDigits(id[7..])
  }

  /** A new session's id has the shape `YYMMDD_HHMMSS`. */
  lemma SessionIdShape(t: LocalTime)
    requires IsCalendarTime(t)
    ensures IsSessionIdShape(SessionId(t))
  {
    var hh, mi, ss := Pad2(t.hours), Pad2(t.minutes), Pad2(t.seconds);
    assert |FormatDate(t)| == 6 && AllDigits(FormatDate(t)) by {
      FormatDateRoundTrip(t);
    }
    assert |hh + mi + ss| == 6 && AllDigits(hh + mi + ss) by {
      assert |hh| == 2 && |mi| == 2 && |ss| == 2;
      SixDigits(hh, mi, ss);
    }
    assert SessionId(t) == FormatDate(t) + "_" + (hh + mi + ss);
    JoinedIdShape(FormatDate(t), hh + mi + ss);
  }

  /** Six digits, `_`, six digits. */
  lemma JoinedIdShape(date: string, time: string)
    requires |date| == 6 && AllDigits(date) && |time| == 6 && AllDigits(time)
    ensures IsSessionIdShape(date + "_" + time)
  {
    var id := date + "_" + time;
    assert id[..6] == date;
    assert id[7..] == time;
  }

  /**
   * A chunk name built on a well-shaped session id is a chunk file name exactly when the
   * number has at most two digits, and the server then reads back the id and the number.
   */
  lemma ChunkFileNameOfShapedId(id: string, n: nat)
    requires IsSessionIdShape(id)
    ensures var name := ChunkFileName(id, n);
      && (IsChunkFileName(name) <==> n <= 99)
      && (n <= 99 ==>
            && Transcription.RawSessionId(name) == id
            && DecimalValue(Transcription.ChunkLabel(name)) == n)
  {
    var name := ChunkFileName(id, n);
    var nn := Pad2(n);
    assert name == id + "_chunk" + nn + ".webm";
    assert name[..13] == id;
    assert name[..6] == id[..6] && name[7..13] == id[7..];
    assert name[13..19] == "_chunk";
    if n <= 99 {
      assert |nn| == 2;
      assert name[19..21] == nn;
      assert name[21..] == ".webm";
      assert IsChunkFileName(name);
      Transcription.ChunkFileNameParts(name);
      assert Transcription.ChunkLabel(name) == name[19..21];
    } else {
      assert |name| > 26;
    }
  }

  /**
   * The client and the server agree on names: a chunk of a new session numbered at most
   * 99 has a name the manual-upload pattern accepts, from which the server reads back the
   * session id and the chunk's own two digits. From 100 on the name is not a chunk name.
   */
  lemma ChunkFileNameIsParsed(t: LocalTime, n: nat)
    requires IsCalendarTime(t)
    ensures var name := ChunkFileName(SessionId(t), n);
      && (IsChunkFileName(name) <==> n <= 99)
      && (n <= 99 ==>
            && Transcription.RawSessionId(name) == SessionId(t)
            && DecimalValue(Transcription.ChunkLabel(name)) == n)
  {
    SessionIdShape(t);
    ChunkFileNameOfShapedId(SessionId(t), n);
  }

  /**
   * `handleManualUpload` checks a name against the chunk file name pattern
   * (`IsChunkFileName`); the check on three sample names: one well-formed, two malformed.
   */
  lemma ManualUploadExamples()
    ensures IsChunkFileName("260202_150000_chunk01.webm")
    ensures !IsChunkFileName("recording.webm")
    ensures !IsChunkFileName("260202_15_chunk01.webm")
  {
    var good := "260202_150000_chunk01.webm";
    assert good[..6] == "260202" && good[7..13] == "150000";
    assert good[13..19] == "_chunk" && good[19..21] == "01" && good[21..] == ".webm";
  }

  /** The timer text: minutes and seconds of `elapsed` milliseconds, each `padStart(2, '0')`. */
  function TimerText(elapsed: nat): string {
    Pad2(elapsed / 60000) + ":" + Pad2((elapsed % 60000) / 1000)
  }

  /**
   * Below 100 minutes the timer reads `mm:ss`, with seconds below 60, and names the whole
   * second `elapsed` falls in; from 100 minutes on the minutes take three digits or more.
   */
  lemma TimerTextReadsBack(elapsed: nat)
    ensures var t := TimerText(elapsed);
      && (|t| == 5 <==> elapsed < 6000000)
      && (elapsed < 6000000 ==>
            && t[2] == ':' && AllDigits(t[..2]) && AllDigits(t[3..])
            && DecimalValue(t[3..]) < 60
            && DecimalValue(t[..2]) * 60000 + DecimalValue(t[3..]) * 1000 <= elapsed
            && elapsed < DecimalValue(t[..2]) * 60000 + DecimalValue(t[3..]) * 1000 + 1000)
  {
    var t := TimerText(elapsed);
    var mm := Pad2(elapsed / 60000);
    var ss := Pad2((elapsed % 60000) / 1000);
    assert |ss| == 2;
    if elapsed < 6000000 {
      assert t[..2] == mm;
      assert t[3..] == ss;
    }
  }

  // ---------------------------------------------------------------------------
  // The recording session
  // ---------------------------------------------------------------------------

  /** The `localStorage` entry `sns_rec_session`; its `updatedAt` stamp is not modelled. */
  datatype SessionRecord = SessionRecord(id: string, currentChunk: nat)

  /** A sealed chunk: the session it belongs to and its number. */
  datatype ChunkFile = ChunkFile(session: string, number: nat) {
    /** The name it is uploaded or saved under. */
    function Name(): string {
      ChunkFileName(session, number)
    }
  }

  /**
   * The recorder's module-level variables and what it has done to the outside world:
   * `recording` is `mediaRecorder.state === 'recording'`; `audioChunks` holds the sizes of
   * the buffered blobs; `uploads` are the chunks sent to the web app, `localSaves` those
   * downloaded after a failed upload, `manualUploads` the names the upload button sent.
   */
  datatype RecState = RecState(
    sessionId: string,
    currentChunk: nat,
    uploadedChunks: nat,
    audioChunks: seq<nat>,
    recording: bool,
    startTime: int,
    storage: Option<SessionRecord>,
    uploads: seq<ChunkFile>,
    localSaves: seq<ChunkFile>,
    manualUploads: seq<string>)

  /** The page as loaded, with whatever record `localStorage` holds. */
  function Loaded(stored: Option<SessionRecord>): RecState {
    RecState("", 0, 0, [], false, 0, stored, [], [], [])
  }

  /** `saveSessionInfo` and `updateSessionChunk`: both store `{id, currentChunk + 1}`. */
  function SavedRecord(s: RecState): SessionRecord {
    SessionRecord(s.sessionId, s.currentChunk + 1)
  }

  /**
   * `startRecording(isContinue)`. Without the microphone nothing changes; resuming with no
   * stored record throws at `savedData.id` and nothing changes either. Otherwise the session
   * is the stored one or a new one named after the clock, the record is saved at once and
   * a new recording run starts with an empty buffer.
   */
  function Started(s: RecState, isContinue: bool, micOk: bool, now: int, clock: LocalTime): RecState {
    if !micOk || (isContinue && s.storage.None?) then
      s
    else
      var started :=
        if isContinue then s.(sessionId := s.storage.value.id, currentChunk := s.storage.value.currentChunk, uploadedChunks := 0)
        else s.(sessionId := SessionId(clock), currentChunk := 0, uploadedChunks := 0);
      started.(storage := Some(SavedRecord(started)), audioChunks := [], startTime := now, recording := true)
  }

  /** `ondataavailable`: a blob is buffered only when it is not empty. */
  function Buffered(s: RecState, size: nat): RecState {
    if size > 0 then s.(audioChunks := s.audioChunks + [size]) else s
  }

  /**
   * `processChunk`: an empty buffer is ignored; otherwise the chunk numbered `currentChunk`
   * is uploaded, which counts it and stores the next number, or, when the upload throws,
   * saved locally under the same name.
   */
  function ChunkProcessed(s: RecState, uploadOk: bool): RecState {
    if s.audioChunks == [] then
      s
    else
      var file := ChunkFile(s.sessionId, s.currentChunk);
      if uploadOk then
        s.(uploads := s.uploads + [file], uploadedChunks := s.uploadedChunks + 1, storage := Some(SavedRecord(s)))
      else
        s.(localSaves := s.localSaves + [file])
  }

  /**
   * The `scheduleNextChunk` timer: the recorder stops, the counter goes up, the chunk is
   * processed, and recording resumes only while `elapsed < MAX_DURATION` and
   * `currentChunk < MAX_CHUNKS`; otherwise `stopRecording` finds it inactive and cleans up.
   */
  function Sealed(s: RecState, now: int, uploadOk: bool): RecState {
    if !s.recording then
      s
    else
      var sealed := ChunkProcessed(s.(recording := false, currentChunk := s.currentChunk + 1), uploadOk);
      if now - s.startTime < MaxDurationMs && sealed.currentChunk < MaxChunks then
        sealed.(audioChunks := [], recording := true)
      else
        sealed
  }

  /** `stopRecording`: a final chunk is sealed only when the buffer holds data. */
  function Stopped(s: RecState, uploadOk: bool): RecState {
    if !s.recording then
      s
    else if s.audioChunks == [] then
      s.(recording := false)
    else
      ChunkProcessed(s.(recording := false, currentChunk := s.currentChunk + 1), uploadOk)
  }

  /** `handleManualUpload`: a name that fails the pattern is never sent. */
  function ManuallyUploaded(s: RecState, name: string, uploadOk: bool): RecState {
    if IsChunkFileName(name) && uploadOk then s.(manualUploads := s.manualUploads + [name]) else s
  }

  /** The uploads of the current run: the last `uploadedChunks` of them. */
  function RunUploads(s: RecState): seq<ChunkFile>
    requires s.uploadedChunks <= |s.uploads|
  {
    s.uploads[|s.uploads| - s.uploadedChunks..]
  }

  /** The chunks the current run saved on the device: those after the first `saves`. */
  function RunSaves(s: RecState, saves: nat): seq<ChunkFile>
    requires saves <= |s.localSaves|
  {
    s.localSaves[saves..]
  }

  /** The number a run started from, once `startRecording` has set the counter. */
  function StartBase(s: RecState, isContinue: bool, micOk: bool, base: nat): nat {
    if !micOk || (isContinue && s.storage.None?) then base
    else if isContinue then s.storage.value.currentChunk
    else 0
  }

  /** How many chunks were saved on the device when the run began. */
  function StartSaves(s: RecState, isContinue: bool, micOk: bool, saves: nat): nat {
    if !micOk || (isContinue && s.storage.None?) then saves else |s.localSaves|
  }

  /**
   * What holds between events, for a run that started from chunk `base` with `saves` chunks
   * already on the device: no empty blob is buffered; the run's uploads belong to the
   * session, are numbered above `base` and up to the counter, strictly increasing, and below
   * the number a stored record of the session resumes from; so do the chunks the run saved
   * on the device, and each raise of the counter emits at most one chunk, uploaded or saved;
   * the recorder only runs on while under MAX_CHUNKS (or before its first seal), so the
   * counter stays within MAX_CHUNKS or one past `base`.
   */
  predicate Inv(s: RecState, base: nat, saves: nat) {
    && (forall i :: 0 <= i < |s.audioChunks| ==> s.audioChunks[i] > 0)
    && s.uploadedChunks <= |s.uploads|
    && saves <= |s.localSaves|
    && (forall f :: f in RunUploads(s) ==> f.session == s.sessionId && base < f.number <= s.currentChunk)
    && (forall f :: f in RunSaves(s, saves) ==> f.session == s.sessionId && base < f.number <= s.currentChunk)
    && base + |RunUploads(s)| + |RunSaves(s, saves)| <= s.currentChunk
    && (forall i, j :: 0 <= i < j < |RunUploads(s)| ==> RunUploads(s)[i].number < RunUploads(s)[j].number)
    && (s.storage.Some? && s.storage.value.id == s.sessionId ==>
          forall f :: f in RunUploads(s) ==> f.number < s.storage.value.currentChunk)
    && base <= s.currentChunk
    && (s.recording ==> s.currentChunk < MaxChunks || s.currentChunk == base)
    && s.currentChunk <= (if base < MaxChunks then MaxChunks else base + 1)
  }

  lemma LoadedInv(stored: Option<SessionRecord>)
    ensures Inv(Loaded(stored), 0, 0)
  {
  }

  /** Every event keeps the invariant; `startRecording` starts a new run from its own number. */
  lemma StartInv(s: RecState, base: nat, saves: nat, isContinue: bool, micOk: bool, now: int, clock: LocalTime)
    requires Inv(s, base, saves)
    ensures Inv(Started(s, isContinue, micOk, now, clock), StartBase(s, isContinue, micOk, base),
      StartSaves(s, isContinue, micOk, saves))
  {
    if !micOk || (isContinue && s.storage.None?) {
      assert Started(s, isContinue, micOk, now, clock) == s;
    } else {
      var id := if isContinue then s.storage.value.id else SessionId(clock);
      var n := if isContinue then s.storage.value.currentChunk else 0;
      NewRunInv(s, id, n, now);
      assert Started(s, isContinue, micOk, now, clock) == NewRun(s, id, n, now);
    }
  }

  /** The state `startRecording` leaves when it begins a run of session `id` from chunk `n`. */
  function NewRun(s: RecState, id: string, n: nat, now: int): RecState {
    s.(sessionId := id, currentChunk := n, uploadedChunks := 0, storage := Some(SessionRecord(id, n + 1)),
       audioChunks := [], startTime := now, recording := true)
  }

  /** A new run has no uploads or device saves of its own yet. */
  lemma NewRunInv(s: RecState, id: string, n: nat, now: int)
    ensures Inv(NewRun(s, id, n, now), n, |s.localSaves|)
  {
    var r := NewRun(s, id, n, now);
    assert RunUploads(r) == [];
    assert RunSaves(r, |s.localSaves|) == [];
  }

  lemma OnDataInv(s: RecState, base: nat, saves: nat, size: nat)
    requires Inv(s, base, saves)
    ensures Inv(Buffered(s, size), base, saves)
  {
    var r := Buffered(s, size);
    assert r == s.(audioChunks := r.audioChunks);
    assert RunUploads(r) == RunUploads(s);
    assert RunSaves(r, saves) == RunSaves(s, saves);
  }

  /** Processing the chunk the counter was just raised to keeps the run's numbering in order. */
  lemma ProcessRaisedChunkInv(s: RecState, base: nat, saves: nat, uploadOk: bool)
    requires Inv(s, base, saves)
    requires s.recording
    ensures var r := ChunkProcessed(s.(recording := false, currentChunk := s.currentChunk + 1), uploadOk);
      && r.currentChunk == s.currentChunk + 1
      && !r.recording
      && Inv(r, base, saves)
  {
    var raised := s.(recording := false, currentChunk := s.currentChunk + 1);
    RaisedInv(s, base, saves);
    if raised.audioChunks != [] && uploadOk {
      UploadInv(raised, base, saves);
    } else {
      NoUploadInv(raised, base, saves, uploadOk);
    }
  }

  /**
   * Raising the counter of a recording run keeps the invariant, puts it above the run's
   * uploads and leaves room for one more chunk to be emitted.
   */
  lemma RaisedInv(s: RecState, base: nat, saves: nat)
    requires Inv(s, base, saves)
    requires s.recording
    ensures var raised := s.(recording := false, currentChunk := s.currentChunk + 1);
      && Inv(raised, base, saves)
      && (forall f :: f in RunUploads(raised) ==> f.number < raised.currentChunk)
      && base + |RunUploads(raised)| + |RunSaves(raised, saves)| < raised.currentChunk
  {
    var raised := s.(recording := false, currentChunk := s.currentChunk + 1);
    assert RunUploads(raised) == RunUploads(s);
    assert RunSaves(raised, saves) == RunSaves(s, saves);
  }

  /**
   * A chunk that is not uploaded leaves the run's uploads as they were; when it is saved on
   * the device instead, it uses the room the raised counter left.
   */
  lemma NoUploadInv(t: RecState, base: nat, saves: nat, uploadOk: bool)
    requires Inv(t, base, saves)
    requires t.audioChunks == [] || !uploadOk
    requires base + |RunUploads(t)| + |RunSaves(t, saves)| < t.currentChunk
    ensures Inv(ChunkProcessed(t, uploadOk), base, saves)
  {
    var r := ChunkProcessed(t, uploadOk);
    assert r == t.(localSaves := r.localSaves);
    assert RunUploads(r) == RunUploads(t);
    if t.audioChunks != [] {
      assert RunSaves(r, saves) == RunSaves(t, saves) + [ChunkFile(t.sessionId, t.currentChunk)];
    }
  }

  /** Uploading the chunk at the counter, above every upload of the run, keeps them increasing. */
  lemma UploadInv(t: RecState, base: nat, saves: nat)
    requires Inv(t, base, saves)
    requires t.audioChunks != [] && !t.recording
    requires forall f :: f in RunUploads(t) ==> f.number < t.currentChunk
    requires base + |RunUploads(t)| + |RunSaves(t, saves)| < t.currentChunk
    ensures Inv(ChunkProcessed(t, true), base, saves)
  {
    var r := ChunkProcessed(t, true);
    var run := RunUploads(t);
    var file := ChunkFile(t.sessionId, t.currentChunk);
    assert RunUploads(r) == run + [file];
    assert RunSaves(r, saves) == RunSaves(t, saves);
    forall i, j | 0 <= i < j < |RunUploads(r)| ensures RunUploads(r)[i].number < RunUploads(r)[j].number {
      if j == |run| {
        assert RunUploads(r)[i] in run;
      }
    }
  }

  lemma SealInv(s: RecState, base: nat, saves: nat, now: int, uploadOk: bool)
    requires Inv(s, base, saves)
    ensures Inv(Sealed(s, now, uploadOk), base, saves)
  {
    if s.recording {
      var sealed := ChunkProcessed(s.(recording := false, currentChunk := s.currentChunk + 1), uploadOk);
      ProcessRaisedChunkInv(s, base, saves, uploadOk);
      if now - s.startTime < MaxDurationMs && sealed.currentChunk < MaxChunks {
        ResumedInv(sealed, base, saves);
        assert Sealed(s, now, uploadOk) == sealed.(audioChunks := [], recording := true);
      } else {
        assert Sealed(s, now, uploadOk) == sealed;
      }
    } else {
      assert Sealed(s, now, uploadOk) == s;
    }
  }

  /** Recording again with an empty buffer keeps the invariant while under MAX_CHUNKS. */
  lemma ResumedInv(t: RecState, base: nat, saves: nat)
    requires Inv(t, base, saves)
    requires t.currentChunk < MaxChunks
    ensures Inv(t.(audioChunks := [], recording := true), base, saves)
  {
    assert RunUploads(t.(audioChunks := [], recording := true)) == RunUploads(t);
    assert RunSaves(t.(audioChunks := [], recording := true), saves) == RunSaves(t, saves);
  }

  lemma StopInv(s: RecState, base: nat, saves: nat, uploadOk: bool)
    requires Inv(s, base, saves)
    ensures Inv(Stopped(s, uploadOk), base, saves)
  {
    if !s.recording {
      assert Stopped(s, uploadOk) == s;
    } else if s.audioChunks == [] {
      PausedInv(s, base, saves);
      assert Stopped(s, uploadOk) == s.(recording := false);
    } else {
      ProcessRaisedChunkInv(s, base, saves, uploadOk);
      assert Stopped(s, uploadOk) == ChunkProcessed(s.(recording := false, currentChunk := s.currentChunk + 1), uploadOk);
    }
  }

  /** Stopping the recorder without sealing a chunk keeps the invariant. */
  lemma PausedInv(t: RecState, base: nat, saves: nat)
    requires Inv(t, base, saves)
    ensures Inv(t.(recording := false), base, saves)
  {
    assert RunUploads(t.(recording := false)) == RunUploads(t);
    assert RunSaves(t.(recording := false), saves) == RunSaves(t, saves);
  }

  lemma ManualUploadInv(s: RecState, base: nat, saves: nat, name: string, uploadOk: bool)
    requires Inv(s, base, saves)
    ensures Inv(ManuallyUploaded(s, name, uploadOk), base, saves)
  {
    var r := ManuallyUploaded(s, name, uploadOk);
    assert r == s.(manualUploads := r.manualUploads);
    assert RunUploads(r) == RunUploads(s);
    assert RunSaves(r, saves) == RunSaves(s, saves);
  }

  /**
   * A new session (a run from 0) never gets past chunk MAX_CHUNKS: its counter stays at
   * most 12, so it emits at most 12 chunks, uploaded or saved on the device, each numbered
   * from 1 to 12, and its uploads carry distinct numbers.
   */
  lemma FreshSessionBound(s: RecState, saves: nat)
    requires Inv(s, 0, saves)
    ensures s.currentChunk <= MaxChunks
    ensures s.uploadedChunks + |RunSaves(s, saves)| <= MaxChunks
    ensures forall f :: f in RunUploads(s) ==> 1 <= f.number <= MaxChunks
    ensures forall f :: f in RunSaves(s, saves) ==> 1 <= f.number <= MaxChunks
    ensures forall i, j :: 0 <= i < j < |RunUploads(s)| ==> RunUploads(s)[i] != RunUploads(s)[j]
  {
  }

  /** The chunk a timer seal emits: numbered one past the counter, into uploads or local saves. */
  lemma SealOutcome(s: RecState, now: int, uploadOk: bool)
    requires s.recording
    ensures var r := Sealed(s, now, uploadOk);
      var file := ChunkFile(s.sessionId, s.currentChunk + 1);
      && r.currentChunk == s.currentChunk + 1
      && r.recording == (now - s.startTime < MaxDurationMs && s.currentChunk + 1 < MaxChunks)
      && (s.audioChunks != [] && uploadOk ==>
            r.uploads == s.uploads + [file] && r.localSaves == s.localSaves
            && r.storage == Some(SessionRecord(s.sessionId, s.currentChunk + 2)))
      && (s.audioChunks != [] && !uploadOk ==>
            r.uploads == s.uploads && r.localSaves == s.localSaves + [file] && r.storage == s.storage)
      && (s.audioChunks == [] ==> r.uploads == s.uploads && r.localSaves == s.localSaves && r.storage == s.storage)
  {
  }

  /**
   * What `stopRecording` does: an inactive recorder is left as it is; otherwise recording
   * ends, an empty buffer emits nothing, and a buffer with data emits the chunk numbered one
   * past the counter, uploaded (and the record advanced) or saved on the device.
   */
  lemma StopOutcome(s: RecState, uploadOk: bool)
    ensures var r := Stopped(s, uploadOk);
      var file := ChunkFile(s.sessionId, s.currentChunk + 1);
      && !r.recording
      && (!s.recording ==> r == s)
      && (s.recording && s.audioChunks == [] ==> r == s.(recording := false))
      && (s.recording && s.audioChunks != [] ==>
            && r.currentChunk == s.currentChunk + 1 && r.sessionId == s.sessionId
            && (uploadOk ==>
                  && r.uploads == s.uploads + [file] && r.localSaves == s.localSaves
                  && r.uploadedChunks == s.uploadedChunks + 1
                  && r.storage == Some(SessionRecord(s.sessionId, s.currentChunk + 2)))
            && (!uploadOk ==>
                  && r.uploads == s.uploads && r.localSaves == s.localSaves + [file]
                  && r.uploadedChunks == s.uploadedChunks && r.storage == s.storage))
  {
  }

  /**
   * A new session's first sealed chunk is `chunk01`: after `startRecording(false)`, some
   * data and the first timer seal, chunk 1 of the clock's session is uploaded or saved.
   */
  lemma FirstChunkIsChunk01(s: RecState, now: int, clock: LocalTime, size: nat, later: int, uploadOk: bool)
    requires size > 0
    ensures var r := Sealed(Buffered(Started(s, false, true, now, clock), size), later, uploadOk);
      var first := ChunkFile(SessionId(clock), 1);
      && first.Name() == SessionId(clock) + "_chunk01.webm"
      && (uploadOk ==> r.uploads == s.uploads + [first])
      && (!uploadOk ==> r.localSaves == s.localSaves + [first])
  {
    var started := Started(s, false, true, now, clock);
    assert started.sessionId == SessionId(clock) && started.currentChunk == 0 && started.recording;
    assert started.uploads == s.uploads && started.localSaves == s.localSaves;
    var buffered := Buffered(started, size);
    assert buffered == started.(audioChunks := [size]);
    SealOutcome(buffered, later, uploadOk);
    ChunkOneName(SessionId(clock));
  }

  /** Chunk 1 is named `_chunk01.webm`. */
  lemma ChunkOneName(id: string)
    ensures ChunkFile(id, 1).Name() == id + "_chunk01.webm"
  {
    assert Pad2(1) == "0" + NatToString(1) == "01";
  }

  /**
   * Resuming picks up the stored numbering: the session and counter come from the record,
   * the record is rewritten at once, and the first chunk sealed afterwards is numbered above
   * every chunk the session uploaded in its previous run.
   */
  lemma ResumeNumbersAfterUploads(s: RecState, base: nat, saves: nat, now: int, clock: LocalTime, size: nat, later: int, uploadOk: bool)
    requires Inv(s, base, saves)
    requires s.storage.Some? && s.storage.value.id == s.sessionId
    requires size > 0
    ensures var r := Started(s, true, true, now, clock);
      && r.sessionId == s.sessionId && r.currentChunk == s.storage.value.currentChunk
      && r.storage == Some(SessionRecord(r.sessionId, r.currentChunk + 1))
      && var sealed := Sealed(Buffered(r, size), later, uploadOk);
         var next := if uploadOk then sealed.uploads[|sealed.uploads| - 1] else sealed.localSaves[|sealed.localSaves| - 1];
         && next == ChunkFile(s.sessionId, r.currentChunk + 1)
         && forall f :: f in RunUploads(s) ==> f.number < next.number
  {
  }

  /**
   * Chunks whose upload failed leave no trace in the record, so their numbers can be
   * issued again: a new session loses chunks 1 and 2, is stopped and resumed, and its next
   * chunk is uploaded as chunk 2, the name already saved on the device.
   */
  lemma FailedChunkNumberReissued(stored: Option<SessionRecord>, clock: LocalTime, size: nat)
    requires size > 0
    ensures var s1 := Started(Loaded(stored), false, true, 0, clock);
      var s2 := Sealed(Buffered(s1, size), ChunkDurationMs, false);
      var s3 := Sealed(Buffered(s2, size), 2 * ChunkDurationMs, false);
      var s4 := Stopped(s3, true);
      var s5 := Started(s4, true, true, 3 * ChunkDurationMs, clock);
      var s6 := Stopped(Buffered(s5, size), true);
      var lost := ChunkFile(SessionId(clock), 2);
      && lost in s6.localSaves && lost in s6.uploads
  {
  }

  /**
   * The stored record holds the next chunk number, but a stop increments the counter before
   * naming its chunk, so a resumed run starts one number higher: chunk 1 is uploaded, the
   * recorder is stopped with nothing buffered and resumed, and the next chunk is uploaded
   * as chunk 3; chunk 2 is never emitted.
   */
  lemma ResumeSkipsANumber(stored: Option<SessionRecord>, clock: LocalTime, size: nat)
    requires size > 0
    ensures var s1 := Started(Loaded(stored), false, true, 0, clock);
      var s2 := Sealed(Buffered(s1, size), ChunkDurationMs, true);
      var s3 := Stopped(s2, true);
      var s4 := Started(s3, true, true, 2 * ChunkDurationMs, clock);
      var s5 := Stopped(Buffered(s4, size), true);
      var id := SessionId(clock);
      && s5.uploads == [ChunkFile(id, 1), ChunkFile(id, 3)]
      && s5.localSaves == []
      && ChunkFile(id, 2) !in s5.uploads
  {
    var id := SessionId(clock);
    var s1 := Started(Loaded(stored), false, true, 0, clock);
    var s3 := Stopped(Sealed(Buffered(s1, size), ChunkDurationMs, true), true);
    UploadOneThenStop(stored, clock, size);
    var s4 := Started(s3, true, true, 2 * ChunkDurationMs, clock);
    assert s4.sessionId == id && s4.currentChunk == 2 && s4.recording;
    assert s4.uploads == [ChunkFile(id, 1)] && s4.localSaves == [];
    StopOutcome(Buffered(s4, size), true);
  }

  /** The first run of that scenario: chunk 1 uploaded, then a stop with nothing buffered. */
  lemma UploadOneThenStop(stored: Option<SessionRecord>, clock: LocalTime, size: nat)
    requires size > 0
    ensures var s1 := Started(Loaded(stored), false, true, 0, clock);
      var s3 := Stopped(Sealed(Buffered(s1, size), ChunkDurationMs, true), true);
      var id := SessionId(clock);
      && s3.sessionId == id && !s3.recording
      && s3.uploads == [ChunkFile(id, 1)] && s3.localSaves == []
      && s3.storage == Some(SessionRecord(id, 2))
  {
    var id := SessionId(clock);
    var s1 := Started(Loaded(stored), false, true, 0, clock);
    assert s1.sessionId == id && s1.currentChunk == 0 && s1.recording;
    assert s1.uploads == [] && s1.localSaves == [];
    var s2 := Sealed(Buffered(s1, size), ChunkDurationMs, true);
    SealOutcome(Buffered(s1, size), ChunkDurationMs, true);
    assert s2.sessionId == id && s2.recording && s2.audioChunks == [];
  }

  // ---------------------------------------------------------------------------
  // The page's event handlers
  // ---------------------------------------------------------------------------

  /** The recorder page: its module-level variables, `localStorage` and what it has sent. */
  class App {
    var sessionId: string
    var currentChunk: nat
    var uploadedChunks: nat
    var audioChunks: seq<nat>
    var recording: bool
    var recordingStartTime: int
    var storage: Option<SessionRecord>
    var uploads: seq<ChunkFile>
    var localSaves: seq<ChunkFile>
    var manualUploads: seq<string>
    /** The counter the current recording run started from. */
    ghost var runBase: nat
    /** How many chunks were saved on the device when the current run started. */
    ghost var runSaves: nat

    function State(): RecState
      reads this
    {
      RecState(sessionId, currentChunk, uploadedChunks, audioChunks, recording, recordingStartTime,
        storage, uploads, localSaves, manualUploads)
    }

    ghost predicate Valid()
      reads this
    {
      Inv(State(), runBase, runSaves)
    }

    /** The page as loaded. */
    constructor (stored: Option<SessionRecord>)
      ensures State() == Loaded(stored) && Valid()
    {
      sessionId, currentChunk, uploadedChunks, audioChunks := "", 0, 0, [];
      recording, recordingStartTime, storage := false, 0, stored;
      uploads, localSaves, manualUploads := [], [], [];
      runBase, runSaves := 0, 0;
      LoadedInv(stored);
    }

    /** `saveSessionInfo` / `updateSessionChunk`. */
    method SaveSessionInfo()
      modifies this
      ensures State() == old(State()).(storage := Some(SavedRecord(old(State()))))
      ensures runBase == old(runBase) && runSaves == old(runSaves)
    {
      storage := Some(SessionRecord(sessionId, currentChunk + 1));
    }

    /** `startRecording(isContinue)`; `micOk` says whether `getUserMedia` succeeded. */
    method StartRecording(isContinue: bool, micOk: bool, now: int, clock: LocalTime)
      requires Valid()
      modifies this
      ensures State() == Started(old(State()), isContinue, micOk, now, clock)
      ensures runBase == StartBase(old(State()), isContinue, micOk, old(runBase))
      ensures runSaves == StartSaves(old(State()), isContinue, micOk, old(runSaves))
      ensures Valid()
    {
      ghost var before, base, saves := State(), runBase, runSaves;
      StartInv(before, base, saves, isContinue, micOk, now, clock);
      if !micOk {
        return;
      }
      ghost var resumed: RecState;
      if isContinue {
        if storage.None? {
          return;
        }
        sessionId := storage.value.id;
        currentChunk := storage.value.currentChunk;
        uploadedChunks := 0;
        runBase, runSaves := currentChunk, |localSaves|;
        resumed := before.(sessionId := before.storage.value.id, currentChunk := before.storage.value.currentChunk, uploadedChunks := 0);
      } else {
        sessionId := SessionId(clock);
        currentChunk := 0;
        uploadedChunks := 0;
        runBase, runSaves := 0, |localSaves|;
        resumed := before.(sessionId := SessionId(clock), currentChunk := 0, uploadedChunks := 0);
      }
      assert State() == resumed;
      BeginRun(now);
      assert State() == Started(before, isContinue, micOk, now, clock);
    }

    /** The common tail of `startRecording`: save the session, empty the buffer, start the clock and the recorder. */
    method BeginRun(now: int)
      modifies this
      ensures State() == old(State()).(storage := Some(SavedRecord(old(State()))), audioChunks := [], startTime := now, recording := true)
      ensures runBase == old(runBase) && runSaves == old(runSaves)
    {
      SaveSessionInfo();
      audioChunks := [];
      recordingStartTime := now;
      recording := true;
    }

    /** `mediaRecorder.ondataavailable`. */
    method OnDataAvailable(size: nat)
      requires Valid()
      modifies this
      ensures State() == Buffered(old(State()), size) && runBase == old(runBase) && runSaves == old(runSaves)
      ensures Valid()
    {
      OnDataInv(State(), runBase, runSaves, size);
      if size > 0 {
        audioChunks := audioChunks + [size];
      }
    }

    /** `processChunk`; `uploadOk` says whether `uploadToGAS` resolved. */
    method ProcessChunk(uploadOk: bool)
      modifies this
      ensures State() == ChunkProcessed(old(State()), uploadOk) && runBase == old(runBase) && runSaves == old(runSaves)
    {
      if audioChunks == [] {
        return;
      }
      var file := ChunkFile(sessionId, currentChunk);
      if uploadOk {
        uploads := uploads + [file];
        uploadedChunks := uploadedChunks + 1;
        SaveSessionInfo();
      } else {
        localSaves := localSaves + [file];
      }
    }

    /** The `scheduleNextChunk` timer firing at `now`. */
    method TimerSeal(now: int, uploadOk: bool)
      requires Valid()
      modifies this
      ensures State() == Sealed(old(State()), now, uploadOk) && runBase == old(runBase) && runSaves == old(runSaves)
      ensures Valid()
    {
      if !recording {
        return;
      }
      ghost var before, base, saves := State(), runBase, runSaves;
      ProcessRaisedChunkInv(before, base, saves, uploadOk);
      recording := false;
      currentChunk := currentChunk + 1;
      assert State() == before.(recording := false, currentChunk := before.currentChunk + 1);
      ProcessChunk(uploadOk);
      ghost var sealed := State();
      assert sealed == ChunkProcessed(before.(recording := false, currentChunk := before.currentChunk + 1), uploadOk);
      assert Valid();
      var elapsed := now - recordingStartTime;
      if elapsed < MaxDurationMs && currentChunk < MaxChunks {
        audioChunks := [];
        recording := true;
        assert State() == sealed.(audioChunks := [], recording := true) == Sealed(before, now, uploadOk);
      } else {
        StopRecording(uploadOk);
        assert State() == sealed == Sealed(before, now, uploadOk);
      }
      SealInv(before, base, saves, now, uploadOk);
    }

    /** `stopRecording`. */
    method StopRecording(uploadOk: bool)
      requires Valid()
      modifies this
      ensures State() == Stopped(old(State()), uploadOk) && runBase == old(runBase) && runSaves == old(runSaves)
      ensures Valid()
    {
      StopInv(State(), runBase, runSaves, uploadOk);
      if recording {
        recording := false;
        if audioChunks != [] {
          currentChunk := currentChunk + 1;
          ProcessChunk(uploadOk);
        }
      }
    }

    /** `handleManualUpload`: the name is checked before anything is sent. */
    method HandleManualUpload(name: string, uploadOk: bool) returns (sent: bool)
      requires Valid()
      modifies this
      ensures State() == ManuallyUploaded(old(State()), name, uploadOk) && runBase == old(runBase) && runSaves == old(runSaves)
      ensures sent <==> IsChunkFileName(name) && uploadOk
      ensures Valid()
    {
      ManualUploadInv(State(), runBase, runSaves, name, uploadOk);
      if !IsChunkFileName(name) {
        return false;
      }
      if uploadOk {
        manualUploads := manualUploads + [name];
      }
      sent := uploadOk;
    }
  }
}
