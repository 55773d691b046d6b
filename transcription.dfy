/**
 * The server-side aggregator of transcription.js: every uploaded `.webm` chunk is
 * transcribed and its text appended to one staging document per recording session,
 * whose date-prefixed sequence name is allocated once and kept in the property store.
 */
module Transcription {
  import opened Text
  import opened Retry
  import opened Drive

  // ---------------------------------------------------------------------------
  // Reading a chunk file name
  // ---------------------------------------------------------------------------

  /**
   * The session id of an uploaded file: the leading `YYMMDD_HHMMSS` of a chunk file name,
   * otherwise the name with its first `.webm` removed.
   */
  function RawSessionId(fileName: string): (id: string)
    ensures IsChunkFileName(fileName) ==> |id| == 13 && fileName == id + fileName[13..]
    ensures !IsChunkFileName(fileName) ==> id == ReplaceFirst(fileName, ".webm", "")
  {
    if IsChunkFileName(fileName) then fileName[..13] else ReplaceFirst(fileName, ".webm", "")
  }

  /** `/_chunk(\d{2})\.webm$/`: a search anchored only at the end of the name. */
  predicate HasChunkSuffix(s: string) {
    |s| >= 13 && s[|s| - 13..|s| - 7] == "_chunk" && AllDigits(s[|s| - 7..|s| - 5]) && s[|s| - 5..] == ".webm"
  }

  /** The chunk label written into the document: the two digits after `_chunk`, else `00`. */
  function ChunkLabel(fileName: string): (digits: string)
    ensures |digits| == 2 && AllDigits(digits)
    ensures HasChunkSuffix(fileName) ==> fileName[|fileName| - 7..|fileName| - 5] == digits
    ensures !HasChunkSuffix(fileName) ==> digits == "00"
  {
    if HasChunkSuffix(fileName) then fileName[|fileName| - 7..|fileName| - 5] else "00"
  }

  /** A chunk file name yields its session id and its own two chunk digits. */
  lemma ChunkFileNameParts(fileName: string)
    requires IsChunkFileName(fileName)
    ensures fileName == RawSessionId(fileName) + "_chunk" + ChunkLabel(fileName) + ".webm"
  {
    assert HasChunkSuffix(fileName);
    assert fileName == fileName[..13] + fileName[13..19] + fileName[19..21] + fileName[21..];
  }

  /** `rawSessionId.substring(0, 6)`: the date prefix, or the whole id when it is shorter. */
  function Prefix(raw: string): (p: string)
    ensures |p| <= 6 && |p| <= |raw| && p == raw[..|p|]
    ensures |raw| >= 6 ==> |p| == 6
  {
    if |raw| < 6 then raw else raw[..6]
  }

  // ---------------------------------------------------------------------------
  // Allocating a sequence name
  // ---------------------------------------------------------------------------

  /** `^{prefix}_(\d{2})\.txt$`, with the prefix read literally. */
  predicate IsSequenceName(name: string, prefix: string) {
    && |name| == |prefix| + 7
    && name[..|prefix|] == prefix
    && name[|prefix|] == '_'
    && AllDigits(name[|prefix| + 1..|prefix| + 3])
    && name[|prefix| + 3..] == ".txt"
  }

  /** `parseInt(m[1], 10)` of a sequence name: always below 100. */
  function SequenceNumber(name: string, prefix: string): (n: nat)
    requires IsSequenceName(name, prefix)
    ensures n < 100
  {
    var digits := name[|prefix| + 1..|prefix| + 3];
    TwoDigitValue(digits);
    DecimalValue(digits)
  }

  /** The name a sequence number `n` gives under `prefix`. */
  function SequenceName(prefix: string, n: nat): string {
    prefix + "_" + Pad2(n) + ".txt"
  }

  /** Below 100 the built name matches the scan pattern and carries its number back. */
  lemma SequenceNameRoundTrip(prefix: string, n: nat)
    requires n < 100
    ensures IsSequenceName(SequenceName(prefix, n), prefix)
    ensures SequenceNumber(SequenceName(prefix, n), prefix) == n
  {
    var name := SequenceName(prefix, n);
    assert name[..|prefix|] == prefix;
    assert name[|prefix| + 1..|prefix| + 3] == Pad2(n);
    assert name[|prefix| + 3..] == ".txt";
  }

  /** From 100 on the built name is one character too long for the scan pattern. */
  lemma SequenceNameOverflow(prefix: string, n: nat)
    requires n >= 100
    ensures !IsSequenceName(SequenceName(prefix, n), prefix)
  {
  }

  /** The numbers the `checkFolder` scan sees in one folder. */
  function SequenceNumbers(f: Folder, prefix: string): set<nat> {
    set name | name in f && IsSequenceName(name, prefix) :: SequenceNumber(name, prefix)
  }

  /** The largest element of `s` that is at most `k`, or 0 when there is none. */
  function HighestUpTo(s: set<nat>, k: nat): (m: nat)
    ensures m <= k
    ensures m == 0 || m in s
    ensures forall x :: x in s && x <= k ==> x <= m
  {
    if k in s then k else if k == 0 then 0 else HighestUpTo(s, k - 1)
  }

  /** Adding the number one above the highest in range to either part makes it the new highest. */
  lemma HighestAfterAdding(staged: set<nat>, archived: set<nat>, m: nat)
    requires m < 99 && HighestUpTo(staged + archived, 99) == m
    ensures HighestUpTo((staged + {m + 1}) + archived, 99) == m + 1
  {
    var after := (staged + {m + 1}) + archived;
    forall x | x in after && x <= 99
      ensures x <= m + 1
    {
      if x != m + 1 {
        assert x in staged + archived;
      }
    }
    HighestUpToUnique(after, 99, m + 1);
  }

  /** The largest sequence number in use for `prefix` in the staging and archive folders, or 0. */
  function MaxSequence(d: Stores, prefix: string): nat {
    HighestUpTo(SequenceNumbers(d.staging, prefix) + SequenceNumbers(d.archive, prefix), 99)
  }

  /** Every number in use is at most the maximum, which is itself in use unless it is 0. */
  lemma MaxSequenceIsMaximum(d: Stores, prefix: string)
    ensures MaxSequence(d, prefix) <= 99
    ensures forall name :: name in d.staging && IsSequenceName(name, prefix) ==>
      SequenceNumber(name, prefix) <= MaxSequence(d, prefix)
    ensures forall name :: name in d.archive && IsSequenceName(name, prefix) ==>
      SequenceNumber(name, prefix) <= MaxSequence(d, prefix)
  {
    var all := SequenceNumbers(d.staging, prefix) + SequenceNumbers(d.archive, prefix);
    forall name | name in d.staging && IsSequenceName(name, prefix)
      ensures SequenceNumber(name, prefix) <= MaxSequence(d, prefix)
    {
      assert SequenceNumber(name, prefix) in all;
    }
    forall name | name in d.archive && IsSequenceName(name, prefix)
      ensures SequenceNumber(name, prefix) <= MaxSequence(d, prefix)
    {
      assert SequenceNumber(name, prefix) in all;
    }
  }

  /** The mapping already stored for a session; `if (!targetFileName)` treats "" as missing. */
  function StoredTarget(props: map<string, string>, raw: string): (t: Option<string>)
    ensures t.Some? <==> raw in props && props[raw] != ""
    ensures t.Some? ==> t.value == props[raw]
  {
    if raw in props && props[raw] != "" then Some(props[raw]) else None
  }

  /** The name a new session receives: one above the largest number in use for its date. */
  function AllocatedName(d: Stores, raw: string): string {
    SequenceName(Prefix(raw), MaxSequence(d, Prefix(raw)) + 1)
  }

  /** The document a session's text goes to: the stored mapping, or a newly allocated name. */
  function Target(d: Stores, raw: string): string {
    match StoredTarget(d.props, raw)
    case Some(t) => t
    case None => AllocatedName(d, raw)
  }

  // ---------------------------------------------------------------------------
  // Writing the session document
  // ---------------------------------------------------------------------------

  /** The block appended for one chunk: a labelled separator line, then the text. */
  function ChunkBlock(chunk: string, timeText: string, text: string): string {
    "\n\n--- Chunk " + chunk + " (" + timeText + ") ---\n" + text
  }

  /** The header a new session document starts with. */
  function Header(raw: string, target: string, dateTimeText: string): string {
    "=== 商談記録 ===\nOriginal Session: " + raw + "\nFile Name: " + target + "\n作成開始: " + dateTimeText + "\n"
  }

  /** The stores after `saveTextToSessionFile(fileName, text)` at `clock`. */
  function SaveText(d: Stores, fileName: string, text: string, clock: Clock): Stores {
    var raw := RawSessionId(fileName);
    var target := Target(d, raw);
    var mapped := if StoredTarget(d.props, raw).Some? then d else d.(props := d.props[raw := target]);
    var block := ChunkBlock(ChunkLabel(fileName), clock.timeText, text);
    var start := if target in mapped.staging then mapped.staging[target].content else Header(raw, target, clock.dateTimeText);
    mapped.Write(Staging, target, start + block, clock.ms)
  }

  // ---------------------------------------------------------------------------
  // What a save promises
  // ---------------------------------------------------------------------------

  /** Three facts pin down `HighestUpTo`: a bound in range, attained unless 0, above the rest. */
  lemma HighestUpToUnique(s: set<nat>, k: nat, m: nat)
    requires m <= k && (m == 0 || m in s)
    requires forall x :: x in s && x <= k ==> x <= m
    ensures HighestUpTo(s, k) == m
  {
  }

  /** Writing one file adds at most that file's own number to what the scan sees. */
  lemma SequenceNumbersAfterWrite(f: Folder, prefix: string, name: string, file: DriveFile)
    ensures SequenceNumbers(f[name := file], prefix) ==
      SequenceNumbers(f, prefix) + (if IsSequenceName(name, prefix) then {SequenceNumber(name, prefix)} else {})
  {
    var before := SequenceNumbers(f, prefix);
    var after := SequenceNumbers(f[name := file], prefix);
    forall n | n in after ensures n in before || (IsSequenceName(name, prefix) && n == SequenceNumber(name, prefix)) {
      var other :| other in f[name := file] && IsSequenceName(other, prefix) && SequenceNumber(other, prefix) == n;
      if other != name {
        assert n in before;
      }
    }
    forall n | n in before ensures n in after {
      var other :| other in f && IsSequenceName(other, prefix) && SequenceNumber(other, prefix) == n;
      assert other in f[name := file];
    }
  }

  /**
   * A new session's name is one above every number in use for its date in the staging
   * and archive folders; below the overflow it matches the scan pattern and is not yet
   * taken in either folder, so the save creates the document.
   */
  lemma NewSessionNameIsUnused(d: Stores, raw: string)
    requires StoredTarget(d.props, raw).None?
    requires MaxSequence(d, Prefix(raw)) < 99
    ensures IsSequenceName(Target(d, raw), Prefix(raw))
    ensures SequenceNumber(Target(d, raw), Prefix(raw)) == MaxSequence(d, Prefix(raw)) + 1
    ensures forall name :: name in d.staging && IsSequenceName(name, Prefix(raw)) ==>
      SequenceNumber(name, Prefix(raw)) < SequenceNumber(Target(d, raw), Prefix(raw))
    ensures forall name :: name in d.archive && IsSequenceName(name, Prefix(raw)) ==>
      SequenceNumber(name, Prefix(raw)) < SequenceNumber(Target(d, raw), Prefix(raw))
    ensures Target(d, raw) !in d.staging && Target(d, raw) !in d.archive
  {
    var p := Prefix(raw);
    SequenceNameRoundTrip(p, MaxSequence(d, p) + 1);
    MaxSequenceIsMaximum(d, p);
  }

  /**
   * What `saveTextToSessionFile` does to the stores: the target document gains the chunk's
   * block after its old content (or after a fresh header when it is not in staging, even if
   * it was archived); the mapping is written only for a new session; nothing else changes.
   */
  lemma SaveTextEffect(d: Stores, fileName: string, text: string, clock: Clock)
    ensures var raw := RawSessionId(fileName);
      var target := Target(d, raw);
      var d' := SaveText(d, fileName, text, clock);
      var block := ChunkBlock(ChunkLabel(fileName), clock.timeText, text);
      && target in d'.staging
      && d'.staging[target].content ==
           (if target in d.staging then d.staging[target].content else Header(raw, target, clock.dateTimeText)) + block
      && d'.staging[target].lastUpdated == clock.ms
      && d'.staging.Keys == d.staging.Keys + {target}
      && (forall name :: name in d.staging && name != target ==> d'.staging[name] == d.staging[name])
      && d'.props == (if StoredTarget(d.props, raw).Some? then d.props else d.props[raw := target])
      && d'.voice == d.voice && d'.archive == d.archive && d'.output == d.output
      && d'.outbox == d.outbox && d'.triggers == d.triggers
  {
    var raw := RawSessionId(fileName);
    var target := Target(d, raw);
    var mapped := if StoredTarget(d.props, raw).Some? then d else d.(props := d.props[raw := target]);
    var block := ChunkBlock(ChunkLabel(fileName), clock.timeText, text);
    var start := if target in mapped.staging then mapped.staging[target].content else Header(raw, target, clock.dateTimeText);
    StagingWrite(mapped, target, start + block, clock.ms);
    var d' := mapped.(staging := mapped.staging[target := DriveFile(start + block, clock.ms)]);
    assert SaveText(d, fileName, text, clock) == d';
    assert d'.staging.Keys == d.staging.Keys + {target};
  }

  /**
   * Every chunk of one session goes to the same document: after a save the session is
   * mapped, and the next save for it resolves to the name the first one used.
   */
  lemma SameSessionSameDocument(d: Stores, first: string, text: string, clock: Clock, next: string)
    requires RawSessionId(first) == RawSessionId(next)
    ensures var d' := SaveText(d, first, text, clock);
      && StoredTarget(d'.props, RawSessionId(next)) == Some(Target(d, RawSessionId(first)))
      && Target(d', RawSessionId(next)) == Target(d, RawSessionId(first))
  {
    var raw := RawSessionId(first);
    if StoredTarget(d.props, raw).None? {
      assert Target(d, raw)[|Prefix(raw)|] == '_';
    }
  }

  /**
   * Chunks of one session saved one after the other appear in that order, after the
   * document's earlier content, which (header included) is never rewritten.
   */
  lemma ChunksAppendInOrder(d: Stores, f1: string, t1: string, c1: Clock, f2: string, t2: string, c2: Clock)
    requires RawSessionId(f1) == RawSessionId(f2)
    ensures var raw := RawSessionId(f1);
      var target := Target(d, raw);
      var d2 := SaveText(SaveText(d, f1, t1, c1), f2, t2, c2);
      var start := if target in d.staging then d.staging[target].content else Header(raw, target, c1.dateTimeText);
      && target in d2.staging
      && d2.staging[target].content ==
           start + ChunkBlock(ChunkLabel(f1), c1.timeText, t1) + ChunkBlock(ChunkLabel(f2), c2.timeText, t2)
  {
    var d1 := SaveText(d, f1, t1, c1);
    SaveTextEffect(d, f1, t1, c1);
    SameSessionSameDocument(d, f1, t1, c1, f2);
    SaveTextEffect(d1, f2, t2, c2);
  }

  /**
   * Serial first chunks of two new sessions of one date get consecutive numbers: the first
   * takes max + 1 and creates its document, so the second's scan sees it and takes max + 2.
   */
  lemma SerialSessionsGetConsecutiveNumbers(d: Stores, f1: string, t1: string, c1: Clock, f2: string)
    requires RawSessionId(f1) != RawSessionId(f2)
    requires Prefix(RawSessionId(f1)) == Prefix(RawSessionId(f2))
    requires StoredTarget(d.props, RawSessionId(f1)).None? && StoredTarget(d.props, RawSessionId(f2)).None?
    requires MaxSequence(d, Prefix(RawSessionId(f1))) < 98
    ensures var p := Prefix(RawSessionId(f1));
      var d1 := SaveText(d, f1, t1, c1);
      && Target(d, RawSessionId(f1)) == SequenceName(p, MaxSequence(d, p) + 1)
      && Target(d1, RawSessionId(f2)) == SequenceName(p, MaxSequence(d, p) + 2)
  {
    var raw2 := RawSessionId(f2);
    var d1 := SaveText(d, f1, t1, c1);
    NewSessionRaisesMaximum(d, f1, t1, c1);
    SaveTextEffect(d, f1, t1, c1);
    assert StoredTarget(d1.props, raw2).None?;
  }

  /** Saving a new session's first chunk raises the largest number in use for its date by one. */
  lemma NewSessionRaisesMaximum(d: Stores, fileName: string, text: string, clock: Clock)
    requires StoredTarget(d.props, RawSessionId(fileName)).None?
    requires MaxSequence(d, Prefix(RawSessionId(fileName))) < 99
    ensures var p := Prefix(RawSessionId(fileName));
      MaxSequence(SaveText(d, fileName, text, clock), p) == MaxSequence(d, p) + 1
  {
    var raw := RawSessionId(fileName);
    var p := Prefix(raw);
    var d1 := SaveText(d, fileName, text, clock);
    var name := Target(d, raw);
    NewSessionNameIsUnused(d, raw);
    SaveTextEffect(d, fileName, text, clock);
    SequenceNumbersAfterWrite(d.staging, p, name, d1.staging[name]);
    HighestAfterAdding(SequenceNumbers(d.staging, p), SequenceNumbers(d.archive, p), MaxSequence(d, p));
  }



  /**
   * The overflow: when 99 is taken, a new session gets `{prefix}_100.txt`, which the scan
   * pattern does not match; so the next new session of that date is given the same name
   * and its text is appended to the other session's document.
   */
  lemma OverflowSharesDocument(d: Stores, f1: string, t1: string, c1: Clock, f2: string)
    requires RawSessionId(f1) != RawSessionId(f2)
    requires Prefix(RawSessionId(f1)) == Prefix(RawSessionId(f2))
    requires StoredTarget(d.props, RawSessionId(f1)).None? && StoredTarget(d.props, RawSessionId(f2)).None?
    requires MaxSequence(d, Prefix(RawSessionId(f1))) == 99
    ensures var p := Prefix(RawSessionId(f1));
      && Target(d, RawSessionId(f1)) == p + "_100.txt"
      && !IsSequenceName(Target(d, RawSessionId(f1)), p)
      && Target(SaveText(d, f1, t1, c1), RawSessionId(f2)) == Target(d, RawSessionId(f1))
  {
    var raw1, raw2 := RawSessionId(f1), RawSessionId(f2);
    var p := Prefix(raw1);
    var d1 := SaveText(d, f1, t1, c1);
    assert Target(d, raw1) == p + "_100.txt" by {
      PadHundred();
    }
    SequenceNameOverflow(p, 100);
    UnseenSaveKeepsMaximum(d, f1, t1, c1, p);
    assert StoredTarget(d1.props, raw2).None?;
  }

  /** One hundred is rendered with three digits. */
  lemma PadHundred()
    ensures Pad2(100) == "100"
  {
    assert NatToString(100) == NatToString(10) + "0";
    assert NatToString(10) == "10";
  }

  /** A save to a document the scan pattern does not match leaves the maximum as it was. */
  lemma UnseenSaveKeepsMaximum(d: Stores, fileName: string, text: string, clock: Clock, p: string)
    requires !IsSequenceName(Target(d, RawSessionId(fileName)), p)
    ensures MaxSequence(SaveText(d, fileName, text, clock), p) == MaxSequence(d, p)
  {
    var name := Target(d, RawSessionId(fileName));
    var d1 := SaveText(d, fileName, text, clock);
    SaveTextEffect(d, fileName, text, clock);
    SequenceNumbersAfterWrite(d.staging, p, name, d1.staging[name]);
    assert SequenceNumbers(d1.staging, p) == SequenceNumbers(d.staging, p);
  }



  // ---------------------------------------------------------------------------
  // saveTextToSessionFile
  // ---------------------------------------------------------------------------

  /**
   * The `checkFolder` scan: raises `maxNum` to the largest sequence number for `prefix`
   * among the folder's files, in whatever order the folder yields them.
   */
  method CheckFolder(folder: Folder, prefix: string, maxNum: nat) returns (newMax: nat)
    ensures newMax >= maxNum
    ensures newMax == maxNum || newMax in SequenceNumbers(folder, prefix)
    ensures forall x :: x in SequenceNumbers(folder, prefix) ==> x <= newMax
  {
    newMax := maxNum;
    var files := folder.Keys;
    while files != {}
      invariant files <= folder.Keys
      invariant newMax >= maxNum
      invariant newMax == maxNum || newMax in SequenceNumbers(folder, prefix)
      invariant forall name :: name in folder && name !in files && IsSequenceName(name, prefix) ==>
        SequenceNumber(name, prefix) <= newMax
      decreases files
    {
      var f :| f in files;
      if IsSequenceName(f, prefix) {
        var num := SequenceNumber(f, prefix);
        if num > newMax {
          newMax := num;
        }
      }
      files := files - {f};
    }
  }

  /** `saveTextToSessionFile(originalFileName, text)` against the live stores. */
  method SaveTextToSessionFile(ws: Workspace, originalFileName: string, text: string, clock: Clock)
    modifies ws
    ensures ws.State() == SaveText(old(ws.State()), originalFileName, text, clock)
  {
    ghost var d := ws.State();
    var raw := RawSessionId(originalFileName);
    var targetFileName := if raw in ws.props then ws.props[raw] else "";
    if targetFileName == "" {
      var todayPrefix := Prefix(raw);
      var maxNum := 0;
      maxNum := CheckFolder(ws.staging, todayPrefix, maxNum);
      maxNum := CheckFolder(ws.archive, todayPrefix, maxNum);
      HighestUpToUnique(SequenceNumbers(d.staging, todayPrefix) + SequenceNumbers(d.archive, todayPrefix), 99, maxNum);
      targetFileName := SequenceName(todayPrefix, maxNum + 1);
      assert targetFileName == Target(d, raw);
      ws.SetProperty(raw, targetFileName);
    } else {
      assert targetFileName == Target(d, raw);
    }
    ghost var mapped := ws.State();
    assert mapped == if StoredTarget(d.props, raw).Some? then d else d.(props := d.props[raw := targetFileName]);
    var appendContent := ChunkBlock(ChunkLabel(originalFileName), clock.timeText, text);
    if targetFileName in ws.staging {
      ws.Write(Staging, targetFileName, ws.staging[targetFileName].content + appendContent, clock.ms);
    } else {
      var header := Header(raw, targetFileName, clock.dateTimeText);
      ws.Write(Staging, targetFileName, header + appendContent, clock.ms);
    }
  }

  // ---------------------------------------------------------------------------
  // callApiBankTranscription
  // ---------------------------------------------------------------------------

  /** How a transcription call ends: it returns text, throws, or falls out of the loop (undefined). */
  datatype Transcript = Transcribed(text: string) | Thrown | NoResult

  /** The call's result read off its calls: the last one decides. */
  function TranscriptOf(calls: seq<Call>): Transcript {
    if calls == [] then NoResult
    else match calls[|calls| - 1].outcome
      case Reply(t) => Transcribed(t)
      case Failure => Thrown
      case Unavailable(_) => NoResult
  }

  /** The result of `callApiBankTranscription` against the scripted network. */
  function Transcribe(respond: Oracle, maxRetries: int): Transcript {
    TranscriptOf(Run(respond, maxRetries))
  }

  /**
   * The retry contract: at most `maxRetries` attempts; an error other than 503 is rethrown
   * only when it happens on the last attempt (earlier ones are retried); a 503 on the last
   * attempt leaves the loop with no text; text is returned as soon as a model answers.
   */
  lemma TranscriptionRetryContract(respond: Oracle, maxRetries: int)
    ensures |Run(respond, maxRetries)| <= (if maxRetries >= 1 then maxRetries else 0)
    ensures Transcribe(respond, maxRetries).Thrown? <==>
      maxRetries >= 1 && |Run(respond, maxRetries)| == maxRetries &&
      Run(respond, maxRetries)[maxRetries - 1].outcome.Failure?
    ensures Transcribe(respond, maxRetries).NoResult? <==>
      maxRetries < 1 ||
      (|Run(respond, maxRetries)| == maxRetries && Run(respond, maxRetries)[maxRetries - 1].outcome.Unavailable?)
    ensures forall t :: Transcribe(respond, maxRetries) == Transcribed(t) <==>
      exists i :: 0 <= i < |Run(respond, maxRetries)| && Run(respond, maxRetries)[i].outcome == Reply(t)
  {
    var cs := Run(respond, maxRetries);
    CallsBounded(respond, 1, maxRetries, "");
    forall t ensures Transcribe(respond, maxRetries) == Transcribed(t) <==>
      exists i :: 0 <= i < |cs| && cs[i].outcome == Reply(t)
    {
      if exists i :: 0 <= i < |cs| && cs[i].outcome == Reply(t) {
        var i :| 0 <= i < |cs| && cs[i].outcome == Reply(t);
        assert i == |cs| - 1;
      }
    }
  }

  /**
   * `callApiBankTranscription`: the attempt loop. Returns the result and the calls made
   * (the hint each sent and what came back).
   */
  method CallApiBankTranscription(respond: Oracle, maxRetries: int) returns (result: Transcript, calls: seq<Call>)
    ensures calls == Run(respond, maxRetries)
    ensures result == TranscriptOf(calls)
  {
    var previousModel := "";
    var attempt := 1;
    calls := [];
    while attempt <= maxRetries
      invariant attempt >= 1
      invariant calls + Calls(respond, attempt, maxRetries, previousModel) == Run(respond, maxRetries)
      invariant calls != [] ==> !calls[|calls| - 1].outcome.Reply?
      invariant calls != [] && calls[|calls| - 1].outcome.Failure? ==> attempt <= maxRetries
      decreases maxRetries - attempt
    {
      var hint := HintOf(previousModel);
      var outcome := respond(attempt, hint);
      CallsExtend(calls, respond, attempt, maxRetries, previousModel, Run(respond, maxRetries));
      calls := calls + [Call(hint, outcome)];
      match outcome {
        case Reply(t) =>
          return Transcribed(t), calls;
        case Unavailable(m) =>
          previousModel := m;
        case Failure =>
          if attempt == maxRetries {
            return Thrown, calls;
          }
      }
      attempt := attempt + 1;
    }
    result := NoResult;
  }

  // ---------------------------------------------------------------------------
  // processVoiceFiles
  // ---------------------------------------------------------------------------

  /** Whether the scan saves a voice file's text and trashes it: a `.webm` transcribed to non-empty text. */
  predicate IsSaved(name: string, respond: string -> Oracle, maxRetries: int) {
    && EndsWith(name, ".webm")
    && Transcribe(respond(name), maxRetries).Transcribed?
    && Transcribe(respond(name), maxRetries).text != ""
  }

  /** One iteration of the scan; a thrown transcription is caught and the file left alone. */
  function VoiceStep(d: Stores, name: string, respond: string -> Oracle, maxRetries: int, clockAt: string -> Clock): Stores {
    if IsSaved(name, respond, maxRetries) then
      var saved := SaveText(d, name, Transcribe(respond(name), maxRetries).text, clockAt(name));
      saved.(voice := saved.voice - {name})
    else
      d
  }

  /** The stores after `processVoiceFiles` visits `listing` in order. */
  function ProcessVoice(d: Stores, listing: seq<string>, respond: string -> Oracle, maxRetries: int, clockAt: string -> Clock): Stores
    decreases |listing|
  {
    if listing == [] then d
    else ProcessVoice(VoiceStep(d, listing[0], respond, maxRetries, clockAt), listing[1..], respond, maxRetries, clockAt)
  }

  /** The number of files the scan saves (the `count` it logs). */
  function SavedCount(listing: seq<string>, respond: string -> Oracle, maxRetries: int): nat {
    if listing == [] then 0
    else (if IsSaved(listing[0], respond, maxRetries) then 1 else 0) + SavedCount(listing[1..], respond, maxRetries)
  }

  /** The names the scan trashes: the listed files it saves. */
  function SavedNames(listing: seq<string>, respond: string -> Oracle, maxRetries: int): set<string> {
    if listing == [] then {}
    else
      (if IsSaved(listing[0], respond, maxRetries) then {listing[0]} else {}) +
        SavedNames(listing[1..], respond, maxRetries)
  }

  /** A name is trashed by the scan exactly when it is listed and saved. */
  lemma {:induction false} SavedNamesMembers(listing: seq<string>, respond: string -> Oracle, maxRetries: int, name: string)
    ensures name in SavedNames(listing, respond, maxRetries) <==> name in listing && IsSaved(name, respond, maxRetries)
    decreases |listing|
  {
    if listing != [] {
      SavedNamesMembers(listing[1..], respond, maxRetries, name);
      assert name in listing <==> name == listing[0] || name in listing[1..];
    }
  }

  /** Taking two sets of keys out of a folder in turn takes out their union. */
  lemma RemoveInTurn(f: Folder, b: set<string>, c: set<string>)
    ensures (f - b) - c == f - (b + c)
  {
  }

  /**
   * The scan trashes exactly the listed `.webm` files whose text it saved: files of any
   * other kind, and those whose transcription threw, fell out or came back empty, stay;
   * one failing file does not stop the rest. The archive and output folders are untouched.
   */
  lemma {:induction false} ProcessVoiceTrashesOnlySaved(d: Stores, listing: seq<string>, respond: string -> Oracle, maxRetries: int, clockAt: string -> Clock)
    ensures var d' := ProcessVoice(d, listing, respond, maxRetries, clockAt);
      && d'.voice == d.voice - SavedNames(listing, respond, maxRetries)
      && d'.archive == d.archive && d'.output == d.output && d'.outbox == d.outbox
    decreases |listing|
  {
    if listing != [] {
      var name := listing[0];
      var d1 := VoiceStep(d, name, respond, maxRetries, clockAt);
      VoiceStepEffect(d, name, respond, maxRetries, clockAt);
      ProcessVoiceTrashesOnlySaved(d1, listing[1..], respond, maxRetries, clockAt);
      RemoveInTurn(d.voice, if IsSaved(name, respond, maxRetries) then {name} else {}, SavedNames(listing[1..], respond, maxRetries));
    }
  }

  /** The block the scan appends for a saved file: its chunk label, time and transcript. */
  function SavedBlock(name: string, respond: string -> Oracle, maxRetries: int, clockAt: string -> Clock): string
    requires IsSaved(name, respond, maxRetries)
  {
    ChunkBlock(ChunkLabel(name), clockAt(name).timeText, Transcribe(respond(name), maxRetries).text)
  }

  /** One visit trashes the file exactly when it is saved, and otherwise changes nothing. */
  lemma VoiceStepEffect(d: Stores, name: string, respond: string -> Oracle, maxRetries: int, clockAt: string -> Clock)
    ensures var d' := VoiceStep(d, name, respond, maxRetries, clockAt);
      && d'.voice == d.voice - (if IsSaved(name, respond, maxRetries) then {name} else {})
      && d'.archive == d.archive && d'.output == d.output && d'.outbox == d.outbox
      && (!IsSaved(name, respond, maxRetries) ==> d' == d)
  {
    if IsSaved(name, respond, maxRetries) {
      SaveTextEffect(d, name, Transcribe(respond(name), maxRetries).text, clockAt(name));
    }
  }

  /**
   * A file is trashed only once its text is saved: after a visit that trashes it, its
   * session is mapped to its document, which is in staging and ends with the file's block.
   */
  lemma VoiceStepSavesFirst(d: Stores, name: string, respond: string -> Oracle, maxRetries: int, clockAt: string -> Clock)
    requires IsSaved(name, respond, maxRetries)
    ensures var d' := VoiceStep(d, name, respond, maxRetries, clockAt);
      var doc := Target(d, RawSessionId(name));
      && StoredTarget(d'.props, RawSessionId(name)) == Some(doc)
      && doc in d'.staging
      && EndsWith(d'.staging[doc].content, SavedBlock(name, respond, maxRetries, clockAt))
  {
    var raw := RawSessionId(name);
    var doc := Target(d, raw);
    var text := Transcribe(respond(name), maxRetries).text;
    SaveTextEffect(d, name, text, clockAt(name));
    var saved := SaveText(d, name, text, clockAt(name));
    var d' := VoiceStep(d, name, respond, maxRetries, clockAt);
    assert d'.props == saved.props && d'.staging == saved.staging;
    var start := if doc in d.staging then d.staging[doc].content else Header(raw, doc, clockAt(name).dateTimeText);
    var block := SavedBlock(name, respond, maxRetries, clockAt);
    assert saved.staging[doc].content == start + block;
    assert (start + block)[|start + block| - |block|..] == block;
    if StoredTarget(d.props, raw).None? {
      assert doc == SequenceName(Prefix(raw), MaxSequence(d, Prefix(raw)) + 1);
      assert doc != "";
    }
  }

  /**
   * A session's document, once mapped and holding a block, keeps both through a visit of
   * any file: mappings are never rewritten and documents only grow at their end.
   */
  lemma VoiceStepKeepsDocument(d: Stores, name: string, respond: string -> Oracle, maxRetries: int, clockAt: string -> Clock,
                               raw: string, doc: string, block: string)
    requires StoredTarget(d.props, raw) == Some(doc) && doc in d.staging && Contains(d.staging[doc].content, block)
    ensures var d' := VoiceStep(d, name, respond, maxRetries, clockAt);
      StoredTarget(d'.props, raw) == Some(doc) && doc in d'.staging && Contains(d'.staging[doc].content, block)
  {
    if IsSaved(name, respond, maxRetries) {
      var text := Transcribe(respond(name), maxRetries).text;
      var target := Target(d, RawSessionId(name));
      var saved := SaveText(d, name, text, clockAt(name));
      var d' := VoiceStep(d, name, respond, maxRetries, clockAt);
      assert d'.props == saved.props && d'.staging == saved.staging;
      SaveTextEffect(d, name, text, clockAt(name));
      if target == doc {
        ContainsKept(d.staging[doc].content, block, ChunkBlock(ChunkLabel(name), clockAt(name).timeText, text));
      } else {
        assert saved.staging[doc] == d.staging[doc];
      }
    }
  }

  lemma {:induction false} ProcessVoiceKeepsDocument(d: Stores, listing: seq<string>, respond: string -> Oracle, maxRetries: int,
                                                     clockAt: string -> Clock, raw: string, doc: string, block: string)
    requires StoredTarget(d.props, raw) == Some(doc) && doc in d.staging && Contains(d.staging[doc].content, block)
    ensures var d' := ProcessVoice(d, listing, respond, maxRetries, clockAt);
      StoredTarget(d'.props, raw) == Some(doc) && doc in d'.staging && Contains(d'.staging[doc].content, block)
    decreases |listing|
  {
    if listing != [] {
      VoiceStepKeepsDocument(d, listing[0], respond, maxRetries, clockAt, raw, doc, block);
      ProcessVoiceKeepsDocument(VoiceStep(d, listing[0], respond, maxRetries, clockAt), listing[1..], respond, maxRetries, clockAt, raw, doc, block);
    }
  }

  /**
   * Nothing is trashed unsaved: after the scan, every file it trashed has its session
   * mapped to a document in staging that holds the file's block.
   */
  lemma {:induction false} ProcessVoiceKeepsTranscripts(d: Stores, listing: seq<string>, respond: string -> Oracle, maxRetries: int,
                                                        clockAt: string -> Clock, name: string)
    requires name in listing && IsSaved(name, respond, maxRetries)
    ensures var d' := ProcessVoice(d, listing, respond, maxRetries, clockAt);
      var doc := StoredTarget(d'.props, RawSessionId(name));
      doc.Some? && doc.value in d'.staging && Contains(d'.staging[doc.value].content, SavedBlock(name, respond, maxRetries, clockAt))
    decreases |listing|
  {
    var first := listing[0];
    var d1 := VoiceStep(d, first, respond, maxRetries, clockAt);
    if name in listing[1..] {
      ProcessVoiceKeepsTranscripts(d1, listing[1..], respond, maxRetries, clockAt, name);
    } else {
      assert name == first;
      VoiceStepSavesFirst(d, name, respond, maxRetries, clockAt);
      var doc := Target(d, RawSessionId(name));
      ContainsKept(d1.staging[doc].content, SavedBlock(name, respond, maxRetries, clockAt), "");
      ProcessVoiceKeepsDocument(d1, listing[1..], respond, maxRetries, clockAt, RawSessionId(name), doc,
        SavedBlock(name, respond, maxRetries, clockAt));
    }
  }


  /**
   * `processVoiceFiles`: visits the voice folder's files in `listing` order, transcribes
   * each `.webm`, saves non-empty text and only then trashes the source; a throw on one
   * file is caught and the scan goes on. Returns the count of files saved.
   */
  method ProcessVoiceFiles(ws: Workspace, listing: seq<string>, respond: string -> Oracle, maxRetries: int, clockAt: string -> Clock)
    returns (count: nat)
    modifies ws
    ensures ws.State() == ProcessVoice(old(ws.State()), listing, respond, maxRetries, clockAt)
    ensures count == SavedCount(listing, respond, maxRetries)
  {
    count := 0;
    var i := 0;
    while i < |listing|
      invariant 0 <= i <= |listing|
      invariant ProcessVoice(ws.State(), listing[i..], respond, maxRetries, clockAt) ==
        ProcessVoice(old(ws.State()), listing, respond, maxRetries, clockAt)
      invariant count + SavedCount(listing[i..], respond, maxRetries) == SavedCount(listing, respond, maxRetries)
    {
      var fileName := listing[i];
      assert listing[i..][1..] == listing[i + 1..];
      if EndsWith(fileName, ".webm") {
        var text, _ := CallApiBankTranscription(respond(fileName), maxRetries);
        if text.Transcribed? && text.text != "" {
          SaveTextToSessionFile(ws, fileName, text.text, clockAt(fileName));
          ws.Trash(fileName);
          count := count + 1;
        }
      }
      i := i + 1;
    }
  }
}
