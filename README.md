# sns-rec in Dafny

A model of the three programs of sns-rec and proofs about it:

- **app.js**, the browser recorder. It cuts a recording into five-minute chunks named
  `YYMMDD_HHMMSS_chunkNN.webm` and uploads each one to the web app. When an upload fails it
  saves the chunk on the device. It keeps `{id, currentChunk}` in `localStorage` so that a
  session can be resumed. Its handlers also check the names of manually uploaded files.
- **transcription.js**, the server-side aggregator. It transcribes every uploaded `.webm` in
  the voice folder. It appends the text to one staging document per session. That
  document's date-prefixed sequence name (`YYMMDD_NN.txt`) is allocated once and kept in
  the script properties. A chunk is trashed only once its text is saved.
- **minutes_generator.js**, the batch promoter and web entry point. `doPost` stores uploaded
  chunks or schedules the background run. `processDocuments` turns each settled staging
  document into an `【SNS投稿案】` artifact in the output folder, mails it and archives the
  source.

Module layout:

| module | file | contents |
|---|---|---|
| `Text` | text.dfy | decimal rendering and parsing, `padStart(2, '0')`, first-occurrence `replace`, the chunk file name pattern |
| `Retry` | retry.dfy | the attempt loop both AI calls share: the key-bank hint, the 503 handling and the bound on attempts |
| `Drive` | drive.dfy | the Drive folders, the script properties, the sent mail and the scheduled triggers, as a value (`Stores`) and as a mutable `Workspace` |
| `Transcription` | transcription.dfy | transcription.js |
| `Minutes` | minutes.dfy | minutes_generator.js |
| `Recorder` | recorder.dfy | app.js: the recorder's state as a value (`RecState`), what each event does to it, and the page as a class (`App`) |

How the outside world enters the model:

- **Folders** map file names to content and last-update time. A Drive iterator's order is
  an explicit `listing` parameter.
- **The AI services.** The key bank and Gemini together are an oracle. It is given the
  attempt number and the hint, and answers with a reply, a 503 naming the model, or a
  failure.
- **Time.** `Date.now()`, the locale time strings and the `Date` fields the recorder reads
  are parameters.
- **Service failures.** Whether an upload, a document creation, a mail or a move throws is
  a parameter.

Each method that changes state is specified by a function of the state before the call.
The properties are proved as lemmas about those functions.

Some behaviours of the code are easy to miss. The model keeps them as written:

- **Failed chunks.** Only a successful upload advances the stored record. So the number
  of a chunk whose upload failed is issued again after a resume. The resumed chunk is then
  uploaded under the name of a chunk already saved on the device
  (`Recorder.FailedChunkNumberReissued`).
- **Skipped chunk numbers.** The stored record holds the next chunk number. But the
  recorder increments its counter before it names a chunk, so a resumed run's first chunk
  is numbered one above the stored number, and that number is never used. For example:
  upload chunk 1, stop with nothing buffered, resume, stop with data. The uploads are then
  chunks 1 and 3 (`Recorder.ResumeSkipsANumber`).
- **Sequence overflow.** When a date's sequence numbers reach 99, the code allocates
  `_100.txt`. Its own scan matches only two digits, so it cannot see that name. A later
  new session of that date then shares that document (`Transcription.OverflowSharesDocument`).
- **Failures while promoting.** A failing document creation or mail ends the whole scan
  through the outer `catch`. The documents listed after it stay in staging. When the mail
  fails, the artifact has already been created. The next scan finds the artifact and
  archives the source without mailing (`Minutes.DocStepOutcome`,
  `Minutes.ProcessDocsAbortEndsScan`, `Minutes.ProcessDocsNoRegeneration`).

## Model

| member | source | states |
|---|---|---|
| Text.Pad2 | transcription.js:185 | `padStart(2, '0')` gives a digit string whose value is the number; it has exactly two characters iff the number is below 100, and never fewer |
| Text.FirstOccurrence | transcription.js:155 | the index found is an occurrence of the pattern and no earlier index is; `None` only when the pattern occurs nowhere |
| Text.ReplaceFirst | minutes_generator.js:190 | a string-pattern `replace` rewrites only the first occurrence, and leaves the string alone when there is none |
| Retry.HintOf | transcription.js:86-88 | the `error_503` hint is sent exactly when `previousModel` is non-empty |
| Retry.CallsBounded | transcription.js:82-142 | the loop makes at most `MAX_RETRIES` attempts and at least one when `MAX_RETRIES >= 1`; only the last call can be a reply; a run ending without a reply used every attempt |
| Retry.CallsHints | transcription.js:80-127 | the first call sends the hint of `previousModel`; each later call sends the model of the latest 503 before it, and other failures keep the hint; the attempts are asked about in order |
| Retry.FirstCallHasNoHint | transcription.js:80-88 | a fresh call's first request to the key bank carries no `error_503` hint |
| Retry.HintComesFrom503 | transcription.js:123-127 | every hint names a model that answered 503 on an earlier attempt of the same call |
| Transcription.RawSessionId | transcription.js:154-155 | a chunk file name yields its 13-character `YYMMDD_HHMMSS` prefix; any other name yields the name with its first `.webm` removed |
| Transcription.ChunkLabel | transcription.js:194-195 | the label is always two digits: the ones before a trailing `.webm` after `_chunk`, otherwise `00` |
| Transcription.ChunkFileNameParts | transcription.js:154-195 | a chunk file name is its session id, `_chunk`, its label and `.webm`, so both are read back from it |
| Transcription.Prefix | transcription.js:163 | `substring(0, 6)` is a prefix of the id, six long when the id is, else the whole id |
| Transcription.SequenceNameRoundTrip | transcription.js:173-186 | a name allocated for a number below 100 matches the scan pattern and the scan reads that number back from it |
| Transcription.SequenceNameOverflow | transcription.js:185-186 | a name allocated for 100 or more never matches the scan pattern |
| Transcription.HighestUpTo | transcription.js:166-182 | the result is at most the bound, is in the set unless it is 0, and is at least every element of the set within the bound |
| Transcription.MaxSequenceIsMaximum | transcription.js:165-182 | the maximum is at most 99 and at least every sequence number in use for the date in the staging and archive folders |
| Transcription.StoredTarget | transcription.js:159-162 | a stored mapping is used exactly when the session has a non-empty entry in the properties, and then it is that entry |
| Transcription.NewSessionNameIsUnused | transcription.js:162-189 | below the overflow, a new session's name matches the pattern, is numbered one above every name in use for its date, and is taken in neither folder |
| Transcription.SaveTextEffect | transcription.js:148-215 | a save appends the chunk's block to the target's old content, or to a fresh header when the target is not in staging, even if it was archived; it stamps the time; it maps only a new session; nothing else changes |
| Transcription.SameSessionSameDocument | transcription.js:159-189 | after one save of a session, its mapping is stored and every later chunk of that session resolves to the same document |
| Transcription.ChunksAppendInOrder | transcription.js:197-214 | two chunks of one session saved in turn appear in that order after the document's earlier content, which is never rewritten |
| Transcription.NewSessionRaisesMaximum | transcription.js:162-189 | a new session's first save raises the largest number in use for its date by exactly one |
| Transcription.UnseenSaveKeepsMaximum | transcription.js:168-181 | a save to a document whose name the two-digit pattern does not match leaves the date's largest number unchanged |
| Transcription.SerialSessionsGetConsecutiveNumbers | transcription.js:162-189 | two new sessions of one date saved one after the other get the numbers max + 1 and max + 2 |
| Transcription.OverflowSharesDocument | transcription.js:173-189 | with 99 taken, a new session gets `_100.txt`, which the scan cannot see, so the next new session of that date gets the same document |
| Transcription.CheckFolder | transcription.js:168-179 | the scan raises `maxNum` to the largest sequence number in the folder, whatever order the folder yields its files in |
| Transcription.SaveTextToSessionFile | transcription.js:148-215 | the stores after the call are `SaveText` of those before |
| Transcription.TranscriptionRetryContract | transcription.js:79-143 | at most `MAX_RETRIES` attempts; the call throws iff the last allowed attempt failed other than by 503; it falls out with no text iff there are no attempts or the last allowed one was a 503; it returns a text iff some attempt replied with it |
| Transcription.CallApiBankTranscription | transcription.js:79-143 | the loop makes exactly the calls of the specified run and returns what its last call decides |
| Transcription.SavedNamesMembers | transcription.js:34-58 | a name is trashed iff it is listed, ends in `.webm` and is transcribed to non-empty text |
| Transcription.VoiceStepEffect | transcription.js:39-57 | one voice file's visit trashes that file exactly when it is saved, and leaves the archive, the output folder and the outbox alone; a file that is not saved changes nothing |
| Transcription.VoiceStepSavesFirst | transcription.js:44-51 | a file is trashed only after its text is saved: the session's mapping then names the target document, which is in staging and ends with the chunk's labelled, timed block of text |
| Transcription.VoiceStepKeepsDocument | transcription.js:159-214 | a visit of any file keeps an existing session mapping and keeps every block already in that session's document: mappings are never rewritten and documents only grow at their end |
| Transcription.ProcessVoiceKeepsDocument | transcription.js:34-58 | the same through a whole scan |
| Transcription.ProcessVoiceKeepsTranscripts | transcription.js:34-58 | after the scan, each saved chunk's block of text is in the staging document that its session maps to, whatever the later files did |
| Transcription.ProcessVoiceTrashesOnlySaved | transcription.js:27-62 | the scan trashes exactly the saved names; files whose transcription threw, fell out or came back empty stay, and one failure does not stop the rest; the archive, output and mail are untouched |
| Transcription.ProcessVoiceFiles | transcription.js:27-62 | the stores after the scan are `ProcessVoice` of those before, and the count is the number of files saved; `ProcessVoiceTrashesOnlySaved` and `ProcessVoiceKeepsTranscripts` state what that state holds |
| Minutes.BaseNameOfSessionDocument | minutes_generator.js:175-190 | for a name matching the session-document pattern, the first `.txt` is the extension, so the base name is the name without it |
| Minutes.ArtifactNamesDistinct | minutes_generator.js:190-197 | distinct session documents have distinct artifact names |
| Minutes.GenerationRetryContract | minutes_generator.js:334-391 | at most `MAX_RETRIES` attempts; `null` iff no attempt got a reply, and then every attempt was used |
| Minutes.CallGeminiForMinutes | minutes_generator.js:334-391 | the loop makes exactly the calls of the specified run, never throws, and returns the reply of its last call or `null` |
| Minutes.Attachments | minutes_generator.js:282-287 | one attachment per created file, in order, named after it |
| Minutes.NotificationShape | minutes_generator.js:279-309 | the subject names the document; one attachment per file, in order; the body is exactly the introduction, the listing, the quick view and the footer, each found at its own offset; without content the footer follows the listing directly; with content the quick view is its opening, the content whole and its closing, so the body contains the content |
| Minutes.ComposeQuickView | minutes_generator.js:290-296 | the `+=` steps build the quick view: nothing without content, otherwise the rule, title and rule, then the content whole, then a blank line and the closing rule |
| Minutes.ListingLines | minutes_generator.js:284-287 | each file's line sits in the listing right after the lines of the files before it, so the listing names every file, in order |
| Minutes.ComposeNotification | minutes_generator.js:279-306 | the loop and the `+=` steps build the specified mail |
| Minutes.DocStepFrame | minutes_generator.js:170-231 | one document's visit can only move that document, unchanged, to the archive, write only its artifact, send at most its one mail, and touch nothing else |
| Minutes.DocStepArchives | minutes_generator.js:197-228 | a visit moves a document out of staging only when it is a session document whose artifact exists afterwards |
| Minutes.ProcessDocsFrame | minutes_generator.js:158-239 | a scan leaves the voice folder, properties and triggers alone, only removes files from staging, never rewrites an existing artifact, and only adds mail after what was sent |
| Minutes.DocStepRemoves | minutes_generator.js:196-228 | one document's visit either leaves staging alone or moves that document, unchanged, to the archive, and then only a session document whose artifact exists |
| Minutes.ProcessDocsLosesNothing | minutes_generator.js:196-228 | every document that leaves staging was listed, is a session document, is in the archive unchanged and has its artifact |
| Minutes.ProcessDocsArchiveKept | minutes_generator.js:201-227 | an archived file that is not in staging is never overwritten by a scan |
| Minutes.ProcessDocsNoRegeneration | minutes_generator.js:196-208 | when every listed session document already has its artifact, the scan does not abort, creates no artifact and sends no mail; each ready document whose move succeeds is archived unchanged |
| Minutes.ProcessDocsArchivesDone | minutes_generator.js:196-208 | when every listed session document already has its artifact, each one that is ready and whose move succeeds leaves staging for the archive, unchanged |
| Minutes.DocStepOutcome | minutes_generator.js:175-228 | one visit, case by case: a document that is not ready (a non-session name, or one updated within 20 minutes without `force`) is skipped; one whose artifact exists is only moved; empty or failed generation changes nothing; a failing creation ends the scan with nothing written; a failing mail ends it after the artifact is written; otherwise the artifact holds the text, one mail about it is sent, and the document is moved unless the move fails |
| Minutes.ProcessDocsSplit | minutes_generator.js:170-231 | a scan is its first visits followed by the rest on the stores they leave, unless one of them ended it |
| Minutes.ProcessDocsCreatesOnlyArtifacts | minutes_generator.js:196-215 | the scan creates no output under a name that is no listed session document's artifact |
| Minutes.ProcessDocsPromotes | minutes_generator.js:170-231 | a listed, ready document with no artifact and non-empty generated text, reached without an earlier abort and with no failing service, ends archived unchanged, its artifact holding the text and its mail sent |
| Minutes.DocStepPromotes | minutes_generator.js:210-228 | one such visit writes the artifact with the text, sends its mail and moves the document to the archive |
| Minutes.PromotesPrefix | minutes_generator.js:170-231 | earlier visits leave a later listed document in staging unchanged and create no artifact for it |
| Minutes.PromotedStaysPromoted | minutes_generator.js:170-231 | later visits keep a promoted document archived, its artifact unchanged and its mail sent |
| Minutes.StepKeepsListed | minutes_generator.js:170-171 | after one visit, the rest of the listing is still in staging and distinct |
| Minutes.ProcessDocsAbortEndsScan | minutes_generator.js:235-238 | a visit whose creation or mail throws gives the scan's result, and every document listed after it stays in staging unchanged |
| Minutes.ProcessDocsWaitsForStability | minutes_generator.js:177-188 | without `force`, a document updated within 20 minutes stays in staging unchanged, and no artifact appears or disappears for it |
| Minutes.ArchiveSource | minutes_generator.js:222-227 | the move happens unless it throws, and then nothing changes |
| Minutes.ProcessDocument | minutes_generator.js:170-231 | one iteration of the loop changes the stores as `DocStep` says and reports whether it ended the scan; `DocStepOutcome` states each case |
| Minutes.ProcessDocuments | minutes_generator.js:158-239 | the stores after the loop are `ProcessDocs` of those before, stopping at the first document that aborts; `ProcessDocsPromotes`, `ProcessDocsAbortEndsScan` and `ProcessDocsNoRegeneration` state what that state holds |
| Minutes.UploadContract | minutes_generator.js:72-92 | an upload succeeds iff both fields are present and non-empty, whatever the name; it then stores the data under that name in the voice folder and changes nothing else; otherwise it fails with the missing-field error and changes nothing |
| Minutes.PostFrame | minutes_generator.js:66-115 | no request touches staging, archive, output, mail or properties, or removes a voice file; exactly the requests that are not uploads schedule one background run |
| Minutes.DoPost | minutes_generator.js:66-115 | the response and the stores after the request are `HandlePost` of those before |
| Minutes.AsyncTasksEffect | minutes_generator.js:121-145 | the background run trashes exactly the saved chunks; existing artifacts and mail stay; every staged document it moves is archived unchanged with its artifact |
| Minutes.ExecuteAsyncTasks | minutes_generator.js:121-145 | the stores after the run are the voice scan followed by the forced document scan |
| Recorder.LastTwo | app.js:529 | `slice(-2)` is a suffix, two long unless the string is shorter |
| Recorder.LastTwoDigits | app.js:529 | for a year from 10 on, `slice(-2)` of its rendering is two digits worth the year modulo 100 |
| Recorder.FormatDateParts | app.js:528-533 | `formatDate` is three two-digit parts worth the year modulo 100, the 1-based month and the day |
| Recorder.FormatDateRoundTrip | app.js:528-533 | `formatDate` is six digits, from which the year modulo 100, the 1-based month and the day are read back |
| Recorder.SessionIdShape | app.js:149-153 | a new session id has the shape `YYMMDD_HHMMSS` |
| Recorder.ChunkFileNameOfShapedId | app.js:273-274 | on a well-shaped id, a chunk's name matches the chunk pattern iff its number is at most 99, and then the server reads back that id and number |
| Recorder.ChunkFileNameIsParsed | app.js:273-274 | a new session's chunk names match the manual-upload pattern iff the number is at most 99, and the server reads back the session id and the chunk number |
| Recorder.ManualUploadExamples | app.js:305-311 | the file-name check accepts `260202_150000_chunk01.webm` and rejects `recording.webm` and `260202_15_chunk01.webm` |
| Recorder.TimerTextReadsBack | app.js:426-430 | below 100 minutes the timer is `mm:ss` with seconds below 60, naming the whole second the elapsed time falls in; from 100 minutes on it is longer |
| Recorder.LoadedInv | app.js:107-210 | the invariant holds on the loaded page |
| Recorder.StartInv | app.js:107-210 | starting or resuming keeps the invariant, for a run that begins at the counter `startRecording` sets and at the device saves already made |
| Recorder.NewRunInv | app.js:139-165 | a run that has just begun, with the record saved and an empty buffer, has no uploads or device saves of its own and satisfies the invariant |
| Recorder.OnDataInv | app.js:166-170 | buffering a blob keeps the invariant, since empty blobs are dropped |
| Recorder.ProcessRaisedChunkInv | app.js:247-249 | raising the counter and processing the chunk uploads the next number of the run, in increasing order, and keeps the invariant |
| Recorder.RaisedInv | app.js:247-248 | raising the counter when a chunk is sealed keeps the invariant, puts every upload of the run below the new counter and leaves room for exactly one more emitted chunk |
| Recorder.UploadInv | app.js:278-285 | uploading a non-empty buffer under the raised counter keeps the invariant |
| Recorder.NoUploadInv | app.js:269-295 | an empty buffer, or an upload that throws, keeps the invariant; the chunk saved on the device instead takes the number the raised counter left for it |
| Recorder.ResumedInv | app.js:253-256 | restarting the recorder with an empty buffer below MAX_CHUNKS keeps the invariant |
| Recorder.PausedInv | app.js:218-228 | stopping the recorder with nothing buffered keeps the invariant |
| Recorder.SealInv | app.js:239-264 | a timer seal keeps the invariant |
| Recorder.StopInv | app.js:215-234 | stopping keeps the invariant |
| Recorder.ManualUploadInv | app.js:300-326 | a manual upload keeps the invariant |
| Recorder.FreshSessionBound | app.js:252-260 | a new session's counter never passes `MAX_CHUNKS`, so it emits at most 12 chunks, uploaded and saved on the device together, each numbered 1 to 12, and no number is uploaded twice |
| Recorder.StopOutcome | app.js:215-234 | a stop leaves the recorder inactive; an inactive one is unchanged; an empty buffer emits nothing; a buffer with data emits the chunk numbered one past the counter, uploaded with the record advanced, or saved on the device |
| Recorder.SealOutcome | app.js:247-260 | a seal emits the chunk numbered one past the counter, uploaded and recorded, or saved locally; recording resumes iff under `MAX_DURATION` and `MAX_CHUNKS` |
| Recorder.FirstChunkIsChunk01 | app.js:148-274 | a new session's first sealed chunk is `…_chunk01.webm`, uploaded or saved locally |
| Recorder.ChunkOneName | app.js:273-274 | chunk 1 is named `_chunk01.webm` |
| Recorder.ResumeNumbersAfterUploads | app.js:139-146 | resuming takes the session and counter from the record and rewrites it; the next chunk is numbered above every chunk the previous run uploaded |
| Recorder.ResumeSkipsANumber | app.js:139-146 | chunk 1 uploaded, a stop with nothing buffered, a resume and a stop with data upload chunks 1 and 3, never chunk 2 |
| Recorder.UploadOneThenStop | app.js:239-264 | the first run of that scenario: chunk 1 is uploaded, the record holds 2, and the recorder is stopped |
| Recorder.FailedChunkNumberReissued | app.js:278-293 | a chunk number whose upload failed is issued again after a resume: chunk 2 ends up both saved on the device and uploaded |
| Recorder.App.constructor | app.js:88-101 | the page starts with empty buffers and the stored record, and satisfies the invariant |
| Recorder.App.SaveSessionInfo | app.js:488-505 | the record becomes the session id with the next chunk number |
| Recorder.App.StartRecording | app.js:107-210 | the page changes as `Started` says, the run's base and its count of earlier device saves are set, and the invariant is kept |
| Recorder.App.BeginRun | app.js:161-173 | the session record is saved, the buffer emptied, the start time stamped and the recorder marked running; nothing else changes |
| Recorder.App.OnDataAvailable | app.js:166-170 | the page changes as `Buffered` says, and the invariant is kept |
| Recorder.App.ProcessChunk | app.js:269-295 | the page changes as `ChunkProcessed` says |
| Recorder.App.TimerSeal | app.js:239-264 | the page changes as `Sealed` says, and the invariant is kept |
| Recorder.App.StopRecording | app.js:215-234 | the page changes as `Stopped` says, and the invariant is kept; `StopOutcome` states what that is |
| Recorder.App.HandleManualUpload | app.js:300-326 | a file is sent iff its name passes the check and the upload succeeds; the page changes as `ManuallyUploaded` says, and the invariant is kept |

## Left out

- The page's DOM, buttons, alerts, progress bar and log output, and the Apps Script `Logger`. None of them affects the modelled state.
- `MediaRecorder`, `getUserMedia`, `Blob`, `FileReader` and the base64 encoding. A buffered blob is its size, and `getUserMedia` is a success flag.
- The contents of a chunk. An upload succeeds or throws as a flag.
- `Utilities.base64Decode` failing in `doPost` on malformed data is not modelled.
- The prompt texts, the URLs and the JSON of the AI calls, and `reportError`. An attempt is an oracle outcome.
- `Utilities.sleep`, timeouts and `setTimeout`/`setInterval` scheduling. They only affect timing.
- Concurrent executions: two triggers running the scans at once, and the race between two new sessions allocating a name. The model runs each call alone.
- The interleaving of the recorder's asynchronous callbacks. Each handler runs to completion before the next event.
- The locale strings of `toLocaleTimeString` and `toLocaleString` are opaque inputs.
- Minutes.ProcessDocuments: the scan reads the clock once. The source calls `Date.now()` for each document.
- Several Drive files with one name collapse into one entry of a folder map.
- `getFilesByType(PLAIN_TEXT)` is modelled by the listing the scan is given. The listing names staging files only.
- A Drive failure inside `saveTextToSessionFile` is not modelled. The model's save always succeeds.
- `createMinutesDoc`'s document rendering, image insertion and PDF conversion. An artifact is its text.
- `processedCount`, the `count` log and the `typeof processVoiceFiles` check. That check always holds in the deployed project.
- `manualRun`, `findSampleImage`, `handleCreateReport`, `checkPreviousSession`, `downloadChunk`, `cleanup` and `updateUI`. They are outside the modelled core. A local save is recorded in `localSaves`.
- `updateSessionChunk` writes the same record as `saveSessionInfo`. Both are `Recorder.App.SaveSessionInfo`.
- The `updatedAt` stamp of the stored session record is not modelled.
- Recorder.IsCalendarTime: years below 10 are excluded. For them, `slice(-2)` gives a single digit.
- Transcription.Prefix: the model counts characters (Unicode scalar values) where `substring(0, 6)` (transcription.js:163) counts UTF-16 code units. A name that fails the chunk pattern keeps its raw id, and `doPost` stores any name, so such a name with a character outside the Basic Multilingual Plane among its first six code units gets a different prefix: for `😀😀😀😀.webm` the source's document is `😀😀😀_01.txt` and the model's is `😀😀😀😀_01.txt`. When the sixth code unit splits a surrogate pair, the source's document name holds a lone surrogate, which a Dafny string cannot hold. Chunk names are ASCII and are not affected.
- Transcription.SequenceNumbers: the prefix is matched literally. The source builds a `RegExp` from the unescaped prefix (transcription.js:173). For a chunk name that fails the session pattern, the prefix is the name's first six characters and can hold metacharacters. Such a `RegExp` can throw, as for `(ab.webm`: the save fails and the chunk stays in the voice folder. It can also match other names: the prefix `a+b` matches `aab_01.txt`. The model covers neither case. A regular-expression engine is outside the model.
- Minutes.HandlePost: only string fields of the JSON body are modelled; a field that is absent or not a string is `None`. The source checks only `!fileName || !fileData` (minutes_generator.js:76), so a truthy field that is not a string, such as the number 5, passes that check and reaches `Utilities.base64Decode` and `Utilities.newBlob`. How Apps Script treats such values is outside the model, which answers with the missing-field error instead. `Minutes.UploadContract` and `Minutes.DoPost` inherit this.
- Recorder.ResumeNumbersAfterUploads: it bounds only the uploads of the run before the resume, not those of earlier runs of the session. Session ids have a resolution of one second. A new session started within the same second as an earlier one gets the same id and numbers its chunks from 1 again, so no bound over all earlier uploads holds.
- Recorder.TimerText: the elapsed time is a natural number. A clock that goes backwards is not modelled.
- Recorder.Started: resuming with no stored record changes nothing. The source throws at `savedData.id` after the microphone is acquired, and the page's recovery path is UI only.
- `MAX_RETRIES`, `RETRY_DELAY` and `API_TIMEOUT` come from the script properties. `MAX_RETRIES` is a parameter of the calls and the scans.
