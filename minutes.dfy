/**
 * The batch promoter and web entry point of minutes_generator.js: stabilised staging
 * documents are turned into an SNS-post artifact in the output folder, mailed, and
 * archived; `doPost` stores uploaded chunks or schedules the background run.
 */
module Minutes {
  import opened Text
  import opened Retry
  import opened Drive
  import Transcription

  // ---------------------------------------------------------------------------
  // Names
  // ---------------------------------------------------------------------------

  /** `^\d{6}_(\d{2}|\d{6})\.txt$`: a sequence document or a legacy timestamp document. */
  predicate IsSessionDocumentName(name: string) {
    && (|name| == 13 || |name| == 17)
    && AllDigits(name[..6]) && name[6] == '_' && AllDigits(name[7..|name| - 4])
    && name[|name| - 4..] == ".txt"
  }

  /** `fileName.replace('.txt', '')`. */
  function BaseName(fileName: string): string {
    ReplaceFirst(fileName, ".txt", "")
  }

  /** The artifact name: `【SNS投稿案】` followed by the base name. */
  function ArtifactName(fileName: string): string {
    "【SNS投稿案】" + BaseName(fileName)
  }

  /** For a session document the first `.txt` is its extension, so the base name is the rest. */
  lemma BaseNameOfSessionDocument(name: string)
    requires IsSessionDocumentName(name)
    ensures BaseName(name) == name[..|name| - 4]
  {
    forall j: nat | j < |name| - 4 ensures !OccursAt(name, ".txt", j) {
      if j < 6 {
        assert IsDigit(name[..6][j]);
      } else if j > 6 {
        assert IsDigit(name[7..|name| - 4][j - 7]);
      }
      assert name[j..j + 4][0] == name[j];
    }
    assert OccursAt(name, ".txt", |name| - 4);
  }

  /** Distinct session documents have distinct artifacts. */
  lemma ArtifactNamesDistinct(a: string, b: string)
    requires IsSessionDocumentName(a) && IsSessionDocumentName(b) && a != b
    ensures ArtifactName(a) != ArtifactName(b)
  {
    BaseNameOfSessionDocument(a);
    BaseNameOfSessionDocument(b);
    var tag := "【SNS投稿案】";
    assert (tag + BaseName(a))[|tag|..] == BaseName(a);
    assert (tag + BaseName(b))[|tag|..] == BaseName(b);
    if |a| == |b| {
      assert a == a[..|a| - 4] + ".txt";
      assert b == b[..|b| - 4] + ".txt";
    }
  }

  // ---------------------------------------------------------------------------
  // callGeminiForMinutes
  // ---------------------------------------------------------------------------

  /** The call's result read off its calls: text from a reply, otherwise `null`. */
  function GenerationOf(calls: seq<Call>): Option<string> {
    if calls != [] && calls[|calls| - 1].outcome.Reply? then Some(calls[|calls| - 1].outcome.text) else None
  }

  /** The result of `callGeminiForMinutes` against the scripted network. */
  function Generate(respond: Oracle, maxRetries: int): Option<string> {
    GenerationOf(Run(respond, maxRetries))
  }

  /**
   * The retry contract: at most `maxRetries` attempts; `null` exactly when no attempt got a
   * reply, whether the last one was a 503 or an error, and then every attempt was used.
   */
  lemma GenerationRetryContract(respond: Oracle, maxRetries: int)
    ensures |Run(respond, maxRetries)| <= (if maxRetries >= 1 then maxRetries else 0)
    ensures Generate(respond, maxRetries).None? <==>
      forall i :: 0 <= i < |Run(respond, maxRetries)| ==> !Run(respond, maxRetries)[i].outcome.Reply?
    ensures Generate(respond, maxRetries).None? && maxRetries >= 1 ==> |Run(respond, maxRetries)| == maxRetries
  {
    CallsBounded(respond, 1, maxRetries, "");
  }

  /** `callGeminiForMinutes`: the attempt loop; it never throws and gives `null` when exhausted. */
  method CallGeminiForMinutes(respond: Oracle, maxRetries: int) returns (result: Option<string>, calls: seq<Call>)
    ensures calls == Run(respond, maxRetries)
    ensures result == GenerationOf(calls)
  {
    var previousModel := "";
    var attempt := 1;
    calls := [];
    while attempt <= maxRetries
      invariant attempt >= 1
      invariant calls + Calls(respond, attempt, maxRetries, previousModel) == Run(respond, maxRetries)
      invariant calls != [] ==> !calls[|calls| - 1].outcome.Reply?
      decreases maxRetries - attempt
    {
      var hint := HintOf(previousModel);
      var outcome := respond(attempt, hint);
      CallsExtend(calls, respond, attempt, maxRetries, previousModel, Run(respond, maxRetries));
      calls := calls + [Call(hint, outcome)];
      match outcome {
        case Reply(t) =>
          return Some(t), calls;
        case Unavailable(m) =>
          previousModel := m;
        case Failure =>
          if attempt == maxRetries {
            return None, calls;
          }
      }
      attempt := attempt + 1;
    }
    result := None;
  }

  // ---------------------------------------------------------------------------
  // sendNotificationEmail
  // ---------------------------------------------------------------------------

  /** A created document as the mail sees it: its name and its Drive URL. */
  datatype Artifact = Artifact(name: string, url: string)

  /** `'='.repeat(50)`. */
  const Rule := "=================================================="

  const Intro := "音声の自動文字起こしから、以下のSNS投稿案を生成しました。\n\n"
  const FooterNote := "\n以上のファイルをPDFとして添付しました。ご確認ください。\n"
  const Signature := "\n--\nSNS-Rec Bot"
  const Footer := FooterNote + Signature

  /** One line of the artifact listing: a bullet, the name, then the link. */
  function Line(f: Artifact): string {
    "・" + f.name + "\n" + f.url + "\n"
  }

  lemma Regroup(a: string, b: string, c: string)
    ensures a + b + c == a + (b + c)
  {
  }

  /** The lines listing the created files, in order. */
  function Listing(files: seq<Artifact>): string {
    if files == [] then ""
    else Listing(files[..|files| - 1]) + Line(files[|files| - 1])
  }

  /** The quick view's opening: a rule, its title, a rule and a blank line. */
  const QuickViewHead := "\n" + Rule + "\n" + "📋 SNS投稿案（クイックビュー）\n" + Rule + "\n\n"
  /** The quick view's closing: a blank line and a rule. */
  const QuickViewClose := "\n\n" + Rule + "\n"

  /** The quick-view section: present only when there is content (`if (minutesContent)`). */
  function QuickView(content: string): string {
    if content == "" then "" else QuickViewHead + content + QuickViewClose
  }

  /** One PDF attachment per created file, in order, named after it. */
  function Attachments(files: seq<Artifact>): (names: seq<string>)
    ensures |names| == |files|
    ensures forall i :: 0 <= i < |files| ==> names[i] == files[i].name
  {
    if files == [] then [] else Attachments(files[..|files| - 1]) + [files[|files| - 1].name]
  }

  /** The mail `sendNotificationEmail(baseName, files, content)` sends; "" stands for `null`. */
  function NotificationEmail(baseName: string, files: seq<Artifact>, content: string): Email {
    Email("【SNS投稿案生成】" + baseName, Intro + Listing(files) + QuickView(content) + Footer, Attachments(files))
  }

  /**
   * The mail's shape: the subject names the document; one attachment per file, in order;
   * the body is the introduction, then the listing, then the quick view, then the footer,
   * each at its own offset; the quick view is there exactly when there is content, and then
   * quotes the content whole between its opening and its closing.
   */
  lemma NotificationShape(baseName: string, files: seq<Artifact>, content: string)
    ensures var mail := NotificationEmail(baseName, files, content);
      var listed := |Intro| + |Listing(files)|;
      var quoted := listed + |QuickView(content)|;
      && mail.subject == "【SNS投稿案生成】" + baseName
      && |mail.attachments| == |files|
      && (forall i :: 0 <= i < |files| ==> mail.attachments[i] == files[i].name)
      && |mail.body| == quoted + |Footer|
      && mail.body[..|Intro|] == Intro
      && mail.body[|Intro|..listed] == Listing(files)
      && mail.body[listed..quoted] == QuickView(content)
      && mail.body[quoted..] == Footer
      && (content == "" ==> quoted == listed)
      && (content != "" ==> mail.body[listed..quoted] == QuickViewHead + content + QuickViewClose)
      && (content != "" ==> Contains(mail.body, content))
  {
    var mail := NotificationEmail(baseName, files, content);
    Parts(Intro, Listing(files), QuickView(content), Footer);
    if content != "" {
      ContainsWrapped(QuickViewHead, content, QuickViewClose);
      ContainsInSlice(mail.body, |Intro| + |Listing(files)|, |Intro| + |Listing(files)| + |QuickView(content)|, content);
    }
  }

  /** Four strings put end to end: each one is found at its own offset. */
  lemma Parts(a: string, b: string, c: string, e: string)
    ensures var s := a + b + c + e;
      && |s| == |a| + |b| + |c| + |e|
      && s[..|a|] == a
      && s[|a|..|a| + |b|] == b
      && s[|a| + |b|..|a| + |b| + |c|] == c
      && s[|a| + |b| + |c|..] == e
  {
    var s := a + b + c + e;
    assert s == ((a + b) + c) + e;
    assert s[..|a| + |b| + |c|] == (a + b) + c;
    assert s[..|a| + |b|] == a + b;
    assert s[|a| + |b|..|a| + |b| + |c|] == s[..|a| + |b| + |c|][|a| + |b|..];
    assert s[|a|..|a| + |b|] == s[..|a| + |b|][|a|..];
  }

  /**
   * Each file's line sits in the listing right after the lines of the files before it,
   * so the listing names every file, in order.
   */
  lemma {:induction false} ListingLines(files: seq<Artifact>, i: nat)
    requires i < |files|
    ensures |Listing(files[..i])| + |Line(files[i])| <= |Listing(files)|
    ensures Listing(files)[..|Listing(files[..i])|] == Listing(files[..i])
    ensures OccursAt(Listing(files), Line(files[i]), |Listing(files[..i])|)
    decreases |files|
  {
    var last := |files| - 1;
    assert files[..last] + [files[last]] == files;
    if i == last {
      assert Listing(files) == Listing(files[..i]) + Line(files[i]);
    } else {
      var front := files[..last];
      assert front[..i] == files[..i] && front[i] == files[i];
      ListingLines(front, i);
      assert Listing(files) == Listing(front) + Line(files[last]);
      OccursKept(Listing(front), Line(files[i]), |Listing(files[..i])|, Line(files[last]));
    }
  }

  /** The `if (minutesContent)` block of `sendNotificationEmail`, appended piece by piece. */
  method ComposeQuickView(minutesContent: string) returns (quick: string)
    ensures quick == QuickView(minutesContent)
  {
    quick := "";
    if minutesContent != "" {
      quick := quick + "\n" + Rule + "\n";
      assert quick == "\n" + Rule + "\n";
      quick := quick + "📋 SNS投稿案（クイックビュー）\n";
      quick := quick + Rule + "\n\n";
      assert quick == QuickViewHead;
      quick := quick + minutesContent;
      quick := quick + "\n\n" + Rule + "\n";
    }
  }

  /** `sendNotificationEmail`'s assembly: the body built with `+=` and the attachments pushed. */
  method ComposeNotification(baseName: string, files: seq<Artifact>, minutesContent: string) returns (mail: Email)
    ensures mail == NotificationEmail(baseName, files, minutesContent)
  {
    var subject := "【SNS投稿案生成】" + baseName;
    var body := Intro;
    var attachments := [];
    var i := 0;
    while i < |files|
      invariant 0 <= i <= |files|
      invariant body == Intro + Listing(files[..i])
      invariant attachments == Attachments(files[..i])
    {
      assert files[..i + 1][..i] == files[..i];
      var line := "・" + files[i].name + "\n" + files[i].url + "\n";
      Regroup(Intro, Listing(files[..i]), line);
      body := body + line;
      attachments := attachments + [files[i].name];
      i := i + 1;
    }
    assert files[..|files|] == files;
    var quick := ComposeQuickView(minutesContent);
    body := body + quick;
    body := body + FooterNote;
    body := body + Signature;
    Regroup(Intro + Listing(files) + QuickView(minutesContent), FooterNote, Signature);
    assert body == Intro + Listing(files) + QuickView(minutesContent) + Footer;
    mail := Email(subject, body, attachments);
  }

  // ---------------------------------------------------------------------------
  // processDocuments
  // ---------------------------------------------------------------------------

  /** STABILITY_THRESHOLD_MS: a document updated less than 20 minutes ago is left to settle. */
  const StabilityThresholdMs := 20 * 60 * 1000

  /**
   * The Drive and mail services' failures, by staging document: creating its artifact
   * throws, sending its mail throws, or moving it to the archive throws.
   */
  datatype Faults = Faults(createFails: set<string>, mailFails: set<string>, moveFails: set<string>)

  /**
   * What one scan is given: the force flag, the time `Date.now()` reads, the scripted
   * network for each text content, MAX_RETRIES, the URL Drive gives each created
   * document, and the service failures.
   */
  datatype Scan = Scan(
    force: bool,
    now: int,
    respondTo: string -> Oracle,
    maxRetries: int,
    urlOf: string -> string,
    faults: Faults)

  /** One visited document and whether the outer `catch` ended the scan after it. */
  datatype Step = Step(stores: Stores, aborted: bool)

  /** The scan's listing: the staging folder's plain-text files, each once. */
  predicate ListsStaging(d: Stores, listing: seq<string>) {
    && (forall i :: 0 <= i < |listing| ==> listing[i] in d.staging)
    && (forall i, j :: 0 <= i < j < |listing| ==> listing[i] != listing[j])
  }

  /** `file.moveTo(archFolder)` inside its own `try`: a failed move is logged and forgotten. */
  function Archived(d: Stores, name: string, faults: Faults): Stores
    requires name in d.staging
  {
    if name in faults.moveFails then d else d.Move(name, Staging, Archive)
  }

  /** Whether the scan is past the stability check for a document. */
  predicate Settled(file: DriveFile, scan: Scan) {
    scan.force || scan.now - file.lastUpdated >= StabilityThresholdMs
  }

  /** The text generated for a document's content; "" and `null` both count as none. */
  function GeneratedText(content: string, scan: Scan): Option<string> {
    var g := Generate(scan.respondTo(content), scan.maxRetries);
    if g.Some? && g.value != "" then g else None
  }

  /** The mail announcing a document's artifact. */
  function PromotionMail(name: string, text: string, scan: Scan): Email {
    var artifact := ArtifactName(name);
    NotificationEmail(BaseName(name), [Artifact(artifact, scan.urlOf(artifact))], text)
  }

  /** One iteration of the `while (files.hasNext())` loop. */
  function DocStep(d: Stores, name: string, scan: Scan): Step
    requires name in d.staging
  {
    if !IsSessionDocumentName(name) || !Settled(d.staging[name], scan) then
      Step(d, false)
    else if ArtifactName(name) in d.output then
      Step(Archived(d, name, scan.faults), false)
    else
      match GeneratedText(d.staging[name].content, scan)
      case None => Step(d, false)
      case Some(text) =>
        if name in scan.faults.createFails then
          Step(d, true)
        else
          var created := d.Write(Output, ArtifactName(name), text, scan.now);
          if name in scan.faults.mailFails then
            Step(created, true)
          else
            var mailed := created.(outbox := created.outbox + [PromotionMail(name, text, scan)]);
            Step(Archived(mailed, name, scan.faults), false)
  }

  /**
   * What one document's visit may change: only that document can leave staging, and only
   * for the archive, unchanged; its artifact is the only output written; at most one mail,
   * about that artifact, is sent; the voice folder, properties and triggers are untouched.
   */
  predicate StepFrame(d: Stores, r: Stores, name: string, scan: Scan)
    requires name in d.staging
  {
    && (r.staging == d.staging || r.staging == d.staging - {name})
    && (r.archive == d.archive || (r.staging == d.staging - {name} && r.archive == d.archive[name := d.staging[name]]))
    && (r.output == d.output ||
          (ArtifactName(name) in r.output && r.output == d.output[ArtifactName(name) := r.output[ArtifactName(name)]]))
    && (r.outbox == d.outbox ||
          (ArtifactName(name) in r.output && r.outbox == d.outbox + [PromotionMail(name, r.output[ArtifactName(name)].content, scan)]))
    && r.voice == d.voice && r.props == d.props && r.triggers == d.triggers
  }

  lemma DocStepFrame(d: Stores, name: string, scan: Scan)
    requires name in d.staging
    ensures StepFrame(d, DocStep(d, name, scan).stores, name, scan)
  {
    var r := DocStep(d, name, scan).stores;
    if !IsSessionDocumentName(name) || !Settled(d.staging[name], scan) {
      assert r == d;
    } else if ArtifactName(name) in d.output {
      ArchivedFrame(d, d, name, scan);
      assert r == Archived(d, name, scan.faults);
    } else {
      match GeneratedText(d.staging[name].content, scan)
      case None =>
        assert r == d;
      case Some(text) =>
        var created := d.Write(Output, ArtifactName(name), text, scan.now);
        if name in scan.faults.createFails {
          assert r == d;
        } else if name in scan.faults.mailFails {
          CreatedFrame(d, name, text, scan);
          assert r == created;
        } else {
          var mailed := created.(outbox := created.outbox + [PromotionMail(name, text, scan)]);
          CreatedFrame(d, name, text, scan);
          ArchivedFrame(d, mailed, name, scan);
          assert r == Archived(mailed, name, scan.faults);
        }
    }
  }

  /** Writing the artifact, with or without its mail, stays inside the frame. */
  lemma CreatedFrame(d: Stores, name: string, text: string, scan: Scan)
    requires name in d.staging
    ensures var created := d.Write(Output, ArtifactName(name), text, scan.now);
      && StepFrame(d, created, name, scan)
      && StepFrame(d, created.(outbox := created.outbox + [PromotionMail(name, text, scan)]), name, scan)
  {
    OutputWrite(d, ArtifactName(name), text, scan.now);
  }

  /** Archiving after a step inside the frame that left staging alone stays inside the frame. */
  lemma ArchivedFrame(d: Stores, e: Stores, name: string, scan: Scan)
    requires name in d.staging
    requires StepFrame(d, e, name, scan) && e.staging == d.staging && e.archive == d.archive
    ensures StepFrame(d, Archived(e, name, scan.faults), name, scan)
  {
    if name !in scan.faults.moveFails {
      ArchiveMove(e, name);
    }
  }


  /** The stores after the loop visits `listing` in order, stopping at the first abort. */
  function ProcessDocs(d: Stores, listing: seq<string>, scan: Scan): Step
    requires ListsStaging(d, listing)
    decreases |listing|
  {
    if listing == [] then
      Step(d, false)
    else
      var step := DocStep(d, listing[0], scan);
      if step.aborted then
        step
      else
        DocStepFrame(d, listing[0], scan);
        ProcessDocs(step.stores, listing[1..], scan)
  }

  /**
   * What a scan may do: the voice folder, properties and triggers are untouched;
   * staging only loses files; existing artifacts are never rewritten; the mail already
   * sent stays sent, new mail coming after it.
   */
  lemma {:induction false} ProcessDocsFrame(d: Stores, listing: seq<string>, scan: Scan)
    requires ListsStaging(d, listing)
    ensures var r := ProcessDocs(d, listing, scan).stores;
      && r.voice == d.voice && r.props == d.props && r.triggers == d.triggers
      && (forall n :: n in r.staging ==> n in d.staging && r.staging[n] == d.staging[n])
      && (forall a :: a in d.output ==> a in r.output && r.output[a] == d.output[a])
      && |d.outbox| <= |r.outbox| && r.outbox[..|d.outbox|] == d.outbox
    decreases |listing|
  {
    if listing != [] {
      var step := DocStep(d, listing[0], scan);
      DocStepFrame(d, listing[0], scan);
      if !step.aborted {
        ProcessDocsFrame(step.stores, listing[1..], scan);
        var r := ProcessDocs(d, listing, scan).stores;
        assert r.outbox[..|step.stores.outbox|] == step.stores.outbox;
        assert r.outbox[..|d.outbox|] == r.outbox[..|step.stores.outbox|][..|d.outbox|];
      }
    }
  }

  /**
   * No document is lost: every staging document is afterwards still in staging or in the
   * archive, unchanged; and one that left staging is a session document whose artifact
   * now exists in the output folder.
   */
  lemma {:induction false} ProcessDocsLosesNothing(d: Stores, listing: seq<string>, scan: Scan)
    requires ListsStaging(d, listing)
    ensures var r := ProcessDocs(d, listing, scan).stores;
      forall n :: n in d.staging && n !in r.staging ==>
        && n in listing && IsSessionDocumentName(n)
        && n in r.archive && r.archive[n] == d.staging[n]
        && ArtifactName(n) in r.output
    decreases |listing|
  {
    if listing != [] {
      var name := listing[0];
      var step := DocStep(d, name, scan);
      DocStepRemoves(d, name, scan);
      if !step.aborted {
        var r := ProcessDocs(step.stores, listing[1..], scan).stores;
        ProcessDocsLosesNothing(step.stores, listing[1..], scan);
        if name !in step.stores.staging {
          ProcessDocsArchiveKept(step.stores, listing[1..], scan, name);
          ProcessDocsFrame(step.stores, listing[1..], scan);
        }
      }
    }
  }

  /** One document step either leaves staging alone or archives the document after its artifact exists. */
  lemma DocStepRemoves(d: Stores, name: string, scan: Scan)
    requires name in d.staging
    ensures var r := DocStep(d, name, scan).stores;
      || r.staging == d.staging
      || (&& r.staging == d.staging - {name}
          && r.archive == d.archive[name := d.staging[name]]
          && IsSessionDocumentName(name)
          && ArtifactName(name) in r.output)
  {
    DocStepFrame(d, name, scan);
    if DocStep(d, name, scan).stores.staging != d.staging {
      DocStepArchives(d, name, scan);
    }
  }

  /** The archive move's outcome: the document goes, unchanged, to the archive, unless the move throws. */
  predicate MovedOrKept(d: Stores, r: Stores, name: string, faults: Faults)
    requires name in d.staging
  {
    if name in faults.moveFails then r.staging == d.staging && r.archive == d.archive
    else r.staging == d.staging - {name} && r.archive == d.archive[name := d.staging[name]]
  }

  /**
   * What one visit does, case by case. A file that is not a session document, or that was
   * updated within the threshold while `force` is off, is skipped. A document whose
   * artifact exists is only archived. With no text generated ("" or `null`) nothing
   * happens. Otherwise the artifact is created with the text; a throw there, or from the
   * mail, ends the scan; else exactly one mail announces it and the document is archived.
   */
  lemma DocStepOutcome(d: Stores, name: string, scan: Scan)
    requires name in d.staging
    ensures var step := DocStep(d, name, scan);
      var file := d.staging[name];
      var art := ArtifactName(name);
      var g := Generate(scan.respondTo(file.content), scan.maxRetries);
      var ready := IsSessionDocumentName(name) && (scan.force || scan.now - file.lastUpdated >= StabilityThresholdMs);
      && (!ready ==> step == Step(d, false))
      && (ready && art in d.output ==>
            && !step.aborted && step.stores.output == d.output && step.stores.outbox == d.outbox
            && MovedOrKept(d, step.stores, name, scan.faults))
      && (ready && art !in d.output && (g.None? || g.value == "") ==> step == Step(d, false))
      && (ready && art !in d.output && g.Some? && g.value != "" && name in scan.faults.createFails ==>
            step == Step(d, true))
      && (ready && art !in d.output && g.Some? && g.value != "" && name !in scan.faults.createFails ==>
            && step.stores.output == d.output[art := DriveFile(g.value, scan.now)]
            && step.aborted == (name in scan.faults.mailFails)
            && (name in scan.faults.mailFails ==>
                  step.stores.outbox == d.outbox && step.stores.staging == d.staging && step.stores.archive == d.archive)
            && (name !in scan.faults.mailFails ==>
                  step.stores.outbox == d.outbox + [PromotionMail(name, g.value, scan)]
                  && MovedOrKept(d, step.stores, name, scan.faults)))
  {
    var art := ArtifactName(name);
    if IsSessionDocumentName(name) && Settled(d.staging[name], scan) {
      if art in d.output {
        if name !in scan.faults.moveFails {
          ArchiveMove(d, name);
        }
      } else {
        match GeneratedText(d.staging[name].content, scan)
        case None =>
        case Some(text) =>
          if name !in scan.faults.createFails {
            var created := d.Write(Output, art, text, scan.now);
            OutputWrite(d, art, text, scan.now);
            if name !in scan.faults.mailFails && name !in scan.faults.moveFails {
              ArchiveMove(created.(outbox := created.outbox + [PromotionMail(name, text, scan)]), name);
            }
          }
      }
    }
  }

  /**
   * A scan is its first `k` visits followed by the rest, unless one of those visits ended
   * it; the rest is listed in the stores the first visits leave.
   */
  lemma {:induction false} ProcessDocsSplit(d: Stores, listing: seq<string>, scan: Scan, k: nat)
    requires ListsStaging(d, listing) && k <= |listing|
    ensures ListsStaging(d, listing[..k])
    ensures var p := ProcessDocs(d, listing[..k], scan);
      && (p.aborted ==> ProcessDocs(d, listing, scan) == p)
      && (!p.aborted ==> ListsStaging(p.stores, listing[k..]) && ProcessDocs(d, listing, scan) == ProcessDocs(p.stores, listing[k..], scan))
    decreases k
  {
    assert ListsStaging(d, listing[..k]) by {
      assert forall i :: 0 <= i < k ==> listing[..k][i] == listing[i];
    }
    if k == 0 {
      assert listing[..0] == [] && listing[0..] == listing;
    } else {
      var step := DocStep(d, listing[0], scan);
      assert listing[..k][0] == listing[0];
      DocStepFrame(d, listing[0], scan);
      if !step.aborted {
        var rest := listing[1..];
        assert ListsStaging(step.stores, rest);
        ProcessDocsSplit(step.stores, rest, scan, k - 1);
        assert listing[..k][1..] == rest[..k - 1];
        assert rest[k - 1..] == listing[k..];
      }
    }
  }

  /** A scan creates no output under a name that is no listed session document's artifact. */
  lemma {:induction false} ProcessDocsCreatesOnlyArtifacts(d: Stores, listing: seq<string>, scan: Scan, a: string)
    requires ListsStaging(d, listing) && a !in d.output
    requires forall i :: 0 <= i < |listing| && IsSessionDocumentName(listing[i]) ==> ArtifactName(listing[i]) != a
    ensures a !in ProcessDocs(d, listing, scan).stores.output
    decreases |listing|
  {
    if listing != [] {
      var step := DocStep(d, listing[0], scan);
      DocStepFrame(d, listing[0], scan);
      if !IsSessionDocumentName(listing[0]) {
        assert step == Step(d, false);
      }
      if !step.aborted {
        assert forall i :: 0 <= i < |listing[1..]| ==> listing[1..][i] == listing[i + 1];
        ProcessDocsCreatesOnlyArtifacts(step.stores, listing[1..], scan, a);
      }
    }
  }

  /**
   * Promotion across a scan: a listed session document that is ready, has no artifact and
   * gets non-empty text, visited with no earlier visit ending the scan and with no service
   * failing for it, ends with its artifact holding the text, its one mail sent, and itself
   * moved, unchanged, to the archive.
   */
  lemma ProcessDocsPromotes(d: Stores, listing: seq<string>, scan: Scan, k: nat)
    requires ListsStaging(d, listing) && k < |listing|
    requires !ProcessDocs(d, listing[..k], scan).aborted
    requires var n := listing[k];
      && IsSessionDocumentName(n) && ArtifactName(n) !in d.output
      && (scan.force || scan.now - d.staging[n].lastUpdated >= StabilityThresholdMs)
      && n !in scan.faults.createFails && n !in scan.faults.mailFails && n !in scan.faults.moveFails
    requires var g := Generate(scan.respondTo(d.staging[listing[k]].content), scan.maxRetries);
      g.Some? && g.value != ""
    ensures var n := listing[k];
      var text := Generate(scan.respondTo(d.staging[n].content), scan.maxRetries).value;
      var r := ProcessDocs(d, listing, scan).stores;
      && n !in r.staging && n in r.archive && r.archive[n] == d.staging[n]
      && ArtifactName(n) in r.output && r.output[ArtifactName(n)] == DriveFile(text, scan.now)
      && PromotionMail(n, text, scan) in r.outbox
  {
    var n := listing[k];
    ProcessDocsSplit(d, listing, scan, k);
    PromotesPrefix(d, listing, scan, k);
    var p := ProcessDocs(d, listing[..k], scan).stores;
    var text := Generate(scan.respondTo(d.staging[n].content), scan.maxRetries).value;
    DocStepPromotes(p, n, scan, text);
    assert listing[k..][0] == n;
    StepKeepsListed(p, listing[k..], scan);
    PromotedStaysPromoted(DocStep(p, n, scan).stores, listing[k..][1..], scan, n, text);
  }

  /** After visiting the first listed document, the rest of the listing is still listed. */
  lemma StepKeepsListed(d: Stores, listing: seq<string>, scan: Scan)
    requires ListsStaging(d, listing) && listing != []
    ensures ListsStaging(DocStep(d, listing[0], scan).stores, listing[1..])
  {
    DocStepFrame(d, listing[0], scan);
  }

  /** One visit that promotes a document, with the rest of the listing still listed afterwards. */
  lemma DocStepPromotes(p: Stores, n: string, scan: Scan, text: string)
    requires n in p.staging && IsSessionDocumentName(n) && ArtifactName(n) !in p.output
    requires scan.force || scan.now - p.staging[n].lastUpdated >= StabilityThresholdMs
    requires n !in scan.faults.createFails && n !in scan.faults.mailFails && n !in scan.faults.moveFails
    requires var g := Generate(scan.respondTo(p.staging[n].content), scan.maxRetries);
      g.Some? && g.value == text && text != ""
    ensures var step := DocStep(p, n, scan);
      && !step.aborted && StepFrame(p, step.stores, n, scan)
      && n !in step.stores.staging && n in step.stores.archive && step.stores.archive[n] == p.staging[n]
      && ArtifactName(n) in step.stores.output && step.stores.output[ArtifactName(n)] == DriveFile(text, scan.now)
      && PromotionMail(n, text, scan) in step.stores.outbox
  {
    DocStepOutcome(p, n, scan);
    DocStepFrame(p, n, scan);
    var step := DocStep(p, n, scan);
    assert step.stores.outbox[|p.outbox|] == PromotionMail(n, text, scan);
  }

  /** Before its visit, a document is still in staging as it was and its artifact is still absent. */
  lemma PromotesPrefix(d: Stores, listing: seq<string>, scan: Scan, k: nat)
    requires ListsStaging(d, listing) && k < |listing|
    requires IsSessionDocumentName(listing[k]) && ArtifactName(listing[k]) !in d.output
    ensures var p := ProcessDocs(d, listing[..k], scan).stores;
      && listing[k] in p.staging && p.staging[listing[k]] == d.staging[listing[k]]
      && ArtifactName(listing[k]) !in p.output
  {
    var n := listing[k];
    var art := ArtifactName(n);
    assert ListsStaging(d, listing[..k]) by {
      assert forall i :: 0 <= i < k ==> listing[..k][i] == listing[i];
    }
    assert n !in listing[..k];
    ProcessDocsLosesNothing(d, listing[..k], scan);
    ProcessDocsFrame(d, listing[..k], scan);
    forall i | 0 <= i < k && IsSessionDocumentName(listing[..k][i])
      ensures ArtifactName(listing[..k][i]) != art
    {
      ArtifactNamesDistinct(listing[i], n);
    }
    ProcessDocsCreatesOnlyArtifacts(d, listing[..k], scan, art);
  }

  /** The rest of a scan keeps a promoted document archived, its artifact and its mail. */
  lemma PromotedStaysPromoted(first: Stores, rest: seq<string>, scan: Scan, n: string, text: string)
    requires ListsStaging(first, rest) && n !in first.staging && n in first.archive
    requires ArtifactName(n) in first.output && PromotionMail(n, text, scan) in first.outbox
    ensures var r := ProcessDocs(first, rest, scan).stores;
      && n !in r.staging && n in r.archive && r.archive[n] == first.archive[n]
      && ArtifactName(n) in r.output && r.output[ArtifactName(n)] == first.output[ArtifactName(n)]
      && PromotionMail(n, text, scan) in r.outbox
  {
    ProcessDocsFrame(first, rest, scan);
    ProcessDocsArchiveKept(first, rest, scan, n);
    var r := ProcessDocs(first, rest, scan).stores;
    var m :| 0 <= m < |first.outbox| && first.outbox[m] == PromotionMail(n, text, scan);
    assert r.outbox[m] == r.outbox[..|first.outbox|][m];
  }

  /**
   * A visit that throws from creating the artifact or sending the mail ends the scan: its
   * result is the scan's result, and every document listed after it stays in staging untouched.
   */
  lemma ProcessDocsAbortEndsScan(d: Stores, listing: seq<string>, scan: Scan, k: nat)
    requires ListsStaging(d, listing) && k < |listing|
    requires var p := ProcessDocs(d, listing[..k], scan);
      !p.aborted && listing[k] in p.stores.staging && DocStep(p.stores, listing[k], scan).aborted
    ensures var result := ProcessDocs(d, listing, scan);
      && result == DocStep(ProcessDocs(d, listing[..k], scan).stores, listing[k], scan)
      && result.aborted
      && forall j :: k < j < |listing| ==> listing[j] in result.stores.staging && result.stores.staging[listing[j]] == d.staging[listing[j]]
  {
    ProcessDocsSplit(d, listing, scan, k);
    var p := ProcessDocs(d, listing[..k], scan).stores;
    assert listing[k..][0] == listing[k];
    ProcessDocsLosesNothing(d, listing[..k], scan);
    ProcessDocsFrame(d, listing[..k], scan);
    DocStepFrame(p, listing[k], scan);
    forall j | k < j < |listing|
      ensures listing[j] in ProcessDocs(d, listing, scan).stores.staging
      ensures ProcessDocs(d, listing, scan).stores.staging[listing[j]] == d.staging[listing[j]]
    {
      assert listing[j] !in listing[..k] && listing[j] != listing[k];
    }
  }

  /** A file in the archive that is not in staging is never overwritten by the scan. */
  lemma {:induction false} ProcessDocsArchiveKept(d: Stores, listing: seq<string>, scan: Scan, n: string)
    requires ListsStaging(d, listing)
    requires n in d.archive && n !in d.staging
    ensures var r := ProcessDocs(d, listing, scan).stores;
      n in r.archive && r.archive[n] == d.archive[n]
    decreases |listing|
  {
    if listing != [] {
      var step := DocStep(d, listing[0], scan);
      DocStepFrame(d, listing[0], scan);
      if !step.aborted {
        ProcessDocsArchiveKept(step.stores, listing[1..], scan, n);
      }
    }
  }

  /** A step moves its document out of staging only once the document's artifact exists. */
  lemma DocStepArchives(d: Stores, name: string, scan: Scan)
    requires name in d.staging
    requires name !in DocStep(d, name, scan).stores.staging
    ensures IsSessionDocumentName(name)
    ensures ArtifactName(name) in DocStep(d, name, scan).stores.output
  {
    DocStepFrame(d, name, scan);
    if IsSessionDocumentName(name) && Settled(d.staging[name], scan) && ArtifactName(name) !in d.output {
      match GeneratedText(d.staging[name].content, scan)
      case None =>
      case Some(text) =>
        OutputWrite(d, ArtifactName(name), text, scan.now);
    }
  }

  /**
   * A scan over documents whose artifacts all exist creates nothing and mails nothing:
   * it only archives, so running the scan again after a clean run regenerates nothing.
   */
  lemma {:induction false} ProcessDocsNoRegeneration(d: Stores, listing: seq<string>, scan: Scan)
    requires ListsStaging(d, listing)
    requires forall i :: 0 <= i < |listing| && IsSessionDocumentName(listing[i]) ==> ArtifactName(listing[i]) in d.output
    ensures var result := ProcessDocs(d, listing, scan);
      !result.aborted && result.stores.output == d.output && result.stores.outbox == d.outbox
    ensures var r := ProcessDocs(d, listing, scan).stores;
      forall i :: 0 <= i < |listing| && Ready(d, listing[i], scan) && listing[i] !in scan.faults.moveFails ==>
        listing[i] !in r.staging && listing[i] in r.archive && r.archive[listing[i]] == d.staging[listing[i]]
    decreases |listing|
  {
    ProcessDocsArchivesDone(d, listing, scan);
    if listing != [] {
      var step := DocStep(d, listing[0], scan);
      ArchiveMove(d, listing[0]);
      assert step.stores.output == d.output && step.stores.outbox == d.outbox && !step.aborted;
      DocStepFrame(d, listing[0], scan);
      assert forall i :: 0 <= i < |listing[1..]| ==> listing[1..][i] == listing[i + 1];
      ProcessDocsNoRegeneration(step.stores, listing[1..], scan);
    }
  }

  /** A session document the scan will act on: without `force`, only one left alone for 20 minutes. */
  predicate Ready(d: Stores, n: string, scan: Scan)
    requires n in d.staging
  {
    IsSessionDocumentName(n) && (scan.force || scan.now - d.staging[n].lastUpdated >= StabilityThresholdMs)
  }

  /** When every artifact exists, each ready document whose move succeeds ends in the archive, unchanged. */
  lemma {:induction false} ProcessDocsArchivesDone(d: Stores, listing: seq<string>, scan: Scan)
    requires ListsStaging(d, listing)
    requires forall i :: 0 <= i < |listing| && IsSessionDocumentName(listing[i]) ==> ArtifactName(listing[i]) in d.output
    ensures var r := ProcessDocs(d, listing, scan).stores;
      forall i :: 0 <= i < |listing| && Ready(d, listing[i], scan) && listing[i] !in scan.faults.moveFails ==>
        listing[i] !in r.staging && listing[i] in r.archive && r.archive[listing[i]] == d.staging[listing[i]]
    decreases |listing|
  {
    if listing != [] {
      var n := listing[0];
      var step := DocStep(d, n, scan);
      DocStepOutcome(d, n, scan);
      DocStepFrame(d, n, scan);
      var rest := listing[1..];
      assert forall i :: 0 <= i < |rest| ==> rest[i] == listing[i + 1];
      assert !step.aborted;
      ProcessDocsArchivesDone(step.stores, rest, scan);
      var r := ProcessDocs(d, listing, scan).stores;
      if Ready(d, n, scan) && n !in scan.faults.moveFails {
        ProcessDocsArchiveKept(step.stores, rest, scan, n);
        ProcessDocsFrame(step.stores, rest, scan);
      }
      forall i | 1 <= i < |listing| && Ready(d, listing[i], scan) && listing[i] !in scan.faults.moveFails
        ensures listing[i] !in r.staging && listing[i] in r.archive && r.archive[listing[i]] == d.staging[listing[i]]
      {
        assert rest[i - 1] == listing[i] && listing[i] != n;
        assert Ready(step.stores, rest[i - 1], scan);
      }
    }
  }

  /**
   * Without `force`, a document updated within the last 20 minutes is left where it is,
   * unchanged, and no artifact is created or removed for it.
   */
  lemma {:induction false} ProcessDocsWaitsForStability(d: Stores, listing: seq<string>, scan: Scan, n: string)
    requires ListsStaging(d, listing)
    requires !scan.force && n in d.staging && scan.now - d.staging[n].lastUpdated < StabilityThresholdMs
    ensures var r := ProcessDocs(d, listing, scan).stores;
      && n in r.staging && r.staging[n] == d.staging[n]
      && (IsSessionDocumentName(n) ==> (ArtifactName(n) in r.output <==> ArtifactName(n) in d.output))
    decreases |listing|
  {
    if listing != [] {
      var m := listing[0];
      var step := DocStep(d, m, scan);
      DocStepFrame(d, m, scan);
      if m == n {
        assert step.stores == d;
      } else if IsSessionDocumentName(n) && IsSessionDocumentName(m) {
        ArtifactNamesDistinct(m, n);
      }
      if !step.aborted {
        ProcessDocsWaitsForStability(step.stores, listing[1..], scan, n);
      }
    }
  }

  /** The archive move of `processDocuments`, with its own `try`. */
  method ArchiveSource(ws: Workspace, name: string, faults: Faults)
    requires name in ws.State().staging
    modifies ws
    ensures ws.State() == Archived(old(ws.State()), name, faults)
  {
    if name !in faults.moveFails {
      ws.Move(name, Staging, Archive);
    }
  }

  /**
   * The body of the `while (files.hasNext())` loop for one staging file; `aborted` is set
   * when creating the artifact or sending its mail throws, which ends the whole scan.
   */
  method ProcessDocument(ws: Workspace, fileName: string, scan: Scan) returns (aborted: bool)
    requires fileName in ws.State().staging
    modifies ws
    ensures Step(ws.State(), aborted) == DocStep(old(ws.State()), fileName, scan)
  {
    aborted := false;
    if !IsSessionDocumentName(fileName) {
      return;
    }
    var file := ws.staging[fileName];
    if !scan.force && scan.now - file.lastUpdated < StabilityThresholdMs {
      return;
    }
    var baseName := BaseName(fileName);
    var snsPostName := "【SNS投稿案】" + baseName;
    if snsPostName in ws.output {
      ArchiveSource(ws, fileName, scan.faults);
      return;
    }
    var snsPostContent, _ := CallGeminiForMinutes(scan.respondTo(file.content), scan.maxRetries);
    if snsPostContent.Some? && snsPostContent.value != "" {
      if fileName in scan.faults.createFails {
        return true;
      }
      ws.Write(Output, snsPostName, snsPostContent.value, scan.now);
      if fileName in scan.faults.mailFails {
        return true;
      }
      var mail := ComposeNotification(baseName, [Artifact(snsPostName, scan.urlOf(snsPostName))], snsPostContent.value);
      ws.Send(mail);
      ArchiveSource(ws, fileName, scan.faults);
    }
  }

  /**
   * `processDocuments(force)`: visits the staging folder's plain-text files in `listing`
   * order; returns whether the outer `catch` ended the scan early.
   */
  method ProcessDocuments(ws: Workspace, listing: seq<string>, scan: Scan) returns (aborted: bool)
    requires ListsStaging(ws.State(), listing)
    modifies ws
    ensures Step(ws.State(), aborted) == ProcessDocs(old(ws.State()), listing, scan)
  {
    var i := 0;
    while i < |listing|
      invariant 0 <= i <= |listing|
      invariant ListsStaging(ws.State(), listing[i..])
      invariant ProcessDocs(ws.State(), listing[i..], scan) == ProcessDocs(old(ws.State()), listing, scan)
    {
      ghost var before := ws.State();
      assert listing[i..][1..] == listing[i + 1..];
      DocStepFrame(before, listing[i], scan);
      aborted := ProcessDocument(ws, listing[i], scan);
      if aborted {
        return;
      }
      i := i + 1;
    }
    aborted := false;
  }

  // ---------------------------------------------------------------------------
  // doPost and executeAsyncTasks
  // ---------------------------------------------------------------------------

  /**
   * A POST body as `JSON.parse` reads it. Only string fields are modelled: a field that is
   * absent or not a string is `None`.
   */
  datatype Request =
    | Unparsable(error: string) // `JSON.parse` threw; `error` is the error's `toString()`
    | Post(action: Option<string>, fileName: Option<string>, fileData: Option<string>)

  /** The JSON the web app answers with. */
  datatype Response =
    | Uploaded(fileName: string) // status 'success', message 'Upload successful', the new file's id
    | Accepted                   // status 'success', the background run is scheduled
    | Failed(message: string)    // status 'error'

  const UploadAction := "upload_chunk"
  const MissingFieldError := "Error: Missing fileName or fileData"

  /** A response and the stores after the request. */
  datatype Handled = Handled(response: Response, stores: Stores)

  /** `doPost(e)` on the stores `d` at time `now`. */
  function HandlePost(d: Stores, request: Request, now: int): Handled {
    match request
    case Unparsable(error) => Handled(Failed(error), d)
    case Post(action, fileName, fileData) =>
      if action == Some(UploadAction) then
        if fileName.None? || fileName.value == "" || fileData.None? || fileData.value == "" then
          Handled(Failed(MissingFieldError), d)
        else
          Handled(Uploaded(fileName.value), d.Write(Voice, fileName.value, fileData.value, now))
      else
        Handled(Accepted, d.(triggers := d.triggers + 1))
  }

  /**
   * An upload succeeds exactly when both fields are present and non-empty, whatever the
   * name looks like; it then stores the data under that name in the voice folder and
   * changes nothing else. A failed upload changes nothing.
   */
  lemma UploadContract(d: Stores, fileName: Option<string>, fileData: Option<string>, now: int)
    ensures var h := HandlePost(d, Post(Some(UploadAction), fileName, fileData), now);
      && (h.response.Uploaded? <==> fileName.Some? && fileName.value != "" && fileData.Some? && fileData.value != "")
      && (h.response.Uploaded? ==>
            && h.response.fileName == fileName.value
            && h.stores.voice == d.voice[fileName.value := DriveFile(fileData.value, now)]
            && h.stores.(voice := d.voice) == d)
      && (!h.response.Uploaded? ==> h.response == Failed(MissingFieldError) && h.stores == d)
  {
  }

  /**
   * No request removes or rewrites a staged, archived or generated file, or sends mail; only
   * a request that is not an upload schedules the background run, and exactly once.
   */
  lemma PostFrame(d: Stores, request: Request, now: int)
    ensures var h := HandlePost(d, request, now);
      && h.stores.staging == d.staging && h.stores.archive == d.archive && h.stores.output == d.output
      && h.stores.outbox == d.outbox && h.stores.props == d.props
      && (forall n :: n in d.voice ==> n in h.stores.voice)
      && h.stores.triggers == d.triggers + (if h.response.Accepted? then 1 else 0)
      && (h.response.Accepted? <==> request.Post? && request.action != Some(UploadAction))
  {
  }

  /** `doPost`: store an uploaded chunk, or schedule `executeAsyncTasks` and return at once. */
  method DoPost(ws: Workspace, request: Request, now: int) returns (response: Response)
    modifies ws
    ensures Handled(response, ws.State()) == HandlePost(old(ws.State()), request, now)
  {
    match request
    case Unparsable(error) =>
      response := Failed(error);
    case Post(action, fileName, fileData) =>
      if action == Some(UploadAction) {
        if fileName.None? || fileName.value == "" || fileData.None? || fileData.value == "" {
          return Failed(MissingFieldError);
        }
        ws.Write(Voice, fileName.value, fileData.value, now);
        response := Uploaded(fileName.value);
      } else {
        ws.ScheduleTrigger();
        response := Accepted;
      }
  }

  /** The background run: the voice scan, then a forced document scan over what it left. */
  function AsyncTasks(
    d: Stores,
    voiceListing: seq<string>, transcribe: string -> Oracle, clockAt: string -> Clock,
    docListing: seq<string>, scan: Scan): Step
    requires ListsStaging(Transcription.ProcessVoice(d, voiceListing, transcribe, scan.maxRetries, clockAt), docListing)
  {
    ProcessDocs(Transcription.ProcessVoice(d, voiceListing, transcribe, scan.maxRetries, clockAt), docListing, scan.(force := true))
  }

  /**
   * The background run trashes exactly the chunks it transcribed and saved; no staged text
   * is lost (each is still staged or archived, and archived only with its artifact);
   * existing artifacts and mail stay, and the properties are those the voice scan left.
   */
  lemma AsyncTasksEffect(
    d: Stores,
    voiceListing: seq<string>, transcribe: string -> Oracle, clockAt: string -> Clock,
    docListing: seq<string>, scan: Scan)
    requires ListsStaging(Transcription.ProcessVoice(d, voiceListing, transcribe, scan.maxRetries, clockAt), docListing)
    ensures var mid := Transcription.ProcessVoice(d, voiceListing, transcribe, scan.maxRetries, clockAt);
      var r := AsyncTasks(d, voiceListing, transcribe, clockAt, docListing, scan).stores;
      && r.voice == d.voice - Transcription.SavedNames(voiceListing, transcribe, scan.maxRetries)
      && (forall a :: a in d.output ==> a in r.output && r.output[a] == d.output[a])
      && |d.outbox| <= |r.outbox| && r.outbox[..|d.outbox|] == d.outbox
      && (forall n :: n in mid.staging && n !in r.staging ==>
            n in r.archive && r.archive[n] == mid.staging[n] && ArtifactName(n) in r.output)
  {
    var mid := Transcription.ProcessVoice(d, voiceListing, transcribe, scan.maxRetries, clockAt);
    Transcription.ProcessVoiceTrashesOnlySaved(d, voiceListing, transcribe, scan.maxRetries, clockAt);
    ProcessDocsFrame(mid, docListing, scan.(force := true));
    ProcessDocsLosesNothing(mid, docListing, scan.(force := true));
  }

  /** `executeAsyncTasks`: `processVoiceFiles()` then `processDocuments(true)`. */
  method ExecuteAsyncTasks(
    ws: Workspace,
    voiceListing: seq<string>, transcribe: string -> Oracle, clockAt: string -> Clock,
    docListing: seq<string>, scan: Scan)
    requires ListsStaging(Transcription.ProcessVoice(ws.State(), voiceListing, transcribe, scan.maxRetries, clockAt), docListing)
    modifies ws
    ensures ws.State() == AsyncTasks(old(ws.State()), voiceListing, transcribe, clockAt, docListing, scan).stores
  {
    var _ := Transcription.ProcessVoiceFiles(ws, voiceListing, transcribe, scan.maxRetries, clockAt);
    var _ := ProcessDocuments(ws, docListing, scan.(force := true));
  }
}
