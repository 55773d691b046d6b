/**
 * The server-side stores the Apps Script code works on: four Drive folders (voice
 * uploads, staging text, archive, generated documents), the script property store,
 * the mail sent and the background triggers scheduled. A folder maps a file name to
 * the file's content and last-updated time.
 */
module Drive {

  datatype DriveFile = DriveFile(content: string, lastUpdated: int)

  type Folder = map<string, DriveFile>

  /** VOICE_FOLDER_ID, TXT_FOLDER_ID, ARCH_FOLDER_ID and DOC_FOLDER_ID. */
  datatype FolderId = Voice | Staging | Archive | Output

  /** One reading of `new Date()`: epoch milliseconds and the two locale renderings used in text. */
  datatype Clock = Clock(ms: int, timeText: string, dateTimeText: string)

  datatype Email = Email(subject: string, body: string, attachments: seq<string>)

  datatype Stores = Stores(
    voice: Folder,
    staging: Folder,
    archive: Folder,
    output: Folder,
    props: map<string, string>,
    outbox: seq<Email>,
    triggers: nat)
  {
    function Folder(id: FolderId): Folder {
      match id
      case Voice => voice
      case Staging => staging
      case Archive => archive
      case Output => output
    }

    function WithFolder(id: FolderId, f: Folder): (s: Stores)
      ensures s.Folder(id) == f
      ensures forall other :: other != id ==> s.Folder(other) == Folder(other)
      ensures s.props == props && s.outbox == outbox && s.triggers == triggers
    {
      match id
      case Voice => this.(voice := f)
      case Staging => this.(staging := f)
      case Archive => this.(archive := f)
      case Output => this.(output := f)
    }

    /** `folder.createFile(name, content)` or `file.setContent(content)`, stamped `now`. */
    function Write(id: FolderId, name: string, content: string, now: int): Stores {
      WithFolder(id, Folder(id)[name := DriveFile(content, now)])
    }

    /** `file.moveTo(to)`: the file leaves `from` and appears in `to` unchanged. */
    function Move(name: string, from: FolderId, to: FolderId): Stores
      requires name in Folder(from) && from != to
    {
      var file := Folder(from)[name];
      WithFolder(from, Folder(from) - {name}).WithFolder(to, Folder(to)[name := file])
    }
  }

  /** Archiving a staging file, field by field. */
  lemma ArchiveMove(d: Stores, name: string)
    requires name in d.staging
    ensures d.Move(name, Staging, Archive) ==
      d.(staging := d.staging - {name}, archive := d.archive[name := d.staging[name]])
  {
  }

  /** Writing to the staging folder, field by field. */
  lemma StagingWrite(d: Stores, name: string, content: string, now: int)
    ensures d.Write(Staging, name, content, now) == d.(staging := d.staging[name := DriveFile(content, now)])
  {
  }

  /** Writing to the output folder, field by field. */
  lemma OutputWrite(d: Stores, name: string, content: string, now: int)
    ensures d.Write(Output, name, content, now) == d.(output := d.output[name := DriveFile(content, now)])
  {
  }

  /** The live stores, updated in place by the Apps Script services. */
  class Workspace {
    var voice: Folder
    var staging: Folder
    var archive: Folder
    var output: Folder
    var props: map<string, string>
    var outbox: seq<Email>
    var triggers: nat

    function State(): Stores
      reads this
    {
      Stores(voice, staging, archive, output, props, outbox, triggers)
    }

    constructor (initial: Stores)
      ensures State() == initial
    {
      voice, staging, archive, output := initial.voice, initial.staging, initial.archive, initial.output;
      props, outbox, triggers := initial.props, initial.outbox, initial.triggers;
    }

    method SetFolder(id: FolderId, f: Folder)
      modifies this
      ensures State() == old(State()).WithFolder(id, f)
    {
      match id
      case Voice => voice := f;
      case Staging => staging := f;
      case Archive => archive := f;
      case Output => output := f;
    }

    /** `createFile` / `setContent`: the named file now holds `content`, updated at `now`. */
    method Write(id: FolderId, name: string, content: string, now: int)
      modifies this
      ensures State() == old(State()).Write(id, name, content, now)
    {
      SetFolder(id, State().Folder(id)[name := DriveFile(content, now)]);
    }

    /** `file.moveTo(folder)`. */
    method Move(name: string, from: FolderId, to: FolderId)
      requires name in State().Folder(from) && from != to
      modifies this
      ensures State() == old(State()).Move(name, from, to)
    {
      var file := State().Folder(from)[name];
      SetFolder(from, State().Folder(from) - {name});
      SetFolder(to, State().Folder(to)[name := file]);
    }

    /** `file.setTrashed(true)` on an uploaded chunk. */
    method Trash(name: string)
      modifies this
      ensures State() == old(State()).(voice := old(voice) - {name})
    {
      voice := voice - {name};
    }

    /** `props.setProperty(key, value)`. */
    method SetProperty(key: string, value: string)
      modifies this
      ensures State() == old(State()).(props := old(props)[key := value])
    {
      props := props[key := value];
    }

    /** `MailApp.sendEmail`. */
    method Send(mail: Email)
      modifies this
      ensures State() == old(State()).(outbox := old(outbox) + [mail])
    {
      outbox := outbox + [mail];
    }

    /** `ScriptApp.newTrigger('executeAsyncTasks')...create()`. */
    method ScheduleTrigger()
      modifies this
      ensures State() == old(State()).(triggers := old(triggers) + 1)
    {
      triggers := triggers + 1;
    }
  }
}
