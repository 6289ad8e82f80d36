/** The project record and the project-level operations of the main window
    (`cgt/CrystalGrowthTrackerMain.py`). `CGTProject` is a dictionary with a fixed set of
    keys in the source; here its contents are a record with one field per key, held by an
    object whose methods update it in place. File-system effects, dialogs and the clock are
    inputs: whether the project path exists, whether creating the directory, copying the
    videos and writing the notes file succeed, and the time stamp, host, address, operating-system name and user. */
module Project {
  import opened Wrappers
  import opened Text
  import opened Paths

  /** A dictionary value: Python's `None`, a string, an integer, a path, or the results
      store (which is not part of this model and is named by a number). */
  datatype Value = NoneValue | Str(s: string) | Int(i: int) | PathValue(p: Path) | ResultsStore(id: nat)

  /** The project dictionary, one field per key. "proj_full_path" is the one key the
      constructor does not create; `None` stands for its absence. */
  datatype Entries = Entries(
    prog: Value, description: Value, startDatetime: Value, host: Value, ipAddress: Value,
    operatingSystem: Value, source: Value, processed: Value, projDir: Value, projName: Value,
    notes: Value, frameRate: Value, resolution: Value, resolutionUnits: Value, results: Value,
    sourcePath: Value, sourceNoPath: Value, sourceNoExtension: Value, processedPath: Value,
    processedNoPath: Value, processedNoExtension: Value, startUser: Value,
    projFullPath: Option<Value>)

  const ProgName := "CGT"
  const ProgDescription := "Semi-automatically tracks the growth of crystals from X-ray videos."

  /** Every key of the constructor holding `None`. */
  const AllNone := Entries(
    NoneValue, NoneValue, NoneValue, NoneValue, NoneValue, NoneValue, NoneValue, NoneValue,
    NoneValue, NoneValue, NoneValue, NoneValue, NoneValue, NoneValue, NoneValue, NoneValue,
    NoneValue, NoneValue, NoneValue, NoneValue, NoneValue, NoneValue, None)

  /** The dictionary `CGTProject()` builds: every key `None`, then frame rate 8, resolution 10
      and units "microns" assigned over the earlier `None`s. */
  function DefaultEntries(): Entries {
    AllNone.(frameRate := Int(8), resolution := Int(10), resolutionUnits := Str("microns"))
  }

  /** A fresh project has frame rate 8, resolution 10 and units "microns", no full path,
      and `None` for every other key. */
  lemma DefaultEntriesShape()
    ensures var e := DefaultEntries();
            && e.frameRate == Int(8) && e.resolution == Int(10) && e.resolutionUnits == Str("microns")
            && e.projFullPath.None?
            && e.(frameRate := NoneValue, resolution := NoneValue, resolutionUnits := NoneValue) == AllNone
  {
  }

  /** `init_new_project` on top of `e`: program name and description, start time, host,
      address, operating system and user. */
  function NewProjectEntries(e: Entries, timestamp: string, host: string, ip: string,
                             os: string, user: string): Entries
  {
    e.(prog := Str(ProgName), description := Str(ProgDescription), startDatetime := Str(timestamp),
       host := Str(host), ipAddress := Str(ip), operatingSystem := Str(os),
       startUser := Str(user))
  }

  /** `init_new_project` sets the program name, description, start, host, address, operating
      system and user, and leaves every other key, the measurement settings among them, as it was. */
  lemma NewProjectKeepsOthers(e: Entries, timestamp: string, host: string, ip: string, os: string, user: string)
    ensures var r := NewProjectEntries(e, timestamp, host, ip, os, user);
            && r.prog == Str(ProgName) && r.description == Str(ProgDescription)
            && r.startDatetime == Str(timestamp) && r.host == Str(host) && r.ipAddress == Str(ip)
            && r.operatingSystem == Str(os) && r.startUser == Str(user)
            && r.frameRate == e.frameRate && r.resolution == e.resolution && r.resolutionUnits == e.resolutionUnits
            && r.(prog := e.prog, description := e.description, startDatetime := e.startDatetime, host := e.host,
                  ipAddress := e.ipAddress, operatingSystem := e.operatingSystem, startUser := e.startUser) == e
  {
  }

  /** A new project, before `start_project` fills it: the program identity, start time, host,
      address, operating system and user; the default measurement settings; no full path;
      and `None` for everything else. */
  lemma NewProjectShape(timestamp: string, host: string, ip: string, os: string, user: string)
    ensures var e := NewProjectEntries(DefaultEntries(), timestamp, host, ip, os, user);
            && e.prog == Str(ProgName) && e.description == Str(ProgDescription)
            && e.startDatetime == Str(timestamp) && e.host == Str(host) && e.ipAddress == Str(ip)
            && e.operatingSystem == Str(os) && e.startUser == Str(user)
            && e.frameRate == Int(8) && e.resolution == Int(10) && e.resolutionUnits == Str("microns")
            && e.projFullPath.None?
            && e.(prog := NoneValue, description := NoneValue, startDatetime := NoneValue, host := NoneValue,
                  ipAddress := NoneValue, operatingSystem := NoneValue, startUser := NoneValue,
                  frameRate := NoneValue, resolution := NoneValue, resolutionUnits := NoneValue) == AllNone
  {
  }

  /** The notes rule of `start_project`: notes given, not all whitespace, and not empty. */
  predicate NotesRecorded(notes: Option<string>) {
    notes.Some? && !IsSpace(notes.value) && |notes.value| > 0
  }

  /** Notes are recorded exactly when there are notes with at least one non-whitespace character. */
  lemma NotesRule(notes: Option<string>)
    ensures NotesRecorded(notes) <==>
              notes.Some? && exists i :: 0 <= i < |notes.value| && !IsWhitespace(notes.value[i])
  {
  }

  /** `get_selected_region`: no region when there are none or the index is negative, else
      the region at the index. */
  function SelectedRegion<R>(regions: seq<R>, index: int): (r: Option<R>)
    requires |regions| >= 1 && index >= 0 ==> index < |regions|
    ensures r.None? <==> |regions| < 1 || index < 0
    ensures r.Some? ==> r.value == regions[index] && r.value in regions
  {
    if |regions| < 1 || index < 0 then None else Some(regions[index])
  }

  /** The window title `set_title` composes from the translated program name and the project
      name, `None` when there is no project. A project whose name is not a string makes the
      concatenation fail, and no title results. */
  function WindowTitle(translatedName: string, projName: Option<Value>): (title: Option<string>)
    ensures projName.None? ==> title == Some(translatedName + " - " + "No project")
    ensures projName.Some? && projName.value.Str? ==> title == Some(translatedName + " - " + projName.value.s)
    ensures projName.Some? && !projName.value.Str? ==> title.None?
  {
    var name := if projName.None? then Str("No project") else projName.value;
    if name.Str? then Some(translatedName + " - " + name.s) else None
  }

  /** What `start_project` does not decide itself: the file system, the clock, and the host,
      address and operating-system name that `cgt.utils.find_hostname_and_ip` returns
      (`cgt.utils` is not part of this model). */
  datatype StartEnvironment = StartEnvironment(
    pathExists: bool, mkdirOk: bool, copySourceOk: bool, copyProcessedOk: bool, notesWriteOk: bool,
    timestamp: string, host: string, ip: string, os: string, user: string)

  /** Message boxes shown to the user. */
  datatype Message = ProjectExists(name: string) | CannotCreateProject | CopyProblem | NotesFileProblem

  // The steps of a successful `start_project`, in the order the source takes them.

  /** The project's name, parent directory and full path `proj_dir / proj_name`. */
  function NameEntries(e: Entries, projDir: Path, projName: string): Entries {
    e.(projName := Str(projName), projDir := PathValue(projDir),
       projFullPath := Some(PathValue(JoinPath(projDir, projName))))
  }

  /** The videos: copied into the project directory (recorded only when the copy succeeds)
      or referenced where they are. */
  function VideoEntries(e: Entries, path: Path, source: Path, processed: Option<Path>,
                        copyFiles: bool, copySourceOk: bool, copyProcessedOk: bool): Entries
  {
    if copyFiles then
      var e1 := if copySourceOk then e.(source := PathValue(JoinPath(path, Name(source)))) else e;
      if processed.Some? && copyProcessedOk then e1.(processed := PathValue(JoinPath(path, Name(processed.value)))) else e1
    else
      var e1 := e.(source := PathValue(source));
      if processed.Some? then e1.(processed := PathValue(processed.value)) else e1
  }

  /** A warning for each failed copy. */
  function VideoMessages(processed: Option<Path>, copyFiles: bool, env: StartEnvironment): seq<Message> {
    if copyFiles then
      (if env.copySourceOk then [] else [CopyProblem])
      + (if processed.Some? && !env.copyProcessedOk then [CopyProblem] else [])
    else []
  }

  /** The notes, when they are recorded at all. */
  function NotesEntries(e: Entries, notes: Option<string>): Entries {
    if NotesRecorded(notes) then e.(notes := Str(notes.value)) else e
  }

  /** The warning for a notes file that could not be written. */
  function NotesMessages(notes: Option<string>, env: StartEnvironment): seq<Message> {
    if NotesRecorded(notes) && !env.notesWriteOk then [NotesFileProblem] else []
  }

  /** The video file names: directory, name and name without extension. */
  function FileNameEntries(e: Entries, source: Path, processed: Option<Path>): Entries {
    var e1 := e.(sourcePath := PathValue(Parent(source)), sourceNoPath := Str(Name(source)),
                 sourceNoExtension := Str(Stem(source)));
    if processed.Some? then
      e1.(processedPath := PathValue(Parent(processed.value)), processedNoPath := Str(Name(processed.value)),
          processedNoExtension := Str(Stem(processed.value)))
    else e1
  }

  /** The fixed measurement settings a started project gets. */
  function SettingsEntries(e: Entries): Entries {
    e.(frameRate := Int(8), resolution := Int(10), resolutionUnits := Str("nm"))
  }

  /** The dictionary of a successfully started project, from that of the new project. */
  function StartedEntries(base: Entries, source: Path, processed: Option<Path>, projDir: Path,
                          projName: string, notes: Option<string>, copyFiles: bool,
                          copySourceOk: bool, copyProcessedOk: bool): Entries
  {
    SettingsEntries(FileNameEntries(NotesEntries(VideoEntries(NameEntries(base, projDir, projName),
                                                              JoinPath(projDir, projName), source, processed,
                                                              copyFiles, copySourceOk, copyProcessedOk),
                                                 notes), source, processed))
  }

  /** The messages of a successful start: copy warnings, then a failed notes file. */
  function StartMessages(processed: Option<Path>, notes: Option<string>, copyFiles: bool,
                         env: StartEnvironment): seq<Message>
  {
    VideoMessages(processed, copyFiles, env) + NotesMessages(notes, env)
  }

  /** What a started project holds: its name, directory and full path; each video as copied
      or as given, unchanged when its copy failed or there is no processed video; the notes
      only when they are not blank; the video file names; frame rate 8, resolution 10 and
      units "nm"; and the program identity, start, host, user and results as they were. */
  lemma StartedEntriesShape(base: Entries, source: Path, processed: Option<Path>, projDir: Path,
                            projName: string, notes: Option<string>, copyFiles: bool, copySourceOk: bool,
                            copyProcessedOk: bool)
    ensures var e := StartedEntries(base, source, processed, projDir, projName, notes, copyFiles, copySourceOk, copyProcessedOk);
            var path := JoinPath(projDir, projName);
            && e.projName == Str(projName) && e.projDir == PathValue(projDir)
            && e.projFullPath == Some(PathValue(path))
            && e.source == (if !copyFiles then PathValue(source)
                            else if copySourceOk then PathValue(JoinPath(path, Name(source)))
                            else base.source)
            && e.processed == (if processed.None? then base.processed
                               else if !copyFiles then PathValue(processed.value)
                               else if copyProcessedOk then PathValue(JoinPath(path, Name(processed.value)))
                               else base.processed)
            && e.notes == (if NotesRecorded(notes) then Str(notes.value) else base.notes)
            && e.sourcePath == PathValue(Parent(source)) && e.sourceNoPath == Str(Name(source))
            && e.sourceNoExtension == Str(Stem(source))
            && e.processedPath == (if processed.None? then base.processedPath else PathValue(Parent(processed.value)))
            && e.processedNoPath == (if processed.None? then base.processedNoPath else Str(Name(processed.value)))
            && e.processedNoExtension == (if processed.None? then base.processedNoExtension
                                          else Str(Stem(processed.value)))
            && e.frameRate == Int(8) && e.resolution == Int(10) && e.resolutionUnits == Str("nm")
            && e.prog == base.prog && e.description == base.description
            && e.startDatetime == base.startDatetime && e.host == base.host && e.ipAddress == base.ipAddress
            && e.operatingSystem == base.operatingSystem && e.startUser == base.startUser
            && e.results == base.results
  {
  }

  /** A start shows no message exactly when every copy asked for and the notes file succeed;
      otherwise exactly one warning per failed copy, and one warning for a failed notes
      file, which comes last. */
  lemma StartMessagesRule(processed: Option<Path>, notes: Option<string>, copyFiles: bool, env: StartEnvironment)
    ensures var m := StartMessages(processed, notes, copyFiles, env);
            && (m == [] <==> (copyFiles ==> env.copySourceOk && (processed.Some? ==> env.copyProcessedOk))
                             && (NotesRecorded(notes) ==> env.notesWriteOk))
            && |m| <= 3
            && (NotesFileProblem in m <==> NotesRecorded(notes) && !env.notesWriteOk)
            && (forall i :: 0 <= i < |m| && m[i] != NotesFileProblem ==> m[i] == CopyProblem)
            && multiset(m)[CopyProblem] == (if copyFiles && !env.copySourceOk then 1 else 0)
                                           + (if copyFiles && processed.Some? && !env.copyProcessedOk then 1 else 0)
            && multiset(m)[NotesFileProblem] == (if NotesRecorded(notes) && !env.notesWriteOk then 1 else 0)
            && (NotesFileProblem in m ==> m[|m| - 1] == NotesFileProblem)
  {
  }

  class CGTProject {
    var entries: Entries

    /** `CGTProject()`: every key `None`, then the default measurement settings. */
    constructor ()
      ensures entries == DefaultEntries()
    {
      entries := AllNone;
      new;
      entries := entries.(frameRate := Int(8));
      entries := entries.(resolution := Int(10));
      entries := entries.(resolutionUnits := Str("microns"));
    }

    /** `init_new_project`. */
    method InitNewProject(timestamp: string, host: string, ip: string, os: string, user: string)
      modifies this
      ensures entries == NewProjectEntries(old(entries), timestamp, host, ip, os, user)
    {
      entries := entries.(prog := Str(ProgName));
      entries := entries.(description := Str(ProgDescription));
      entries := entries.(startDatetime := Str(timestamp));
      entries := entries.(host := Str(host), ipAddress := Str(ip), operatingSystem := Str(os));
      entries := entries.(startUser := Str(user));
    }
  }

  class CrystalGrowthTrackerMain {
    const translatedName: string
    var project: CGTProject?
    var title: string
    var messages: seq<Message>

    /** A new window has no project and is titled accordingly. */
    constructor (translatedName: string)
      ensures project == null && messages == []
      ensures title == translatedName + " - No project"
    {
      this.translatedName := translatedName;
      project := null;
      messages := [];
      new;
      var ok := SetTitle();
    }

    /** `get_result`: the project's results entry, `None` without a project. */
    function GetResult(): (r: Option<Value>)
      reads this, project
      ensures r.None? <==> project == null
      ensures project != null ==> r.value == project.entries.results
    {
      if project != null then Some(project.entries.results) else None
    }

    /** `set_title`; `ok` is false when the title could not be composed (the concatenation
        raises), and the title is then left unchanged. */
    method SetTitle() returns (ok: bool)
      modifies this`title
      ensures var t := WindowTitle(translatedName, if project == null then None else Some(project.entries.projName));
              ok == t.Some? && title == (if ok then t.value else old(title))
    {
      var name := Str("No project");
      if project != null {
        name := project.entries.projName;
      }
      if !name.Str? {
        return false;
      }
      title := translatedName + " - " + name.s;
      return true;
    }

    /** `start_project`. An existing project path is refused and nothing changes but a message.
        Otherwise a new project replaces the current one before the directory is made, so a
        failure to make it leaves a new, unnamed project. When the directory is made, the
        project's dictionary is `StartedEntries` of the new project's (see `StartedEntriesShape`).
        The window title is left alone: `start_project` does not call `set_title`. */
    method StartProject(source: Path, processed: Option<Path>, projDir: Path, projName: string,
                        notes: Option<string>, copyFiles: bool, env: StartEnvironment)
      modifies this`project, this`messages
      ensures title == old(title)
      ensures env.pathExists ==> project == old(project) && messages == old(messages) + [ProjectExists(projName)]
      ensures !env.pathExists ==> project != null && fresh(project)
      ensures !env.pathExists && !env.mkdirOk ==>
                project.entries == NewProjectEntries(DefaultEntries(), env.timestamp, env.host, env.ip, env.os, env.user)
                && messages == old(messages) + [CannotCreateProject]
      ensures !env.pathExists && env.mkdirOk ==>
                project.entries == StartedEntries(
                  NewProjectEntries(DefaultEntries(), env.timestamp, env.host, env.ip, env.os, env.user),
                  source, processed, projDir, projName, notes, copyFiles, env.copySourceOk, env.copyProcessedOk)
                && messages == old(messages) + StartMessages(processed, notes, copyFiles, env)
    {
      var path := JoinPath(projDir, projName);

      if env.pathExists {
        messages := messages + [ProjectExists(projName)];
        return;
      }

      var p := new CGTProject();
      p.InitNewProject(env.timestamp, env.host, env.ip, env.os, env.user);
      project := p;

      if !env.mkdirOk {
        messages := messages + [CannotCreateProject];
        return;
      }

      FillNewProject(p, path, source, processed, projDir, projName, notes, copyFiles, env);
    }

    /** The part of `start_project` after the project directory is made, in the source's order:
        name, directory and full path; the videos; the notes; the file names; the settings. */
    method FillNewProject(p: CGTProject, path: Path, source: Path, processed: Option<Path>, projDir: Path,
                          projName: string, notes: Option<string>, copyFiles: bool, env: StartEnvironment)
      requires path == JoinPath(projDir, projName)
      modifies p, this`messages
      ensures p.entries == StartedEntries(old(p.entries), source, processed, projDir, projName, notes, copyFiles,
                                          env.copySourceOk, env.copyProcessedOk)
      ensures messages == old(messages) + StartMessages(processed, notes, copyFiles, env)
    {
      p.entries := p.entries.(projName := Str(projName));
      p.entries := p.entries.(projDir := PathValue(projDir));
      p.entries := p.entries.(projFullPath := Some(PathValue(path)));

      ghost var named := p.entries;
      assert named == NameEntries(old(p.entries), projDir, projName);
      PlaceVideos(p, path, source, processed, copyFiles, env);
      ghost var placed := p.entries;
      RecordNotes(p, notes, env);
      ghost var noted := p.entries;

      p.entries := p.entries.(sourcePath := PathValue(Parent(source)));
      p.entries := p.entries.(sourceNoPath := Str(Name(source)));
      p.entries := p.entries.(sourceNoExtension := Str(Stem(source)));
      if processed.Some? {
        p.entries := p.entries.(processedPath := PathValue(Parent(processed.value)));
        p.entries := p.entries.(processedNoPath := Str(Name(processed.value)));
        p.entries := p.entries.(processedNoExtension := Str(Stem(processed.value)));
      }

      assert p.entries == FileNameEntries(noted, source, processed);
      p.entries := p.entries.(frameRate := Int(8));
      p.entries := p.entries.(resolution := Int(10));
      p.entries := p.entries.(resolutionUnits := Str("nm"));
    }

    /** The copy-or-reference step of `start_project`: with `copyFiles` each video is copied
        into the project directory and recorded there, a failed copy leaving the entry and
        showing a warning; otherwise the videos are recorded where they are. */
    method PlaceVideos(p: CGTProject, path: Path, source: Path, processed: Option<Path>, copyFiles: bool,
                       env: StartEnvironment)
      modifies p, this`messages
      ensures p.entries == VideoEntries(old(p.entries), path, source, processed, copyFiles,
                                        env.copySourceOk, env.copyProcessedOk)
      ensures messages == old(messages) + VideoMessages(processed, copyFiles, env)
    {
      if copyFiles {
        if env.copySourceOk {
          p.entries := p.entries.(source := PathValue(JoinPath(path, Name(source))));
        } else {
          messages := messages + [CopyProblem];
        }
        if processed.Some? {
          if env.copyProcessedOk {
            p.entries := p.entries.(processed := PathValue(JoinPath(path, Name(processed.value))));
          } else {
            messages := messages + [CopyProblem];
          }
        }
      } else {
        p.entries := p.entries.(source := PathValue(source));
        if processed.Some? {
          p.entries := p.entries.(processed := PathValue(processed.value));
        }
      }
    }

    /** The notes step of `start_project`: notes that are not blank are recorded, and a
        failure to write the notes file shows a warning. */
    method RecordNotes(p: CGTProject, notes: Option<string>, env: StartEnvironment)
      modifies p, this`messages
      ensures p.entries == NotesEntries(old(p.entries), notes)
      ensures messages == old(messages) + NotesMessages(notes, env)
    {
      if NotesRecorded(notes) {
        p.entries := p.entries.(notes := Str(notes.value));
        if !env.notesWriteOk {
          messages := messages + [NotesFileProblem];
        }
      }
    }
  }
}
