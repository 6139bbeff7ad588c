/**
 * The file-level rules of the export helpers (src/electron/data/export.ts): the routing of an
 * export request, the default JSON file name, the search for a file name that does not exist
 * yet, and the completion alert with its "open the export folder once per session" flag.
 */
module ExportFiles {
  import opened Wrappers

  // ---------------------------------------------------------------------------------------
  // Unique file name (writeFile)
  // ---------------------------------------------------------------------------------------

  /** The decimal digit `d` as a character. */
  function DigitChar(d: nat): (c: char)
    requires d < 10
    ensures '0' <= c <= '9'
  {
    (48 + d) as char
  }

  /** The decimal representation JavaScript gives a non-negative integer. */
  function NatToString(n: nat): (s: string)
    ensures |s| >= 1
    ensures |s| == 1 <==> n < 10
    ensures forall i :: 0 <= i < |s| ==> '0' <= s[i] <= '9'
  {
    if n < 10 then [DigitChar(n)] else NatToString(n / 10) + [DigitChar(n % 10)]
  }

  /** Different numbers are written differently. */
  lemma {:induction false} NatToStringInjective(n: nat, m: nat)
    requires NatToString(n) == NatToString(m)
    ensures n == m
  {
    if n >= 10 && m >= 10 {
      var s := NatToString(n);
      assert s[|s| - 1] == DigitChar(n % 10) && s[|s| - 1] == DigitChar(m % 10);
      assert NatToString(n / 10) == s[..|s| - 1] == NatToString(m / 10);
      NatToStringInjective(n / 10, m / 10);
    }
  }

  /** The suffix `writeFile` inserts for attempt `n`: none for the first, `_n` after that. */
  function Suffix(n: nat): (s: string)
    ensures n == 0 <==> |s| == 0
  {
    if n == 0 then "" else "_" + NatToString(n)
  }

  /**
   * The path `writeFile` tries at attempt `n`: the base path, then the suffix, then the
   * extension; the first attempt is the base path with the extension.
   */
  function Candidate(path: string, n: nat, extension: string): (r: string)
    ensures |r| == |path| + |Suffix(n)| + |extension|
    ensures path <= r && r[|r| - |extension|..] == extension
    ensures n == 0 ==> r == path + extension
  {
    path + Suffix(n) + extension
  }

  /** Different attempts try different paths. */
  lemma CandidateInjective(path: string, extension: string, n: nat, m: nat)
    requires Candidate(path, n, extension) == Candidate(path, m, extension)
    ensures n == m
  {
    var c := Candidate(path, n, extension);
    assert |Suffix(n)| == |Suffix(m)|;
    assert Suffix(n) == c[|path|..|path| + |Suffix(n)|] == Suffix(m);
    if n != 0 && m != 0 {
      assert NatToString(n) == Suffix(n)[1..] == Suffix(m)[1..] == NatToString(m);
      NatToStringInjective(n, m);
    }
  }

  /** The paths of the first `n` attempts: every one of them, and no more than `n` paths. */
  function Candidates(path: string, extension: string, n: nat): (r: set<string>)
    ensures forall k: nat :: k < n ==> Candidate(path, k, extension) in r
    ensures |r| <= n
  {
    if n == 0 then {} else Candidates(path, extension, n - 1) + {Candidate(path, n - 1, extension)}
  }

  lemma {:induction false} CandidatesMembers(path: string, extension: string, n: nat)
    ensures forall k: nat :: k < n <==> Candidate(path, k, extension) in Candidates(path, extension, n)
  {
    if n > 0 {
      CandidatesMembers(path, extension, n - 1);
      forall k: nat | Candidate(path, k, extension) == Candidate(path, n - 1, extension)
        ensures k == n - 1
      {
        CandidateInjective(path, extension, k, n - 1);
      }
    }
  }

  /** The first `n` attempts are `n` distinct paths. */
  lemma {:induction false} CandidatesCount(path: string, extension: string, n: nat)
    ensures |Candidates(path, extension, n)| == n
  {
    if n > 0 {
      CandidatesCount(path, extension, n - 1);
      CandidatesMembers(path, extension, n - 1);
    }
  }

  lemma SubsetCount(a: set<string>, b: set<string>)
    requires a <= b
    ensures |a| <= |b|
  {
    assert b == a + (b - a);
    assert a * (b - a) == {};
  }

  /**
   * The do-while loop of `writeFile`: try `path + ext`, then `path_1 + ext`, `path_2 + ext`, ...
   * until a path does not exist. `existing` stands for the paths `doesPathExist` reports.
   * The chosen path is the first attempt that does not exist; the number of attempts is
   * bounded by the number of existing paths.
   */
  method WriteFilePath(path: string, extension: string, existing: set<string>) returns (tempPath: string, number: nat)
    ensures tempPath == Candidate(path, number, extension)
    ensures tempPath !in existing
    ensures forall k: nat :: k < number ==> Candidate(path, k, extension) in existing
    ensures number <= |existing|
  {
    var n: int := -1;
    tempPath := path;
    var searching := true;
    while searching
      invariant -1 <= n
      invariant n >= 0 ==> tempPath == Candidate(path, n, extension)
      invariant !searching ==> n >= 0 && tempPath !in existing
      invariant Candidates(path, extension, if searching then n + 1 else n) <= existing
      decreases |existing| + 1 - n
    {
      n := n + 1;
      tempPath := path + (if n != 0 then "_" + NatToString(n) else "") + extension;
      searching := tempPath in existing;
      CandidatesCount(path, extension, if searching then n + 1 else n);
      SubsetCount(Candidates(path, extension, if searching then n + 1 else n), existing);
    }
    number := n;
    CandidatesMembers(path, extension, number);
    CandidatesCount(path, extension, number);
    SubsetCount(Candidates(path, extension, number), existing);
  }

  // ---------------------------------------------------------------------------------------
  // Routing of an export request (startExport, exportJSON)
  // ---------------------------------------------------------------------------------------

  /** `customJSONExtensions`: the channels exported as JSON and their file extensions. */
  function CustomJsonExtension(channel: string): (r: Option<string>)
    ensures r.Some? <==> channel == "TEMPLATE" || channel == "THEME"
    ensures channel == "TEMPLATE" ==> r == Some(".fstemplate")
    ensures channel == "THEME" ==> r == Some(".fstheme")
  {
    if channel == "TEMPLATE" then Some(".fstemplate")
    else if channel == "THEME" then Some(".fstheme")
    else None
  }

  /** What a started export goes on to do. */
  datatype ExportJob = JsonExport(extension: string) | PdfExport | TxtExport | ProjectExport | NoExport

  /**
   * The outcome of `startExport`: cancelled in the folder dialog, or started with the export
   * folder, the data path announced to the main window (when one was chosen in the dialog)
   * and the job.
   */
  datatype StartOutcome = Cancelled | Started(exportFolder: string, announced: Option<string>, job: ExportJob)

  /**
   * `startExport`. `dialogPath` is what `selectFolderDialog` returns ("" when cancelled) and
   * `exportsFolder` stands for `getDataFolder(·, dataFolderNames.exports)`. An export is
   * cancelled exactly when neither the message nor the dialog gives a path; the dialog's path
   * is announced exactly when it was asked for; TEMPLATE and THEME go to JSON with their
   * extensions; any other channel but GENERATE does nothing; GENERATE goes by data type.
   */
  function StartExport(channel: string, msgPath: string, dataType: string, dialogPath: string,
                       exportsFolder: string -> string): (o: StartOutcome)
    ensures o.Cancelled? <==> msgPath == "" && dialogPath == ""
    ensures o.Started? ==> o.exportFolder == exportsFolder(if msgPath != "" then msgPath else dialogPath)
    ensures o.Started? ==> (o.announced.Some? <==> msgPath == "")
    ensures o.Started? && msgPath == "" ==> o.announced == Some(dialogPath)
    ensures o.Started? && channel == "TEMPLATE" ==> o.job == JsonExport(".fstemplate")
    ensures o.Started? && channel == "THEME" ==> o.job == JsonExport(".fstheme")
    ensures o.Started? && channel != "TEMPLATE" && channel != "THEME" && channel != "GENERATE" ==> o.job == NoExport
    ensures o.Started? && channel == "GENERATE" ==>
              && (o.job == PdfExport <==> dataType == "pdf")
              && (o.job == TxtExport <==> dataType == "txt")
              && (o.job == ProjectExport <==> dataType == "project")
    ensures o.Started? && o.job.JsonExport? ==> CustomJsonExtension(channel) == Some(o.job.extension)
  {
    var dataPath := if msgPath != "" then msgPath else dialogPath;
    if dataPath == "" then Cancelled
    else
      var announced := if msgPath == "" then Some(dialogPath) else None;
      var job :=
        match CustomJsonExtension(channel)
        case Some(ext) => JsonExport(ext)
        case None =>
          if channel != "GENERATE" then NoExport
          else if dataType == "pdf" then PdfExport
          else if dataType == "txt" then TxtExport
          else if dataType == "project" then ProjectExport
          else NoExport;
      Started(exportsFolder(dataPath), announced, job)
  }

  /** `content.name || "Unnamed"`. */
  function DefaultName(name: string): (r: string)
    ensures r != ""
    ensures name != "" ==> r == name
  {
    if name == "" then "Unnamed" else name
  }

  /** `join(folder, name)`, reduced to inserting the separator. */
  function Join(folder: string, name: string): string
  {
    folder + "/" + name
  }

  /**
   * `exportJSON`: the file is written under the export folder with the content's name (or
   * "Unnamed") and the channel's extension, at the first such path that does not exist yet.
   */
  method ExportJsonPath(contentName: string, extension: string, folder: string, existing: set<string>)
    returns (written: string)
    ensures written !in existing
    ensures exists n: nat ::
              && written == Candidate(Join(folder, DefaultName(contentName)), n, extension)
              && (forall k: nat :: k < n ==> Candidate(Join(folder, DefaultName(contentName)), k, extension) in existing)
  {
    var base := Join(folder, if contentName != "" then contentName else "Unnamed");
    var number;
    written, number := WriteFilePath(base, extension, existing);
    assert base == Join(folder, DefaultName(contentName));
  }

  // ---------------------------------------------------------------------------------------
  // Completion alert (doneWritingFile)
  // ---------------------------------------------------------------------------------------

  const Exported: string := "export.exported"

  /**
   * What one completed write does: the alert sent to the main window (None stands for the
   * null `err` of a successful write), whether the export folder is opened, and the new
   * value of the session flag.
   */
  datatype Completion = Completion(alert: Option<string>, openFolder: bool, nowOpened: bool)

  /**
   * `doneWritingFile` as written: only the first success of a session opens the folder and
   * sends "export.exported"; every other outcome sends `err` as it is, null included.
   */
  function CompletionAsWritten(err: Option<string>, wasOpened: bool): (c: Completion)
    ensures c.openFolder <==> err.None? && !wasOpened
    ensures c.openFolder ==> c.alert == Some(Exported)
    ensures !c.openFolder ==> c.alert == err
    ensures c.nowOpened <==> wasOpened || err.None?
  {
    if err.None? && !wasOpened then Completion(Some(Exported), true, true)
    else Completion(err, false, wasOpened)
  }

  /** As written, a second successful write of a session sends the null `err` instead of the message. */
  lemma SecondSuccessLosesMessage()
    ensures CompletionAsWritten(None, true).alert == None
    ensures CompletionAsWritten(None, false).alert == Some(Exported)
  {
  }

  /** The completion rule as intended: success always reports "export.exported", failure its error. */
  function CompletionRule(err: Option<string>, wasOpened: bool): (c: Completion)
    ensures c.alert == (if err.None? then Some(Exported) else err)
    ensures c.openFolder <==> err.None? && !wasOpened
    ensures c.nowOpened <==> wasOpened || err.None?
  {
    if err.Some? then Completion(err, false, wasOpened)
    else Completion(Some(Exported), !wasOpened, true)
  }

  /** The flag after a sequence of completed writes. */
  function OpenedAfter(errs: seq<Option<string>>, wasOpened: bool): bool
  {
    if |errs| == 0 then wasOpened
    else CompletionRule(errs[|errs| - 1], OpenedAfter(errs[..|errs| - 1], wasOpened)).nowOpened
  }

  /** How many times the folder is opened over a sequence of completed writes. */
  function OpenCount(errs: seq<Option<string>>, wasOpened: bool): nat
  {
    if |errs| == 0 then 0
    else
      OpenCount(errs[..|errs| - 1], wasOpened)
      + (if CompletionRule(errs[|errs| - 1], OpenedAfter(errs[..|errs| - 1], wasOpened)).openFolder then 1 else 0)
  }

  /**
   * Over a session the folder is opened at most once, never when it was already open, and
   * exactly once when the session starts unopened and some write succeeds.
   */
  lemma {:induction false} OpensOncePerSession(errs: seq<Option<string>>, wasOpened: bool)
    ensures OpenedAfter(errs, wasOpened) <==> wasOpened || exists i :: 0 <= i < |errs| && errs[i].None?
    ensures OpenCount(errs, wasOpened) == (if !wasOpened && exists i :: 0 <= i < |errs| && errs[i].None? then 1 else 0)
  {
    if |errs| > 0 {
      var init := errs[..|errs| - 1];
      OpensOncePerSession(init, wasOpened);
      assert forall i :: 0 <= i < |init| ==> init[i] == errs[i];
      if exists i :: 0 <= i < |init| && init[i].None? {
        var i :| 0 <= i < |init| && init[i].None?;
        assert errs[i].None?;
      }
      if exists i :: 0 <= i < |errs| && errs[i].None? {
        var i :| 0 <= i < |errs| && errs[i].None?;
        if i < |init| {
          assert init[i].None?;
        }
      }
    }
  }

  /** The module-level `systemOpened` flag of one application session. */
  class ExportSession {
    var systemOpened: bool

    constructor ()
      ensures !systemOpened
    {
      systemOpened := false;
    }

    /**
     * `doneWritingFile(err, exportFolder)` with the intended alert: returns the alert sent to
     * the main window and whether the folder is opened.
     */
    method DoneWritingFile(err: Option<string>) returns (alert: Option<string>, openFolder: bool)
      modifies this
      ensures Completion(alert, openFolder, systemOpened) == CompletionRule(err, old(systemOpened))
    {
      alert := Some(Exported);
      openFolder := false;
      if err.None? && !systemOpened {
        openFolder := true;
        systemOpened := true;
      } else if err.Some? {
        alert := err;
      }
    }
  }
}
