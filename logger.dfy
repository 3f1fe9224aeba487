/**
 * The logger of `log/logger.go`: a flag that decides whether statements are
 * dropped, printed to the parent process or appended to a log file, and the
 * rule that picks the file. Each log file is an append-only sequence of
 * lines; a file name absent from `files` is one `os.OpenFile` cannot open
 * (no `O_CREATE`), so a write to it is silently lost.
 */
module Logging {

  const Debug: string := "Debug"
  const Normal: string := "Normal"
  const None: string := "None"

  /** `LogContainer`: the file name of every log. */
  datatype LogContainer = LogContainer(
    userLogFile: string,
    serviceProviderLogFile: string,
    projectLogFile: string,
    subscriptionPlanLogFile: string,
    subscriptionLogFile: string,
    transactionLogFile: string,
    deletedLogFile: string,
    serverLogFile: string,
    botLogFile: string,
    errorLogFile: string,
    archiveLogFile: string)

  /** The three states a logger can be in. */
  predicate IsFlag(state: string) {
    state == Debug || state == Normal || state == None
  }

  /** `SetFlag`'s normalisation: a known state is kept, anything else is `None`. */
  function NormalisedFlag(state: string): (flag: string)
    ensures IsFlag(flag)
    ensures IsFlag(state) <==> flag == state
    ensures !IsFlag(state) ==> flag == None
  {
    if state != Debug && state != Normal && state != None then None else state
  }

  /** Setting a flag that was already normalised changes nothing. */
  lemma NormalisedFlagIdempotent(state: string)
    ensures NormalisedFlag(NormalisedFlag(state)) == NormalisedFlag(state)
  {
  }

  /** The files `Log` writes to in `Normal` mode without redirection. */
  function ValidLogFiles(logs: LogContainer): seq<string> {
    [logs.serverLogFile, logs.botLogFile, logs.errorLogFile]
  }

  /** The file a `Normal`-mode `Log` call ends up in: the requested one if it is valid, the server log otherwise. */
  function RoutedFile(logs: LogContainer, logFile: string): string {
    if logFile in ValidLogFiles(logs) then logFile else logs.serverLogFile
  }

  /** Every routed statement lands in the server, bot or error log, and a valid target is kept. */
  lemma RoutedFileIsValid(logs: LogContainer, logFile: string)
    ensures RoutedFile(logs, logFile) in ValidLogFiles(logs)
    ensures logFile in ValidLogFiles(logs) <==> RoutedFile(logs, logFile) == logFile
  {
  }

  /**
   * The service logs (user, provider, project, plan, subscription,
   * transaction, deleted) are not among the valid files, so unless a
   * configuration reuses one of the three names their statements go to the
   * server log.
   */
  lemma ServiceLogsGoToServerLog(logs: LogContainer, logFile: string)
    requires logFile in [logs.userLogFile, logs.serviceProviderLogFile, logs.projectLogFile,
                         logs.subscriptionPlanLogFile, logs.subscriptionLogFile,
                         logs.transactionLogFile, logs.deletedLogFile]
    requires logFile != logs.serverLogFile && logFile != logs.botLogFile && logFile != logs.errorLogFile
    ensures RoutedFile(logs, logFile) == logs.serverLogFile
  {
  }

  /** A log line: the time stamp in square brackets, then the statement. */
  function Stamped(now: string, stmt: string): string {
    "[ " + now + " ] " + stmt
  }

  /** The error log's line: the same stamp followed by "Error: ". */
  function StampedError(now: string, stmt: string): string {
    "[ " + now + " ] Error: " + stmt
  }

  /** Appending a line to a file that can be opened; other files are left alone. */
  function Appended(files: map<string, seq<string>>, name: string, line: string): (r: map<string, seq<string>>)
    ensures r.Keys == files.Keys
    ensures name in files ==> r[name] == files[name] + [line]
    ensures forall f | f in files && f != name :: r[f] == files[f]
  {
    if name in files then files[name := files[name] + [line]] else files
  }

  /** Files only grow: what was written before is still a prefix of each file. */
  predicate Grows(before: map<string, seq<string>>, after: map<string, seq<string>>) {
    before.Keys == after.Keys && forall f | f in before :: before[f] <= after[f]
  }

  lemma AppendedGrows(files: map<string, seq<string>>, name: string, line: string)
    ensures Grows(files, Appended(files, name, line))
    ensures name in files ==> |Appended(files, name, line)[name]| == |files[name]| + 1
  {
  }

  /** The `Logger`: its container of file names, its flag, and the output it produced. */
  class Logger {
    const logs: LogContainer
    var flag: string
    /** The content of every log file that exists, line by line. */
    var files: map<string, seq<string>>
    /** The lines printed to the parent process's standard output. */
    var parent: seq<string>

    ghost predicate Valid()
      reads this
    {
      IsFlag(flag)
    }

    /** `NewLogger`: the flag goes through `SetFlag`. */
    constructor (logContainer: LogContainer, state: string, existing: map<string, seq<string>>)
      ensures Valid()
      ensures logs == logContainer && flag == NormalisedFlag(state)
      ensures files == existing && parent == []
    {
      logs := logContainer;
      files := existing;
      parent := [];
      new;
      SetFlag(state);
    }

    /** `SetFlag`: stores a known state, `None` for anything else. */
    method SetFlag(state: string)
      modifies this`flag
      ensures Valid()
      ensures flag == NormalisedFlag(state)
    {
      var s := state;
      if s != Debug && s != Normal && s != None {
        s := None;
      }
      flag := s;
    }

    /**
     * The validity loop of `Log`: the requested file is kept when it is the
     * server, bot or error log, and replaced by the server log otherwise.
     */
    static method CheckedLogFile(logs: LogContainer, logFile: string) returns (target: string)
      ensures target == RoutedFile(logs, logFile)
      ensures target in ValidLogFiles(logs)
    {
      var isValidLogFile := false;
      var validLogFiles := ValidLogFiles(logs);
      for i := 0 to |validLogFiles|
        invariant isValidLogFile <==> logFile in validLogFiles[..i]
      {
        if validLogFiles[i] == logFile {
          isValidLogFile := true;
        }
      }
      assert validLogFiles[..|validLogFiles|] == validLogFiles;
      target := logFile;
      if !isValidLogFile {
        target := logs.serverLogFile;
      }
    }

    /** `LogToParent`: prints unless the logger is off. */
    method LogToParent(stmt: string, now: string)
      requires Valid()
      modifies this`parent
      ensures Valid()
      ensures flag == None ==> parent == old(parent)
      ensures flag != None ==> parent == old(parent) + [Stamped(now, stmt)]
    {
      if flag == None {
        return;
      }
      parent := parent + [Stamped(now, stmt)];
    }

    /**
     * `Log`: nothing when off, the parent's output in `Debug` mode, and in
     * `Normal` mode one line appended to the routed file.
     */
    method Log(stmt: string, logFile: string, now: string)
      requires Valid()
      modifies this`parent, this`files
      ensures Valid()
      ensures Grows(old(files), files)
      ensures flag == None ==> files == old(files) && parent == old(parent)
      ensures flag == Debug ==> files == old(files) && parent == old(parent) + [Stamped(now, stmt)]
      ensures flag == Normal ==>
        parent == old(parent) && files == Appended(old(files), RoutedFile(logs, logFile), Stamped(now, stmt))
    {
      if flag == None {
        return;
      } else if flag == Debug {
        LogToParent(stmt, now);
        return;
      }
      var target := CheckedLogFile(logs, logFile);
      AppendedGrows(files, target, Stamped(now, stmt));
      files := Appended(files, target, Stamped(now, stmt));
    }

    /** `LogToErrorFile`: like `Log`, but always the error log and with an "Error: " prefix. */
    method LogToErrorFile(stmt: string, now: string)
      requires Valid()
      modifies this`parent, this`files
      ensures Valid()
      ensures Grows(old(files), files)
      ensures flag == None ==> files == old(files) && parent == old(parent)
      ensures flag == Debug ==> files == old(files) && parent == old(parent) + [Stamped(now, stmt)]
      ensures flag == Normal ==>
        parent == old(parent) && files == Appended(old(files), logs.errorLogFile, StampedError(now, stmt))
    {
      if flag == None {
        return;
      } else if flag == Debug {
        LogToParent(stmt, now);
        return;
      }
      AppendedGrows(files, logs.errorLogFile, StampedError(now, stmt));
      files := Appended(files, logs.errorLogFile, StampedError(now, stmt));
    }

    /** `LogToArchiveFile`: like `Log`, but always the archive log. */
    method LogToArchiveFile(stmt: string, now: string)
      requires Valid()
      modifies this`parent, this`files
      ensures Valid()
      ensures Grows(old(files), files)
      ensures flag == None ==> files == old(files) && parent == old(parent)
      ensures flag == Debug ==> files == old(files) && parent == old(parent) + [Stamped(now, stmt)]
      ensures flag == Normal ==>
        parent == old(parent) && files == Appended(old(files), logs.archiveLogFile, Stamped(now, stmt))
    {
      if flag == None {
        return;
      } else if flag == Debug {
        LogToParent(stmt, now);
        return;
      }
      AppendedGrows(files, logs.archiveLogFile, Stamped(now, stmt));
      files := Appended(files, logs.archiveLogFile, Stamped(now, stmt));
    }
  }
}
