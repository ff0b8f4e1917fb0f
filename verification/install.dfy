/** The installation monitor: a bounded log, a progress value and a started-
    service counter, fed by the lines `docker compose build` and
    `docker compose up` print. The two processes are parameters: each is the
    sequence of lines the installer read from it and how it ended. */
module Install {
  import opened Util

  /** The log keeps at most this many entries. */
  const MaxLogs: nat := 100

  /** The number of services the progress value is scaled by. */
  const TotalServices: nat := 4

  /** The services recognised in compose output, in the order they are tried. */
  const KnownServices: seq<string> := ["analytics-service", "qdrant", "northwind-db", "analytics-ui"]

  datatype Monitor = Monitor(logs: seq<string>, progress: real, currentService: string, completedServices: nat)

  function NewMonitor(): Monitor {
    Monitor([], 0.0, "", 0)
  }

  // ---------------------------------------------------------------------
  // The log
  // ---------------------------------------------------------------------

  /** The newest `MaxLogs` entries of `s`. */
  function Window(s: seq<string>): seq<string> {
    if |s| <= MaxLogs then s else s[|s| - MaxLogs..]
  }

  /** Append, then drop the oldest entry once there are more than `MaxLogs`. */
  function AddLog(logs: seq<string>, message: string): (r: seq<string>)
    ensures |r| > 0 && r[|r| - 1] == message
    ensures |logs| <= MaxLogs ==> r == Window(logs + [message]) && |r| <= MaxLogs
  {
    var pushed := logs + [message];
    if |pushed| > MaxLogs then pushed[1..] else pushed
  }

  /** Several `AddLog` calls in a row. */
  function AddLogs(logs: seq<string>, messages: seq<string>): seq<string>
    decreases |messages|
  {
    if messages == [] then logs else AddLogs(AddLog(logs, messages[0]), messages[1..])
  }

  lemma WindowOfWindow(s: seq<string>, t: seq<string>)
    ensures Window(Window(s) + t) == Window(s + t)
  {
    if |s| > MaxLogs {
      var w := s[|s| - MaxLogs..];
      if |w + t| > MaxLogs {
        assert (w + t)[|w + t| - MaxLogs..] == (s + t)[|s + t| - MaxLogs..];
      }
    }
  }

  /** A log that starts within the bound holds exactly the newest `MaxLogs`
      of everything ever logged, oldest first. */
  lemma {:induction false} AddLogsKeepsNewest(logs: seq<string>, messages: seq<string>)
    requires |logs| <= MaxLogs
    ensures AddLogs(logs, messages) == Window(logs + messages)
    ensures |AddLogs(logs, messages)| <= MaxLogs
    decreases |messages|
  {
    if messages != [] {
      var next := AddLog(logs, messages[0]);
      AddLogsKeepsNewest(next, messages[1..]);
      WindowOfWindow(logs + [messages[0]], messages[1..]);
      assert logs + [messages[0]] + messages[1..] == logs + messages;
    }
  }

  // ---------------------------------------------------------------------
  // Classifying compose output
  // ---------------------------------------------------------------------

  /** The first candidate contained in `text`, trying them in order. */
  function FirstContained(text: string, candidates: seq<string>): (r: Option<string>)
    ensures r.None? <==> forall i :: 0 <= i < |candidates| ==> !Contains(text, candidates[i])
    ensures r.Some? ==> exists i :: 0 <= i < |candidates| && candidates[i] == r.value && Contains(text, r.value)
                          && forall j :: 0 <= j < i ==> !Contains(text, candidates[j])
    decreases |candidates|
  {
    if candidates == [] then None
    else if Contains(text, candidates[0]) then Some(candidates[0])
    else
      var r := FirstContained(text, candidates[1..]);
      assert forall j :: 0 < j < |candidates| ==> candidates[j] == candidates[1..][j - 1];
      r
  }

  /** The first known service named in the line, ignoring case. */
  function ExtractServiceName(line: string): (r: Option<string>)
    ensures r.None? <==> forall i :: 0 <= i < |KnownServices| ==> !Contains(ToLower(line), KnownServices[i])
    ensures r.Some? ==> exists i :: 0 <= i < |KnownServices| && KnownServices[i] == r.value
                          && Contains(ToLower(line), r.value)
                          && forall j :: 0 <= j < i ==> !Contains(ToLower(line), KnownServices[j])
  {
    FirstContained(ToLower(line), KnownServices)
  }

  /** What a line of compose output reports, by the first keyword hit. */
  datatype LineKind = Pulling | Pulled | Creating | Created | Starting | Started | Running | Failure | Info | Blank

  /** Whether the lower-cased line carries the keyword(s) selecting `kind`. */
  predicate Mentions(lower: string, kind: LineKind) {
    match kind
      case Pulling => Contains(lower, "pulling")
      case Pulled => Contains(lower, "pulled")
      case Creating => Contains(lower, "creating")
      case Created => Contains(lower, "created")
      case Starting => Contains(lower, "starting")
      case Started => Contains(lower, "started")
      case Running => Contains(lower, "running")
      case Failure => Contains(lower, "error") || Contains(lower, "failed")
      case Info => false
      case Blank => false
  }

  /** The order in which kinds are tested. */
  function Rank(kind: LineKind): nat {
    match kind
      case Pulling => 0
      case Pulled => 1
      case Creating => 2
      case Created => 3
      case Starting => 4
      case Started => 5
      case Running => 6
      case Failure => 7
      case Info => 8
      case Blank => 9
  }

  /** The first kind, in test order, that the lower-cased line mentions;
      otherwise Info or Blank. */
  function KindOf(lower: string, blank: bool): (r: LineKind)
    ensures r != Info && r != Blank ==> Mentions(lower, r)
    ensures forall k :: Rank(k) < Rank(r) ==> !Mentions(lower, k)
    ensures r == Info || r == Blank ==> (r == Blank <==> blank)
  {
    if Mentions(lower, Pulling) then Pulling
    else if Mentions(lower, Pulled) then Pulled
    else if Mentions(lower, Creating) then Creating
    else if Mentions(lower, Created) then Created
    else if Mentions(lower, Starting) then Starting
    else if Mentions(lower, Started) then Started
    else if Mentions(lower, Running) then Running
    else if Mentions(lower, Failure) then Failure
    else if !blank then Info
    else Blank
  }

  /** How `process_log_line` reads a line: keywords are matched in the
      lower-cased line, blankness in the line as received. */
  function Classify(line: string): (r: LineKind)
    ensures r != Info && r != Blank ==> Mentions(ToLower(line), r)
    ensures forall k :: Rank(k) < Rank(r) ==> !Mentions(ToLower(line), k)
    ensures r == Info || r == Blank ==> (r == Blank <==> IsBlank(line))
  {
    TrimEmptyIffBlank(line);
    KindOf(ToLower(line), Trim(line) == [])
  }

  /** Kinds that log only when the line names a known service. */
  predicate NeedsService(kind: LineKind) {
    kind == Pulling || kind == Creating || kind == Starting
  }

  /** The service a pull, create or start line names. */
  function ServiceFor(kind: LineKind, line: string): Option<string> {
    if NeedsService(kind) then ExtractServiceName(line) else None
  }

  /** Progress once `completed` services have started; it is not clamped. */
  function StartedProgress(completed: nat): real {
    50.0 + (completed as real / TotalServices as real) * 50.0
  }

  function StartedMessage(completed: nat): string {
    "\U{2705} Service started (" + NatToString(completed) + "/" + NatToString(TotalServices) + ")"
  }

  /** The entry logged for a line, if any. */
  function LineMessage(kind: LineKind, line: string, service: Option<string>, completed: nat): (r: Option<string>)
    ensures r.None? <==> kind == Blank || (NeedsService(kind) && service.None?)
    ensures kind == Failure ==> r == Some("\U{274C} " + line)
    ensures kind == Info ==> r == Some("\U{2139}\U{FE0F}  " + line)
  {
    match kind
      case Pulling => if service.Some? then Some("\U{2B07}\U{FE0F}  Pulling image for " + service.value + "...") else None
      case Pulled => Some("\U{2713} Image pulled")
      case Creating => if service.Some? then Some("\U{1F528} Creating container " + service.value + "...") else None
      case Created => Some("\U{2713} Container created")
      case Starting => if service.Some? then Some("\U{25B6}\U{FE0F}  Starting service " + service.value + "...") else None
      case Started => Some(StartedMessage(completed))
      case Running => Some("\U{1F7E2} Service is running")
      case Failure => Some("\U{274C} " + line)
      case Info => Some("\U{2139}\U{FE0F}  " + line)
      case Blank => None
  }

  /** The effect of one classified line. At most one entry is logged,
      only a "started" line moves the counter and the progress, only a
      pull, create or start line with a service changes the current one,
      and a line that logs nothing changes nothing. */
  function Record(m: Monitor, kind: LineKind, line: string, service: Option<string>): (r: Monitor)
    ensures r.completedServices == m.completedServices + (if kind == Started then 1 else 0)
    ensures kind == Started ==> r.progress == StartedProgress(r.completedServices)
    ensures kind != Started ==> r.progress == m.progress
    ensures r.currentService != m.currentService ==> service == Some(r.currentService)
    ensures kind == Blank || (NeedsService(kind) && service.None?) ==> r == m
    ensures kind != Blank && !(NeedsService(kind) && service.None?) ==>
              r.logs == AddLog(m.logs, LineMessage(kind, line, service, r.completedServices).value)
  {
    var completed := if kind == Started then m.completedServices + 1 else m.completedServices;
    match LineMessage(kind, line, service, completed)
      case None => m
      case Some(message) =>
        Monitor(AddLog(m.logs, message),
                if kind == Started then StartedProgress(completed) else m.progress,
                if service.Some? then service.value else m.currentService,
                completed)
  }

  /** One line of compose output, classified on its lower-cased text. */
  function ProcessLogLine(m: Monitor, line: string): (r: Monitor)
    ensures r.completedServices == m.completedServices + (if Classify(line) == Started then 1 else 0)
    ensures Classify(line) == Started ==> r.progress == StartedProgress(r.completedServices)
    ensures Classify(line) != Started ==> r.progress == m.progress
    ensures r.currentService != m.currentService ==>
              NeedsService(Classify(line)) && Some(r.currentService) == ExtractServiceName(line)
  {
    var kind := Classify(line);
    Record(m, kind, line, ServiceFor(kind, line))
  }

  /** Five "started" lines push the progress past 100. */
  lemma ProgressIsNotClamped()
    ensures StartedProgress(TotalServices) == 100.0
    ensures StartedProgress(TotalServices + 1) > 100.0
  {
  }

  function CountStarted(lines: seq<string>): nat
    decreases |lines|
  {
    if lines == [] then 0
    else (if Classify(lines[0]) == Started then 1 else 0) + CountStarted(lines[1..])
  }

  /** Every line in order. */
  function ProcessLines(m: Monitor, lines: seq<string>): (r: Monitor)
    ensures r.completedServices == m.completedServices + CountStarted(lines)
    ensures |m.logs| <= MaxLogs ==> |r.logs| <= MaxLogs
    ensures CountStarted(lines) == 0 ==> r.progress == m.progress
    ensures CountStarted(lines) > 0 ==> r.progress == StartedProgress(r.completedServices)
    decreases |lines|
  {
    if lines == [] then m else ProcessLines(ProcessLogLine(m, lines[0]), lines[1..])
  }

  // ---------------------------------------------------------------------
  // Running `docker compose`
  // ---------------------------------------------------------------------

  datatype Stream = Stdout | Stderr

  /** A read error on one of the child's pipes; it ends the reading loop. */
  datatype ReadFailure = ReadFailure(stream: Stream, message: string)

  datatype ExitStatus = WaitFailed(message: string) | Exited(success: bool)

  /** One child process: it could not be spawned, or it ran, the installer
      read `lines` from it (in the order the two pipes delivered them, until
      the first end of either pipe or a read error) and then waited for it. */
  datatype ProcessRun =
    | SpawnFailed(message: string)
    | Ran(lines: seq<string>, readFailure: Option<ReadFailure>, exit: ExitStatus)

  predicate Succeeded(run: ProcessRun) {
    run.Ran? && run.exit == Exited(true)
  }

  function ReadFailureMessage(f: ReadFailure): string {
    "\U{274C} Error reading " + (if f.stream == Stdout then "stdout" else "stderr") + ": " + f.message
  }

  /** The reading loop over one process's output. */
  function Drain(m: Monitor, lines: seq<string>, readFailure: Option<ReadFailure>): (r: Monitor)
    ensures r.completedServices == m.completedServices + CountStarted(lines)
    ensures CountStarted(lines) == 0 ==> r.progress == m.progress
    ensures CountStarted(lines) > 0 ==> r.progress == StartedProgress(r.completedServices)
    ensures |m.logs| <= MaxLogs ==> |r.logs| <= MaxLogs
    ensures readFailure.Some? ==> |r.logs| > 0 && r.logs[|r.logs| - 1] == ReadFailureMessage(readFailure.value)
  {
    var processed := ProcessLines(m, lines);
    if readFailure.None? then processed
    else
      var logs := AddLog(processed.logs, ReadFailureMessage(readFailure.value));
      Monitor(logs, processed.progress, processed.currentService, processed.completedServices)
  }

  const BuildFailedMessage: string := "Docker Compose build failed"
  const UpFailedMessage: string := "Docker Compose up failed"
  const AllStartedMessage: string := "\U{2705} All services started successfully!"

  /** One process's part of the run: its output is drained, then the
      outcome is its exit status. */
  function RunProcess(m: Monitor, run: ProcessRun, failed: string): (r: (Monitor, Result<(), string>))
    ensures r.1.Ok? <==> Succeeded(run)
    ensures run.SpawnFailed? ==> r == (m, Err(run.message))
    ensures run.Ran? && run.exit.WaitFailed? ==> r.1 == Err(run.exit.message)
    ensures run.Ran? && run.exit == Exited(false) ==> r.1 == Err(failed)
    ensures run.Ran? ==> r.0.completedServices == m.completedServices + CountStarted(run.lines)
    ensures run.Ran? && CountStarted(run.lines) == 0 ==> r.0.progress == m.progress
    ensures run.Ran? && CountStarted(run.lines) > 0 ==> r.0.progress == StartedProgress(r.0.completedServices)
    ensures |m.logs| <= MaxLogs ==> |r.0.logs| <= MaxLogs
  {
    match run
      case SpawnFailed(e) => (m, Err(e))
      case Ran(lines, readFailure, exit) =>
        var drained := Drain(m, lines, readFailure);
        match exit
          case WaitFailed(e) => (drained, Err(e))
          case Exited(success) => (drained, if success then Ok(()) else Err(failed))
  }

  /** Build without cache, then start detached. An error is returned as its
      message; the monitor keeps what was logged up to that point. The
      started-service counter is not reset between the two processes. */
  function RunDockerCompose(m: Monitor, build: ProcessRun, up: ProcessRun): (r: (Monitor, Result<(), string>))
    ensures r.1.Ok? <==> Succeeded(build) && Succeeded(up)
    ensures r.1.Ok? ==> r.0.progress == 100.0 && |r.0.logs| > 0 && r.0.logs[|r.0.logs| - 1] == AllStartedMessage
    ensures build.SpawnFailed? ==> r.1 == Err(build.message) && r.0.progress == m.progress
    ensures build.Ran? && !Succeeded(build) ==>
              r.0.progress == (if CountStarted(build.lines) == 0 then m.progress else StartedProgress(r.0.completedServices))
    ensures build.Ran? && build.exit.WaitFailed? ==> r.1 == Err(build.exit.message)
    ensures build.Ran? && build.exit == Exited(false) ==> r.1 == Err(BuildFailedMessage)
    ensures Succeeded(build) && up.SpawnFailed? ==> r.1 == Err(up.message) && r.0.progress == 50.0
    ensures Succeeded(build) && up.Ran? && up.exit == Exited(false) ==> r.1 == Err(UpFailedMessage)
    ensures Succeeded(build) && up.Ran? && !Succeeded(up) ==>
              r.0.progress == (if CountStarted(up.lines) == 0 then 50.0 else StartedProgress(r.0.completedServices))
    ensures r.0.completedServices == m.completedServices
              + (if build.Ran? then CountStarted(build.lines) else 0)
              + (if Succeeded(build) && up.Ran? then CountStarted(up.lines) else 0)
    ensures |m.logs| <= MaxLogs ==> |r.0.logs| <= MaxLogs
  {
    var announced := m.(logs := AddLog(AddLog(m.logs, "\U{1F528} Step 1/2: Building images (no cache)..."),
                                       "\U{1F4E6} Executing: docker compose build --no-cache"));
    var (built, buildResult) := RunProcess(announced, build, BuildFailedMessage);
    if buildResult.Err? then (built, buildResult)
    else
      var ready := built.(logs := AddLog(built.logs, "\U{2705} Build completed successfully!"), progress := 50.0);
      var starting := ready.(logs := AddLog(AddLog(ready.logs, "\U{1F680} Step 2/2: Starting services..."),
                                            "\U{1F4E6} Executing: docker compose up -d"));
      var (started, upResult) := RunProcess(starting, up, UpFailedMessage);
      if upResult.Err? then (started, upResult)
      else (started.(logs := AddLog(started.logs, AllStartedMessage), progress := 100.0), Ok(()))
  }
}
