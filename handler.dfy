/** `generate_music`, the handler of `/trigger_musika`, as a function from the
    container state and the daemon's answers to what the episode does. */
module Handler {
  import opened Wrappers
  import opened Strings
  import opened Trace
  import opened Registry
  import opened Command
  import opened OutputWatcher
  import opened Docker

  /** The output directory the listener polls, and `os.path.sep`. */
  datatype Config = Config(outputDir: string, sep: char)

  /** The arguments of `/trigger_musika`; the two numbers as their `str()` texts. */
  datatype Trigger = Trigger(truncation: string, seconds: string, model: string)

  const StatusAddress := "/status"
  const DoneAddress := "/musika_done"
  const StartingText := "Starting container and generating audio..."
  const CompleteText := "Generation complete!"
  const NoFileText := "Error: No file generated!"
  const RunErrorPrefix := "Error running Musika: "

  function NotFoundText(model: string): string {
    "Error: Model '" + model + "' not found!"
  }

  function Status(text: string): Event {
    Send(StatusAddress, text)
  }

  /** The message that reports a `CalledProcessError`. */
  function RunError(detail: string): Event {
    Status(RunErrorPrefix + detail)
  }

  /** What the handler reports once the output directory has been searched:
      a found (non-empty) path is announced and then sent, with every `/`
      rewritten to the platform separator. */
  function Report(latest: Option<string>, sep: char): (es: seq<Event>)
    ensures 1 <= |es| <= 2 && es[0].Send? && es[0].address == StatusAddress
    ensures |es| == 2 <==> latest.Some? && latest.value != ""
    ensures |es| == 2 ==> es[1] == Send(DoneAddress, Replace(latest.value, '/', sep))
  {
    if latest.Some? && latest.value != "" then
      [Status(CompleteText), Send(DoneAddress, Replace(latest.value, '/', sep))]
    else
      [Status(NoFileText)]
  }

  /** The command line for a known model. */
  function CommandFor(trig: Trigger): string
    requires trig.model in ModelPaths
  {
    ExecCommand(ModelPaths[trig.model], trig.seconds, trig.truncation)
  }

  /** One episode of `generate_music`. The handler catches every
      `CalledProcessError`, so the episode itself never raises. */
  function HandleTrigger(cfg: Config, c: ContainerState, trig: Trigger, d: Responses, listing: seq<Entry>): (r: Effect)
    requires ValidContainer(c) && IsContainerId(d.newId)
    ensures ValidContainer(r.container) && r.outcome == Ok
  {
    match LoadPath(trig.model)
    case None => Effect(c, [Status(NotFoundText(trig.model))], Ok)
    case Some(_) =>
      var e := Generate(cfg, c, CommandFor(trig), d, listing);
      Effect(e.container, [Status(StartingText)] + e.events, Ok)
  }

  /** The body of the handler's `try` from `start_container()` on, with the
      command line already built. */
  function Generate(cfg: Config, c: ContainerState, command: string, d: Responses, listing: seq<Entry>): (r: Effect)
    requires ValidContainer(c) && IsContainerId(d.newId)
    ensures ValidContainer(r.container) && r.outcome == Ok
    ensures |r.events| >= 2 && r.events[0] == Invoke(ListAll)
  {
    var start := Start(c, cfg.outputDir, d);
    if start.outcome.Failed? then
      Effect(start.container, start.events + Raised(start.outcome), Ok)
    else
      var rest := Execute(cfg, start.container, command, d, listing);
      Effect(rest.container, start.events + rest.events, Ok)
  }

  /** Once the container is up: run the command, search the output
      directory, report, stop the container. */
  function Execute(cfg: Config, c: ContainerState, command: string, d: Responses, listing: seq<Entry>): (r: Effect)
    requires ValidContainer(c)
    ensures ValidContainer(r.container) && r.outcome == Ok
    ensures |r.events| >= 2 && r.events[0] == Invoke(ExecShell(command))
    ensures r.container == c || (r.container == Absent && d.exec.Ok?)
    ensures r.container != c ==> c.Running? && d.exec.Ok? && !d.queryFails && d.stop.Ok?
  {
    var executed := [Invoke(ExecShell(command))];
    if d.exec.Failed? then Effect(c, executed + Raised(d.exec), Ok)
    else
      var stop := Stop(c, d);
      Effect(stop.container, executed + Searched(cfg, listing) + stop.events + Raised(stop.outcome), Ok)
  }

  /** `get_latest_file(OUTPUT_DIR)` and the report of what it found. */
  function Searched(cfg: Config, listing: seq<Entry>): (es: seq<Event>)
    ensures 2 <= |es| <= 3 && es[0] == Invoke(ListDir(cfg.outputDir))
    ensures |es| == 3 <==> GetLatestFile(cfg.outputDir, listing).Some?
  {
    [Invoke(ListDir(cfg.outputDir))] + Report(GetLatestFile(cfg.outputDir, listing), cfg.sep)
  }

  /** The handler's `except` clause: a raised call is reported, and nothing
      else happens. */
  function Raised(o: Outcome): (es: seq<Event>)
    ensures es == [] <==> o.Ok?
    ensures es != [] ==> |es| == 1 && es[0].Send? && IsErrorMessage((es[0].address, es[0].payload))
  {
    if o.Failed? then [RunError(o.detail)] else []
  }

  /** The `/status` message that reports a `CalledProcessError`, as sent. */
  function ErrorMessage(detail: string): (string, string) {
    (StatusAddress, RunErrorPrefix + detail)
  }

  /** A `/status` message that reports a `CalledProcessError`. */
  predicate IsErrorMessage(m: (string, string)) {
    m.0 == StatusAddress && StartsWith(m.1, RunErrorPrefix)
  }

  /** The messages the client receives in an episode: an unknown model is
      refused; otherwise the start is announced and the generation's
      messages follow. */
  function Protocol(model: string, start: Outcome, exec: Outcome, latest: Option<string>, sep: char, stop: Outcome): (m: seq<(string, string)>)
    ensures 1 <= |m| <= 4
    ensures m[0] == (StatusAddress, if model in ModelPaths then StartingText else NotFoundText(model))
    ensures model !in ModelPaths ==> |m| == 1
  {
    if model !in ModelPaths then [(StatusAddress, NotFoundText(model))]
    else [(StatusAddress, StartingText)] + GenerationMessages(start, exec, latest, sep, stop)
  }

  /** After the announcement: the error of a failed start or a failed
      generation command, which ends the episode; otherwise the report of the
      search for the newest file, then the error of a failing stop. */
  function GenerationMessages(start: Outcome, exec: Outcome, latest: Option<string>, sep: char, stop: Outcome): (m: seq<(string, string)>)
    ensures 1 <= |m| <= 3
    ensures start.Failed? || exec.Failed? ==> |m| == 1 && IsErrorMessage(m[0])
    ensures IsErrorMessage(m[|m| - 1]) ==> start.Failed? || exec.Failed? || stop.Failed?
  {
    if start.Failed? then [ErrorMessage(start.detail)]
    else if exec.Failed? then [ErrorMessage(exec.detail)]
    else
      assert RunErrorPrefix[0] == 'E' && RunErrorPrefix[5] == ' ' && CompleteText[0] == 'G' && NoFileText[5] == ':';
      (if latest.Some? && latest.value != "" then
         [(StatusAddress, CompleteText), (DoneAddress, Replace(latest.value, '/', sep))]
       else [(StatusAddress, NoFileText)])
      + (if stop.Failed? then [ErrorMessage(stop.detail)] else [])
  }

  /** The calls after a successful start: the generation command; then, unless
      it raised, the listing of the output directory, the liveness query, and
      `docker stop` when the query works. */
  function CallsAfterStart(cfg: Config, command: string, d: Responses): (cs: seq<Call>)
    ensures 1 <= |cs| <= 4 && cs[0] == ExecShell(command)
    ensures |cs| == 1 <==> d.exec.Failed?
    ensures StopContainer(ContainerName) in cs <==> d.exec.Ok? && !d.queryFails
  {
    [ExecShell(command)]
    + if d.exec.Failed? then []
      else [ListDir(cfg.outputDir), ListRunning] + (if d.queryFails then [] else [StopContainer(ContainerName)])
  }

  /** The client can tell a run error from every other status text. */
  lemma OtherStatusesAreNotErrors(model: string)
    ensures !IsErrorMessage((StatusAddress, NotFoundText(model)))
    ensures !IsErrorMessage((StatusAddress, StartingText))
    ensures !IsErrorMessage((StatusAddress, CompleteText))
    ensures !IsErrorMessage((StatusAddress, NoFileText))
  {
    assert RunErrorPrefix[0] == 'E' && RunErrorPrefix[5] == ' ';
    assert NotFoundText(model)[5] == ':';
    assert NoFileText[5] == ':';
    assert StartingText[0] == 'S';
    assert CompleteText[0] == 'G';
  }

  /** A run error, when there is one, is the last message of the episode, and
      there is one exactly when the model is known and a checked call raised:
      the start, or else the generation command, or else the stop. */
  lemma ErrorReportedLast(model: string, start: Outcome, exec: Outcome, latest: Option<string>, sep: char, stop: Outcome)
    ensures var m := Protocol(model, start, exec, latest, sep, stop);
      && |m| > 0
      && (forall i :: 0 <= i < |m| - 1 ==> !IsErrorMessage(m[i]))
      && (IsErrorMessage(m[|m| - 1]) <==> model in ModelPaths && (start.Failed? || exec.Failed? || stop.Failed?))
  {
    OtherStatusesAreNotErrors(model);
    if model in ModelPaths {
      var g := GenerationMessages(start, exec, latest, sep, stop);
      GenerationErrorLast(start, exec, latest, sep, stop);
      var m := Protocol(model, start, exec, latest, sep, stop);
      assert m == [(StatusAddress, StartingText)] + g;
      assert forall i :: 1 <= i < |m| ==> m[i] == g[i - 1];
    }
  }

  /** After the announcement, a run error can only come last, and it does
      exactly when a checked call raised. */
  lemma GenerationErrorLast(start: Outcome, exec: Outcome, latest: Option<string>, sep: char, stop: Outcome)
    ensures var g := GenerationMessages(start, exec, latest, sep, stop);
      && (forall i :: 0 <= i < |g| - 1 ==> !IsErrorMessage(g[i]))
      && (IsErrorMessage(g[|g| - 1]) <==> start.Failed? || exec.Failed? || stop.Failed?)
  {
    OtherStatusesAreNotErrors("");
    assert forall e :: IsErrorMessage(ErrorMessage(e));
  }

  /** A found file is delivered exactly once, on `/musika_done`, right after
      `Generation complete!`, with `/` rewritten to the separator; nothing is
      delivered when the generation failed or no file turned up. */
  lemma FileDelivered(model: string, start: Outcome, exec: Outcome, latest: Option<string>, sep: char, stop: Outcome)
    ensures var m := Protocol(model, start, exec, latest, sep, stop);
      var found := model in ModelPaths && start.Ok? && exec.Ok? && latest.Some? && latest.value != "";
      && (found ==> |m| >= 3 && m[1] == (StatusAddress, CompleteText)
                    && m[2] == (DoneAddress, Replace(latest.value, '/', sep)))
      && (forall i :: 0 <= i < |m| && m[i].0 == DoneAddress ==> found && i == 2)
  {
  }
}
