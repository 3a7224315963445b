/** The listener process as the handler sees it: the container it drives and
    the log of what it has done, updated in place by `start_container`,
    `stop_container`, `is_container_running` and `generate_music`. */
module Listener {
  import opened Wrappers
  import opened Strings
  import opened Paths
  import opened Trace
  import opened Registry
  import opened Command
  import opened OutputWatcher
  import opened Docker
  import opened Handler

  class Listener {
    /** `OUTPUT_DIR` and `os.path.sep`, fixed at start-up. */
    const config: Config
    /** The container named `musika-container`. */
    var container: ContainerState
    /** Everything sent and called so far, oldest first. */
    var trace: seq<Event>

    ghost predicate Valid()
      reads this
    {
      ValidContainer(container)
    }

    /** Start-up: the output directory is `musika_outputs` under the home
        directory, and nothing has been sent or called yet. */
    constructor (home: string, sep: char, initial: ContainerState)
      requires ValidContainer(initial)
      ensures Valid()
      ensures config == Config(OutputDir(home), sep) && container == initial && trace == []
    {
      config := Config(OutputDir(home), sep);
      container := initial;
      trace := [];
    }

    /** `client.send_message(address, payload)`. */
    method SendMessage(address: string, payload: string)
      modifies this
      ensures container == old(container) && trace == old(trace) + [Send(address, payload)]
    {
      trace := trace + [Send(address, payload)];
    }

    /** `is_container_running()`: one `docker ps` query; true exactly when its
        stripped output is not empty, false when it raises. */
    method IsContainerRunning(queryFails: bool) returns (running: bool)
      requires Valid()
      modifies this
      ensures container == old(container) && trace == old(trace) + [Invoke(ListRunning)]
      ensures running <==> !queryFails && Strip(PsOutput(container, false)) != ""
      ensures running <==> !queryFails && container.Running?
    {
      trace := trace + [Invoke(ListRunning)];
      if queryFails {
        return false;
      }
      var output := PsOutput(container, false);
      QueryFindsRunning(container);
      running := Strip(output) != "";
    }

    /** `start_container()`: remove whatever container of the name exists,
        then run a fresh one; a raised call ends the step with its outcome. */
    method StartContainer(d: Responses) returns (outcome: Outcome)
      requires Valid() && IsContainerId(d.newId)
      modifies this
      ensures Valid()
      ensures var s := Start(old(container), config.outputDir, d);
        container == s.container && trace == old(trace) + s.events && outcome == s.outcome
    {
      ghost var c, t0 := container, trace;
      var existing := ListExisting(d.listAllFails);
      if existing != "" {
        trace := trace + [Invoke(ForceRemove(existing))];
        if d.remove.Failed? {
          StartRemoveFailed(c, config.outputDir, d);
          return d.remove;
        }
        container := Absent;
      }
      trace := trace + [Invoke(RunDetached(ContainerName, Image, Volume(config.outputDir)))];
      if d.run.Failed? {
        StartRunFailed(c, config.outputDir, d, t0, trace);
        return d.run;
      }
      StartRan(c, config.outputDir, d, t0, trace);
      container := Running(d.newId);
      return Ok;
    }

    /** The `docker ps -a` of `start_container`, stripped: the id of the
        container of the name in any state, or nothing. */
    method ListExisting(listAllFails: bool) returns (existing: string)
      requires Valid()
      modifies this
      ensures container == old(container) && trace == old(trace) + [Invoke(ListAll)]
      ensures existing == if !listAllFails && !container.Absent? then container.id else ""
    {
      trace := trace + [Invoke(ListAll)];
      existing := if listAllFails then "" else Strip(PsOutput(container, true));
      ListingFindsExisting(container, listAllFails);
    }

    /** `stop_container()`: `docker stop` only when the liveness query says
        the container runs. */
    method StopContainer(d: Responses) returns (outcome: Outcome)
      requires Valid()
      modifies this
      ensures Valid()
      ensures var s := Stop(old(container), d);
        container == s.container && trace == old(trace) + s.events && outcome == s.outcome
    {
      ghost var c, t0 := container, trace;
      var running := IsContainerRunning(d.queryFails);
      if running {
        var halt := Invoke(Call.StopContainer(ContainerName));
        trace := trace + [halt];
        StopIssued(c, d, t0, trace);
        if d.stop.Failed? {
          return d.stop;
        }
        container := Absent;
      } else {
        StopSkipped(c, d, t0, trace);
      }
      return Ok;
    }

    /** `get_latest_file(OUTPUT_DIR)` over the directory's current listing. */
    method LatestFile(listing: seq<Entry>) returns (latest: Option<string>)
      modifies this
      ensures container == old(container) && trace == old(trace) + [Invoke(ListDir(config.outputDir))]
      ensures latest == GetLatestFile(config.outputDir, listing)
    {
      trace := trace + [Invoke(ListDir(config.outputDir))];
      latest := GetLatestFile(config.outputDir, listing);
    }

    /** `generate_music(_, truncation, seconds, model)`, one episode, with the
        daemon's answers `d` and the output directory's listing after the
        command ran. Every `CalledProcessError` is caught and reported. */
    method GenerateMusic(trig: Trigger, d: Responses, listing: seq<Entry>)
      requires Valid() && IsContainerId(d.newId)
      modifies this
      ensures Valid()
      ensures var r := HandleTrigger(config, old(container), trig, d, listing);
        container == r.container && trace == old(trace) + r.events
    {
      ghost var c, t0 := container, trace;
      var modelPath := LoadPath(trig.model);
      if modelPath.None? {
        SendMessage(StatusAddress, NotFoundText(trig.model));
        HandledUnknown(config, c, trig, d, listing);
        return;
      }
      SendMessage(StatusAddress, StartingText);
      var outcome := StartContainer(d);
      if outcome.Failed? {
        SendMessage(StatusAddress, RunErrorPrefix + outcome.detail);
        HandledStartFailed(config, c, trig, d, listing, t0, trace);
        return;
      }
      var command := ExecCommand(modelPath.value, trig.seconds, trig.truncation);
      RunGeneration(command, d, listing);
      HandledStarted(config, c, trig, d, listing, t0, trace);
    }

    /** `get_latest_file(OUTPUT_DIR)`, then the report of what it found: the
        path, with `/` rewritten to the separator, or the no-file error. */
    method ReportLatest(listing: seq<Entry>)
      modifies this
      ensures container == old(container) && trace == old(trace) + Searched(config, listing)
    {
      ghost var t0 := trace;
      var latest := LatestFile(listing);
      ghost var listed := trace;
      if latest.Some? && latest.value != "" {
        var formatted := Replace(latest.value, '/', config.sep);
        SendMessage(StatusAddress, CompleteText);
        SendMessage(DoneAddress, formatted);
        assert trace == listed + [Status(CompleteText), Send(DoneAddress, formatted)];
      } else {
        SendMessage(StatusAddress, NoFileText);
        assert trace == listed + [Status(NoFileText)];
      }
      Reported(config, listing, latest, t0, listed, trace);
    }

    /** From `subprocess.run(musika_cmd, ...)` to the end of the `try`. */
    method RunGeneration(command: string, d: Responses, listing: seq<Entry>)
      requires Valid()
      modifies this
      ensures Valid()
      ensures var r := Execute(config, old(container), command, d, listing);
        container == r.container && trace == old(trace) + r.events
    {
      ghost var c, t0 := container, trace;
      trace := trace + [Invoke(ExecShell(command))];
      if d.exec.Failed? {
        SendMessage(StatusAddress, RunErrorPrefix + d.exec.detail);
        ExecFailed(config, c, command, d, listing);
        return;
      }
      ReportLatest(listing);
      ghost var searched := trace;
      var outcome := StopContainer(d);
      ghost var stopped := trace;
      if outcome.Failed? {
        SendMessage(StatusAddress, RunErrorPrefix + outcome.detail);
      }
      assert trace == stopped + Raised(outcome);
      ExecSucceeded(config, c, command, d, listing, t0, searched, stopped, trace);
    }
  }

  /** The listing followed by the report of what it found is the search. */
  lemma Reported(cfg: Config, listing: seq<Entry>, latest: Option<string>, t0: seq<Event>, listed: seq<Event>, t: seq<Event>)
    requires latest == GetLatestFile(cfg.outputDir, listing)
    requires listed == t0 + [Invoke(ListDir(cfg.outputDir))]
    requires t == listed + Report(latest, cfg.sep)
    ensures t == t0 + Searched(cfg, listing)
  {
  }

  /** The generation command raised: the error is reported and nothing else
      happens. */
  lemma ExecFailed(cfg: Config, c: ContainerState, command: string, d: Responses, listing: seq<Entry>)
    requires ValidContainer(c) && d.exec.Failed?
    ensures var r := Execute(cfg, c, command, d, listing);
      r.events == [Invoke(ExecShell(command)), RunError(d.exec.detail)] && r.container == c
  {
  }

  /** The generation command ran: the search, the stop and its error follow. */
  lemma ExecSucceeded(cfg: Config, c: ContainerState, command: string, d: Responses, listing: seq<Entry>,
                      t0: seq<Event>, searched: seq<Event>, stopped: seq<Event>, t: seq<Event>)
    requires ValidContainer(c) && d.exec.Ok?
    requires searched == t0 + [Invoke(ExecShell(command))] + Searched(cfg, listing)
    requires stopped == searched + Stop(c, d).events
    requires t == stopped + Raised(Stop(c, d).outcome)
    ensures t == t0 + Execute(cfg, c, command, d, listing).events
  {
    var stop := Stop(c, d);
    var x := Execute(cfg, c, command, d, listing);
    assert x.events == [Invoke(ExecShell(command))] + Searched(cfg, listing) + stop.events + Raised(stop.outcome);
    SeqAssoc(t0, [Invoke(ExecShell(command))] + Searched(cfg, listing), stop.events, Raised(stop.outcome));
  }

  /** `generate_music` with an unknown model. */
  lemma HandledUnknown(cfg: Config, c: ContainerState, trig: Trigger, d: Responses, listing: seq<Entry>)
    requires ValidContainer(c) && IsContainerId(d.newId) && trig.model !in ModelPaths
    ensures var r := HandleTrigger(cfg, c, trig, d, listing);
      r.events == [Status(NotFoundText(trig.model))] && r.container == c
  {
  }

  /** `generate_music` when `start_container` raises. */
  lemma HandledStartFailed(cfg: Config, c: ContainerState, trig: Trigger, d: Responses, listing: seq<Entry>,
                           t0: seq<Event>, t: seq<Event>)
    requires ValidContainer(c) && IsContainerId(d.newId) && trig.model in ModelPaths
    requires Start(c, cfg.outputDir, d).outcome.Failed?
    requires var s := Start(c, cfg.outputDir, d);
      t == t0 + [Status(StartingText)] + s.events + [RunError(s.outcome.detail)]
    ensures var r := HandleTrigger(cfg, c, trig, d, listing);
      t == t0 + r.events && r.container == Start(c, cfg.outputDir, d).container
  {
    var s := Start(c, cfg.outputDir, d);
    assert Generate(cfg, c, CommandFor(trig), d, listing).events == s.events + [RunError(s.outcome.detail)];
  }

  /** `generate_music` once the container is up. */
  lemma HandledStarted(cfg: Config, c: ContainerState, trig: Trigger, d: Responses, listing: seq<Entry>,
                       t0: seq<Event>, t: seq<Event>)
    requires ValidContainer(c) && IsContainerId(d.newId) && trig.model in ModelPaths
    requires Start(c, cfg.outputDir, d).outcome.Ok?
    requires var s := Start(c, cfg.outputDir, d);
      t == t0 + [Status(StartingText)] + s.events + Execute(cfg, s.container, CommandFor(trig), d, listing).events
    ensures var r := HandleTrigger(cfg, c, trig, d, listing);
      var s := Start(c, cfg.outputDir, d);
      t == t0 + r.events && r.container == Execute(cfg, s.container, CommandFor(trig), d, listing).container
  {
    var s := Start(c, cfg.outputDir, d);
    var x := Execute(cfg, s.container, CommandFor(trig), d, listing);
    var g := Generate(cfg, c, CommandFor(trig), d, listing);
    assert g.events == s.events + x.events;
    assert HandleTrigger(cfg, c, trig, d, listing).events == [Status(StartingText)] + g.events;
    SeqAssoc(t0, [Status(StartingText)], s.events, x.events);
  }

  /** Regrouping a trace of four parts, stated over plain sequences so that
      the solver does not unfold what the parts are. */
  lemma SeqAssoc(t0: seq<Event>, a: seq<Event>, b: seq<Event>, e: seq<Event>)
    ensures t0 + a + b + e == t0 + (a + (b + e))
    ensures t0 + a + b + e == t0 + (a + b + e)
  {
  }

  /** `start_container` when `docker rm -f` raises: nothing is run. */
  lemma StartRemoveFailed(c: ContainerState, outputDir: string, d: Responses)
    requires ValidContainer(c) && IsContainerId(d.newId)
    requires !d.listAllFails && !c.Absent? && d.remove.Failed?
    ensures var s := Start(c, outputDir, d);
      s.events == [Invoke(ListAll), Invoke(ForceRemove(c.id))] && s.container == c && s.outcome == d.remove
  {
  }

  /** `start_container` when `docker run` raises. */
  lemma StartRunFailed(c: ContainerState, outputDir: string, d: Responses, t0: seq<Event>, t: seq<Event>)
    requires ValidContainer(c) && IsContainerId(d.newId)
    requires !(!d.listAllFails && !c.Absent? && d.remove.Failed?) && d.run.Failed?
    requires t == t0 + [Invoke(ListAll)] + (if !d.listAllFails && !c.Absent? then [Invoke(ForceRemove(c.id))] else [])
                  + [Invoke(RunDetached(ContainerName, Image, Volume(outputDir)))]
    ensures var s := Start(c, outputDir, d);
      t == t0 + s.events && s.container == (if !d.listAllFails && !c.Absent? then Absent else c) && s.outcome == d.run
  {
  }

  /** `start_container` when the fresh container is up. */
  lemma StartRan(c: ContainerState, outputDir: string, d: Responses, t0: seq<Event>, t: seq<Event>)
    requires ValidContainer(c) && IsContainerId(d.newId)
    requires !(!d.listAllFails && !c.Absent? && d.remove.Failed?) && d.run.Ok?
    requires t == t0 + [Invoke(ListAll)] + (if !d.listAllFails && !c.Absent? then [Invoke(ForceRemove(c.id))] else [])
                  + [Invoke(RunDetached(ContainerName, Image, Volume(outputDir)))]
    ensures var s := Start(c, outputDir, d);
      t == t0 + s.events && s.container == Running(d.newId) && s.outcome == Ok
  {
  }

  /** `stop_container` when the query reports the container running. */
  lemma StopIssued(c: ContainerState, d: Responses, t0: seq<Event>, t: seq<Event>)
    requires ValidContainer(c) && !d.queryFails && c.Running?
    requires t == t0 + [Invoke(ListRunning)] + [Invoke(StopContainer(ContainerName))]
    ensures var s := Stop(c, d);
      && t == t0 + s.events
      && s.container == (if d.stop.Ok? then Absent else c) && s.outcome == d.stop
  {
  }

  /** `stop_container` when the query does not report it running. */
  lemma StopSkipped(c: ContainerState, d: Responses, t0: seq<Event>, t: seq<Event>)
    requires ValidContainer(c) && !(!d.queryFails && c.Running?)
    requires t == t0 + [Invoke(ListRunning)]
    ensures var s := Stop(c, d);
      t == t0 + s.events && s.container == c && s.outcome == Ok
  {
  }
}
