/** What one `generate_music` episode is guaranteed to do: its messages, its
    external calls, how often it touches the container, and the container it
    leaves behind. */
module Episode {
  import opened Wrappers
  import opened Strings
  import opened Trace
  import opened Registry
  import opened Command
  import opened OutputWatcher
  import opened Docker
  import opened Handler

  /** An unknown selector costs one status message and nothing else: no query,
      start, exec or stop, and the container is left as it was. */
  lemma UnknownModelRejected(cfg: Config, c: ContainerState, trig: Trigger, d: Responses, listing: seq<Entry>)
    requires ValidContainer(c) && IsContainerId(d.newId)
    requires trig.model !in ModelPaths
    ensures var r := HandleTrigger(cfg, c, trig, d, listing);
      r.events == [Send("/status", "Error: Model '" + trig.model + "' not found!")] && r.container == c
  {
  }

  /** A known selector is announced before the container is touched, and the
      first thing done to it is the `docker ps -a` of `start_container`. */
  lemma KnownModelAnnouncedFirst(cfg: Config, c: ContainerState, trig: Trigger, d: Responses, listing: seq<Entry>)
    requires ValidContainer(c) && IsContainerId(d.newId)
    requires trig.model in ModelPaths
    ensures var r := HandleTrigger(cfg, c, trig, d, listing);
      |r.events| >= 2 && r.events[0] == Send("/status", "Starting container and generating audio...")
      && r.events[1] == Invoke(ListAll)
  {
  }

  /** The message log of an episode follows the protocol. The stop raises
      exactly when the liveness query works and `docker stop` fails, since
      a successful start leaves the container running. */
  lemma EpisodeMessages(cfg: Config, c: ContainerState, trig: Trigger, d: Responses, listing: seq<Entry>)
    requires ValidContainer(c) && IsContainerId(d.newId)
    ensures Messages(HandleTrigger(cfg, c, trig, d, listing).events)
      == Protocol(trig.model, Start(c, cfg.outputDir, d).outcome, d.exec, GetLatestFile(cfg.outputDir, listing), cfg.sep,
                  if d.queryFails then Ok else d.stop)
  {
    var r := HandleTrigger(cfg, c, trig, d, listing);
    if trig.model !in ModelPaths {
      assert r.events == [Status(NotFoundText(trig.model))];
    } else {
      var g := Generate(cfg, c, CommandFor(trig), d, listing);
      assert r.events == [Status(StartingText)] + g.events;
      MessagesAppend([Status(StartingText)], g.events);
      GenerateMessages(cfg, c, CommandFor(trig), d, listing);
    }
  }

  /** The external calls of an episode, in order: none for an unknown model;
      otherwise those of `start_container`, and the rest only once the start
      succeeded. A failing generation command skips the search and the stop. */
  lemma EpisodeCalls(cfg: Config, c: ContainerState, trig: Trigger, d: Responses, listing: seq<Entry>)
    requires ValidContainer(c) && IsContainerId(d.newId)
    ensures var start := Start(c, cfg.outputDir, d);
      Calls(HandleTrigger(cfg, c, trig, d, listing).events)
      == if trig.model !in ModelPaths then []
         else Calls(start.events) + if start.outcome.Failed? then [] else CallsAfterStart(cfg, CommandFor(trig), d)
  {
    var r := HandleTrigger(cfg, c, trig, d, listing);
    if trig.model !in ModelPaths {
      assert r.events == [Status(NotFoundText(trig.model))];
    } else {
      var g := Generate(cfg, c, CommandFor(trig), d, listing);
      assert r.events == [Status(StartingText)] + g.events;
      CallsAppend([Status(StartingText)], g.events);
      GenerateCalls(cfg, c, CommandFor(trig), d, listing);
    }
  }

  /** The container an episode leaves: untouched for an unknown model; what
      a failed start left; otherwise the fresh container keeps running unless
      the command worked, the liveness query worked and `docker stop` worked,
      in which case it is gone. */
  lemma ContainerAfterEpisode(cfg: Config, c: ContainerState, trig: Trigger, d: Responses, listing: seq<Entry>)
    requires ValidContainer(c) && IsContainerId(d.newId)
    ensures var start := Start(c, cfg.outputDir, d);
      HandleTrigger(cfg, c, trig, d, listing).container
      == if trig.model !in ModelPaths then c
         else if start.outcome.Failed? then start.container
         else if d.exec.Ok? && !d.queryFails && d.stop.Ok? then Absent
         else Running(d.newId)
  {
    if trig.model in ModelPaths {
      var start := Start(c, cfg.outputDir, d);
      if start.outcome.Ok? {
        ExecuteContainer(cfg, start.container, CommandFor(trig), d, listing);
      }
    }
  }

  /** `docker run` is issued at most once per episode: exactly when the model
      is known and no earlier removal failed. */
  lemma RunsAtMostOnce(cfg: Config, c: ContainerState, trig: Trigger, d: Responses, listing: seq<Entry>)
    requires ValidContainer(c) && IsContainerId(d.newId)
    ensures Tally(HandleTrigger(cfg, c, trig, d, listing).events, IsRun)
      == if trig.model in ModelPaths && (d.listAllFails || c.Absent? || d.remove.Ok?) then 1 else 0
  {
    HandleTally(cfg, c, trig, d, listing, IsRun);
    StartTally(c, cfg.outputDir, d, IsRun);
  }

  /** A stale container is force-removed at most once per episode: exactly when
      the model is known and `docker ps -a` listed it. */
  lemma RemovesAtMostOnce(cfg: Config, c: ContainerState, trig: Trigger, d: Responses, listing: seq<Entry>)
    requires ValidContainer(c) && IsContainerId(d.newId)
    ensures Tally(HandleTrigger(cfg, c, trig, d, listing).events, IsRemove)
      == if trig.model in ModelPaths && !d.listAllFails && !c.Absent? then 1 else 0
  {
    HandleTally(cfg, c, trig, d, listing, IsRemove);
    StartTally(c, cfg.outputDir, d, IsRemove);
  }

  /** The generation command runs at most once per episode: exactly when the
      model is known and the container started. */
  lemma ExecutesAtMostOnce(cfg: Config, c: ContainerState, trig: Trigger, d: Responses, listing: seq<Entry>)
    requires ValidContainer(c) && IsContainerId(d.newId)
    ensures Tally(HandleTrigger(cfg, c, trig, d, listing).events, IsExec)
      == if trig.model in ModelPaths && Start(c, cfg.outputDir, d).outcome.Ok? then 1 else 0
  {
    HandleTally(cfg, c, trig, d, listing, IsExec);
    StartTally(c, cfg.outputDir, d, IsExec);
  }

  /** The report of what the search found: `Generation complete!`, the path
      on `/musika_done`, or `Error: No file generated!`. */
  predicate IsReport(e: Event) {
    e == Status(CompleteText) || e == Status(NoFileText) || (e.Send? && e.address == DoneAddress)
  }

  /** A `/status` message that reports a `CalledProcessError`. */
  predicate IsRunError(e: Event) {
    e.Send? && IsErrorMessage((e.address, e.payload))
  }

  predicate IsQuery(e: Event) {
    e == Invoke(ListRunning)
  }

  predicate IsStopCall(e: Event) {
    e == Invoke(StopContainer(ContainerName))
  }

  /** Once the container is up and the command has run, the outcome is reported
      before `stop_container` begins: every report message precedes the
      liveness query, and there is one of each. A stop error is sent after
      the `docker stop` that raised it. */
  lemma ReportBeforeStop(cfg: Config, c: ContainerState, trig: Trigger, d: Responses, listing: seq<Entry>)
    requires ValidContainer(c) && IsContainerId(d.newId)
    requires trig.model in ModelPaths && Start(c, cfg.outputDir, d).outcome.Ok? && d.exec.Ok?
    ensures var t := HandleTrigger(cfg, c, trig, d, listing).events;
      && (exists i :: 0 <= i < |t| && IsReport(t[i]))
      && (exists j :: 0 <= j < |t| && IsQuery(t[j]))
      && (forall i, j :: 0 <= i < |t| && 0 <= j < |t| && IsReport(t[i]) && IsQuery(t[j]) ==> i < j)
      && (forall i, j :: 0 <= i < |t| && 0 <= j < |t| && IsStopCall(t[i]) && IsRunError(t[j]) ==> i < j)
  {
    var s := Start(c, cfg.outputDir, d);
    var stop := Stop(s.container, d);
    var t := HandleTrigger(cfg, c, trig, d, listing).events;
    var pre := [Status(StartingText)] + s.events + [Invoke(ExecShell(CommandFor(trig)))];
    var found := Searched(cfg, listing);
    EpisodeParts(cfg, c, trig, d, listing);
    assert t == pre + found + (stop.events + Raised(stop.outcome));
    assert t == pre + found + stop.events + Raised(stop.outcome);
    PrefixQuiet(cfg, c, trig, d);
    SearchedQuiet(cfg, listing);
    StopQuiet(s.container, d);
    RaisedQuiet(stop.outcome);
    assert IsReport(found[1]) && IsQuery(stop.events[0]);
    assert t[|pre| + 1] == found[1] && t[|pre| + |found|] == stop.events[0];
    Ordered(pre + found, stop.events + Raised(stop.outcome), IsReport, IsQuery);
    Ordered(pre + found + stop.events, Raised(stop.outcome), IsStopCall, IsRunError);
  }

  /** A raised call ends the episode: the run error is the last event, and the
      event right before it is the call that raised, whether that is the
      removal or the run in `start_container` or the generation command. */
  lemma ErrorFollowsRaisingCall(cfg: Config, c: ContainerState, trig: Trigger, d: Responses, listing: seq<Entry>)
    requires ValidContainer(c) && IsContainerId(d.newId) && trig.model in ModelPaths
    ensures var t := HandleTrigger(cfg, c, trig, d, listing).events;
      var s := Start(c, cfg.outputDir, d);
      && (s.outcome.Failed? ==>
            |t| >= 3 && t[|t| - 1] == RunError(s.outcome.detail)
            && t[|t| - 2] == if !d.listAllFails && !c.Absent? && d.remove.Failed? then Invoke(ForceRemove(c.id))
                             else Invoke(RunDetached(ContainerName, Image, Volume(cfg.outputDir))))
      && (s.outcome.Ok? && d.exec.Failed? ==>
            |t| >= 3 && t[|t| - 1] == RunError(d.exec.detail) && t[|t| - 2] == Invoke(ExecShell(CommandFor(trig))))
  {
    var s := Start(c, cfg.outputDir, d);
    var t := HandleTrigger(cfg, c, trig, d, listing).events;
    if s.outcome.Failed? {
      StartRemovesThenRuns(c, cfg.outputDir, d);
      assert t == [Status(StartingText)] + (s.events + [RunError(s.outcome.detail)]);
    } else if d.exec.Failed? {
      var x := Execute(cfg, s.container, CommandFor(trig), d, listing);
      assert x.events == [Invoke(ExecShell(CommandFor(trig))), RunError(d.exec.detail)];
      assert t == [Status(StartingText)] + (s.events + x.events);
    }
  }

  /** A known model whose start succeeded and whose command ran: the episode
      is the announcement, the start, the command, the search, the stop and
      the stop's error. */
  lemma EpisodeParts(cfg: Config, c: ContainerState, trig: Trigger, d: Responses, listing: seq<Entry>)
    requires ValidContainer(c) && IsContainerId(d.newId)
    requires trig.model in ModelPaths && Start(c, cfg.outputDir, d).outcome.Ok? && d.exec.Ok?
    ensures var s := Start(c, cfg.outputDir, d);
      var stop := Stop(s.container, d);
      HandleTrigger(cfg, c, trig, d, listing).events
      == [Status(StartingText)] + s.events + [Invoke(ExecShell(CommandFor(trig)))]
         + Searched(cfg, listing) + (stop.events + Raised(stop.outcome))
  {
    var s := Start(c, cfg.outputDir, d);
    var stop := Stop(s.container, d);
    var x := Execute(cfg, s.container, CommandFor(trig), d, listing);
    var g := Generate(cfg, c, CommandFor(trig), d, listing);
    assert g.events == s.events + x.events;
    var e := [Invoke(ExecShell(CommandFor(trig)))];
    assert x.events == e + Searched(cfg, listing) + stop.events + Raised(stop.outcome);
    SeqRegroup([Status(StartingText)], s.events, e, Searched(cfg, listing), stop.events + Raised(stop.outcome));
  }

  lemma SeqRegroup(a: seq<Event>, b: seq<Event>, e: seq<Event>, f: seq<Event>, g: seq<Event>)
    ensures a + (b + (e + f + g)) == a + b + e + f + g
  {
  }

  /** Everything before the search: no report, query, stop or run error. */
  lemma PrefixQuiet(cfg: Config, c: ContainerState, trig: Trigger, d: Responses)
    requires ValidContainer(c) && IsContainerId(d.newId) && trig.model in ModelPaths
    ensures var pre := [Status(StartingText)] + Start(c, cfg.outputDir, d).events + [Invoke(ExecShell(CommandFor(trig)))];
      forall k :: 0 <= k < |pre| ==> !IsReport(pre[k]) && !IsQuery(pre[k]) && !IsStopCall(pre[k]) && !IsRunError(pre[k])
  {
    var s := Start(c, cfg.outputDir, d);
    OtherStatusesAreNotErrors(trig.model);
    assert StartingText[0] == 'S' && CompleteText[0] == 'G' && NoFileText[0] == 'E';
    assert forall k :: 0 <= k < |s.events| ==> !s.events[k].Send? && !s.events[k].call.ListRunning? && !s.events[k].call.StopContainer?;
  }

  /** The search holds no query, stop or run error. */
  lemma SearchedQuiet(cfg: Config, listing: seq<Entry>)
    ensures var f := Searched(cfg, listing);
      forall k :: 0 <= k < |f| ==> !IsQuery(f[k]) && !IsStopCall(f[k]) && !IsRunError(f[k])
  {
    OtherStatusesAreNotErrors("");
    var latest := GetLatestFile(cfg.outputDir, listing);
    var f := Searched(cfg, listing);
    if latest.Some? && latest.value != "" {
      var done := Send(DoneAddress, Replace(latest.value, '/', cfg.sep));
      assert f == [Invoke(ListDir(cfg.outputDir)), Status(CompleteText), done];
      assert !IsRunError(done);
    } else {
      assert f == [Invoke(ListDir(cfg.outputDir)), Status(NoFileText)];
    }
  }

  /** `stop_container`'s calls are not report messages or run errors. */
  lemma StopQuiet(c: ContainerState, d: Responses)
    requires ValidContainer(c)
    ensures var e := Stop(c, d).events;
      forall k :: 0 <= k < |e| ==> !IsReport(e[k]) && !IsRunError(e[k])
  {
  }

  /** The `except` clause sends run errors only. */
  lemma RaisedQuiet(o: Outcome)
    ensures var e := Raised(o);
      forall k :: 0 <= k < |e| ==> !IsReport(e[k]) && !IsQuery(e[k]) && !IsStopCall(e[k])
  {
    assert RunErrorPrefix[0] == 'E' && RunErrorPrefix[5] == ' ' && CompleteText[0] == 'G' && NoFileText[5] == ':';
  }

  /** When `q` holds nowhere in `a` and `p` nowhere in `b`, every `p` event
      of `a + b` comes before every `q` event. */
  lemma Ordered(a: seq<Event>, b: seq<Event>, p: Event -> bool, q: Event -> bool)
    requires forall k :: 0 <= k < |a| ==> !q(a[k])
    requires forall k :: 0 <= k < |b| ==> !p(b[k])
    ensures forall i, j :: 0 <= i < |a + b| && 0 <= j < |a + b| && p((a + b)[i]) && q((a + b)[j]) ==> i < j
  {
  }

  // ----- Messages, piece by piece -----

  lemma GenerateMessages(cfg: Config, c: ContainerState, command: string, d: Responses, listing: seq<Entry>)
    requires ValidContainer(c) && IsContainerId(d.newId)
    ensures Messages(Generate(cfg, c, command, d, listing).events)
      == GenerationMessages(Start(c, cfg.outputDir, d).outcome, d.exec, GetLatestFile(cfg.outputDir, listing), cfg.sep,
                            if d.queryFails then Ok else d.stop)
  {
    var start := Start(c, cfg.outputDir, d);
    var g := Generate(cfg, c, command, d, listing);
    StartSendsNothing(c, cfg.outputDir, d);
    if start.outcome.Failed? {
      MessagesAppend(start.events, Raised(start.outcome));
      RaisedMessages(start.outcome);
    } else {
      var x := Execute(cfg, start.container, command, d, listing);
      MessagesAppend(start.events, x.events);
      ExecuteMessages(cfg, start.container, command, d, listing);
    }
  }

  lemma ExecuteMessages(cfg: Config, c: ContainerState, command: string, d: Responses, listing: seq<Entry>)
    requires c.Running? && IsContainerId(c.id)
    ensures Messages(Execute(cfg, c, command, d, listing).events)
      == GenerationMessages(Ok, d.exec, GetLatestFile(cfg.outputDir, listing), cfg.sep, if d.queryFails then Ok else d.stop)
  {
    var a := [Invoke(ExecShell(command))];
    RaisedMessages(d.exec);
    if d.exec.Failed? {
      MessagesAppend(a, Raised(d.exec));
    } else {
      var stop := Stop(c, d);
      StopSendsNothing(c, d);
      SearchedMessages(cfg, listing);
      RaisedMessages(stop.outcome);
      MessagesOfFour(a, Searched(cfg, listing), stop.events, Raised(stop.outcome));
    }
  }

  /** `start_container` sends nothing. */
  lemma StartSendsNothing(c: ContainerState, outputDir: string, d: Responses)
    requires ValidContainer(c) && IsContainerId(d.newId)
    ensures Messages(Start(c, outputDir, d).events) == []
  {
    var s := Start(c, outputDir, d);
    assert forall i :: 0 <= i < |s.events| ==> s.events[i].Invoke?;
    CallsOnly(s.events);
  }

  /** `stop_container` sends nothing. */
  lemma StopSendsNothing(c: ContainerState, d: Responses)
    requires ValidContainer(c)
    ensures Messages(Stop(c, d).events) == []
  {
    if !d.queryFails && c.Running? {
      MessagesAppend([Invoke(ListRunning)], [Invoke(StopContainer(ContainerName))]);
    } else {
      assert Stop(c, d).events == [Invoke(ListRunning)];
    }
  }

  lemma SearchedMessages(cfg: Config, listing: seq<Entry>)
    ensures var latest := GetLatestFile(cfg.outputDir, listing);
      Messages(Searched(cfg, listing))
      == if latest.Some? && latest.value != "" then
           [(StatusAddress, CompleteText), (DoneAddress, Replace(latest.value, '/', cfg.sep))]
         else [(StatusAddress, NoFileText)]
  {
    var report := Report(GetLatestFile(cfg.outputDir, listing), cfg.sep);
    MessagesAppend([Invoke(ListDir(cfg.outputDir))], report);
  }

  lemma RaisedMessages(o: Outcome)
    ensures Messages(Raised(o)) == if o.Failed? then [ErrorMessage(o.detail)] else []
  {
  }

  lemma MessagesOfFour(a: seq<Event>, b: seq<Event>, c: seq<Event>, e: seq<Event>)
    requires Messages(a) == [] && Messages(c) == []
    ensures Messages(a + b + c + e) == Messages(b) + Messages(e)
  {
    MessagesAppend(a, b);
    MessagesAppend(a + b, c);
    MessagesAppend(a + b + c, e);
  }

  // ----- Calls, piece by piece -----

  lemma GenerateCalls(cfg: Config, c: ContainerState, command: string, d: Responses, listing: seq<Entry>)
    requires ValidContainer(c) && IsContainerId(d.newId)
    ensures var start := Start(c, cfg.outputDir, d);
      Calls(Generate(cfg, c, command, d, listing).events)
      == Calls(start.events) + if start.outcome.Failed? then [] else CallsAfterStart(cfg, command, d)
  {
    var start := Start(c, cfg.outputDir, d);
    if start.outcome.Failed? {
      CallsAppend(start.events, Raised(start.outcome));
      RaisedCalls(start.outcome);
    } else {
      var x := Execute(cfg, start.container, command, d, listing);
      CallsAppend(start.events, x.events);
      ExecuteCalls(cfg, start.container, command, d, listing);
    }
  }

  lemma ExecuteCalls(cfg: Config, c: ContainerState, command: string, d: Responses, listing: seq<Entry>)
    requires c.Running? && IsContainerId(c.id)
    ensures Calls(Execute(cfg, c, command, d, listing).events) == CallsAfterStart(cfg, command, d)
  {
    if d.exec.Failed? {
      var a := [Invoke(ExecShell(command))];
      CallsAppend(a, Raised(d.exec));
      RaisedCalls(d.exec);
    } else {
      ExecutedCalls(cfg, c, command, d, listing);
      StopCalls(c, d);
      CallsAfterExec(cfg, command, d);
    }
  }

  lemma CallsAfterExec(cfg: Config, command: string, d: Responses)
    requires d.exec.Ok?
    ensures CallsAfterStart(cfg, command, d)
      == [ExecShell(command), ListDir(cfg.outputDir)]
         + ([ListRunning] + if !d.queryFails then [StopContainer(ContainerName)] else [])
  {
  }

  lemma ExecutedCalls(cfg: Config, c: ContainerState, command: string, d: Responses, listing: seq<Entry>)
    requires ValidContainer(c) && d.exec.Ok?
    ensures Calls(Execute(cfg, c, command, d, listing).events)
      == [ExecShell(command), ListDir(cfg.outputDir)] + Calls(Stop(c, d).events)
  {
    var a := [Invoke(ExecShell(command))];
    var stop := Stop(c, d);
    SearchedCalls(cfg, listing);
    RaisedCalls(stop.outcome);
    CallsOfFour(a, Searched(cfg, listing), stop.events, Raised(stop.outcome));
    assert Calls(a) == [ExecShell(command)];
  }

  lemma SearchedCalls(cfg: Config, listing: seq<Entry>)
    ensures Calls(Searched(cfg, listing)) == [ListDir(cfg.outputDir)]
  {
    var report := Report(GetLatestFile(cfg.outputDir, listing), cfg.sep);
    CallsAppend([Invoke(ListDir(cfg.outputDir))], report);
    assert Calls(report) == [];
  }

  lemma StopCalls(c: ContainerState, d: Responses)
    requires ValidContainer(c)
    ensures Calls(Stop(c, d).events)
      == [ListRunning] + if !d.queryFails && c.Running? then [StopContainer(ContainerName)] else []
  {
    if !d.queryFails && c.Running? {
      CallsAppend([Invoke(ListRunning)], [Invoke(StopContainer(ContainerName))]);
    } else {
      assert Stop(c, d).events == [Invoke(ListRunning)];
    }
  }

  lemma RaisedCalls(o: Outcome)
    ensures Calls(Raised(o)) == []
  {
  }

  lemma CallsOfFour(a: seq<Event>, b: seq<Event>, c: seq<Event>, e: seq<Event>)
    requires Calls(e) == []
    ensures Calls(a + b + c + e) == Calls(a) + Calls(b) + Calls(c)
  {
    CallsAppend(a, b);
    CallsAppend(a + b, c);
    CallsAppend(a + b + c, e);
  }

  lemma ExecuteContainer(cfg: Config, c: ContainerState, command: string, d: Responses, listing: seq<Entry>)
    requires c.Running? && IsContainerId(c.id)
    ensures Execute(cfg, c, command, d, listing).container
      == if d.exec.Ok? && !d.queryFails && d.stop.Ok? then Absent else c
  {
  }

  // ----- Counting, piece by piece -----

  /** The same count for a whole episode; an unknown model makes no call. */
  lemma HandleTally(cfg: Config, c: ContainerState, trig: Trigger, d: Responses, listing: seq<Entry>, p: Event -> bool)
    requires ValidContainer(c) && IsContainerId(d.newId)
    requires !p(Invoke(ListDir(cfg.outputDir))) && !p(Invoke(ListRunning)) && !p(Invoke(StopContainer(ContainerName)))
    requires forall e: Event :: e.Send? ==> !p(e)
    ensures var start := Start(c, cfg.outputDir, d);
      Tally(HandleTrigger(cfg, c, trig, d, listing).events, p)
      == if trig.model !in ModelPaths then 0
         else Tally(start.events, p) + (if start.outcome.Ok? && p(Invoke(ExecShell(CommandFor(trig)))) then 1 else 0)
  {
    var r := HandleTrigger(cfg, c, trig, d, listing);
    var head := [Status(NotFoundText(trig.model))];
    if trig.model !in ModelPaths {
      assert r.events == head;
      TallyNone(head, p);
    } else {
      var g := Generate(cfg, c, CommandFor(trig), d, listing);
      var announce := [Status(StartingText)];
      assert r.events == announce + g.events;
      TallyNone(announce, p);
      TallyAppend(announce, g.events, p);
      GenerateTally(cfg, c, CommandFor(trig), d, listing, p);
    }
  }

  /** Events of an episode that satisfy a `p` which holds for no message and
      for none of the calls made after the generation command: those of
      `start_container`, plus the generation command when the start succeeded. */
  lemma GenerateTally(cfg: Config, c: ContainerState, command: string, d: Responses, listing: seq<Entry>, p: Event -> bool)
    requires ValidContainer(c) && IsContainerId(d.newId)
    requires !p(Invoke(ListDir(cfg.outputDir))) && !p(Invoke(ListRunning)) && !p(Invoke(StopContainer(ContainerName)))
    requires forall e: Event :: e.Send? ==> !p(e)
    ensures var start := Start(c, cfg.outputDir, d);
      Tally(Generate(cfg, c, command, d, listing).events, p)
      == Tally(start.events, p) + (if start.outcome.Ok? && p(Invoke(ExecShell(command))) then 1 else 0)
  {
    var start := Start(c, cfg.outputDir, d);
    if start.outcome.Failed? {
      RaisedTally(start.outcome, p);
      TallyAppend(start.events, Raised(start.outcome), p);
    } else {
      var x := Execute(cfg, start.container, command, d, listing);
      ExecuteTally(cfg, start.container, command, d, listing, p);
      TallyAppend(start.events, x.events, p);
    }
  }

  /** How many events of `start_container` satisfy `p`: one per call made. */
  lemma StartTally(c: ContainerState, outputDir: string, d: Responses, p: Event -> bool)
    requires ValidContainer(c) && IsContainerId(d.newId)
    ensures var removes := !d.listAllFails && !c.Absent?;
      var runs := !removes || d.remove.Ok?;
      Tally(Start(c, outputDir, d).events, p)
      == (if p(Invoke(ListAll)) then 1 else 0)
         + (if removes && p(Invoke(ForceRemove(c.id))) then 1 else 0)
         + (if runs && p(Invoke(RunDetached(ContainerName, Image, Volume(outputDir)))) then 1 else 0)
  {
    var s := Start(c, outputDir, d);
    var removes := !d.listAllFails && !c.Absent?;
    var runs := !removes || d.remove.Ok?;
    var a := [Invoke(ListAll)];
    var b := if removes then [Invoke(ForceRemove(c.id))] else [];
    var e := if runs then [Invoke(RunDetached(ContainerName, Image, Volume(outputDir)))] else [];
    assert s.events == (a + b) + e;
    TallyAppend(a + b, e, p);
    TallyAppend(a, b, p);
  }

  /** Past the start, the generation command is executed once; every
      other event is a message, the directory listing or part of the stop. */
  lemma ExecuteTally(cfg: Config, c: ContainerState, command: string, d: Responses, listing: seq<Entry>, p: Event -> bool)
    requires ValidContainer(c)
    requires !p(Invoke(ListDir(cfg.outputDir))) && !p(Invoke(ListRunning)) && !p(Invoke(StopContainer(ContainerName)))
    requires forall e: Event :: e.Send? ==> !p(e)
    ensures Tally(Execute(cfg, c, command, d, listing).events, p) == if p(Invoke(ExecShell(command))) then 1 else 0
  {
    var a := [Invoke(ExecShell(command))];
    RaisedTally(d.exec, p);
    if d.exec.Failed? {
      TallyAppend(a, Raised(d.exec), p);
    } else {
      var stop := Stop(c, d);
      SearchedTally(cfg, listing, p);
      StopTally(c, d, p);
      RaisedTally(stop.outcome, p);
      TallyOfFour(a, Searched(cfg, listing), stop.events, Raised(stop.outcome), p);
    }
  }

  lemma SearchedTally(cfg: Config, listing: seq<Entry>, p: Event -> bool)
    requires !p(Invoke(ListDir(cfg.outputDir)))
    requires forall e: Event :: e.Send? ==> !p(e)
    ensures Tally(Searched(cfg, listing), p) == 0
  {
    var report := Report(GetLatestFile(cfg.outputDir, listing), cfg.sep);
    TallyNone([Invoke(ListDir(cfg.outputDir))], p);
    TallyNone(report, p);
    TallyAppend([Invoke(ListDir(cfg.outputDir))], report, p);
  }

  lemma StopTally(c: ContainerState, d: Responses, p: Event -> bool)
    requires ValidContainer(c)
    requires !p(Invoke(ListRunning)) && !p(Invoke(StopContainer(ContainerName)))
    ensures Tally(Stop(c, d).events, p) == 0
  {
    if !d.queryFails && c.Running? {
      StoppingTally(p);
    } else {
      assert Stop(c, d).events == [Invoke(ListRunning)];
      TallyNone([Invoke(ListRunning)], p);
    }
  }

  lemma StoppingTally(p: Event -> bool)
    requires !p(Invoke(ListRunning)) && !p(Invoke(StopContainer(ContainerName)))
    ensures Tally([Invoke(ListRunning)] + [Invoke(StopContainer(ContainerName))], p) == 0
  {
    TallyNone([Invoke(ListRunning)], p);
    TallyNone([Invoke(StopContainer(ContainerName))], p);
    TallyAppend([Invoke(ListRunning)], [Invoke(StopContainer(ContainerName))], p);
  }

  lemma RaisedTally(o: Outcome, p: Event -> bool)
    requires forall e: Event :: e.Send? ==> !p(e)
    ensures Tally(Raised(o), p) == 0
  {
    TallyNone(Raised(o), p);
  }

  lemma TallyOfFour(a: seq<Event>, b: seq<Event>, c: seq<Event>, e: seq<Event>, p: Event -> bool)
    requires Tally(b, p) == 0 && Tally(c, p) == 0 && Tally(e, p) == 0
    ensures Tally(a + b + c + e, p) == Tally(a, p)
  {
    TallyAppend(a, b, p);
    TallyAppend(a + b, c, p);
    TallyAppend(a + b + c, e, p);
  }
}
