/** The container lifecycle as `start_container`, `stop_container` and
    `is_container_running` drive it, over an abstract container state. */
module Docker {
  import opened Strings
  import opened Trace
  import opened Command

  /** The container named `musika-container`, as docker knows it. */
  datatype ContainerState = Absent | Stopped(id: string) | Running(id: string)

  predicate IsHexDigit(c: char) {
    ('0' <= c <= '9') || ('a' <= c <= 'f')
  }

  /** Docker prints container ids as non-empty lower-case hexadecimal. */
  predicate IsContainerId(id: string) {
    |id| > 0 && forall i :: 0 <= i < |id| ==> IsHexDigit(id[i])
  }

  predicate ValidContainer(c: ContainerState) {
    c.Absent? || IsContainerId(c.id)
  }

  /** What the daemon answers to the external calls of one episode. */
  datatype Responses = Responses(
    listAllFails: bool,  // `docker ps -a` exits non-zero and prints nothing
    remove: Outcome,     // `docker rm -f`
    run: Outcome,        // `docker run`
    newId: string,       // the id `docker run` gives the fresh container
    exec: Outcome,       // the generation command
    queryFails: bool,    // `docker ps` raises, or exits non-zero and prints nothing
    stop: Outcome)       // `docker stop`

  /** A step's container afterwards, the events it caused, and whether it raised. */
  datatype Effect = Effect(container: ContainerState, events: seq<Event>, outcome: Outcome)

  /** Standard output of `docker ps [-a] --filter name=... --format {{.ID}}`:
      the id on a line of its own when the container is listed. */
  function PsOutput(c: ContainerState, all: bool): (out: string)
    ensures out != "" <==> c.Running? || (all && c.Stopped?)
    ensures out != "" ==> EndsWith(out, "\n") && out[..|out| - 1] == c.id
  {
    if c.Running? || (all && c.Stopped?) then c.id + "\n" else ""
  }

  lemma ListedIdStrips(id: string)
    requires IsContainerId(id)
    ensures Strip(id + "\n") == id
  {
    assert "" + id + "\n" == id + "\n";
    StripPadded("", id, "\n");
  }

  /** What `start_container` reads from `docker ps -a`: the id of the
      container of the name in any state, or nothing when there is none or the
      listing failed. */
  lemma ListingFindsExisting(c: ContainerState, listAllFails: bool)
    requires ValidContainer(c)
    ensures (if listAllFails then "" else Strip(PsOutput(c, true)))
         == (if !listAllFails && !c.Absent? then c.id else "")
  {
    if !listAllFails && !c.Absent? {
      ListedIdStrips(c.id);
    }
  }

  /** What `is_container_running` reads from `docker ps`: something exactly
      when the container runs. */
  lemma QueryFindsRunning(c: ContainerState)
    requires ValidContainer(c)
    ensures Strip(PsOutput(c, false)) != "" <==> c.Running?
  {
    if c.Running? {
      ListedIdStrips(c.id);
    }
  }

  /** The `-v` argument: the output directory mounted as `/output`. */
  function Volume(outputDir: string): string {
    outputDir + ":/output"
  }

  /** `start_container()`. It lists all containers of the name; when one
      exists in any state it is force-removed by its id, and when none exists
      nothing is removed; then a fresh container is run, unless the removal
      raised. The first `CalledProcessError` ends the step. A failed listing
      prints nothing and so reads as "none exists". */
  function Start(c: ContainerState, outputDir: string, d: Responses): (r: Effect)
    requires ValidContainer(c) && IsContainerId(d.newId)
    ensures ValidContainer(r.container)
    ensures 1 <= |r.events| <= 3 && r.events[0] == Invoke(ListAll)
    ensures r.outcome.Ok? ==> r.container == Running(d.newId)
    ensures r.outcome.Failed? ==> r.outcome == d.remove || r.outcome == d.run
  {
    var removes := !d.listAllFails && !c.Absent?;
    var runs := !removes || d.remove.Ok?;
    var events := [Invoke(ListAll)]
                  + (if removes then [Invoke(ForceRemove(c.id))] else [])
                  + (if runs then [Invoke(RunDetached(ContainerName, Image, Volume(outputDir)))] else []);
    if !runs then Effect(c, events, d.remove)
    else if d.run.Failed? then Effect(if removes then Absent else c, events, d.run)
    else Effect(Running(d.newId), events, Ok)
  }

  /** `stop_container()`: `docker stop` is issued only when the liveness query
      (`is_container_running()`) says the container runs, which is exactly when
      the query works and the container is running. Because the container was
      started with `--rm`, a stopped container is gone. */
  function Stop(c: ContainerState, d: Responses): (r: Effect)
    requires ValidContainer(c)
    ensures ValidContainer(r.container)
    ensures 1 <= |r.events| <= 2 && r.events[0] == Invoke(ListRunning)
    ensures r.container == c || (r.container == Absent && r.outcome.Ok?)
    ensures r.outcome.Failed? ==> r.outcome == d.stop
  {
    var queried := [Invoke(ListRunning)];
    if d.queryFails || !c.Running? then Effect(c, queried, Ok)
    else
      var stopping := queried + [Invoke(StopContainer(ContainerName))];
      if d.stop.Failed? then Effect(c, stopping, d.stop)
      else Effect(Absent, stopping, Ok)
  }

  /** `start_container` begins with the listing, removes a listed container
      before anything else, and ends with `docker run` of the fixed name
      unless the removal raised; it raises only with the removal's or the
      run's error, and when it does not raise the fresh container runs. */
  lemma StartRemovesThenRuns(c: ContainerState, outputDir: string, d: Responses)
    requires ValidContainer(c) && IsContainerId(d.newId)
    ensures var s := Start(c, outputDir, d);
      var removes := !d.listAllFails && !c.Absent?;
      var run := Invoke(RunDetached(ContainerName, Image, Volume(outputDir)));
      && 1 <= |s.events| <= 3 && s.events[0] == Invoke(ListAll)
      && (removes ==> s.events[1] == Invoke(ForceRemove(c.id)))
      && (!removes ==> s.events == [Invoke(ListAll), run])
      && (s.events[|s.events| - 1] == run <==> !(removes && d.remove.Failed?))
      && (s.outcome.Failed? <==> (removes && d.remove.Failed?) || (!(removes && d.remove.Failed?) && d.run.Failed?))
      && (s.outcome.Ok? ==> s.container == Running(d.newId))
  {
    var s := Start(c, outputDir, d);
    if !d.listAllFails && !c.Absent? && d.remove.Failed? {
      assert s.events == [Invoke(ListAll), Invoke(ForceRemove(c.id))];
    }
  }

  /** `stop_container` always queries first, and issues `docker stop` (as its
      second and last call) exactly when the container runs and the query
      works; it can raise only then. */
  lemma StopOnlyWhenRunning(c: ContainerState, d: Responses)
    requires ValidContainer(c)
    ensures var s := Stop(c, d);
      var stops := !d.queryFails && c.Running?;
      && s.events[0] == Invoke(ListRunning)
      && (|s.events| == 2 <==> stops) && (stops ==> s.events[1] == Invoke(StopContainer(ContainerName)))
      && |s.events| <= 2
      && (s.outcome.Failed? ==> stops && s.outcome == d.stop)
      && (s.container == Absent <==> (stops && d.stop.Ok?) || c.Absent?)
  {
  }
}
