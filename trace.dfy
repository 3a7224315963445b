/** What the listener does that others can observe, in the order it does it:
    outbound OSC messages and calls to docker, the shell and the file system. */
module Trace {

  /** An external call. Each either completes or, for the checked ones,
      raises `CalledProcessError`. */
  datatype Call =
    | ListRunning                                       // docker ps --filter name=<container> --format {{.ID}}
    | ListAll                                           // docker ps -a --filter name=<container> --format {{.ID}}
    | ForceRemove(id: string)                           // docker rm -f <id>
    | RunDetached(name: string, image: string, volume: string)  // docker run --rm -dit --gpus all --name <name> -v <volume> <image>
    | ExecShell(command: string)                        // the generation command, through the shell
    | StopContainer(name: string)                       // docker stop <name>
    | ListDir(path: string)                             // os.listdir and os.path.getmtime on the output directory

  datatype Event =
    | Send(address: string, payload: string)            // client.send_message(address, payload)
    | Invoke(call: Call)

  /** How a checked call ended: normally, or with `CalledProcessError`, whose
      text is `detail`. */
  datatype Outcome = Ok | Failed(detail: string)

  predicate IsRun(e: Event) {
    e.Invoke? && e.call.RunDetached?
  }

  predicate IsExec(e: Event) {
    e.Invoke? && e.call.ExecShell?
  }

  predicate IsRemove(e: Event) {
    e.Invoke? && e.call.ForceRemove?
  }

  /** Number of events of `t` that satisfy `p`. */
  function Tally(t: seq<Event>, p: Event -> bool): (n: nat)
    ensures n <= |t|
  {
    if t == [] then 0 else (if p(t[0]) then 1 else 0) + Tally(t[1..], p)
  }

  lemma {:induction false} TallyAppend(a: seq<Event>, b: seq<Event>, p: Event -> bool)
    ensures Tally(a + b, p) == Tally(a, p) + Tally(b, p)
  {
    if a == [] {
      assert a + b == b;
    } else {
      assert (a + b)[1..] == a[1..] + b;
      TallyAppend(a[1..], b, p);
    }
  }

  /** A trace that contains no event satisfying `p` tallies zero. */
  lemma {:induction false} TallyNone(t: seq<Event>, p: Event -> bool)
    requires forall i :: 0 <= i < |t| ==> !p(t[i])
    ensures Tally(t, p) == 0
  {
    if t != [] {
      TallyNone(t[1..], p);
    }
  }

  /** The outbound messages of a trace, as (address, payload) pairs, in order. */
  function Messages(t: seq<Event>): (m: seq<(string, string)>)
    ensures |m| <= |t|
  {
    if t == [] then []
    else (if t[0].Send? then [(t[0].address, t[0].payload)] else []) + Messages(t[1..])
  }

  /** The external calls of a trace, in order. */
  function Calls(t: seq<Event>): (cs: seq<Call>)
    ensures |cs| <= |t|
  {
    if t == [] then []
    else (if t[0].Invoke? then [t[0].call] else []) + Calls(t[1..])
  }

  lemma {:induction false} MessagesAppend(a: seq<Event>, b: seq<Event>)
    ensures Messages(a + b) == Messages(a) + Messages(b)
  {
    if a == [] {
      assert a + b == b;
    } else {
      var h := (if a[0].Send? then [(a[0].address, a[0].payload)] else []);
      assert (a + b)[0] == a[0] && (a + b)[1..] == a[1..] + b;
      assert Messages(a + b) == h + Messages(a[1..] + b);
      MessagesAppend(a[1..], b);
      assert Messages(a) == h + Messages(a[1..]);
    }
  }

  lemma {:induction false} CallsAppend(a: seq<Event>, b: seq<Event>)
    ensures Calls(a + b) == Calls(a) + Calls(b)
  {
    if a == [] {
      assert a + b == b;
    } else {
      var h := (if a[0].Invoke? then [a[0].call] else []);
      assert (a + b)[0] == a[0] && (a + b)[1..] == a[1..] + b;
      assert Calls(a + b) == h + Calls(a[1..] + b);
      CallsAppend(a[1..], b);
      assert Calls(a) == h + Calls(a[1..]);
    }
  }

  /** A trace of calls only carries no message. */
  lemma {:induction false} CallsOnly(t: seq<Event>)
    requires forall i :: 0 <= i < |t| ==> t[i].Invoke?
    ensures Messages(t) == []
  {
    if t != [] {
      CallsOnly(t[1..]);
    }
  }
}
