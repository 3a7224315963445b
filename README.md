# Musika OSC listener — a Dafny model

This project models `scripts/osc_listener.py`, the listener that Max/MSP (or
any OSC client) triggers with `/trigger_musika truncation seconds model`. For
one trigger the listener does the following:

- it checks the model selector against `MODEL_PATHS`;
- it replaces any existing `musika-container` with a fresh one (`docker rm -f`, then `docker run --rm -dit --gpus all`);
- it runs `python musika_generate.py` inside the container through the shell;
- it picks the newest `.wav` file in `~/musika_outputs`;
- it reports on `/status` and `/musika_done`;
- it stops the container.

All of this is modelled, and the properties are proved with Dafny.

The model records one **trace** of events in the order they happen: outbound
OSC messages (`Send(address, payload)`) and external calls (`Invoke(call)`):

- `docker ps` and `docker ps -a`
- `docker rm -f` and `docker run`
- the generation command
- `docker stop`
- the directory listing

What the daemon answers is a parameter (`Docker.Responses`). Only the four
checked calls can raise `CalledProcessError`: `docker rm -f`, `docker run`,
the generation command and `docker stop`. The model keeps the text of that
error as an opaque string. `docker ps` and `docker ps -a` run without
`check=True`, so they never raise it: each either lists what exists or
prints nothing (`queryFails`, `listAllFails`). The directory listing after
the command is also a parameter: a sequence of (name, mtime) entries. It
always succeeds (see "Left out"). The container `musika-container` is abstracted as
`Absent | Stopped(id) | Running(id)`.

Modules, one per file:

| file | module | what it covers |
|---|---|---|
| `strings.dfy` | `Wrappers`, `Strings` | `str.strip()`, `str.replace` on one character, prefix and suffix tests |
| `paths.dfy` | `Paths` | `os.path.join` (POSIX) and `OUTPUT_DIR` |
| `registry.dfy` | `Registry` | `MODEL_PATHS` and the lookup of a selector |
| `command.dfy` | `Command` | the generation command line, how `/bin/sh` splits it, and the options it carries |
| `output_watcher.dfy` | `OutputWatcher` | `get_latest_file` |
| `trace.dfy` | `Trace` | events, calls, outcomes, and the projections `Messages`, `Calls`, `Tally` |
| `docker.dfy` | `Docker` | the container state; `start_container` and `stop_container` as specification functions |
| `handler.dfy` | `Handler` | `generate_music` as a specification function, and the message protocol it follows |
| `episode.dfy` | `Episode` | what one episode guarantees: messages, calls, counts, and the container left behind |
| `listener.dfy` | `Listener` | class `Listener`: the container field and the trace field, updated in place by step-by-step methods proved against the specification functions |

## Model

| member | source | states |
|---|---|---|
| Registry.LoadPath | scripts/osc_listener.py:13-16 | A selector is known exactly when it is `techno` or `misc`; a known selector loads `checkpoints/<selector>`. |
| Paths.JoinPath | scripts/osc_listener.py:69 | The joined path ends with the name. An absolute name replaces the directory. A relative name comes after the directory with exactly one `/` between them: no `/` is added when the directory is empty or already ends in one, and one `/` sits right after the directory otherwise. |
| Paths.OutputDir | scripts/osc_listener.py:8 | The output directory is `<home>/musika_outputs`. No `/` is added when the home is empty or already ends in one. |
| Strings.Strip | scripts/osc_listener.py:30 | The stripped text is empty exactly when every character is whitespace; otherwise it neither starts nor ends with whitespace. |
| Strings.StripPadded | scripts/osc_listener.py:41 | Stripping a word padded with whitespace on either side gives back the word. |
| Strings.Replace | scripts/osc_listener.py:99 | The rewrite keeps the length and changes exactly the occurrences of `/`, each to the separator. |
| Strings.ReplaceRemovesAll | scripts/osc_listener.py:99 | After the rewrite no `/` is left when the separator differs from `/`. The separator occurs in the result exactly when `/` or the separator occurred before. |
| Strings.ReplaceUndone | scripts/osc_listener.py:99 | When the separator did not occur in the path, rewriting the separator back to `/` restores the original path. |
| Command.SplitJoin | scripts/osc_listener.py:93 | `/bin/sh` field splitting of a space-joined line of plain words gives back exactly those words. |
| Command.ParseFlatten | scripts/osc_listener.py:89-90 | Option/value pairs whose keys are `--` flags, laid out as words, read back as exactly the same pairs in the same order. |
| Command.ExecWords | scripts/osc_listener.py:87-91 | The command has 17 words. It starts with the six fixed words `docker exec musika-container python musika_generate.py --load_path`. The load path, seconds and truncation are words 6, 10 and 12. |
| Command.ExecCommand | scripts/osc_listener.py:87-91 | The line handed to the shell starts with the six fixed words joined by spaces, followed by a space. `Command.ExecCommandOptions` gives the words the shell reads back from it. |
| Command.JoinWordsSplit | scripts/osc_listener.py:87-91 | A space-joined line splits at any word boundary: the first words joined, one space, then the rest joined. |
| Command.ExecCommandOptions | scripts/osc_listener.py:87-91 | When the load path, seconds and truncation are plain words, the shell runs 17 words: `docker exec musika-container python musika_generate.py`, then `--load_path`, `--num_samples 1`, `--seconds`, `--truncation`, `--save_path /output` and `--mixed_precision False`, in that order, with the given values. |
| OutputWatcher.Newest | scripts/osc_listener.py:65-68 | There is no result exactly when no name ends in `.wav`. Otherwise the result is a `.wav` entry whose mtime is at least that of every `.wav` entry and strictly greater than that of every earlier one. That is `max` with the first maximum kept on ties. |
| OutputWatcher.GetLatestFile | scripts/osc_listener.py:64-69 | The result is `None` exactly when no name ends in `.wav`; otherwise it is a non-empty path ending in `.wav`. |
| OutputWatcher.LatestFileIsFirstNewest | scripts/osc_listener.py:64-69 | The path returned is the directory joined with the first `.wav` entry of greatest mtime, and with no other entry. |
| Docker.PsOutput | scripts/osc_listener.py:26-41 | `docker ps` prints something exactly when the container runs, and `docker ps -a` exactly when it exists at all. What it prints is the id followed by a newline. |
| Docker.Start | scripts/osc_listener.py:36-55 | `start_container` makes one to three calls and begins with the `docker ps -a` listing. When it does not raise, the fresh container runs. When it raises, the error is the removal's or the run's. The container it leaves is valid. |
| Docker.Stop | scripts/osc_listener.py:58-61 | `stop_container` makes one or two calls and begins with the liveness query. The container is either unchanged or, after a successful stop, gone. Any error it raises is `docker stop`'s. |
| Docker.ListedIdStrips | scripts/osc_listener.py:30 | The id line printed by `docker ps`, once stripped, is the id. |
| Docker.ListingFindsExisting | scripts/osc_listener.py:38-43 | `start_container` reads an id from `docker ps -a` exactly when the container exists, running or stopped, and the listing worked. The id it reads is that container's. |
| Docker.QueryFindsRunning | scripts/osc_listener.py:26-30 | The stripped output of `docker ps` is non-empty exactly when the container runs. |
| Docker.StartRemovesThenRuns | scripts/osc_listener.py:36-55 | `start_container` starts with the `ps -a` listing. It force-removes a listed container before anything else and otherwise removes nothing. It ends with `docker run` of the fixed name unless the removal raised. It raises exactly when the removal or the run raised. When it does not raise, the fresh container runs. |
| Docker.StopOnlyWhenRunning | scripts/osc_listener.py:58-61 | `stop_container` always queries first. It issues `docker stop` exactly when the query works and the container runs, and only then can it raise. The container is gone afterwards exactly when the stop succeeded or it was already absent. |
| Handler.HandleTrigger | scripts/osc_listener.py:72-112 | An episode never raises: every `CalledProcessError` is caught. The container it leaves is a valid one. |
| Handler.Generate | scripts/osc_listener.py:85-112 | From `start_container()` on, the handler starts with the `docker ps -a` listing and never raises. The container it leaves is valid. |
| Handler.Execute | scripts/osc_listener.py:93-112 | From the generation command on, the handler starts with that command and never raises. The container changes only when the command succeeded, the liveness query worked, the container was running and `docker stop` succeeded. It is then gone. |
| Handler.Report | scripts/osc_listener.py:98-105 | The report starts with a `/status` message. A second message is sent exactly when a non-empty path was found: that path on `/musika_done`, with `/` rewritten to the separator. |
| Handler.Searched | scripts/osc_listener.py:96-105 | The search lists the output directory first. The report has two messages exactly when some entry is a `.wav` file. |
| Handler.Raised | scripts/osc_listener.py:110-112 | The `except` clause adds nothing when no call raised. Otherwise it sends one message, which is a run error. |
| Handler.Protocol | scripts/osc_listener.py:72-112 | An episode sends one to four messages. The first is `Error: Model '<model>' not found!` for an unknown model, and then it is the only one. For a known model the first is `Starting container and generating audio...`. |
| Handler.GenerationMessages | scripts/osc_listener.py:85-112 | After the announcement come one to three messages. A failed start or generation command gives exactly one message, which is the run error. A run error at the end means some checked call raised. |
| Handler.CallsAfterStart | scripts/osc_listener.py:93-108 | After a successful start come one to four calls, beginning with the generation command. There is only that one call exactly when the command raised. `docker stop` is among them exactly when the command succeeded and the liveness query works. |
| Handler.OtherStatusesAreNotErrors | scripts/osc_listener.py:75-111 | None of the other `/status` texts starts with `Error running Musika: `: not found, starting, complete and no file. |
| Handler.ErrorReportedLast | scripts/osc_listener.py:93-112 | In the message protocol a run error appears only as the last message. It appears exactly when the model is known and the start, the generation command or the stop raised. |
| Handler.GenerationErrorLast | scripts/osc_listener.py:93-112 | After the announcement, a run error can only be the last message. It is there exactly when the start, the generation command or the stop raised. |
| Handler.FileDelivered | scripts/osc_listener.py:96-105 | A found file is delivered on `/musika_done` once, right after `Generation complete!`, with `/` rewritten to the separator. No `/musika_done` is sent when the generation failed or nothing was found. |
| Episode.UnknownModelRejected | scripts/osc_listener.py:74-77 | An unknown selector produces exactly one `/status` message, `Error: Model '<model>' not found!`. It makes no call and leaves the container as it was. |
| Episode.KnownModelAnnouncedFirst | scripts/osc_listener.py:79-85 | A known selector first sends `Starting container and generating audio...`. The next event is the `docker ps -a` of `start_container`. |
| Episode.EpisodeMessages | scripts/osc_listener.py:72-112 | The messages of an episode are those of the protocol. The stop raises exactly when the liveness query works and `docker stop` fails. |
| Episode.EpisodeCalls | scripts/osc_listener.py:72-112 | An unknown model makes no call. Otherwise the calls are those of `start_container`, and the rest follow only after a successful start. A failing generation command skips the search and the stop. After a successful command come the listing, the liveness query and `docker stop` when the query works. |
| Episode.ContainerAfterEpisode | scripts/osc_listener.py:72-112 | The container left by an episode is the following. With an unknown model it is unchanged. After a failed start it is whatever the start left. After a fully successful command, query and stop it is gone. Otherwise the fresh container is still running. |
| Episode.RunsAtMostOnce | scripts/osc_listener.py:79-93 | `docker run` is issued at most once per episode. It is issued exactly when the model is known and no removal failed. |
| Episode.RemovesAtMostOnce | scripts/osc_listener.py:79-93 | `docker rm -f` is issued at most once per episode. It is issued exactly when the model is known and the listing found a container. |
| Episode.ExecutesAtMostOnce | scripts/osc_listener.py:79-93 | The generation command runs at most once per episode. It runs exactly when the model is known and the start succeeded. |
| Episode.StartTally | scripts/osc_listener.py:36-55 | Each call of `start_container` is counted once, and the removal and the run only when they are made. |
| Episode.ReportBeforeStop | scripts/osc_listener.py:96-111 | This holds once the container is up and the command has run. The episode sends a report (`Generation complete!`, the `/musika_done` path or `Error: No file generated!`) and makes the liveness query of `stop_container`. Every report message comes before that query. Every run error comes after any `docker stop`. |
| Episode.ErrorFollowsRaisingCall | scripts/osc_listener.py:85-111 | A raised call ends the episode. The run error is the last event. The event just before it is the call that raised: the `docker rm -f` or the `docker run` of a failed start, or the generation command. |
| Episode.ExecuteTally | scripts/osc_listener.py:93-108 | After the start, the generation command is the only call that is neither the listing nor part of the stop. |
| Listener.Listener.constructor | scripts/osc_listener.py:8 | The listener starts with the output directory under the home directory and an empty trace. |
| Listener.Listener.SendMessage | scripts/osc_listener.py:75 | `client.send_message` appends exactly that message and changes nothing else. |
| Listener.Listener.IsContainerRunning | scripts/osc_listener.py:24-33 | The method appends one `docker ps` query. It answers true exactly when the stripped output is non-empty, which is exactly when the query works and the container runs. |
| Listener.Listener.ListExisting | scripts/osc_listener.py:38-41 | The method appends the `docker ps -a` listing and returns the existing container's id, or nothing. |
| Listener.Listener.StartContainer | scripts/osc_listener.py:36-55 | The step-by-step start leaves the container, the trace and the outcome that `Docker.Start` specifies. |
| Listener.Listener.StopContainer | scripts/osc_listener.py:58-61 | The step-by-step stop leaves the container, the trace and the outcome that `Docker.Stop` specifies. |
| Listener.Listener.LatestFile | scripts/osc_listener.py:96 | The method appends the listing of the output directory and returns `GetLatestFile` of it. |
| Listener.Listener.GenerateMusic | scripts/osc_listener.py:72-112 | One trigger, handled step by step with early returns, leaves the container and the trace that `Handler.HandleTrigger` specifies. |
| Listener.Listener.ReportLatest | scripts/osc_listener.py:96-105 | The listing and the messages reporting what it found, sent one by one, are exactly the search that `Handler.Searched` specifies. The container is unchanged. |
| Listener.Listener.RunGeneration | scripts/osc_listener.py:93-112 | From the generation command to the end of the `try`, the method leaves what `Handler.Execute` specifies. |

## Left out

- The OSC transport is not modelled: the UDP client, the threading server, the dispatcher, and the discovery of host and port. Messages are events in the trace.
- Concurrency is not modelled. The threading server may run handlers in parallel with no locking; the model handles one episode at a time and adds no busy rejection.
- `time.sleep` and every `print` have no observable effect on the trace and are left out.
- Real docker and shell calls are not made. Each is an event whose result comes in `Docker.Responses`.
- The text of a `CalledProcessError` is an opaque string.
- A listing (`docker ps -a`) that exits non-zero prints nothing, so it reads as "no container".
- A liveness query that raises or prints nothing reads as "not running".
- `os.listdir` on a missing directory, or a missing `docker` binary, raises exceptions that escape `generate_music`. These are not modelled: the directory and docker are assumed present.
- `docker ps --filter name=musika-container` also matches names that merely contain `musika-container`. The model tracks only the one container of that name, so several matching containers, several ids in the output, and removal of a different container are not modelled.
- `docker run` is never refused for a name conflict. When `docker ps -a` prints nothing although a container of the name exists, the model's `docker run` still succeeds and replaces that container, which real docker would refuse. This only adds behaviours, so the proved properties are unaffected.
- The model assumes `docker run --rm`: a container that has been stopped is removed. After `docker run` raises, the container is taken as absent if one was just removed, and otherwise unchanged.
- The float arguments `seconds` and `truncation` are modelled as the texts `str()` gives them and are echoed into the command. There is no range check, because the code has none.
- Modification times are integers, not floats.
- Command.ExecCommandOptions: only command texts made of plain words are covered. A model selector never contains a blank or a shell metacharacter, but a seconds or truncation text that does is handed to `/bin/sh` as written, and that case is not modelled.
- Paths.JoinPath: only the POSIX `os.path.join` is modelled. The separator used by the `/musika_done` rewrite is a parameter (`Config.sep`).
- Strings.Strip: the whitespace set is Python's `str.isspace` below U+0100. Wider Unicode whitespace is not modelled.
- `docker/scripts/download_models.py` is not part of this model: it is a single call into a library that is not part of the repository.
- The numbers of the OSC arguments and the mapping of `/trigger_musika` to the handler are not modelled.

Behaviour worth knowing, modelled as the code does it:

- When the generation command raises, the handler reports the error and returns without calling `stop_container`. `Episode.ContainerAfterEpisode` shows that the fresh container is left running.
- When `docker stop` raises after a successful generation, its error is sent on `/status` after the `/musika_done` message. `Handler.ErrorReportedLast` and `Episode.EpisodeMessages` show that it is the last message. A design that treats stop failures as log-only would not send it, but the code does.
- There is no keep-warm option: every episode with a known model removes any existing container and starts a fresh one.
