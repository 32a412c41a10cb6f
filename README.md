# spyder_jupyter launcher — a Dafny model of its core

`spyder_jupyter.py` starts the `compdatasci/spyder-desktop` notebook image in Docker.
It finds a free local port and names the container. It starts the Jupyter server in
the container, reads the server's log until the server announces its URL, and opens
that URL in the browser once. Then it watches the container and stops it after two
Ctrl-C presses.

This project models the deterministic parts of that script and proves what they promise:

- `pystr.dfy` (`PyStr`): the Python built-ins the script calls, with CPython's
  semantics. `str.find` returns -1 when the text is absent. Slicing accepts negative
  and out-of-range bounds. It also covers `str(n)`. The script does not call
  `str.split` or `int()`; `Split` and `ParseDecimal` model them only so that
  `PortMappingAsRead` and `DecimalRoundTrip` can state what the port mapping and
  `str(n)` mean.
- `ports.dfy` (`Ports`): `random_ports` as a method with its two counting loops, and
  `find_free_port` as a first-fit search over those candidates. Each `random.randint`
  result is taken from a supplied sequence of draws. Whether binding a port on
  127.0.0.1 succeeds is a supplied predicate `binds`.
- `naming.dfy` (`Naming`): `id_generator`. Each `random.choice` is supplied as the
  index it picked in `a..z`.
- `launch_args.dfy` (`LaunchArgs`): the image-tag rule of `parse_args`, the volume and
  working-directory flags, the `-t`/`--rm` choice and the `-p` port mapping.
- `url.dfy` (`UrlWatch`): turning an announcing log line into the browser URL.
- `supervision.dfy` (`Supervision`): the main `while True` loop and `handle_interrupt`
  as an event machine. Its transition function is `Next`, and its invariant is `Inv`.
  A `Supervisor` class holds the `wait_for_url` flag and the rest of the loop state.
  Its `Step` method changes those fields as `Next` says. `Supervise` is the loop
  itself, run over a sequence of events.

Events of the loop are the outcomes of its blocking calls:
- a log line, or the log stream ending;
- a `docker` command failing (`CalledProcessError`);
- `tail -f /dev/null` returning;
- the `docker ps` probe listing the container or not;
- Ctrl-C;
- the five-second window passing;
- an `OSError`.

Exit codes are the arguments given to `sys.exit`. An exception that escapes the
`CalledProcessError` handler ends the program with Python's status 1.

Two behaviours of the code are worth knowing:
- In detach mode the loop still waits for the URL line, or for the end of the log
  stream, before it exits 0 (spyder_jupyter.py:220-262). It does not exit as soon as
  the container starts.
- When the log stream ends without an announcing line, `wait_for_url` stays true. A
  non-detached launcher then monitors the container. Whenever the loop comes round
  again, it goes back to watching the log.

## Model

| member | source | states |
|---|---|---|
| PyStr.Find | spyder_jupyter.py:236-238 | `str.find`: -1 exactly when the text occurs nowhere; otherwise an index where it occurs, with no occurrence before it |
| PyStr.Slice | spyder_jupyter.py:241-246 | Python slicing: in-range bounds give the plain subsequence; `s[a:-1]` drops the last character; a start at or past the end with stop -1 gives empty; `s[i:i]` (so `s[-1:-1]`) is empty |
| PyStr.DecimalRoundTrip | spyder_jupyter.py:173 | `int(str(p)) == p` for the port turned into `port_http` |
| Ports.RandomPorts | spyder_jupyter.py:74-85 | the two counting loops yield exactly the candidate sequence `Candidates(port, n, draws)` |
| Ports.CandidatesShape | spyder_jupyter.py:74-85 | exactly `n` candidates; the first `min(5,n)` are `port, port+1, ...`; every later one is `max(1, port + r)` for its draw `r`, so it lies in `[max(1, port-2n), max(1, port+2n)]` |
| Ports.FindFreePort | spyder_jupyter.py:97-112 | returns a candidate of `random_ports(port, retries+1)` that binds, with no earlier candidate binding; if none binds, exit code -1 |
| Ports.ReserveHttpPort | spyder_jupyter.py:173 | `find_free_port(8888, 50)` gives a port that binds and lies in `[1, 8990]`, a valid port number; otherwise exit code -1; every one of its 51 candidates lies in `1..65535` |
| Naming.DefaultIdLength | spyder_jupyter.py:172 | `id_generator()` with its default size 6 gives `"spyder-"` and six letters, 13 characters |
| Naming.Letters | spyder_jupyter.py:93-94 | the joined random choices: one lowercase letter per pick, the letter `'a' + pick` |
| Naming.IdGenerator | spyder_jupyter.py:88-94 | the name has `len("spyder") + 1 + size` characters, starts with `"spyder-"`, and the rest are all in `a..z` |
| Naming.IdRoundTrip | spyder_jupyter.py:88-94 | the picks can be read back from the generated name |
| Naming.IdInjective | spyder_jupyter.py:88-94 | two names are equal only when they were generated from equal picks |
| LaunchArgs.NormaliseImage | spyder_jupyter.py:67-69 | the result always contains `:`; an image that already contains `:` is unchanged; otherwise it becomes `image + ":" + tag` |
| LaunchArgs.NormaliseIdempotent | spyder_jupyter.py:67-69 | normalising twice, with any second tag, gives what normalising once gave |
| LaunchArgs.DefaultImageName | spyder_jupyter.py:32-40 | the default options run `compdatasci/spyder-desktop:latest` |
| LaunchArgs.Volumes | spyder_jupyter.py:190-196 | flag/value pairs whose first pair mounts the current directory at `<home>/shared` |
| LaunchArgs.VolumesAsRead | spyder_jupyter.py:190-196 | read as flag/value pairs: the mounts are the current directory, then the named volume at `<home>/project` when one is given; there is exactly one working directory, `<home>/project` or `<home>/shared`, and it is the target of one of the mounts; the list holds these pairs and no other flags |
| LaunchArgs.RmFlag | spyder_jupyter.py:199-203 | `-t` exactly when the `docker --version` output contains `Docker version 1.`, `--rm` otherwise |
| LaunchArgs.RmFlagLegacy | spyder_jupyter.py:199-201 | a Docker 1.13 banner selects `-t` |
| LaunchArgs.PortMapping | spyder_jupyter.py:208-209 | the `-p` value has the loopback address and two copies of the port (length only) |
| LaunchArgs.PortMappingAsRead | spyder_jupyter.py:173-209 | for `port_http = str(p)`, the mapping splits at `:` into exactly `127.0.0.1`, the port and the same port, which reads back as `p` |
| UrlWatch.DeriveUrl | spyder_jupyter.py:236-246 | a URL is derived exactly when the line contains `http://0.0.0.0:`, and it always starts with `http://localhost:` |
| UrlWatch.UrlAt | spyder_jupyter.py:236-242 | without a notebook, for `ind = line.find("http://0.0.0.0:")`, the URL is `"http://localhost:" + line[ind+15:-1]`: the line's last character is always dropped, newline or not |
| UrlWatch.UrlWithoutNewline | spyder_jupyter.py:236-242 | a final line without a newline, `pre + "http://0.0.0.0:" + rest + [last]`, gives `"http://localhost:" + rest`: its last real character is lost |
| UrlWatch.UrlFromAnnouncement | spyder_jupyter.py:236-242 | without a notebook, `pre + "http://0.0.0.0:" + rest + "\n"` (no earlier announcement in `pre`) gives `"http://localhost:" + rest` |
| UrlWatch.UrlForNotebook | spyder_jupyter.py:243-246 | with a notebook, a line whose first `?token=` follows the announcement gives `http://localhost:<port_http>/notebooks/<notebook>?token=<token>` |
| UrlWatch.NotebookUrlAt | spyder_jupyter.py:243-246 | with a notebook, the suffix is the line from its first `?token=` up to, not including, its last character |
| UrlWatch.NotebookUrlNoToken | spyder_jupyter.py:243-246 | with a notebook and `find` reporting no `?token=` (-1), the URL is `http://localhost:<port_http>/notebooks/<notebook>` with nothing after it |
| UrlWatch.UrlForNotebookWithoutToken | spyder_jupyter.py:243-246 | with a notebook and no `?token=` anywhere in the line (other `?` allowed), the suffix is empty (`line[-1:-1]`) |
| UrlWatch.ExampleWithoutNotebook | spyder_jupyter.py:236-242 | the line announcing `http://0.0.0.0:9999/?token=abc123` gives `http://localhost:9999/?token=abc123` |
| UrlWatch.ExampleWithNotebook | spyder_jupyter.py:243-246 | the same line, notebook `foo.ipynb` and port 9999 give `http://localhost:9999/notebooks/foo.ipynb?token=abc123` |
| Supervision.InitialInv | spyder_jupyter.py:216 | the loop starts with `wait_for_url` true and no URL derived, in a state satisfying `Inv` |
| Supervision.StepKeepsInv | spyder_jupyter.py:216-285 | every transition keeps `Inv`: at most one URL, `wait_for_url` false exactly once one is found, browser opens match `--no-browser`, detach never monitors and has exited once it has the URL, at most one stop and only right before exit 0, exit codes 0, -1 or 1 |
| Supervision.RunKeepsInv | spyder_jupyter.py:216-285 | every run of events keeps `Inv` |
| Supervision.AtMostOneUrl | spyder_jupyter.py:216-258 | from the start, any run derives at most one URL, opens at most one in the browser, sends at most one stop, and in detach mode never reaches the monitoring command |
| Supervision.WaitFlagOnlyFalls | spyder_jupyter.py:220-258 | `wait_for_url` never goes from false to true; it goes from true to false only on a log line from which a URL is derived, and that URL is the one recorded |
| Supervision.UrlFixedOnceFound | spyder_jupyter.py:220-258 | once the URL is found, no later events derive or open another |
| Supervision.ExitIsFinal | spyder_jupyter.py:259-285 | after `sys.exit` nothing changes |
| Supervision.DetachExitsAfterUrl | spyder_jupyter.py:257-262 | in detach mode the announcing line leads to exit 0, with no stop sent |
| Supervision.ProbeDecides | spyder_jupyter.py:269-281 | after a failed command, an empty `docker ps` exits -1; a listed container resumes the loop and does not exit unless detached with the URL already found |
| Supervision.InterruptNeedsConfirmation | spyder_jupyter.py:115-126 | a first Ctrl-C opens the window; a second one sends exactly one stop and exits 0; the window passing resumes the loop with no stop and nothing else changed |
| Supervision.OsFailureIsFatal | spyder_jupyter.py:284-285 | an `OSError` while watching or monitoring exits -1 |
| Supervision.UrlFoundOnMatch | spyder_jupyter.py:236-264 | a URL-deriving line while watching records exactly that URL, hands it to the browser unless `--no-browser`, clears `wait_for_url` and leaves the watch (exit 0 if detached, else monitoring), with no stop sent |
| Supervision.NonMatchIgnored | spyder_jupyter.py:234-237 | a line that does not announce the server leaves the state unchanged and the watch reads on |
| Supervision.FailureProbes | spyder_jupyter.py:267-276 | a failed `docker` command while watching or monitoring leads to the `docker ps` probe, with nothing else changed |
| Supervision.LogEndedLeavesWatch | spyder_jupyter.py:234-264 | the log stream ending leaves the watch (exit 0 if detached, else monitoring) with `wait_for_url` still true |
| Supervision.MonitorReturnedResumes | spyder_jupyter.py:217-268 | `tail -f /dev/null` returning normally sends the loop round again: watch if no URL yet, else exit 0 if detached, else monitor |
| Supervision.ExitZeroOnlyWhen | spyder_jupyter.py:115-126 | a step exits 0 if and only if a second Ctrl-C confirms the stop, or, when detached, the watch ends on a URL-deriving line or the end of the stream |
| Supervision.ExitUncaughtOnlyWhen | spyder_jupyter.py:269-279 | a step ends the program with status 1 if and only if the `docker ps` probe itself fails (`CalledProcessError` or `OSError`), which only `except KeyboardInterrupt` guards |
| Supervision.ExitMinusOneOnlyWhen | spyder_jupyter.py:267-285 | a step exits -1 if and only if the probe lists no container, or an `OSError` arrives while watching or monitoring |
| Supervision.Supervisor.constructor | spyder_jupyter.py:216 | a new loop is in the initial state with `wait_for_url` true |
| Supervision.Supervisor.AfterUrlWait | spyder_jupyter.py:259-264 | after the log watch: exit 0 in detach mode, otherwise monitor; nothing else changes |
| Supervision.Supervisor.LoopAgain | spyder_jupyter.py:218-264 | the top of the loop: watch the log while `wait_for_url`, else exit 0 if detached, else monitor |
| Supervision.Supervisor.Step | spyder_jupyter.py:218-285 | one event changes the fields exactly as `Next` says and keeps `Inv` |
| Supervision.Supervisor.Supervise | spyder_jupyter.py:218-285 | the loop consumes events until exit; its final state is `Run` of the events, and it returns the exit code if it exited |

## Left out

- External commands: every `subprocess` call (`groups`, `docker images/pull/rmi/run/exec/ps/volume rm`, `docker --version`) is left out. Their outputs enter the model only as inputs: the version banner, the loop's events and the bind predicate.
- The privilege-group check, the image query and pull, and dangling-image removal (spyder_jupyter.py:138-169) are left out. They are external process I/O.
- Deriving `docker_home` from `--user` or from the image's `echo $DOCKER_HOME` (spyder_jupyter.py:179-185) is left out. The home directory is an input to the volume builder.
- The `--volume` together with `args.clear` branch (spyder_jupyter.py:187) is not modelled. `parse_args` never defines `clear`, so this line raises `AttributeError` whenever `--volume` is given, and the volume builder below it is never reached in that case.
- The `--hostname`/`HOST_UID` environment flags and the final concatenation of the `docker run` argument list (spyder_jupyter.py:205-214) are left out beyond the port mapping. They are plain concatenation with nothing further to state.
- Supervision.AtMostOneUrl: holds because the URL step (deriving the URL, `webbrowser.open`, `wait_for_url = False`, lines 238-257) is one atomic transition. In the script a Ctrl-C can arrive while `webbrowser.open` blocks, before the flag is cleared. It then reaches the outer `except KeyboardInterrupt`, and if the window passes, the loop starts a new `tail -F` with the flag still set, which replays the log's last ten lines; if the announcing line is among them, the URL is derived and opened a second time. The model has no event for that interleaving.
- Host side effects are left out: `webbrowser.open` (recorded only as the list of URLs handed to the browser), `os.mkdir`, `os.getcwd`, `expanduser`, `platform.system` and `os.getuid`, and every `print`.
- Real socket binding is a predicate. This leaves out the race between probing a port and Docker using it. It also leaves out the `OverflowError` a port above 65535 would raise; `ReserveHttpPort` states that every candidate of the launcher's own call lies in 1..65535, so it cannot happen there.
- Ports.FindFreePort: the generator is collected before the search, so the model takes all `n - 5` draws at once. The source draws lazily, only up to the accepted candidate. The returned port is the same.
- `time.sleep` and the real five-second window are abstract events. The one-second wait before retrying is folded into the probe outcome. A Ctrl-C during that wait is modelled as a Ctrl-C in the resumed phase, which leads to the same confirmation and resumption.
- Supervision.Next: an event that cannot occur at the current blocking point leaves the state unchanged. Examples are a log line while monitoring, or a window timeout outside the window.
- LaunchArgs.PortMapping: its own contract states only the length of the mapping; what the mapping means is stated by PortMappingAsRead.
- Process-level exit status: `sys.exit(-1)` is recorded as -1, although the operating system reports it as 255.
- Left-over `tail -F` processes started again after an interrupt while watching are not modelled. Neither are exceptions from the fire-and-forget stop command.
- Python's `random` module is replaced by supplied draws and picks. `argparse` is modelled only through the tag rule and the option defaults.
