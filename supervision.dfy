/**
 * The launcher's main `while True` loop and `handle_interrupt`, as an event
 * machine. Each blocking point of the loop is a phase; what a `docker`
 * command returns, a line of the server's log, Ctrl-C and the end of the
 * five-second confirmation window are events.
 */
module Supervision {
  import opened Wrappers
  import UrlWatch

  /** The command-line options the loop consults, and the reserved HTTP port as text. */
  datatype Config = Config(detach: bool, notebook: string, portHttp: string, noBrowser: bool)

  /** Where the loop is blocked. */
  datatype Phase =
    | Watching      // waiting for the log to fill, then reading `tail -F` of it line by line
    | Monitoring    // blocked in `docker exec <name> tail -f /dev/null`
    | Probing       // after a failed command: `docker ps -q -f name=<name>`, then a one-second pause
    | Confirming    // in `handle_interrupt`: the five-second window for a second Ctrl-C
    | Exited(code: int)   // `sys.exit(code)`, or an uncaught exception

  /** What can happen while the loop is blocked. */
  datatype Event =
    | LogLine(line: string)             // the log stream yields a line
    | LogEnded                          // the log stream ends
    | CommandFailed                     // a `docker` command exits non-zero (`CalledProcessError`)
    | MonitorReturned                   // `tail -f /dev/null` exits normally
    | ContainerListed(running: bool)    // `docker ps` prints the container, or nothing
    | Interrupt                         // Ctrl-C (`KeyboardInterrupt`)
    | WindowElapsed                     // the confirmation window passes without a second Ctrl-C
    | OsFailure                         // the `docker` executable cannot be run (`OSError`)

  /**
   * The loop's state: the `wait_for_url` flag, the phase, the URLs derived
   * and those handed to the browser, and how many stop commands were sent.
   */
  datatype LoopState = LoopState(waitForUrl: bool, phase: Phase, urls: seq<string>, browsed: seq<string>, stops: nat)

  /** The loop starts waiting for the URL. */
  const Initial := LoopState(true, Watching, [], [], 0)

  /** Python's exit status when an exception escapes the program. */
  const UncaughtExit := 1

  /** The top of the loop: watch the log while no URL was found, else exit if detached, else monitor. */
  function Resume(c: Config, waitForUrl: bool): Phase {
    if waitForUrl then Watching else if c.detach then Exited(0) else Monitoring
  }

  /** After the log watch (URL found or stream ended): exit 0 when detached, else monitor. */
  function AfterWatch(c: Config): Phase {
    if c.detach then Exited(0) else Monitoring
  }

  /** One transition of the loop. */
  function Next(c: Config, s: LoopState, e: Event): LoopState {
    match s.phase
    case Exited(_) => s
    case Watching => (
      match e
      case LogLine(line) => (
        match UrlWatch.DeriveUrl(line, c.notebook, c.portHttp)
        case None => s
        case Some(url) =>
          LoopState(false, AfterWatch(c), s.urls + [url],
                    if c.noBrowser then s.browsed else s.browsed + [url], s.stops))
      case LogEnded => s.(phase := AfterWatch(c))
      case CommandFailed => s.(phase := Probing)
      case Interrupt => s.(phase := Confirming)
      case OsFailure => s.(phase := Exited(-1))
      case _ => s)
    case Monitoring => (
      match e
      case MonitorReturned => s.(phase := Resume(c, s.waitForUrl))
      case CommandFailed => s.(phase := Probing)
      case Interrupt => s.(phase := Confirming)
      case OsFailure => s.(phase := Exited(-1))
      case _ => s)
    case Probing => (
      match e
      case ContainerListed(running) =>
        if running then s.(phase := Resume(c, s.waitForUrl)) else s.(phase := Exited(-1))
      case Interrupt => s.(phase := Confirming)
      case CommandFailed => s.(phase := Exited(UncaughtExit))
      case OsFailure => s.(phase := Exited(UncaughtExit))
      case _ => s)
    case Confirming => (
      match e
      case Interrupt => s.(phase := Exited(0), stops := s.stops + 1)
      case WindowElapsed => s.(phase := Resume(c, s.waitForUrl))
      case _ => s)
  }

  /** The state after a sequence of events. */
  function Run(c: Config, s: LoopState, events: seq<Event>): LoopState
    decreases |events|
  {
    if events == [] then s else Run(c, Next(c, s, events[0]), events[1..])
  }

  /**
   * What holds at every point of a run: at most one URL was derived, and
   * `wait_for_url` is false exactly when one was; the browser got that URL
   * unless `--no-browser`; the log is watched only while waiting for the
   * URL; a detached launcher never monitors, and once it has the URL it has
   * exited; at most one stop was sent, and
   * only as the last act before exit 0; exit codes are 0, -1 or 1.
   */
  ghost predicate Inv(c: Config, s: LoopState) {
    && |s.urls| <= 1
    && (s.waitForUrl <==> s.urls == [])
    && s.browsed == (if c.noBrowser then [] else s.urls)
    && (s.phase == Watching ==> s.waitForUrl)
    && (c.detach ==> s.phase != Monitoring)
    && (c.detach && !s.waitForUrl ==> s.phase.Exited?)
    && s.stops <= 1
    && (s.stops == 1 ==> s.phase == Exited(0))
    && (s.phase.Exited? ==> s.phase.code in {0, -1, UncaughtExit})
  }

  lemma InitialInv(c: Config)
    ensures Inv(c, Initial)
  {
  }

  /** Every transition keeps the invariant. */
  lemma StepKeepsInv(c: Config, s: LoopState, e: Event)
    requires Inv(c, s)
    ensures Inv(c, Next(c, s, e))
  {
  }

  /** Every run keeps the invariant. */
  lemma {:induction false} RunKeepsInv(c: Config, s: LoopState, events: seq<Event>)
    requires Inv(c, s)
    ensures Inv(c, Run(c, s, events))
    decreases |events|
  {
    if events != [] {
      StepKeepsInv(c, s, events[0]);
      RunKeepsInv(c, Next(c, s, events[0]), events[1..]);
    }
  }

  /**
   * Over any run from the start: at most one URL is derived and at most one
   * handed to the browser, at most one stop is sent, and a detached launcher
   * never reaches the monitoring command.
   */
  lemma AtMostOneUrl(c: Config, events: seq<Event>)
    ensures var t := Run(c, Initial, events);
      |t.urls| <= 1 && |t.browsed| <= 1 && t.stops <= 1 && (c.detach ==> t.phase != Monitoring)
  {
    InitialInv(c);
    RunKeepsInv(c, Initial, events);
  }

  /**
   * `wait_for_url` only goes from true to false, and only on a log line
   * from which a URL is derived; that URL is then the one recorded.
   */
  lemma WaitFlagOnlyFalls(c: Config, s: LoopState, e: Event)
    requires Inv(c, s)
    ensures var t := Next(c, s, e);
      && (!s.waitForUrl ==> !t.waitForUrl && t.urls == s.urls && t.browsed == s.browsed)
      && (s.waitForUrl && !t.waitForUrl ==>
            s.phase == Watching && e.LogLine?
            && UrlWatch.DeriveUrl(e.line, c.notebook, c.portHttp) == Some(t.urls[0])
            && t.urls == [t.urls[0]])
  {
  }

  /** Once the URL is found, no later event derives or opens another. */
  lemma {:induction false} UrlFixedOnceFound(c: Config, s: LoopState, events: seq<Event>)
    requires Inv(c, s) && !s.waitForUrl
    ensures var t := Run(c, s, events);
      !t.waitForUrl && t.urls == s.urls && t.browsed == s.browsed
    decreases |events|
  {
    if events != [] {
      WaitFlagOnlyFalls(c, s, events[0]);
      StepKeepsInv(c, s, events[0]);
      UrlFixedOnceFound(c, Next(c, s, events[0]), events[1..]);
    }
  }

  /** Nothing happens after exit. */
  lemma {:induction false} ExitIsFinal(c: Config, s: LoopState, events: seq<Event>)
    requires s.phase.Exited?
    ensures Run(c, s, events) == s
    decreases |events|
  {
    if events != [] {
      ExitIsFinal(c, s, events[1..]);
    }
  }

  /** In detach mode the URL line ends the launcher with exit code 0, without monitoring. */
  lemma DetachExitsAfterUrl(c: Config, s: LoopState, line: string)
    requires c.detach && s.phase == Watching
    requires UrlWatch.DeriveUrl(line, c.notebook, c.portHttp).Some?
    ensures Next(c, s, LogLine(line)).phase == Exited(0)
    ensures Next(c, s, LogLine(line)).stops == s.stops
  {
  }

  /**
   * After a failed command, the `docker ps` probe decides: no container
   * means exit code -1; a running container means the loop goes round
   * again (watching the log if no URL was found yet, else monitoring).
   */
  lemma ProbeDecides(c: Config, s: LoopState)
    requires Inv(c, s) && s.phase == Probing
    ensures Next(c, s, ContainerListed(false)) == s.(phase := Exited(-1))
    ensures var t := Next(c, s, ContainerListed(true));
      t == s.(phase := Resume(c, s.waitForUrl))
      && (!c.detach || s.waitForUrl ==> !t.phase.Exited?)
  {
  }

  /**
   * The two-stage interrupt: a first Ctrl-C while watching, monitoring or
   * probing opens the confirmation window; a second Ctrl-C inside it sends
   * exactly one stop and exits 0; the window passing resumes the loop with
   * no stop sent and nothing else changed.
   */
  lemma InterruptNeedsConfirmation(c: Config, s: LoopState)
    requires s.phase == Watching || s.phase == Monitoring || s.phase == Probing
    ensures var w := Next(c, s, Interrupt);
      && w == s.(phase := Confirming)
      && Next(c, w, Interrupt) == s.(phase := Exited(0), stops := s.stops + 1)
      && Next(c, w, WindowElapsed) == s.(phase := Resume(c, s.waitForUrl))
  {
  }

  /** An `OSError` while watching or monitoring ends the launcher with exit code -1. */
  lemma OsFailureIsFatal(c: Config, s: LoopState)
    requires s.phase == Watching || s.phase == Monitoring
    ensures Next(c, s, OsFailure) == s.(phase := Exited(-1))
  {
  }

  /**
   * A log line from which a URL is derived, while watching, records that
   * URL, hands it to the browser unless `--no-browser`, clears
   * `wait_for_url` and leaves the log watch, whether detached or not.
   */
  lemma UrlFoundOnMatch(c: Config, s: LoopState, line: string, u: string)
    requires Inv(c, s) && s.phase == Watching
    requires UrlWatch.DeriveUrl(line, c.notebook, c.portHttp) == Some(u)
    ensures var t := Next(c, s, LogLine(line));
      && t.urls == [u] && !t.waitForUrl
      && t.browsed == (if c.noBrowser then [] else [u])
      && t.phase == AfterWatch(c) && t.stops == s.stops
  {
  }

  /** A log line that does not announce the server changes nothing; the watch reads on. */
  lemma NonMatchIgnored(c: Config, s: LoopState, line: string)
    requires s.phase == Watching
    requires UrlWatch.DeriveUrl(line, c.notebook, c.portHttp).None?
    ensures Next(c, s, LogLine(line)) == s
  {
  }

  /** A failed `docker` command while watching or monitoring leads to the `docker ps` probe, not to an exit. */
  lemma FailureProbes(c: Config, s: LoopState)
    requires s.phase == Watching || s.phase == Monitoring
    ensures Next(c, s, CommandFailed) == s.(phase := Probing)
  {
  }

  /** The log stream ending leaves the watch, with `wait_for_url` still set. */
  lemma LogEndedLeavesWatch(c: Config, s: LoopState)
    requires s.phase == Watching
    ensures Next(c, s, LogEnded) == s.(phase := AfterWatch(c))
  {
  }

  /** `tail -f /dev/null` returning normally sends the loop round again. */
  lemma MonitorReturnedResumes(c: Config, s: LoopState)
    requires s.phase == Monitoring
    ensures Next(c, s, MonitorReturned) == s.(phase := Resume(c, s.waitForUrl))
  {
  }

  /**
   * Exit code 0 has exactly two causes: a confirmed second Ctrl-C, or, when
   * detached, the end of the log watch (a URL-deriving line or the stream
   * ending).
   */
  lemma ExitZeroOnlyWhen(c: Config, s: LoopState, e: Event)
    requires Inv(c, s) && !s.phase.Exited?
    ensures Next(c, s, e).phase == Exited(0) <==>
      (s.phase == Confirming && e == Interrupt)
      || (c.detach && s.phase == Watching
          && (e == LogEnded || (e.LogLine? && UrlWatch.DeriveUrl(e.line, c.notebook, c.portHttp).Some?)))
  {
  }

  /**
   * The `docker ps` probe is guarded only against Ctrl-C: its own failure,
   * a `CalledProcessError` or an `OSError`, escapes the program, which ends
   * with status 1. Nothing else ends it that way.
   */
  lemma ExitUncaughtOnlyWhen(c: Config, s: LoopState, e: Event)
    requires !s.phase.Exited?
    ensures Next(c, s, e).phase == Exited(UncaughtExit) <==>
      s.phase == Probing && (e == CommandFailed || e == OsFailure)
  {
  }

  /**
   * Exit code -1 has exactly two causes: the probe listing no container, or
   * an `OSError` while watching or monitoring.
   */
  lemma ExitMinusOneOnlyWhen(c: Config, s: LoopState, e: Event)
    requires !s.phase.Exited?
    ensures Next(c, s, e).phase == Exited(-1) <==>
      (s.phase == Probing && e == ContainerListed(false))
      || (e == OsFailure && (s.phase == Watching || s.phase == Monitoring))
  {
  }

  /** The loop as an object: the `wait_for_url` flag and the rest of the state, updated in place. */
  class Supervisor {
    const config: Config
    var waitForUrl: bool
    var phase: Phase
    var urls: seq<string>
    var browsed: seq<string>
    var stops: nat

    function State(): LoopState
      reads this
    {
      LoopState(waitForUrl, phase, urls, browsed, stops)
    }

    ghost predicate Valid()
      reads this
    {
      Inv(config, State())
    }

    constructor (config: Config)
      ensures this.config == config
      ensures State() == Initial && Valid()
    {
      this.config := config;
      waitForUrl := true;
      phase := Watching;
      urls := [];
      browsed := [];
      stops := 0;
    }

    /** `AfterWatch` on this launcher's options. */
    method AfterUrlWait()
      modifies this
      ensures phase == AfterWatch(config)
      ensures waitForUrl == old(waitForUrl) && urls == old(urls) && browsed == old(browsed) && stops == old(stops)
    {
      if config.detach {
        phase := Exited(0);
      } else {
        phase := Monitoring;
      }
    }

    /** `Resume` on this launcher's options and flag: the top of the `while True` loop. */
    method LoopAgain()
      modifies this
      ensures phase == Resume(config, waitForUrl)
      ensures waitForUrl == old(waitForUrl) && urls == old(urls) && browsed == old(browsed) && stops == old(stops)
    {
      if waitForUrl {
        phase := Watching;
      } else if config.detach {
        phase := Exited(0);
      } else {
        phase := Monitoring;
      }
    }

    /** Reacts to one event where the loop is blocked. */
    method Step(e: Event)
      requires Valid()
      modifies this
      ensures Valid()
      ensures State() == Next(config, old(State()), e)
    {
      ghost var before := State();
      match phase {
        case Exited(_) =>
        case Watching =>
          match e {
            case LogLine(line) =>
              var url := UrlWatch.DeriveUrl(line, config.notebook, config.portHttp);
              if url.Some? {
                urls := urls + [url.value];
                if !config.noBrowser {
                  browsed := browsed + [url.value];
                }
                waitForUrl := false;
                AfterUrlWait();
              }
            case LogEnded => AfterUrlWait();
            case CommandFailed => phase := Probing;
            case Interrupt => phase := Confirming;
            case OsFailure => phase := Exited(-1);
            case _ =>
          }
        case Monitoring =>
          match e {
            case MonitorReturned => LoopAgain();
            case CommandFailed => phase := Probing;
            case Interrupt => phase := Confirming;
            case OsFailure => phase := Exited(-1);
            case _ =>
          }
        case Probing =>
          match e {
            case ContainerListed(running) =>
              if running {
                LoopAgain();
              } else {
                phase := Exited(-1);
              }
            case Interrupt => phase := Confirming;
            case CommandFailed => phase := Exited(UncaughtExit);
            case OsFailure => phase := Exited(UncaughtExit);
            case _ =>
          }
        case Confirming =>
          match e {
            case Interrupt =>
              stops := stops + 1;
              phase := Exited(0);
            case WindowElapsed => LoopAgain();
            case _ =>
          }
      }
      StepKeepsInv(config, before, e);
    }

    /**
     * The `while True` loop: consumes events until the launcher exits or the
     * events run out, and returns the exit code if it exited.
     */
    method Supervise(events: seq<Event>) returns (exitCode: Option<int>)
      requires Valid()
      modifies this
      ensures Valid()
      ensures State() == Run(config, old(State()), events)
      ensures exitCode == (if phase.Exited? then Some(phase.code) else None)
    {
      var i := 0;
      while i < |events| && !phase.Exited?
        invariant 0 <= i <= |events|
        invariant Valid()
        invariant Run(config, State(), events[i..]) == Run(config, old(State()), events)
      {
        assert events[i..][1..] == events[i + 1..];
        Step(events[i]);
        i := i + 1;
      }
      if phase.Exited? {
        ExitIsFinal(config, State(), events[i..]);
        exitCode := Some(phase.code);
      } else {
        exitCode := None;
      }
    }
  }
}
