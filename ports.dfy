/**
 * The port finder: `random_ports` yields the candidate ports and
 * `find_free_port` returns the first candidate that a local bind accepts.
 * The draws of `random.randint` are supplied as a sequence, and whether a
 * bind on 127.0.0.1 succeeds is the predicate `binds`.
 */
module Ports {

  /** What `find_free_port` ends with: a port, or `sys.exit(code)`. */
  datatype Outcome = Found(port: int) | Exit(code: int)

  /** The preferred HTTP port and the retry count the launcher passes to `find_free_port`. */
  const HttpPort := 8888
  const HttpRetries := 50
  /** The largest port number a socket can be bound to. */
  const MaxPort := 65535

  /** Number of sequential candidates before the random ones. */
  const Sequential := 5

  function Max(a: int, b: int): int { if a < b then b else a }
  function Min(a: int, b: int): int { if a < b then a else b }

  /** How many times a `range(k)` loop runs. */
  function Count(k: int): nat { if k < 0 then 0 else k }

  /**
   * The values `random_ports(port, n)` yields when its successive
   * `randint(-2 * n, 2 * n)` calls return `draws[0], draws[1], ...`.
   */
  function Candidates(port: int, n: int, draws: seq<int>): seq<int>
    requires |draws| >= n - Sequential
  {
    seq(Count(n), i requires 0 <= i < Count(n) =>
      if i < Sequential then port + i else Max(1, port + draws[i - Sequential]))
  }

  /** Every draw is a value `randint(-2 * n, 2 * n)` can return (both ends included). */
  predicate DrawsInRange(n: int, draws: seq<int>) {
    forall k :: 0 <= k < |draws| ==> -2 * n <= draws[k] <= 2 * n
  }

  /**
   * The generator `random_ports`, collected into a sequence: two counting
   * loops, the first over `min(5, n)` sequential ports, the second over
   * `n - 5` clamped random ports.
   */
  method RandomPorts(port: int, n: int, draws: seq<int>) returns (ports: seq<int>)
    requires |draws| >= n - Sequential
    ensures ports == Candidates(port, n, draws)
  {
    ports := [];
    var i := 0;
    while i < Min(Sequential, n)
      invariant 0 <= i <= Count(Min(Sequential, n))
      invariant ports == Candidates(port, n, draws)[..i]
    {
      ports := ports + [port + i];
      i := i + 1;
    }
    var head := i;
    var j := 0;
    while j < n - Sequential
      invariant 0 <= j <= Count(n - Sequential)
      invariant head == Count(Min(Sequential, n))
      invariant ports == Candidates(port, n, draws)[..head + j]
    {
      ports := ports + [Max(1, port + draws[j])];
      j := j + 1;
    }
  }

  /**
   * The shape of the candidate sequence: exactly `n` ports, the first
   * `min(5, n)` of them `port, port + 1, ...`, every later one
   * `max(1, port + r)` for its draw `r`, so within
   * `[max(1, port - 2n), max(1, port + 2n)]`.
   */
  lemma CandidatesShape(port: int, n: nat, draws: seq<int>)
    requires |draws| >= n - Sequential && DrawsInRange(n, draws)
    ensures var c := Candidates(port, n, draws);
      && |c| == n
      && (forall i :: 0 <= i < Min(Sequential, n) ==> c[i] == port + i)
      && (forall i :: Sequential <= i < n ==> c[i] == Max(1, port + draws[i - Sequential]))
      && (forall i :: Sequential <= i < n ==> Max(1, port - 2 * n) <= c[i] <= Max(1, port + 2 * n))
  {
  }

  /**
   * `find_free_port(port, retries)`: the first of the `retries + 1`
   * candidates that binds; when none does, exit code -1.
   */
  method FindFreePort(port: int, retries: int, draws: seq<int>, binds: int -> bool) returns (res: Outcome)
    requires |draws| >= retries + 1 - Sequential
    ensures var c := Candidates(port, retries + 1, draws);
      res.Found? ==> exists i :: 0 <= i < |c| && c[i] == res.port && binds(c[i])
                                 && forall j :: 0 <= j < i ==> !binds(c[j])
    ensures var c := Candidates(port, retries + 1, draws);
      res.Exit? ==> res.code == -1 && forall j :: 0 <= j < |c| ==> !binds(c[j])
  {
    var cands := RandomPorts(port, retries + 1, draws);
    var i := 0;
    while i < |cands|
      invariant 0 <= i <= |cands|
      invariant forall j :: 0 <= j < i ==> !binds(cands[j])
    {
      if binds(cands[i]) {
        return Found(cands[i]);
      }
      i := i + 1;
    }
    return Exit(-1);
  }

  /**
   * The HTTP port the launcher reserves, `find_free_port(8888, 50)`: a port
   * that binds, between 1 and 8888 + 2 * 51, so always a valid port number.
   */
  method ReserveHttpPort(draws: seq<int>, binds: int -> bool) returns (res: Outcome)
    requires |draws| >= HttpRetries + 1 - Sequential && DrawsInRange(HttpRetries + 1, draws)
    ensures res.Found? ==> binds(res.port) && 1 <= res.port <= HttpPort + 2 * (HttpRetries + 1) <= MaxPort
    ensures res.Exit? ==> res.code == -1
    ensures var c := Candidates(HttpPort, HttpRetries + 1, draws);
      forall k :: 0 <= k < |c| ==> 1 <= c[k] <= MaxPort
  {
    res := FindFreePort(HttpPort, HttpRetries, draws, binds);
    CandidatesShape(HttpPort, HttpRetries + 1, draws);
  }
}
