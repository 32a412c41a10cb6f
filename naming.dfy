/**
 * The container name `id_generator` builds: the application name, a dash
 * and `size` random lowercase letters. Each `random.choice` over
 * `string.ascii_lowercase` is supplied as the index it picked.
 */
module Naming {

  /** The application name every derived name starts with. */
  const App := "spyder"
  /** The default length of the random part of a container name. */
  const DefaultIdSize := 6

  /** `string.ascii_lowercase`. */
  const Alphabet := "abcdefghijklmnopqrstuvwxyz"

  /** The letter at position `k` of the alphabet is the `k`-th after 'a'. */
  lemma AlphabetAt(k: nat)
    requires k < |Alphabet|
    ensures Alphabet[k] as int == 'a' as int + k
  {
  }

  /** Every pick indexes into the alphabet. */
  predicate ValidPicks(picks: seq<nat>) {
    forall k :: 0 <= k < |picks| ==> picks[k] < |Alphabet|
  }

  /** `''.join(random.choice(chars) for _ in range(size))` with the given picks. */
  function Letters(picks: seq<nat>): (r: string)
    requires ValidPicks(picks)
    ensures |r| == |picks|
    ensures forall k :: 0 <= k < |r| ==> 'a' <= r[k] <= 'z'
    ensures forall k :: 0 <= k < |r| ==> r[k] as int - 'a' as int == picks[k]
  {
    if picks == [] then [] else AlphabetAt(picks[0]); [Alphabet[picks[0]]] + Letters(picks[1..])
  }

  /**
   * `id_generator(size)`: `"spyder-"` followed by `size` lowercase letters,
   * so `len("spyder") + 1 + size` characters in all.
   */
  function IdGenerator(size: nat, picks: seq<nat>): (id: string)
    requires |picks| == size && ValidPicks(picks)
    ensures |id| == |App| + 1 + size
    ensures id[..|App| + 1] == App + "-"
    ensures forall k :: |App| + 1 <= k < |id| ==> 'a' <= id[k] <= 'z'
  {
    App + "-" + Letters(picks)
  }

  /** `id_generator()` with its default size: `"spyder-"` and six letters, 13 characters. */
  lemma DefaultIdLength(picks: seq<nat>)
    requires |picks| == DefaultIdSize && ValidPicks(picks)
    ensures |IdGenerator(DefaultIdSize, picks)| == 13
    ensures IdGenerator(DefaultIdSize, picks)[..7] == "spyder-"
  {
  }

  /** The picks a generated name was made from, read back from its letters. */
  function PicksOf(id: string): seq<int>
    requires |id| >= |App| + 1
  {
    seq(|id| - (|App| + 1), k requires 0 <= k < |id| - (|App| + 1) => id[|App| + 1 + k] as int - 'a' as int)
  }

  /** A name determines the picks it was generated from. */
  lemma IdRoundTrip(size: nat, picks: seq<nat>)
    requires |picks| == size && ValidPicks(picks)
    ensures PicksOf(IdGenerator(size, picks)) == picks
  {
  }

  /** Different picks give different names, so a collision needs identical draws. */
  lemma IdInjective(size: nat, p: seq<nat>, q: seq<nat>)
    requires |p| == size && ValidPicks(p) && |q| == size && ValidPicks(q)
    requires IdGenerator(size, p) == IdGenerator(size, q)
    ensures p == q
  {
  }
}
