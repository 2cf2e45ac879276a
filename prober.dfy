/** The reachability prober: `randomizeList` shuffles the server list in place
    and `someServerAvailable` pings the servers in the shuffled order until one
    answers. The ping itself is an uninterpreted `probe` function, and the
    random draws of `rand.Shuffle` are a `pick` function passed in. */
module Prober {

  type Server = string

  /** Some server of `servers` answers the probe. */
  ghost predicate SomeUp(servers: seq<Server>, probe: Server -> bool)
  {
    exists i :: 0 <= i < |servers| && probe(servers[i])
  }

  /** The `swap(i, j)` closure `randomizeList` hands to `rand.Shuffle`. */
  function Swap<T>(s: seq<T>, i: nat, j: nat): seq<T>
    requires i < |s| && j < |s|
  {
    s[i := s[j]][j := s[i]]
  }

  /** The steps `rand.Shuffle` still has to take from index `i` down to 1:
      at each, element `i` trades places with element `pick(i) % (i + 1)`. */
  function ShuffleDown<T>(s: seq<T>, i: nat, pick: nat -> nat): seq<T>
    requires i < |s|
    decreases i
  {
    if i == 0 then s else ShuffleDown(Swap(s, i, pick(i) % (i + 1)), i - 1, pick)
  }

  /** `rand.Shuffle(len(s), swap)` with the draws taken from `pick`. */
  function Shuffled<T>(s: seq<T>, pick: nat -> nat): seq<T>
  {
    if |s| == 0 then s else ShuffleDown(s, |s| - 1, pick)
  }

  lemma SwapIsPermutation<T>(s: seq<T>, i: nat, j: nat)
    requires i < |s| && j < |s|
    ensures |Swap(s, i, j)| == |s|
    ensures multiset(Swap(s, i, j)) == multiset(s)
  {
    var t := s[i := s[j]];
    assert multiset(t) == multiset(s) - multiset{s[i]} + multiset{s[j]};
    assert multiset(t[j := s[i]]) == multiset(t) - multiset{t[j]} + multiset{s[i]};
  }

  lemma {:induction false} ShuffleDownIsPermutation<T>(s: seq<T>, i: nat, pick: nat -> nat)
    requires i < |s|
    ensures |ShuffleDown(s, i, pick)| == |s|
    ensures multiset(ShuffleDown(s, i, pick)) == multiset(s)
    decreases i
  {
    if i > 0 {
      var j := pick(i) % (i + 1);
      SwapIsPermutation(s, i, j);
      ShuffleDownIsPermutation(Swap(s, i, j), i - 1, pick);
    }
  }

  /** Whatever the draws, `randomizeList` returns a permutation of its input. */
  lemma ShuffledIsPermutation<T>(s: seq<T>, pick: nat -> nat)
    ensures |Shuffled(s, pick)| == |s|
    ensures multiset(Shuffled(s, pick)) == multiset(s)
  {
    if |s| > 0 {
      ShuffleDownIsPermutation(s, |s| - 1, pick);
    }
  }

  /** Whether some server is up depends only on which servers the list holds. */
  lemma PermutationKeepsAvailability(s: seq<Server>, t: seq<Server>, probe: Server -> bool)
    requires multiset(s) == multiset(t)
    ensures SomeUp(t, probe) <==> SomeUp(s, probe)
  {
    if SomeUp(t, probe) {
      var i :| 0 <= i < |t| && probe(t[i]);
      assert t[i] in multiset(s);
      var j :| 0 <= j < |s| && s[j] == t[i];
      assert probe(s[j]);
    }
    if SomeUp(s, probe) {
      var i :| 0 <= i < |s| && probe(s[i]);
      assert s[i] in multiset(t);
      var j :| 0 <= j < |t| && t[j] == s[i];
      assert probe(t[j]);
    }
  }

  /** Shuffling does not change whether some server is up, so the outcome of
      `someServerAvailable` does not depend on the draws. */
  lemma ShuffleKeepsAvailability(s: seq<Server>, pick: nat -> nat, probe: Server -> bool)
    ensures SomeUp(Shuffled(s, pick), probe) <==> SomeUp(s, probe)
  {
    ShuffledIsPermutation(s, pick);
    PermutationKeepsAvailability(s, Shuffled(s, pick), probe);
  }

  /** With one server that never answers and one that always does, the
      shuffled list is one of the two orders and some server is up. */
  lemma TwoServersOneUp(a: Server, b: Server, pick: nat -> nat, probe: Server -> bool)
    requires !probe(a) && probe(b)
    ensures Shuffled([a, b], pick) == [a, b] || Shuffled([a, b], pick) == [b, a]
    ensures SomeUp(Shuffled([a, b], pick), probe)
  {
    ShuffleKeepsAvailability([a, b], pick, probe);
    assert probe([a, b][1]);
  }

  /** `randomizeList`: Fisher-Yates in place, as `rand.Shuffle` performs it. */
  method RandomizeList(list: array<Server>, pick: nat -> nat)
    modifies list
    ensures list[..] == Shuffled(old(list[..]), pick)
    ensures multiset(list[..]) == multiset(old(list[..]))
  {
    if list.Length == 0 {
      return;
    }
    var i := list.Length - 1;
    while i > 0
      invariant 0 <= i < list.Length
      invariant ShuffleDown(list[..], i, pick) == Shuffled(old(list[..]), pick)
      invariant multiset(list[..]) == multiset(old(list[..]))
    {
      var j := pick(i) % (i + 1);
      ghost var before := list[..];
      list[i], list[j] := list[j], list[i];
      assert list[..] == Swap(before, i, j);
      i := i - 1;
    }
  }

  /** The loop of `someServerAvailable` over the shuffled list: probe the
      servers in order and stop at the first that answers. `probed` is the
      number of pings sent. */
  method FirstAvailable(order: seq<Server>, probe: Server -> bool) returns (up: bool, probed: nat)
    ensures probed <= |order|
    ensures up <==> SomeUp(order, probe)
    ensures up ==> 1 <= probed && probe(order[probed - 1])
    ensures up ==> forall i :: 0 <= i < probed - 1 ==> !probe(order[i])
    ensures !up ==> probed == |order|
  {
    probed := 0;
    while probed < |order|
      invariant probed <= |order|
      invariant forall i :: 0 <= i < probed ==> !probe(order[i])
    {
      var answered := probe(order[probed]);
      probed := probed + 1;
      if answered {
        return true, probed;
      }
    }
    return false, probed;
  }

  /** `someServerAvailable(servers)`: the slice is shuffled in place (the
      caller's list keeps the new order for the next poll), then probed from
      the front until a server answers. */
  method SomeServerAvailable(servers: array<Server>, pick: nat -> nat, probe: Server -> bool)
    returns (up: bool, probed: nat)
    modifies servers
    ensures servers[..] == Shuffled(old(servers[..]), pick)
    ensures multiset(servers[..]) == multiset(old(servers[..]))
    ensures up <==> SomeUp(old(servers[..]), probe)
    ensures probed <= servers.Length
    ensures up ==> 1 <= probed && probe(servers[probed - 1])
    ensures up ==> forall i :: 0 <= i < probed - 1 ==> !probe(servers[i])
    ensures !up ==> probed == servers.Length
  {
    RandomizeList(servers, pick);
    up, probed := FirstAvailable(servers[..], probe);
    ShuffleKeepsAvailability(old(servers[..]), pick, probe);
  }
}
