// Shared vocabulary: failure wrappers, Holochain identifiers and capabilities.

module Wrappers {
  datatype Option<+T> = None | Some(value: T)

  datatype Result<+T, +E> = Ok(value: T) | Err(error: E)
}

module Types {
  datatype AgentPubKey = AgentPubKey(raw: nat)

  datatype DnaHash = DnaHash(raw: nat)

  // A cell: one agent in one DNA. Key of the proxy registry and of the kitsune agent map.
  datatype Cell = Cell(dna: DnaHash, agent: AgentPubKey)

  datatype Capability = DhtRead | DhtWrite | K2

  type Token = string

  // A 32-byte challenge; only its identity matters.
  datatype Nonce = Nonce(raw: nat)

  // One WebSocket connection. `WsSender::same_channel` is equality of these.
  type ConnId = nat

  predicate NoDuplicates<T(==)>(xs: seq<T>) {
    forall i, j :: 0 <= i < j < |xs| ==> xs[i] != xs[j]
  }

  function Filter<T(!new)>(xs: seq<T>, keep: T -> bool): (r: seq<T>)
    ensures forall x :: x in r <==> x in xs && keep(x)
    ensures |r| <= |xs|
  {
    if xs == [] then []
    else (if keep(xs[0]) then [xs[0]] else []) + Filter(xs[1..], keep)
  }

  lemma {:induction false} FilterAppend<T(!new)>(xs: seq<T>, ys: seq<T>, keep: T -> bool)
    ensures Filter(xs + ys, keep) == Filter(xs, keep) + Filter(ys, keep)
  {
    if xs == [] {
      assert xs + ys == ys;
    } else {
      assert (xs + ys)[1..] == xs[1..] + ys;
      FilterAppend(xs[1..], ys, keep);
    }
  }

  lemma {:induction false} FilterKeepsNoDuplicates<T(!new)>(xs: seq<T>, keep: T -> bool)
    requires NoDuplicates(xs)
    ensures NoDuplicates(Filter(xs, keep))
  {
    if xs != [] {
      assert forall x :: x in xs[1..] ==> x != xs[0];
      FilterKeepsNoDuplicates(xs[1..], keep);
    }
  }
}
