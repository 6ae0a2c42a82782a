/**
 The account of a 64-slot channel whose senders give up when it is full: what it was
 offered, what it kept and what it dropped.
 */
module LossyChannel {

  const CAPACITY: nat := 64

  /** A value offered to a channel, and whether the buffer had room for it. */
  datatype Offer<T> = Offer(v: T, kept: bool)

  /** The values that found room, in order. */
  function Kept<T>(offers: seq<Offer<T>>): seq<T> {
    if offers == [] then []
    else
      var rest, last := Kept(offers[..|offers| - 1]), offers[|offers| - 1];
      if last.kept then rest + [last.v] else rest
  }

  function Dropped<T>(offers: seq<Offer<T>>): seq<T> {
    if offers == [] then []
    else
      var rest, last := Dropped(offers[..|offers| - 1]), offers[|offers| - 1];
      if last.kept then rest else rest + [last.v]
  }

  /** Everything offered, in order. */
  function Values<T>(offers: seq<Offer<T>>): seq<T> {
    if offers == [] then [] else Values(offers[..|offers| - 1]) + [offers[|offers| - 1].v]
  }

  lemma ValuesSnoc<T>(offers: seq<Offer<T>>, more: seq<Offer<T>>)
    requires |more| <= 1
    ensures Values(offers + more) == Values(offers) + Values(more)
  {
    if more == [] {
      assert offers + more == offers;
    } else {
      assert (offers + more)[..|offers|] == offers;
      assert more[..0] == [];
    }
  }

  lemma KeptSnoc<T>(offers: seq<Offer<T>>, more: seq<Offer<T>>)
    requires |more| <= 1
    ensures Kept(offers + more) == Kept(offers) + Kept(more)
    ensures Dropped(offers + more) == Dropped(offers) + Dropped(more)
  {
    if more == [] {
      assert offers + more == offers;
    } else {
      assert (offers + more)[..|offers|] == offers;
      assert more[..0] == [];
    }
  }

  lemma {:induction false} KeptPlusDropped<T>(offers: seq<Offer<T>>)
    ensures |offers| == |Kept(offers)| + |Dropped(offers)|
  {
    if offers != [] {
      KeptPlusDropped(offers[..|offers| - 1]);
    }
  }

  lemma KeptOne<T>(o: Offer<T>)
    ensures Kept([o]) == if o.kept then [o.v] else []
    ensures Dropped([o]) == if o.kept then [] else [o.v]
  {
    assert [o][..0] == [];
  }

  /** The positions of the kept offers. */
  function KeptAt<T>(offers: seq<Offer<T>>): seq<nat> {
    if offers == [] then []
    else
      var rest := KeptAt(offers[..|offers| - 1]);
      if offers[|offers| - 1].kept then rest + [|offers| - 1] else rest
  }

  /** The kept values are an order-preserving selection: those at the increasing positions where there was room. */
  lemma {:induction false} KeptIsSubsequence<T>(offers: seq<Offer<T>>)
    ensures |KeptAt(offers)| == |Kept(offers)|
    ensures forall i, j | 0 <= i < j < |KeptAt(offers)| :: KeptAt(offers)[i] < KeptAt(offers)[j]
    ensures forall i | 0 <= i < |KeptAt(offers)| ::
      KeptAt(offers)[i] < |offers| && Kept(offers)[i] == offers[KeptAt(offers)[i]].v
    ensures forall n: nat :: n in KeptAt(offers) <==> n < |offers| && offers[n].kept
  {
    if offers != [] {
      KeptIsSubsequence(offers[..|offers| - 1]);
    }
  }
}
