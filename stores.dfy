/**
  The two document stores the bot keeps (authorised users and broadcast
  recipients), held in memory: which messages one broadcast produces and
  what the recipient list looks like after a record is removed.
 */
module Stores {
  import opened Dialogs

  /** The messages one broadcast sends: one per stored chat record, in the
      order of the records, each with the same body. */
  function BroadcastTo(chats: seq<Address>, body: Body): (r: seq<Msg>)
    ensures |r| == |chats|
    ensures forall i :: 0 <= i < |chats| ==> r[i] == Msg(chats[i], body)
  {
    if chats == [] then [] else [Msg(chats[0], body)] + BroadcastTo(chats[1..], body)
  }

  /** Broadcasting to one more record sends exactly one more message, last. */
  lemma BroadcastAppend(chats: seq<Address>, chat: Address, body: Body)
    ensures BroadcastTo(chats + [chat], body) == BroadcastTo(chats, body) + [Msg(chat, body)]
  {
    var l, r := BroadcastTo(chats + [chat], body), BroadcastTo(chats, body) + [Msg(chat, body)];
    assert |l| == |r|;
    forall i | 0 <= i < |l| ensures l[i] == r[i] {
      if i < |chats| { assert (chats + [chat])[i] == chats[i]; }
    }
  }

  /** Number of records equal to `a`. */
  function Occurrences<T(==)>(xs: seq<T>, a: T): nat {
    if xs == [] then 0 else (if xs[0] == a then 1 else 0) + Occurrences(xs[1..], a)
  }

  /** Number of messages addressed to `a`. */
  function DeliveredTo(out: seq<Msg>, a: Address): nat {
    if out == [] then 0 else (if out[0].to == a then 1 else 0) + DeliveredTo(out[1..], a)
  }

  /** A broadcast reaches every address exactly as often as it is recorded:
      once per record, never to an address that has no record. */
  lemma {:induction false} BroadcastOncePerRecord(chats: seq<Address>, body: Body, a: Address)
    ensures DeliveredTo(BroadcastTo(chats, body), a) == Occurrences(chats, a)
  {
    if chats != [] {
      var r := BroadcastTo(chats, body);
      assert r[1..] == BroadcastTo(chats[1..], body);
      BroadcastOncePerRecord(chats[1..], body, a);
    }
  }

  /** Index of the first record equal to `x`. */
  function IndexOf<T(==)>(xs: seq<T>, x: T): (i: nat)
    requires x in xs
    ensures i < |xs| && xs[i] == x && x !in xs[..i]
  {
    if xs[0] == x then 0 else 1 + IndexOf(xs[1..], x)
  }

  /** `remove(query)` without the `multi` option: the first matching record
      goes, everything else stays in order; no match leaves the list alone. */
  function RemoveFirst<T(==)>(xs: seq<T>, x: T): (r: seq<T>)
    ensures x !in xs ==> r == xs
    ensures x in xs ==> |r| == |xs| - 1 && r == xs[..IndexOf(xs, x)] + xs[IndexOf(xs, x) + 1..]
    ensures multiset(r) == multiset(xs) - multiset{x}
  {
    if x !in xs then xs
    else
      var i := IndexOf(xs, x);
      assert xs == xs[..i] + [x] + xs[i + 1..];
      xs[..i] + xs[i + 1..]
  }

  /** A record inserted for a chat that was not listed, and then removed
      again, leaves the list exactly as it was. */
  lemma {:induction false} InsertThenRemove<T>(xs: seq<T>, x: T)
    requires x !in xs
    ensures RemoveFirst(xs + [x], x) == xs
  {
    var ys := xs + [x];
    assert ys[|xs|] == x;
    assert ys[..|xs|] == xs;
    assert IndexOf(ys, x) == |xs|;
  }
}
