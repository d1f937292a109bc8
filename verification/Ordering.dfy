/** What ORDER BY a key and the identifier, with a LIMIT, selects. */
module Ordering {

  predicate Before(key: nat -> int, a: nat, b: nat) {
    key(a) < key(b) || (key(a) == key(b) && a < b)
  }

  function Insert(key: nat -> int, ids: seq<nat>, p: nat): (r: seq<nat>)
    ensures forall q: nat :: q in r <==> q == p || q in ids
  {
    if ids == [] || Before(key, p, ids[0]) then [p] + ids else [ids[0]] + Insert(key, ids[1..], p)
  }

  /** The chosen identifiers below `n`, least key first. */
  function Among(key: nat -> int, chosen: nat -> bool, n: nat): (ids: seq<nat>)
    ensures forall p: nat :: p in ids <==> p < n && chosen(p)
  {
    if n == 0 then []
    else if chosen(n - 1) then Insert(key, Among(key, chosen, n - 1), n - 1)
    else Among(key, chosen, n - 1)
  }

  function Limit(ids: seq<nat>, most: nat): seq<nat> {
    if |ids| <= most then ids else ids[..most]
  }

  ghost predicate Ordered(key: nat -> int, ids: seq<nat>) {
    forall i, j :: 0 <= i < j < |ids| ==> Before(key, ids[i], ids[j])
  }

  lemma InOrder(key: nat -> int, ids: seq<nat>, i: nat, k: nat)
    requires Ordered(key, ids) && i < k < |ids|
    ensures Before(key, ids[i], ids[k])
  {
  }

  lemma {:induction false} InsertKeepsOrder(key: nat -> int, ids: seq<nat>, p: nat)
    requires Ordered(key, ids) && p !in ids
    ensures Ordered(key, Insert(key, ids, p))
  {
    if ids != [] && !Before(key, p, ids[0]) {
      InsertKeepsOrder(key, ids[1..], p);
      var r := Insert(key, ids[1..], p);
      forall j | 0 <= j < |r| ensures Before(key, ids[0], r[j]) {
        if r[j] != p {
          assert r[j] in r;
          var k :| 0 <= k < |ids[1..]| && ids[1..][k] == r[j];
          assert ids[k + 1] == r[j];
        }
      }
    }
  }

  lemma {:induction false} AmongIsOrdered(key: nat -> int, chosen: nat -> bool, n: nat)
    ensures Ordered(key, Among(key, chosen, n))
  {
    if n > 0 {
      AmongIsOrdered(key, chosen, n - 1);
      if chosen(n - 1) {
        InsertKeepsOrder(key, Among(key, chosen, n - 1), n - 1);
      }
    }
  }

  /** A selection is in order, holds chosen identifiers only, each once, and leaves one
      out only for the sake of earlier ones. */
  lemma SelectionsAreFair(key: nat -> int, chosen: nat -> bool, n: nat, most: nat)
    ensures var ids := Limit(Among(key, chosen, n), most);
            && Ordered(key, ids) && |ids| <= most
            && (forall i, k :: 0 <= i < k < |ids| ==> ids[i] != ids[k])
            && (forall i :: 0 <= i < |ids| ==> ids[i] < n && chosen(ids[i]))
            && (forall p: nat :: p < n && chosen(p) && p !in ids ==>
                  |ids| == most && forall i :: 0 <= i < |ids| ==> Before(key, ids[i], p))
  {
    var all := Among(key, chosen, n);
    var ids := Limit(all, most);
    AmongIsOrdered(key, chosen, n);
    assert forall i :: 0 <= i < |all| ==> all[i] in all;
    forall p: nat | p < n && chosen(p) && p !in ids
      ensures |ids| == most && forall i :: 0 <= i < |ids| ==> Before(key, ids[i], p)
    {
      var k :| 0 <= k < |all| && all[k] == p;
    }
  }
}
