/** Where the two pages meet: the cart the selection page hands to checkout
    is priced there at exactly the grand total the selection page showed,
    whatever order the quantities map yields its keys in. */
module CartHandoff {
  import opened Prelude
  import opened Types
  import opened TicketSelection
  import opened Checkout

  /** What one key of the quantities map adds to the cart's subtotal. */
  function Term(e: Event, q: map<string, int>, k: string): int {
    if k in q && q[k] > 0 then PriceOf(Some(e), k) * q[k] else 0
  }

  /** The terms of a sequence of keys, added up. */
  function KeySum(e: Event, q: map<string, int>, ks: seq<string>): int {
    if |ks| == 0 then 0 else Term(e, q, ks[0]) + KeySum(e, q, ks[1..])
  }

  /** The category ids of a list of categories, in order. */
  function Ids(cats: seq<TicketCategory>): seq<string> {
    seq(|cats|, i requires 0 <= i < |cats| => cats[i].id)
  }

  lemma {:induction false} KeySumAppend(e: Event, q: map<string, int>, a: seq<string>, b: seq<string>)
    ensures KeySum(e, q, a + b) == KeySum(e, q, a) + KeySum(e, q, b)
  {
    if |a| > 0 {
      assert (a + b)[1..] == a[1..] + b;
      KeySumAppend(e, q, a[1..], b);
    } else {
      assert a + b == b;
    }
  }

  /** The subtotal of the built cart is the sum of the terms of the keys it
      was built from. */
  lemma {:induction false} CartTotalIsKeySum(eventId: string, e: Event, q: map<string, int>, keys: seq<string>)
    requires forall k :: k in keys ==> k in q
    ensures ItemsTotal(BuildCart(eventId, Some(e), q, keys)) == KeySum(e, q, keys)
  {
    if |keys| > 0 {
      var k := keys[0];
      var rest := BuildCart(eventId, Some(e), q, keys[1..]);
      assert forall x :: x in keys[1..] ==> x in keys;
      CartTotalIsKeySum(eventId, e, q, keys[1..]);
      if q[k] > 0 {
        var item := CartItem(eventId, k, q[k], PriceOf(Some(e), k));
        ItemsTotalAppend([item], rest);
        assert [item][..0] == [];
      }
    }
  }

  /** The grand total is the sum of the terms of the event's category ids. */
  lemma {:induction false} CategoriesTotalIsKeySum(e: Event, q: map<string, int>, n: nat)
    requires n <= |e.categories|
    requires DistinctIds(e.categories) && NonNegative(q)
    ensures CategoriesTotal(e.categories[..n], q) == KeySum(e, q, Ids(e.categories[..n]))
  {
    if n > 0 {
      var c := e.categories[n - 1];
      assert e.categories[..n][..n - 1] == e.categories[..n - 1];
      assert Ids(e.categories[..n]) == Ids(e.categories[..n - 1]) + [c.id];
      CategoriesTotalIsKeySum(e, q, n - 1);
      KeySumAppend(e, q, Ids(e.categories[..n - 1]), [c.id]);
      PriceOfUnique(e, n - 1);
      assert KeySum(e, q, [c.id]) == Term(e, q, c.id) by {
        assert [c.id][1..] == [];
      }
    }
  }

  lemma {:induction false} KeySumZero(e: Event, q: map<string, int>, b: seq<string>)
    requires forall k :: k in b ==> Term(e, q, k) == 0
    ensures KeySum(e, q, b) == 0
  {
    if |b| > 0 {
      assert b[0] in b;
      assert forall k :: k in b[1..] ==> k in b;
      KeySumZero(e, q, b[1..]);
    }
  }

  /** Taking one key out of a sequence of distinct keys. */
  lemma RemoveAt(b: seq<string>, j: nat)
    requires j < |b| && Distinct(b)
    ensures Distinct(b[..j] + b[j + 1..])
    ensures forall k :: k in b[..j] + b[j + 1..] <==> k in b && k != b[j]
  {
    var b' := b[..j] + b[j + 1..];
    assert forall i :: 0 <= i < |b'| ==> b'[i] == if i < j then b[i] else b[i + 1];
    forall k | k in b && k != b[j] ensures k in b' {
      var i :| 0 <= i < |b| && b[i] == k;
      if i < j { assert b'[i] == k; } else { assert b'[i - 1] == k; }
    }
  }

  lemma KeySumRemove(e: Event, q: map<string, int>, b: seq<string>, j: nat)
    requires j < |b|
    ensures KeySum(e, q, b) == KeySum(e, q, b[..j] + b[j + 1..]) + Term(e, q, b[j])
  {
    assert b == b[..j] + ([b[j]] + b[j + 1..]);
    KeySumAppend(e, q, b[..j], [b[j]] + b[j + 1..]);
    assert ([b[j]] + b[j + 1..])[1..] == b[j + 1..];
    KeySumAppend(e, q, b[..j], b[j + 1..]);
  }

  /** Two sequences of distinct keys with the same keys of non-zero term
      have the same sum, whatever their order. */
  lemma {:induction false} KeySumSameSupport(e: Event, q: map<string, int>, a: seq<string>, b: seq<string>)
    requires Distinct(a) && Distinct(b)
    requires forall k :: k in a && Term(e, q, k) != 0 ==> k in b
    requires forall k :: k in b && Term(e, q, k) != 0 ==> k in a
    ensures KeySum(e, q, a) == KeySum(e, q, b)
    decreases |a|
  {
    if |a| == 0 {
      KeySumZero(e, q, b);
    } else {
      var x, a' := a[0], a[1..];
      assert Distinct(a');
      assert forall k :: k in a' <==> k in a && k != x by {
        assert forall i :: 1 <= i < |a| ==> a[i] != a[0];
        assert forall k :: k in a ==> k == x || k in a';
      }
      if x in b {
        var j :| 0 <= j < |b| && b[j] == x;
        KeySumRemove(e, q, b, j);
        RemoveAt(b, j);
        KeySumSameSupport(e, q, a', b[..j] + b[j + 1..]);
      } else {
        KeySumSameSupport(e, q, a', b);
      }
    }
  }

  /** The handoff keeps the money right. When category ids are unique and
      no quantity is negative (the page clamps them), the cart handed to checkout has the
      selection page's grand total as its subtotal; a refused selection is
      one whose total is 0, so a positive total always reaches checkout. */
  lemma HandoffKeepsTotal(eventId: string, e: Event, q: map<string, int>, keys: seq<string>)
    requires IsEnumeration(keys, q) && NonNegative(q) && DistinctIds(e.categories)
    ensures Continue(eventId, Some(e), q, keys).ToCheckout? ==>
      Subtotal(Some(Continue(eventId, Some(e), q, keys).cartItems)) == Total(Some(e), q)
    ensures Continue(eventId, Some(e), q, keys).NothingSelected? ==> Total(Some(e), q) == 0
  {
    var n := |e.categories|;
    var ids := Ids(e.categories);
    CartTotalIsKeySum(eventId, e, q, keys);
    CategoriesTotalIsKeySum(e, q, n);
    assert e.categories[..n] == e.categories;
    assert Distinct(ids);
    forall k | k in ids && Term(e, q, k) != 0 ensures k in keys {
    }
    forall k | k in keys && Term(e, q, k) != 0 ensures k in ids {
      assert PriceOf(Some(e), k) != 0;
      assert HasCategory(e.categories, k);
      var i :| 0 <= i < |e.categories| && e.categories[i].id == k;
      assert ids[i] == k;
    }
    KeySumSameSupport(e, q, ids, keys);
  }
}
