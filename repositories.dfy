/**
 * Two repository queries over the rows of a table: the history of one order, newest
 * first, and the cart line of one product in one cart. A table is the sequence of its
 * rows in the order the database yields them.
 */
module OrderHistoryRepository {
  import opened Domain

  /** Newest first: CreatedAt never increases along the sequence. */
  predicate NewestFirst(s: seq<OrderHistory>) {
    forall i, j :: 0 <= i < j < |s| ==> s[i].createdAt.ticks >= s[j].createdAt.ticks
  }

  /** Where(oh => oh.OrderId == orderId): the matching rows, in table order. */
  function Filter(rows: seq<OrderHistory>, orderId: int): (r: seq<OrderHistory>)
    ensures forall i :: 0 <= i < |r| ==> r[i].orderId == orderId
    ensures forall h :: multiset(r)[h] == if h.orderId == orderId then multiset(rows)[h] else 0
  {
    if rows == [] then []
    else
      assert rows == [rows[0]] + rows[1..];
      if rows[0].orderId == orderId then [rows[0]] + Filter(rows[1..], orderId)
      else Filter(rows[1..], orderId)
  }

  /** One row placed into a newest-first sequence, before the first row older than it. */
  function Insert(h: OrderHistory, s: seq<OrderHistory>): (r: seq<OrderHistory>)
    requires NewestFirst(s)
    ensures NewestFirst(r)
    ensures multiset(r) == multiset(s) + multiset{h}
    ensures |r| == |s| + 1
  {
    if s == [] || s[0].createdAt.ticks <= h.createdAt.ticks then
      PrependNewest(h, s);
      [h] + s
    else
      assert s == [s[0]] + s[1..];
      var rest := Insert(h, s[1..]);
      PrependOlder(h, s, rest);
      [s[0]] + rest
  }

  /** A row no older than the first row of a newest-first sequence can go in front of it. */
  lemma PrependNewest(h: OrderHistory, s: seq<OrderHistory>)
    requires NewestFirst(s)
    requires s == [] || s[0].createdAt.ticks <= h.createdAt.ticks
    ensures NewestFirst([h] + s)
  {
    var r := [h] + s;
    forall i, j | 0 <= i < j < |r| ensures r[i].createdAt.ticks >= r[j].createdAt.ticks {
      if i == 0 {
        assert r[j] == s[j - 1];
        assert s[0].createdAt.ticks >= s[j - 1].createdAt.ticks;
      } else {
        assert r[i] == s[i - 1] && r[j] == s[j - 1];
      }
    }
  }

  /** The step of Insert: the head of s is newer than h and than every row of s[1..]. */
  lemma PrependOlder(h: OrderHistory, s: seq<OrderHistory>, rest: seq<OrderHistory>)
    requires NewestFirst(s) && s != [] && s[0].createdAt.ticks > h.createdAt.ticks
    requires NewestFirst(rest) && multiset(rest) == multiset(s[1..]) + multiset{h}
    ensures NewestFirst([s[0]] + rest)
  {
    var r := [s[0]] + rest;
    forall j | 0 <= j < |rest| ensures s[0].createdAt.ticks >= rest[j].createdAt.ticks {
      assert rest[j] in multiset(rest);
      if rest[j] != h {
        assert rest[j] in multiset(s[1..]);
        var k :| 0 <= k < |s[1..]| && s[1..][k] == rest[j];
        assert s[k + 1] == rest[j];
      }
    }
    forall i, j | 0 <= i < j < |r| ensures r[i].createdAt.ticks >= r[j].createdAt.ticks {
      assert r[j] == rest[j - 1];
      if i > 0 {
        assert r[i] == rest[i - 1];
      }
    }
  }

  /** OrderByDescending(oh => oh.CreatedAt): the rows rearranged newest first. */
  function SortNewestFirst(s: seq<OrderHistory>): (r: seq<OrderHistory>)
    ensures NewestFirst(r)
    ensures multiset(r) == multiset(s)
  {
    if s == [] then []
    else
      assert s == [s[0]] + s[1..];
      Insert(s[0], SortNewestFirst(s[1..]))
  }

  /**
   * GetHistoryForOrderAsync: exactly the rows of the order, each as often as it is stored,
   * newest first; an order without history gives the empty sequence.
   */
  function HistoryForOrder(rows: seq<OrderHistory>, orderId: int): (r: seq<OrderHistory>)
    ensures forall i :: 0 <= i < |r| ==> r[i].orderId == orderId
    ensures forall h :: h in rows && h.orderId == orderId ==> h in r
    ensures forall h :: multiset(r)[h] == if h.orderId == orderId then multiset(rows)[h] else 0
    ensures NewestFirst(r)
    ensures (forall i :: 0 <= i < |rows| ==> rows[i].orderId != orderId) ==> r == []
  {
    var r := SortNewestFirst(Filter(rows, orderId));
    SameCountsSameRows(rows, orderId, r);
    NoMatchNoHistory(rows, orderId, r);
    r
  }

  /** A sequence holding each row of the order as often as the table does holds exactly the order's rows. */
  lemma SameCountsSameRows(rows: seq<OrderHistory>, orderId: int, r: seq<OrderHistory>)
    requires forall h :: multiset(r)[h] == if h.orderId == orderId then multiset(rows)[h] else 0
    ensures forall i :: 0 <= i < |r| ==> r[i].orderId == orderId
    ensures forall h :: h in rows && h.orderId == orderId ==> h in r
  {
    forall i | 0 <= i < |r| ensures r[i].orderId == orderId {
      assert multiset(r)[r[i]] > 0;
    }
    forall h | h in rows && h.orderId == orderId ensures h in r {
      assert multiset(rows)[h] > 0;
      assert multiset(r)[h] > 0;
    }
  }

  lemma NoMatchNoHistory(rows: seq<OrderHistory>, orderId: int, r: seq<OrderHistory>)
    requires forall h :: multiset(r)[h] == if h.orderId == orderId then multiset(rows)[h] else 0
    ensures (forall i :: 0 <= i < |rows| ==> rows[i].orderId != orderId) ==> r == []
  {
    if r != [] {
      assert r[0] in multiset(r);
      var i :| 0 <= i < |rows| && rows[i] == r[0];
    }
  }

  /** The first row of a newest-first sequence is at least as new as every row in it. */
  lemma HeadIsNewest(a: seq<OrderHistory>, x: OrderHistory)
    requires NewestFirst(a) && x in a
    ensures a[0].createdAt.ticks >= x.createdAt.ticks
  {
    var k :| 0 <= k < |a| && a[k] == x;
    if k > 0 {
      assert a[0].createdAt.ticks >= a[k].createdAt.ticks;
    }
  }

  /** Removing the row at j keeps a sequence newest first and removes that row from its multiset. */
  lemma RemoveAt(a: seq<OrderHistory>, j: int) returns (a': seq<OrderHistory>)
    requires NewestFirst(a) && 0 <= j < |a|
    ensures |a'| == |a| - 1
    ensures forall k {:trigger a'[k]} :: 0 <= k < |a'| ==> a'[k] == if k < j then a[k] else a[k + 1]
    ensures NewestFirst(a')
    ensures multiset(a') == multiset(a) - multiset{a[j]}
  {
    a' := a[..j] + a[j + 1..];
    assert a == a[..j] + [a[j]] + a[j + 1..];
    forall p, q | 0 <= p < q < |a'| ensures a'[p].createdAt.ticks >= a'[q].createdAt.ticks {
      var p0 := if p < j then p else p + 1;
      var q0 := if q < j then q else q + 1;
      assert a'[p] == a[p0] && a'[q] == a[q0];
    }
  }

  /**
   * Two newest-first arrangements of the same rows agree on the CreatedAt of every
   * position: only rows created at the same instant can trade places.
   */
  lemma {:induction false} NewestFirstUniqueUpToTies(a: seq<OrderHistory>, b: seq<OrderHistory>)
    requires NewestFirst(a) && NewestFirst(b) && multiset(a) == multiset(b)
    ensures |a| == |b|
    ensures forall i :: 0 <= i < |a| ==> a[i].createdAt == b[i].createdAt
    decreases |a|
  {
    assert |a| == |multiset(a)| == |multiset(b)| == |b|;
    if a != [] {
      assert a[0] in multiset(b) && b[0] in multiset(a);
      HeadIsNewest(a, b[0]);
      HeadIsNewest(b, a[0]);
      var j :| 0 <= j < |a| && a[j] == b[0];
      var a' := RemoveAt(a, j);
      var b' := RemoveAt(b, 0);
      NewestFirstUniqueUpToTies(a', b');
      forall k | 1 <= k < |a| ensures a[k].createdAt == b[k].createdAt {
        ShiftedPosition(a, b, a', b', j, k);
      }
    }
  }

  /**
   * The step of NewestFirstUniqueUpToTies: a' is a without position j, b' is b without its
   * first row, a[j] has the newest time, and a' and b' agree on times position by position.
   */
  lemma ShiftedPosition(a: seq<OrderHistory>, b: seq<OrderHistory>, a': seq<OrderHistory>, b': seq<OrderHistory>, j: int, k: int)
    requires NewestFirst(a) && 0 <= j < |a| && 1 <= k < |a| == |b|
    requires |a'| == |b'| == |a| - 1
    requires forall m {:trigger a'[m]} :: 0 <= m < |a'| ==> a'[m] == if m < j then a[m] else a[m + 1]
    requires forall m :: 0 <= m < |b'| ==> b'[m] == b[m + 1]
    requires forall m :: 0 <= m < |a'| ==> a'[m].createdAt == b'[m].createdAt
    requires a[j].createdAt.ticks >= a[0].createdAt.ticks
    ensures a[k].createdAt == b[k].createdAt
  {
    assert b'[k - 1] == b[k];
    if k <= j {
      assert a'[k - 1] == a[k - 1];
      assert a[k - 1].createdAt.ticks >= a[k].createdAt.ticks >= a[j].createdAt.ticks;
      if k - 1 > 0 {
        assert a[0].createdAt.ticks >= a[k - 1].createdAt.ticks;
      }
    } else {
      assert a'[k - 1] == a[k];
    }
  }
}

module CartItemRepository {
  import opened Wrappers
  import opened Domain

  /** The FirstOrDefault predicate: the item's cart and product are the ones asked for. */
  predicate Matches(item: CartItem, cartId: int, productId: int) {
    item.cartId == cartId && item.productId == productId
  }

  /** GetCartItemAsync: the first item of the cart for the product, or null. */
  function FindCartItem(items: seq<CartItem>, cartId: int, productId: int): (r: Option<CartItem>)
    ensures r.Some? ==> r.value in items && Matches(r.value, cartId, productId)
    ensures r.None? <==> forall i :: 0 <= i < |items| ==> !Matches(items[i], cartId, productId)
  {
    if items == [] then None
    else if Matches(items[0], cartId, productId) then Some(items[0])
    else
      var rest := FindCartItem(items[1..], cartId, productId);
      assert forall i :: 1 <= i < |items| ==> items[i] == items[1..][i - 1];
      rest
  }

  /** Item i is the first item that matches. */
  predicate FirstMatchAt(items: seq<CartItem>, cartId: int, productId: int, i: int) {
    && 0 <= i < |items|
    && Matches(items[i], cartId, productId)
    && forall j :: 0 <= j < i ==> !Matches(items[j], cartId, productId)
  }

  /** When several items match, the one returned is the first of them in table order. */
  lemma {:induction false} FindsFirstMatch(items: seq<CartItem>, cartId: int, productId: int)
    requires FindCartItem(items, cartId, productId).Some?
    ensures exists i :: FirstMatchAt(items, cartId, productId, i) && items[i] == FindCartItem(items, cartId, productId).value
  {
    if !Matches(items[0], cartId, productId) {
      FindsFirstMatch(items[1..], cartId, productId);
      var i :| FirstMatchAt(items[1..], cartId, productId, i) && items[1..][i] == FindCartItem(items[1..], cartId, productId).value;
      assert forall j :: 1 <= j < i + 1 ==> items[j] == items[1..][j - 1];
      assert FirstMatchAt(items, cartId, productId, i + 1);
    } else {
      assert FirstMatchAt(items, cartId, productId, 0);
    }
  }

  /** The items with every variant id replaced by `variant`. */
  function WithVariant(items: seq<CartItem>, variant: Option<int>): (r: seq<CartItem>)
    ensures |r| == |items|
    ensures forall i :: 0 <= i < |items| ==> r[i] == items[i].(productVariantId := variant)
  {
    seq(|items|, i requires 0 <= i < |items| => items[i].(productVariantId := variant))
  }

  /** Matching ignores the variant: changing the variant ids changes the answer only in its variant id. */
  lemma {:induction false} VariantIgnored(items: seq<CartItem>, cartId: int, productId: int, variant: Option<int>)
    ensures FindCartItem(WithVariant(items, variant), cartId, productId) ==
      match FindCartItem(items, cartId, productId)
      case None => None
      case Some(x) => Some(x.(productVariantId := variant))
  {
    if items != [] {
      var w := WithVariant(items, variant);
      assert w[1..] == WithVariant(items[1..], variant);
      VariantIgnored(items[1..], cartId, productId, variant);
    }
  }
}
