/**
 * The order-book merge (`populate_orderbook`): one side of the book is a
 * map from price to level, and a list of entries is applied to it in order.
 */
module Books {
  import opened Entities

  type Side = map<Decimal, BookEntry>

  /** One entry: a zero quantity at a price present deletes the level; any
      other entry (a zero quantity at an absent price included) sets it. */
  function Apply(side: Side, entry: BookEntry): Side
  {
    if entry.quantity == 0.0 && entry.price in side then side - {entry.price}
    else side[entry.price := entry]
  }

  /** The side after applying `entries` from first to last. */
  function Merged(side: Side, entries: seq<BookEntry>): Side
    decreases |entries|
  {
    if entries == [] then side
    else Apply(Merged(side, entries[..|entries| - 1]), entries[|entries| - 1])
  }

  /** Every level sits under its own price. */
  ghost predicate PricesKeyed(side: Side)
  {
    forall p :: p in side ==> side[p].price == p
  }

  /** `populate_orderbook(target, source)`: the loop that applies the entries. */
  method PopulateOrderbook(target: Side, source: seq<BookEntry>) returns (result: Side)
    ensures result == Merged(target, source)
  {
    result := target;
    for i := 0 to |source|
      invariant result == Merged(target, source[..i])
    {
      var entry := source[i];
      assert source[..i + 1][..i] == source[..i];
      if entry.quantity == 0.0 && entry.price in result {
        result := result - {entry.price};
      } else {
        result := result[entry.price := entry];
      }
    }
    assert source[..|source|] == source;
  }

  /** Merging a concatenation is merging one part after the other. */
  lemma {:induction false} MergedAppend(side: Side, a: seq<BookEntry>, b: seq<BookEntry>)
    ensures Merged(side, a + b) == Merged(Merged(side, a), b)
    decreases |b|
  {
    if b == [] {
      assert a + b == a;
    } else {
      var b' := b[..|b| - 1];
      assert (a + b)[..|a + b| - 1] == a + b';
      assert (a + b)[|a + b| - 1] == b[|b| - 1];
      MergedAppend(side, a, b');
    }
  }

  /** Prices that no entry names keep their level, or stay absent. */
  lemma {:induction false} MergedLeavesOtherPrices(side: Side, entries: seq<BookEntry>, p: Decimal)
    requires forall i :: 0 <= i < |entries| ==> entries[i].price != p
    ensures p in Merged(side, entries) <==> p in side
    ensures p in side ==> Merged(side, entries)[p] == side[p]
    decreases |entries|
  {
    if entries != [] {
      MergedLeavesOtherPrices(side, entries[..|entries| - 1], p);
    }
  }

  /** Merging keeps every level under its own price. */
  lemma {:induction false} MergedKeepsPricesKeyed(side: Side, entries: seq<BookEntry>)
    requires PricesKeyed(side)
    ensures PricesKeyed(Merged(side, entries))
    decreases |entries|
  {
    if entries != [] {
      MergedKeepsPricesKeyed(side, entries[..|entries| - 1]);
    }
  }

  /**
   * Entries are applied in order: the level at a price is decided by the
   * last entry naming it. A nonzero last entry, or a zero one at a price
   * absent just before it, leaves exactly that entry; a zero last entry at
   * a price present just before it leaves the price absent.
   */
  lemma MergedLastEntryDecides(side: Side, entries: seq<BookEntry>, j: nat)
    requires j < |entries|
    requires forall i :: j < i < |entries| ==> entries[i].price != entries[j].price
    ensures var p, before := entries[j].price, Merged(side, entries[..j]);
            (entries[j].quantity != 0.0 || p !in before) ==>
              p in Merged(side, entries) && Merged(side, entries)[p] == entries[j]
    ensures var p, before := entries[j].price, Merged(side, entries[..j]);
            (entries[j].quantity == 0.0 && p in before) ==> p !in Merged(side, entries)
  {
    var head, tail := entries[..j + 1], entries[j + 1..];
    assert entries == head + tail;
    assert head[..j] == entries[..j];
    MergedAppend(side, head, tail);
    MergedLeavesOtherPrices(Merged(side, head), tail, entries[j].price);
  }

  /** A level filled and then emptied in the same list is absent. */
  lemma FillThenEmptyRemoves(side: Side, p: Decimal, q: Decimal)
    requires q != 0.0
    ensures p !in Merged(side, [BookEntry(p, q), BookEntry(p, 0.0)])
  {
    var es := [BookEntry(p, q), BookEntry(p, 0.0)];
    assert es[..1][..0] == [];
    assert es[..1] == [BookEntry(p, q)];
    assert Merged(side, es[..1]) == side[p := BookEntry(p, q)];
  }

  /** A zero quantity at an absent price is not a no-op: it adds that level. */
  lemma ZeroAtAbsentPriceInserts(side: Side, p: Decimal)
    requires p !in side
    ensures Merged(side, [BookEntry(p, 0.0)]) == side[p := BookEntry(p, 0.0)]
  {
    assert [BookEntry(p, 0.0)][..0] == [];
  }

  /** After a snapshot, only prices named by some entry are present. */
  lemma SnapshotHoldsOnlyNamedPrices(entries: seq<BookEntry>, p: Decimal)
    requires p in Merged(map[], entries)
    ensures exists i :: 0 <= i < |entries| && entries[i].price == p
  {
    if forall i :: 0 <= i < |entries| ==> entries[i].price != p {
      MergedLeavesOtherPrices(map[], entries, p);
    }
  }
}
