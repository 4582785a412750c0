/** Stock arithmetic of src/modules/products/products.service.ts, on values. */
module Stock {
  import opened Common

  /** SetCartItemDTO admits whole quantities of at least one; zero is harmless here too. */
  datatype Line = Line(product: ProductId, quantity: nat)

  type Shelf = map<ProductId, int>

  /** The quantity all lines together ask of product `p`, duplicates included. */
  function Total(lines: seq<Line>, p: ProductId): nat {
    if lines == [] then 0
    else Total(lines[..|lines| - 1], p) + QuantityOf(lines[|lines| - 1], p)
  }

  function QuantityOf(line: Line, p: ProductId): nat {
    if line.product == p then line.quantity else 0
  }

  /** Every product asked for exists and covers the sum of its lines. */
  predicate CanReserve(shelf: Shelf, lines: seq<Line>) {
    forall l | l in lines :: l.product in shelf && Total(lines, l.product) <= shelf[l.product]
  }

  function Reserved(shelf: Shelf, lines: seq<Line>): Shelf {
    map p | p in shelf :: shelf[p] - Total(lines, p)
  }

  function Restored(shelf: Shelf, lines: seq<Line>): Shelf {
    map p | p in shelf :: shelf[p] + Total(lines, p)
  }

  lemma TotalSnoc(lines: seq<Line>, l: Line, p: ProductId)
    ensures Total(lines + [l], p) == Total(lines, p) + QuantityOf(l, p)
  {
    assert (lines + [l])[..|lines|] == lines;
  }

  lemma {:induction false} TotalConcat(a: seq<Line>, b: seq<Line>, p: ProductId)
    ensures Total(a + b, p) == Total(a, p) + Total(b, p)
  {
    if b == [] {
      assert a + b == a;
    } else {
      var b', l := b[..|b| - 1], b[|b| - 1];
      assert a + b == (a + b') + [l];
      TotalSnoc(a + b', l, p);
      TotalConcat(a, b', p);
    }
  }

  lemma TotalCons(l: Line, rest: seq<Line>, p: ProductId)
    ensures Total([l] + rest, p) == QuantityOf(l, p) + Total(rest, p)
  {
    TotalConcat([l], rest, p);
    TotalSnoc([], l, p);
    assert [] + [l] == [l];
  }

  lemma {:induction false} TotalAbsent(lines: seq<Line>, p: ProductId)
    requires forall l | l in lines :: l.product != p
    ensures Total(lines, p) == 0
  {
    if lines != [] {
      TotalAbsent(lines[..|lines| - 1], p);
    }
  }

  /** Only the bag of lines matters, not their order. */
  lemma {:induction false} TotalIsOrderFree(a: seq<Line>, b: seq<Line>, p: ProductId)
    requires multiset(a) == multiset(b)
    ensures Total(a, p) == Total(b, p)
  {
    if a == [] {
      assert |multiset(b)| == 0;
      assert b == [];
    } else {
      var l := a[|a| - 1];
      assert l in multiset(b);
      var k :| 0 <= k < |b| && b[k] == l;
      var b' := b[..k] + b[k + 1..];
      assert b == b[..k] + ([l] + b[k + 1..]);
      assert a == a[..|a| - 1] + [l];
      assert multiset(a[..|a| - 1]) == multiset(a) - multiset{l};
      assert multiset(b') == multiset(b) - multiset{l};
      TotalIsOrderFree(a[..|a| - 1], b', p);
      TotalConcat(b[..k], [l] + b[k + 1..], p);
      TotalCons(l, b[k + 1..], p);
      TotalConcat(b[..k], b[k + 1..], p);
    }
  }

  /** Reservation does not depend on the order of the lines: same verdict, same shelf. */
  lemma ReservationIsOrderFree(shelf: Shelf, a: seq<Line>, b: seq<Line>)
    requires multiset(a) == multiset(b)
    ensures CanReserve(shelf, a) == CanReserve(shelf, b)
    ensures Reserved(shelf, a) == Reserved(shelf, b)
  {
    forall p: ProductId ensures Total(a, p) == Total(b, p) {
      TotalIsOrderFree(a, b, p);
    }
    assert forall l :: l in a <==> l in multiset(a);
    assert forall l :: l in b <==> l in multiset(b);
  }

  /** Giving back what was reserved is the identity. */
  lemma RestoreUndoesReserve(shelf: Shelf, lines: seq<Line>)
    ensures Restored(Reserved(shelf, lines), lines) == shelf
  {
  }

  /** A reservation that goes through never drives a stock count below zero. */
  lemma ReservedStaysNonNegative(shelf: Shelf, lines: seq<Line>)
    requires CanReserve(shelf, lines)
    requires forall p | p in shelf :: shelf[p] >= 0
    ensures forall p | p in Reserved(shelf, lines) :: Reserved(shelf, lines)[p] >= 0
  {
    forall p | p in shelf ensures shelf[p] - Total(lines, p) >= 0 {
      if forall l | l in lines :: l.product != p {
        TotalAbsent(lines, p);
      }
    }
  }

  /** Extending the request by one line: the verdict turns on that line's product alone. */
  lemma CanReserveSnoc(shelf: Shelf, lines: seq<Line>, l: Line)
    ensures CanReserve(shelf, lines + [l]) <==>
            CanReserve(shelf, lines) && l.product in shelf &&
            l.quantity <= Reserved(shelf, lines)[l.product]
  {
    forall p: ProductId ensures Total(lines + [l], p) == Total(lines, p) + QuantityOf(l, p) {
      TotalSnoc(lines, l, p);
    }
    assert forall k :: k in lines + [l] <==> k in lines || k == l;
    if CanReserve(shelf, lines + [l]) {
      assert l in lines + [l];
      forall k | k in lines ensures k.product in shelf && Total(lines, k.product) <= shelf[k.product] {
        assert k in lines + [l];
      }
    }
  }

  lemma ReservedSnoc(shelf: Shelf, lines: seq<Line>, l: Line)
    requires l.product in shelf
    ensures Reserved(shelf, lines + [l])
         == Reserved(shelf, lines)[l.product := Reserved(shelf, lines)[l.product] - l.quantity]
  {
    forall p: ProductId ensures Total(lines + [l], p) == Total(lines, p) + QuantityOf(l, p) {
      TotalSnoc(lines, l, p);
    }
  }

  lemma RestoredSnoc(shelf: Shelf, lines: seq<Line>, l: Line)
    ensures Restored(shelf, lines + [l])
         == var r := Restored(shelf, lines);
            if l.product in r then r[l.product := r[l.product] + l.quantity] else r
  {
    forall p: ProductId ensures Total(lines + [l], p) == Total(lines, p) + QuantityOf(l, p) {
      TotalSnoc(lines, l, p);
    }
  }
}
