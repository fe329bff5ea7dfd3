/**
 Stock reservation. The services check every line of a basket on its own and then decrement line
 by line, relying on CHECK (stock >= 0). Here the outcome is stated through the summed demand per
 product, which is what the loops are proved to compute.
 */
module Reservation {
  import opened Money
  import opened Schema
  import opened Sums

  function Demand(lines: seq<Line>, p: ProductId): int {
    if lines == [] then 0
    else Demand(lines[..|lines| - 1], p) + (if lines[|lines| - 1].product == p then lines[|lines| - 1].quantity else 0)
  }

  predicate Positive(lines: seq<Line>) {
    forall i :: 0 <= i < |lines| ==> 1 <= lines[i].quantity <= MAX_INT
  }

  function LinesOf(rows: seq<Item>): seq<Line> {
    seq(|rows|, i requires 0 <= i < |rows| => Line(rows[i].product, rows[i].quantity))
  }

  // The item rows written for a basket: quantities as asked, prices as they are in `products`.
  function Snapshot(products: Products, lines: seq<Line>): seq<Item>
    requires AllFound(products, lines)
  {
    seq(|lines|, i requires 0 <= i < |lines| => Item(lines[i].product, lines[i].quantity,
        products[lines[i].product].price))
  }

  predicate AllFound(products: Products, lines: seq<Line>) {
    forall i :: 0 <= i < |lines| ==> lines[i].product in products
  }

  function Gross(rows: seq<Item>): int {
    if rows == [] then 0
    else Gross(rows[..|rows| - 1]) + rows[|rows| - 1].price * rows[|rows| - 1].quantity
  }

  function LineError(products: Products, line: Line): Option<Error> {
    if line.product !in products then Some(ProductNotFound(line.product))
    else if products[line.product].status != ACTIVE then Some(ProductInactive(line.product))
    else None
  }

  // The error of the first line whose product is missing or not on sale.
  function FirstLineError(products: Products, lines: seq<Line>): Option<Error> {
    if lines == [] then None
    else
      var earlier := FirstLineError(products, lines[..|lines| - 1]);
      if earlier.Some? then earlier else LineError(products, lines[|lines| - 1])
  }

  // The lines that ask for more than is in stock, each looked at alone.
  function Shortages(products: Products, lines: seq<Line>): seq<Shortage> {
    if lines == [] then []
    else
      var line := lines[|lines| - 1];
      var earlier := Shortages(products, lines[..|lines| - 1]);
      if line.product in products && products[line.product].stock < line.quantity
      then earlier + [Shortage(line.product, line.quantity, products[line.product].stock)]
      else earlier
  }

  // Summed over repeated lines, no product is asked for more than its stock.
  predicate Covered(products: Products, lines: seq<Line>) {
    forall i :: 0 <= i < |lines| && lines[i].product in products ==>
      Demand(lines, lines[i].product) <= products[lines[i].product].stock
  }

  function Taken(products: Products, lines: seq<Line>): Products {
    map p | p in products :: products[p].(stock := products[p].stock - Demand(lines, p))
  }

  function Given(products: Products, lines: seq<Line>): Products {
    map p | p in products :: products[p].(stock := products[p].stock + Demand(lines, p))
  }

  function Reserve(products: Products, lines: seq<Line>): Result<Products> {
    var lineError := FirstLineError(products, lines);
    if lineError.Some? then Err(lineError.value)
    else if Shortages(products, lines) != [] then Err(InsufficientStock(Shortages(products, lines)))
    else if !Covered(products, lines) then Err(StatementFailed)
    else Ok(Taken(products, lines))
  }

  // Giving back cannot run below zero, but it can leave INTEGER.
  predicate FitsBack(products: Products, lines: seq<Line>) {
    forall i :: 0 <= i < |lines| && lines[i].product in products ==>
      products[lines[i].product].stock + Demand(lines, lines[i].product) <= MAX_INT
  }

  function Release(products: Products, lines: seq<Line>): Result<Products> {
    if FitsBack(products, lines) then Ok(Given(products, lines)) else Err(StatementFailed)
  }

  // ---- Demand ----

  lemma {:induction false} DemandBounds(lines: seq<Line>, p: ProductId)
    requires Positive(lines)
    ensures Demand(lines, p) >= 0
    ensures forall i :: 0 <= i < |lines| && lines[i].product == p ==> lines[i].quantity <= Demand(lines, p)
    ensures (forall i :: 0 <= i < |lines| ==> lines[i].product != p) ==> Demand(lines, p) == 0
  {
    if lines != [] {
      DemandBounds(lines[..|lines| - 1], p);
    }
  }

  lemma {:induction false} DemandConcat(a: seq<Line>, b: seq<Line>, p: ProductId)
    ensures Demand(a + b, p) == Demand(a, p) + Demand(b, p)
  {
    if b == [] {
      assert a + b == a;
    } else {
      assert (a + b)[..|a + b| - 1] == a + b[..|b| - 1];
      DemandConcat(a, b[..|b| - 1], p);
    }
  }

  // With DemandConcat this determines it.
  lemma DemandOfOne(p: ProductId, quantity: int, q: ProductId)
    ensures Demand([Line(p, quantity)], q) == if p == q then quantity else 0
    ensures Demand([], q) == 0
  {
    assert [Line(p, quantity)][..0] == [];
  }

  lemma DemandOfPrefix(lines: seq<Line>, i: nat, p: ProductId)
    requires i < |lines|
    ensures Demand(lines[..i + 1], p)
        == Demand(lines[..i], p) + (if lines[i].product == p then lines[i].quantity else 0)
  {
    assert lines[..i + 1][..i] == lines[..i];
  }

  lemma PrefixDemandAtMost(lines: seq<Line>, i: nat, p: ProductId)
    requires Positive(lines) && i <= |lines|
    ensures 0 <= Demand(lines[..i], p) <= Demand(lines, p)
  {
    assert lines[..i] + lines[i..] == lines;
    DemandConcat(lines[..i], lines[i..], p);
    DemandBounds(lines[..i], p);
    DemandBounds(lines[i..], p);
  }

  // Taking one occurrence out of a sequence, wherever it stands.
  lemma SplitAt<T>(s: seq<T>, x: T) returns (before: seq<T>, after: seq<T>)
    requires x in s
    ensures s == before + [x] + after
    ensures multiset(before + after) == multiset(s) - multiset{x}
  {
    var j :| 0 <= j < |s| && s[j] == x;
    before, after := s[..j], s[j + 1..];
    assert s == before + [x] + after;
  }

  lemma LastIsMember<T>(a: seq<T>, b: seq<T>)
    requires a != [] && multiset(a) == multiset(b)
    ensures a[|a| - 1] in b
    ensures multiset(a[..|a| - 1]) == multiset(b) - multiset{a[|a| - 1]}
  {
    assert a == a[..|a| - 1] + [a[|a| - 1]];
    assert a[|a| - 1] in multiset(b);
  }

  // Demand only depends on which lines there are, not on their order.
  lemma {:induction false} DemandOfPermutation(a: seq<Line>, b: seq<Line>, p: ProductId)
    requires multiset(a) == multiset(b)
    ensures Demand(a, p) == Demand(b, p)
    decreases |a|
  {
    if a == [] {
      assert |multiset(a)| == |multiset(b)|;
    } else {
      LastIsMember(a, b);
      var last := a[|a| - 1];
      var before, after := SplitAt(b, last);
      DemandOfPermutation(a[..|a| - 1], before + after, p);
      DemandConcat(before, after, p);
      DemandConcat(before + [last], after, p);
      DemandConcat(before, [last], p);
    }
  }

  lemma LinesOfConcat(a: seq<Item>, b: seq<Item>)
    ensures LinesOf(a + b) == LinesOf(a) + LinesOf(b)
  {
  }

  lemma {:induction false} LinesOfPermutation(a: seq<Item>, b: seq<Item>)
    requires multiset(a) == multiset(b)
    ensures multiset(LinesOf(a)) == multiset(LinesOf(b))
    decreases |a|
  {
    if a == [] {
      assert |multiset(a)| == |multiset(b)|;
    } else {
      LastIsMember(a, b);
      var init, last := a[..|a| - 1], a[|a| - 1];
      var before, after := SplitAt(b, last);
      LinesOfPermutation(init, before + after);
      assert a == init + [last];
      LinesOfConcat(init, [last]);
      LinesOfConcat(before, after);
      LinesOfConcat(before + [last], after);
      LinesOfConcat(before, [last]);
    }
  }

  lemma SnapshotKeepsLines(products: Products, lines: seq<Line>)
    requires AllFound(products, lines)
    ensures LinesOf(Snapshot(products, lines)) == lines
  {
  }

  // ---- What the loops accept ----

  lemma {:induction false} NoLineErrorMeans(products: Products, lines: seq<Line>)
    ensures FirstLineError(products, lines) == None <==>
            forall i :: 0 <= i < |lines| ==> lines[i].product in products && products[lines[i].product].status == ACTIVE
  {
    if lines != [] {
      NoLineErrorMeans(products, lines[..|lines| - 1]);
    }
  }

  lemma {:induction false} NoShortageMeans(products: Products, lines: seq<Line>)
    ensures Shortages(products, lines) == [] <==>
            forall i :: 0 <= i < |lines| && lines[i].product in products ==>
                lines[i].quantity <= products[lines[i].product].stock
  {
    if lines != [] {
      NoShortageMeans(products, lines[..|lines| - 1]);
    }
  }

  lemma FirstLineErrorSticks(products: Products, lines: seq<Line>, i: nat)
    requires i <= |lines| && FirstLineError(products, lines[..i]).Some?
    ensures FirstLineError(products, lines) == FirstLineError(products, lines[..i])
    decreases |lines| - i
  {
    if i < |lines| {
      assert lines[..i + 1][..i] == lines[..i];
      FirstLineErrorSticks(products, lines, i + 1);
    } else {
      assert lines[..i] == lines;
    }
  }

  // The first line that is not on sale decides the error.
  lemma FirstLineErrorIs(products: Products, lines: seq<Line>, i: nat)
    requires i < |lines|
    requires forall j :: 0 <= j < i ==> lines[j].product in products && products[lines[j].product].status == ACTIVE
    ensures lines[i].product !in products ==>
              FirstLineError(products, lines) == Some(ProductNotFound(lines[i].product))
    ensures lines[i].product in products && products[lines[i].product].status != ACTIVE ==>
              FirstLineError(products, lines) == Some(ProductInactive(lines[i].product))
  {
    NoLineErrorMeans(products, lines[..i]);
    assert lines[..i + 1][..i] == lines[..i];
    if LineError(products, lines[i]).Some? {
      FirstLineErrorSticks(products, lines, i + 1);
    }
  }

  lemma {:induction false} LineErrorKinds(products: Products, lines: seq<Line>)
    ensures FirstLineError(products, lines).Some? ==>
              var error := FirstLineError(products, lines).value; error.ProductNotFound? || error.ProductInactive?
  {
    if lines != [] {
      LineErrorKinds(products, lines[..|lines| - 1]);
    }
  }

  // What is reported: line by line, in order, each line that exceeds its stock alone, with what was
  // asked for and what there is. These two facts determine the report.
  lemma {:induction false} ShortagesConcat(products: Products, a: seq<Line>, b: seq<Line>)
    ensures Shortages(products, a + b) == Shortages(products, a) + Shortages(products, b)
  {
    if b == [] {
      assert a + b == a;
    } else {
      assert (a + b)[..|a + b| - 1] == a + b[..|b| - 1];
      ShortagesConcat(products, a, b[..|b| - 1]);
    }
  }

  lemma ShortageOfOne(products: Products, line: Line)
    ensures var reported := Shortages(products, [line]);
            if line.product in products && products[line.product].stock < line.quantity then
              && |reported| == 1 && reported[0].product == line.product
              && reported[0].requested == line.quantity && reported[0].available == products[line.product].stock
            else reported == []
  {
    assert [line][..0] == [];
  }

  // The condition a caller can check: each product exists, is on sale, and its summed demand is in stock.
  predicate Reservable(products: Products, lines: seq<Line>) {
    forall i :: 0 <= i < |lines| ==>
      && lines[i].product in products
      && products[lines[i].product].status == ACTIVE
      && Demand(lines, lines[i].product) <= products[lines[i].product].stock
  }

  lemma ReserveAccepts(products: Products, lines: seq<Line>)
    requires Positive(lines)
    ensures Reserve(products, lines).Ok? <==> Reservable(products, lines)
  {
    NoLineErrorMeans(products, lines);
    NoShortageMeans(products, lines);
    if Reservable(products, lines) {
      forall i | 0 <= i < |lines| && lines[i].product in products
        ensures lines[i].quantity <= products[lines[i].product].stock
      {
        DemandBounds(lines, lines[i].product);
      }
    }
  }

  // Update gives the old rows back and then reserves: both go through exactly when every product has
  // room for what comes back and, with that, enough for what is asked.
  lemma ReleaseThenReserveAccepts(products: Products, held: seq<Line>, lines: seq<Line>)
    requires ProductsOk(products) && Positive(held) && Positive(lines)
    ensures FitsBack(products, held) <==> forall p :: p in products ==> products[p].stock + Demand(held, p) <= MAX_INT
    ensures Release(products, held).Ok? && Reserve(Release(products, held).value, lines).Ok? <==>
            && (forall p :: p in products ==> products[p].stock + Demand(held, p) <= MAX_INT)
            && forall i :: 0 <= i < |lines| ==>
                 && lines[i].product in products
                 && products[lines[i].product].status == ACTIVE
                 && Demand(lines, lines[i].product) <= products[lines[i].product].stock + Demand(held, lines[i].product)
  {
    forall p | p in products && FitsBack(products, held) ensures products[p].stock + Demand(held, p) <= MAX_INT {
      DemandBounds(held, p);
    }
    ReserveAccepts(Given(products, held), lines);
  }

  // Which error an over-demanded basket gets: the documented one only if a single line is too big.
  lemma OverDemandError(products: Products, lines: seq<Line>)
    requires Positive(lines) && FirstLineError(products, lines) == None && !Covered(products, lines)
    ensures Reserve(products, lines).Err?
    ensures Reserve(products, lines).error.InsufficientStock? <==>
            exists i :: 0 <= i < |lines| && lines[i].product in products
                && products[lines[i].product].stock < lines[i].quantity
    ensures !Reserve(products, lines).error.InsufficientStock? ==> Reserve(products, lines).error == StatementFailed
  {
    NoShortageMeans(products, lines);
  }

  // The same on the rows: all lines on sale, but some product is asked for too much.
  lemma ReserveFailsWith(products: Products, lines: seq<Line>)
    requires Positive(lines)
    requires forall i :: 0 <= i < |lines| ==>
               lines[i].product in products && products[lines[i].product].status == ACTIVE
    ensures var alone := exists i :: 0 <= i < |lines| && products[lines[i].product].stock < lines[i].quantity;
            var summed := exists i ::
              0 <= i < |lines| && products[lines[i].product].stock < Demand(lines, lines[i].product);
            && (alone ==> Reserve(products, lines) == Err(InsufficientStock(Shortages(products, lines))))
            && (!alone && summed ==> Reserve(products, lines) == Err(StatementFailed))
  {
    NoLineErrorMeans(products, lines);
    NoShortageMeans(products, lines);
  }

  // Two lines of 6 against a stock of 10 pass the stock test and die on the CHECK constraint.
  lemma SplitShortageIsNotReported()
    ensures var products := map[1 := Product(100, 10, ACTIVE, None)];
            && Reserve(products, [Line(1, 6), Line(1, 6)]) == Err(StatementFailed)
            && Reserve(products, [Line(1, 12)]) == Err(InsufficientStock([Shortage(1, 12, 10)]))
  {
    var products := map[1 := Product(100, 10, ACTIVE, None)];
    var lines := [Line(1, 6), Line(1, 6)];
    assert lines[..1] == [Line(1, 6)];
    assert lines[..1][..0] == [];
    assert Demand(lines[..1], 1) == 6;
    assert Demand(lines, 1) == 12;
    NoLineErrorMeans(products, lines);
    NoShortageMeans(products, lines);
    assert lines[0].product in products;
    var one := [Line(1, 12)];
    assert one[..0] == [];
    NoLineErrorMeans(products, one);
    assert Shortages(products, one[..0]) == [];
    assert Shortages(products, one) == [Shortage(1, 12, 10)];
  }

  lemma ReservedRowsOk(products: Products, lines: seq<Line>)
    requires ProductsOk(products) && Positive(lines) && Reserve(products, lines).Ok?
    ensures ProductsOk(Taken(products, lines))
  {
    forall p | p in products ensures ProductRowOk(Taken(products, lines)[p]) {
      DemandBounds(lines, p);
    }
  }

  lemma ReleasedRowsOk(products: Products, lines: seq<Line>)
    requires ProductsOk(products) && Positive(lines) && FitsBack(products, lines)
    ensures ProductsOk(Given(products, lines))
  {
    forall p | p in products ensures ProductRowOk(Given(products, lines)[p]) {
      DemandBounds(lines, p);
    }
  }

  // ---- Line order and splitting ----

  ghost predicate SameDemand(a: seq<Line>, b: seq<Line>) {
    forall p: ProductId :: Demand(a, p) == Demand(b, p)
  }

  lemma PermutationKeepsDemand(a: seq<Line>, b: seq<Line>)
    requires multiset(a) == multiset(b)
    ensures SameDemand(a, b)
  {
    forall p: ProductId ensures Demand(a, p) == Demand(b, p) {
      DemandOfPermutation(a, b, p);
    }
  }

  lemma SplittingKeepsDemand(before: seq<Line>, p: ProductId, x: int, y: int, after: seq<Line>)
    ensures SameDemand(before + [Line(p, x + y)] + after, before + [Line(p, x), Line(p, y)] + after)
  {
    var whole, parts := [Line(p, x + y)], [Line(p, x), Line(p, y)];
    forall r: ProductId
      ensures Demand(before + whole + after, r) == Demand(before + parts + after, r)
    {
      DemandConcat(before + whole, after, r);
      DemandConcat(before, whole, r);
      DemandConcat(before + parts, after, r);
      DemandConcat(before, parts, r);
      DemandConcat([Line(p, x)], [Line(p, y)], r);
      assert parts == [Line(p, x)] + [Line(p, y)];
      assert whole[..0] == [] && [Line(p, x)][..0] == [] && [Line(p, y)][..0] == [];
    }
  }

  lemma SameDemandSameProducts(a: seq<Line>, b: seq<Line>, i: nat) returns (j: nat)
    requires Positive(a) && Positive(b) && SameDemand(a, b) && i < |a|
    ensures j < |b| && b[j].product == a[i].product
  {
    DemandBounds(a, a[i].product);
    DemandBounds(b, a[i].product);
    j :| j < |b| && b[j].product == a[i].product;
  }

  lemma SameDemandSameReservable(products: Products, a: seq<Line>, b: seq<Line>)
    requires Positive(a) && Positive(b) && SameDemand(a, b) && Reservable(products, a)
    ensures Reservable(products, b)
  {
    forall i | 0 <= i < |b|
      ensures b[i].product in products && products[b[i].product].status == ACTIVE
      ensures Demand(b, b[i].product) <= products[b[i].product].stock
    {
      var j := SameDemandSameProducts(b, a, i);
      assert a[j].product == b[i].product;
    }
  }

  lemma SameDemandSameStock(products: Products, a: seq<Line>, b: seq<Line>)
    requires SameDemand(a, b)
    ensures Taken(products, a) == Taken(products, b) && Given(products, a) == Given(products, b)
  {
  }

  // ---- The basket total as a sum over products ----

  lemma {:induction false} GrossConcat(a: seq<Item>, b: seq<Item>)
    ensures Gross(a + b) == Gross(a) + Gross(b)
  {
    if b == [] {
      assert a + b == a;
    } else {
      assert (a + b)[..|a + b| - 1] == a + b[..|b| - 1];
      GrossConcat(a, b[..|b| - 1]);
    }
  }

  lemma {:induction false} GrossNonNegative(rows: seq<Item>)
    requires forall i :: 0 <= i < |rows| ==> ItemRowOk(rows[i])
    ensures Gross(rows) >= 0
  {
    if rows != [] {
      GrossNonNegative(rows[..|rows| - 1]);
      MulMonotone(0, rows[|rows| - 1].price, rows[|rows| - 1].quantity);
    }
  }

  function Cost(products: Products, lines: seq<Line>): ProductId -> int {
    p => if p in products then products[p].price * Demand(lines, p) else 0
  }

  lemma {:induction false} GrossIsSumOfCosts(products: Products, lines: seq<Line>)
    requires AllFound(products, lines)
    ensures Gross(Snapshot(products, lines)) == Sum(products.Keys, Cost(products, lines))
  {
    if lines == [] {
      SumOfZeros(products.Keys, Cost(products, lines));
    } else {
      var n := |lines| - 1;
      var shorter := lines[..n];
      GrossIsSumOfCosts(products, shorter);
      assert Snapshot(products, lines)[..n] == Snapshot(products, shorter);
      var p := lines[n].product;
      SumChangeAt(products.Keys, Cost(products, shorter), Cost(products, lines), p);
      Distribute(products[p].price, Demand(shorter, p), lines[n].quantity);
    }
  }

  lemma Distribute(a: int, b: int, c: int)
    ensures a * (b + c) == a * b + a * c
  {
  }

  // Baskets with the same demand cost the same, however their lines are cut or ordered.
  lemma SameDemandSameGross(products: Products, a: seq<Line>, b: seq<Line>)
    requires AllFound(products, a) && AllFound(products, b) && SameDemand(a, b)
    ensures Gross(Snapshot(products, a)) == Gross(Snapshot(products, b))
  {
    GrossIsSumOfCosts(products, a);
    GrossIsSumOfCosts(products, b);
    SumSame(products.Keys, Cost(products, a), Cost(products, b));
  }
}
