/** What the three order workflows of `PedidoService` compute, as functions
    of the store: the per-product aggregation and stock check that
    `CreateAsync` runs before opening a transaction, the line-by-line stock
    reservation and restoration loops, and the resulting store. */
module OrderWorkflow {
  import opened Errors
  import opened Numbers
  import opened Produtos
  import opened ItensPedido
  import opened Pedidos
  import opened Persistence

  /** `CreateItemPedidoDto`: one requested line. */
  datatype ItemRequest = ItemRequest(produtoId: Int32, quantidade: Int32)

  /** `CreatePedidoDto`. */
  datatype CreatePedidoDto = CreatePedidoDto(clienteId: Int32, itens: seq<ItemRequest>)

  /** `UpdatePedidoDto`; its `clienteId` is never read. */
  datatype UpdatePedidoDto = UpdatePedidoDto(clienteId: Int32, itens: seq<ItemRequest>)

  // ---------------------------------------------------------------------
  // Quantities per product.

  /** The exact sum of the quantities requested for `pid`. */
  function QtyFor(items: seq<ItemRequest>, pid: int): int
  {
    if |items| == 0 then 0
    else
      var last := items[|items| - 1];
      QtyFor(items[..|items| - 1], pid) + (if last.produtoId == pid then last.quantidade as int else 0)
  }

  /** The product ids a request mentions. */
  function ProductIds(items: seq<ItemRequest>): set<int> {
    set i | 0 <= i < |items| :: items[i].produtoId as int
  }

  /** What the request validator demands of every line. */
  predicate AllPositive(items: seq<ItemRequest>) {
    forall i :: 0 <= i < |items| ==> items[i].quantidade > 0
  }

  lemma {:induction false} ProductIdsSnoc(items: seq<ItemRequest>)
    requires |items| > 0
    ensures ProductIds(items) == ProductIds(items[..|items| - 1]) + {items[|items| - 1].produtoId as int}
  {
    var p := items[..|items| - 1];
    forall x | x in ProductIds(items)
      ensures x in ProductIds(p) + {items[|items| - 1].produtoId as int}
    {
      var i :| 0 <= i < |items| && items[i].produtoId as int == x;
      if i < |p| {
        assert p[i] == items[i];
      }
    }
    forall x | x in ProductIds(p)
      ensures x in ProductIds(items)
    {
      var i :| 0 <= i < |p| && p[i].produtoId as int == x;
      assert items[i] == p[i];
    }
  }

  lemma {:induction false} QtyForAbsent(items: seq<ItemRequest>, pid: int)
    requires pid !in ProductIds(items)
    ensures QtyFor(items, pid) == 0
  {
    if |items| > 0 {
      ProductIdsSnoc(items);
      QtyForAbsent(items[..|items| - 1], pid);
    }
  }

  /** `GroupBy(i => i.ProdutoId).ToDictionary(g => g.Key, g => g.Sum(...))`:
      each group's sum is checked 32-bit arithmetic, so a running sum that
      leaves the range of `int` raises an overflow. */
  function Aggregate(items: seq<ItemRequest>): (r: Result<map<int, int>>)
    ensures r.Failure? ==> r.error == Overflow
    ensures r.Success? ==> forall pid :: pid in r.value ==> MinInt32 <= r.value[pid] <= MaxInt32
  {
    if |items| == 0 then Success(map[])
    else
      var last := items[|items| - 1];
      match Aggregate(items[..|items| - 1])
      case Failure(e) => Failure(e)
      case Success(m) =>
        var s := (if last.produtoId as int in m then m[last.produtoId as int] else 0) + last.quantidade as int;
        if MinInt32 <= s <= MaxInt32 then Success(m[last.produtoId as int := s]) else Failure(Overflow)
  }

  /** The dictionary holds, for every requested product, the sum of its
      requested quantities. */
  lemma {:induction false} AggregateSums(items: seq<ItemRequest>)
    requires Aggregate(items).Success?
    ensures Aggregate(items).value.Keys == ProductIds(items)
    ensures forall pid :: pid in Aggregate(items).value ==> Aggregate(items).value[pid] == QtyFor(items, pid)
  {
    if |items| > 0 {
      var p := items[..|items| - 1];
      var pid := items[|items| - 1].produtoId as int;
      AggregateSums(p);
      ProductIdsSnoc(items);
      if pid !in ProductIds(p) {
        QtyForAbsent(p, pid);
      }
    }
  }

  /** With positive quantities, the aggregation overflows only if some
      product's total does. */
  lemma {:induction false} AggregateSucceeds(items: seq<ItemRequest>)
    requires AllPositive(items)
    requires forall pid :: pid in ProductIds(items) ==> QtyFor(items, pid) <= MaxInt32
    ensures Aggregate(items).Success?
  {
    if |items| > 0 {
      var p := items[..|items| - 1];
      var pid := items[|items| - 1].produtoId as int;
      ProductIdsSnoc(items);
      forall x | x in ProductIds(p)
        ensures QtyFor(p, x) <= MaxInt32
      {
        assert QtyFor(p, x) <= QtyFor(items, x);
      }
      AggregateSucceeds(p);
      AggregateSums(p);
      if pid !in ProductIds(p) {
        QtyForAbsent(p, pid);
      }
      assert QtyFor(items, pid) == QtyFor(p, pid) + items[|items| - 1].quantidade as int;
      assert QtyFor(p, pid) >= 0 by {
        QtyForNonNegative(p, pid);
      }
    }
  }

  lemma {:induction false} QtyForNonNegative(items: seq<ItemRequest>, pid: int)
    requires AllPositive(items)
    ensures QtyFor(items, pid) >= 0
  {
    if |items| > 0 {
      QtyForNonNegative(items[..|items| - 1], pid);
    }
  }

  /** The dictionary's keys in its enumeration order: each requested
      product once, in order of first request. */
  function GroupOrder(items: seq<ItemRequest>): (ks: seq<int>)
    ensures forall i, j :: 0 <= i < j < |ks| ==> ks[i] != ks[j]
    ensures forall pid :: pid in ks <==> pid in ProductIds(items)
  {
    if |items| == 0 then []
    else
      var ks := GroupOrder(items[..|items| - 1]);
      var pid := items[|items| - 1].produtoId as int;
      ProductIdsSnoc(items);
      if pid in ks then ks else ks + [pid]
  }

  // ---------------------------------------------------------------------
  // The validation phase of CreateAsync.

  /** `GetByIdsAsync(ids)`: the stored products among the distinct ids. */
  function FetchProducts(prods: map<int, ProductData>, ids: set<int>): (found: map<int, ProductData>)
    ensures found.Keys == ids * prods.Keys
    ensures forall k :: k in found ==> found[k] == prods[k]
  {
    map k | k in ids && k in prods :: prods[k]
  }

  /** The validation loop over the dictionary: the first product in
      enumeration order that is missing, or whose stock is below its total,
      stops it. */
  function CheckStock(ks: seq<int>, need: map<int, int>, found: map<int, ProductData>): (o: Outcome)
    requires forall pid :: pid in ks ==> pid in need
    ensures o.Fail? && !o.error.KeyNotFound? ==> o.error == InvalidOperation(InsufficientStock)
    ensures o.Fail? && o.error.KeyNotFound? ==>
      o.error.entity == ProdutoEntity && o.error.id in ks && o.error.id !in found
  {
    if |ks| == 0 then Pass
    else if ks[0] !in found then Fail(KeyNotFound(ProdutoEntity, ks[0]))
    else
      assert ks[0] in ks;
      if found[ks[0]].estoque < need[ks[0]] then Fail(InvalidOperation(InsufficientStock))
      else CheckStock(ks[1..], need, found)
  }

  /** The loop passes exactly when every product exists and covers its
      total. */
  lemma {:induction false} CheckStockPasses(ks: seq<int>, need: map<int, int>, found: map<int, ProductData>)
    requires forall pid :: pid in ks ==> pid in need
    ensures CheckStock(ks, need, found).Pass?
        <==> forall pid :: pid in ks ==> pid in found && found[pid].estoque >= need[pid]
  {
    if |ks| > 0 {
      CheckStockPasses(ks[1..], need, found);
      assert forall pid :: pid in ks <==> pid == ks[0] || pid in ks[1..];
    }
  }

  /** Every requested product exists and holds at least its total. */
  predicate SufficientStock(items: seq<ItemRequest>, prods: map<int, ProductData>) {
    forall pid :: pid in ProductIds(items) ==> pid in prods && prods[pid].estoque >= QtyFor(items, pid)
  }

  /** The errors a stock check may stop with: a requested product that
      does not exist, or a product short of stock. */
  predicate StockCheckError(items: seq<ItemRequest>, prods: map<int, ProductData>, e: Error) {
    e == InvalidOperation(InsufficientStock)
    || (e.KeyNotFound? && e.entity == ProdutoEntity && e.id in ProductIds(items) && e.id !in prods)
  }

  /** Lines 81-108 of `CreateAsync`: aggregation, batch fetch and the
      validation loop. */
  function CreateValidation(items: seq<ItemRequest>, prods: map<int, ProductData>): (o: Outcome)
  {
    match Aggregate(items)
    case Failure(e) => Fail(e)
    case Success(need) =>
      AggregateSums(items);
      CheckStock(GroupOrder(items), need, FetchProducts(prods, need.Keys))
  }

  /** Validation passes exactly when the sums fit in an `int` and every
      product exists with enough stock for its summed quantity. */
  lemma {:induction false} CreateValidationPasses(items: seq<ItemRequest>, prods: map<int, ProductData>)
    ensures CreateValidation(items, prods).Pass? <==> Aggregate(items).Success? && SufficientStock(items, prods)
  {
    if Aggregate(items).Success? {
      var need := Aggregate(items).value;
      AggregateSums(items);
      CheckStockPasses(GroupOrder(items), need, FetchProducts(prods, need.Keys));
    }
  }

  /** Everything `CreateAsync` checks before opening a transaction: the
      customer exists, then the validation above. */
  function CreatePrecheck(s: Store, dto: CreatePedidoDto): Outcome {
    if dto.clienteId as int !in s.clientes then Fail(KeyNotFound(ClienteEntity, dto.clienteId as int))
    else CreateValidation(dto.itens, s.produtos)
  }

  // ---------------------------------------------------------------------
  // The stock loops.

  /** `after` is `before` with `delta` added to its stock. */
  predicate StockShifted(before: ProductData, after: ProductData, delta: int) {
    after.estoque == before.estoque + delta && after.(estoque := before.estoque) == before
  }

  /** Every product of `before` is in `after`, its stock moved by `delta` per
      unit of `qty`: up by the summed quantities for `delta == 1`, down for
      `delta == -1`. */
  predicate StockMovedBy(before: map<int, ProductData>, after: map<int, ProductData>, items: seq<ItemRequest>, delta: int) {
    forall pid :: pid in before ==>
      pid in after && StockShifted(before[pid], after[pid], delta * QtyFor(items, pid))
  }

  /** Moving the stock by the same quantities one way and then the other
      gives the products back. */
  lemma {:induction false} MovesCancel(a: map<int, ProductData>, b: map<int, ProductData>, c: map<int, ProductData>,
                    items: seq<ItemRequest>, delta: int)
    requires a.Keys == c.Keys
    requires StockMovedBy(a, b, items, delta) && StockMovedBy(b, c, items, -delta)
    ensures c == a
  {
    forall pid | pid in a
      ensures c[pid] == a[pid]
    {
      assert pid in b;
      assert c[pid].estoque == a[pid].estoque + delta * QtyFor(items, pid) - delta * QtyFor(items, pid);
    }
  }

  /** The same products, differing at most in their stock. */
  predicate SameButStock(a: map<int, ProductData>, b: map<int, ProductData>) {
    a.Keys == b.Keys && forall k :: k in a ==> b[k].(estoque := a[k].estoque) == a[k]
  }

  predicate ProductsValid(prods: map<int, ProductData>) {
    forall k :: k in prods ==> ProductInvariant(prods[k])
  }

  /** The products after a loop, the lines it built, and how it ended. */
  datatype Reservation = Reservation(produtos: map<int, ProductData>, lines: seq<Line>, outcome: Outcome)

  /** The line a reservation builds for `item` at the price of `prods`. */
  function LineFor(prods: map<int, ProductData>, item: ItemRequest): Line
    requires item.produtoId as int in prods
  {
    Line(0, item.produtoId, item.quantidade, prods[item.produtoId as int].preco)
  }

  /** One pass of a reservation loop body: look the product up, optionally
      check its stock explicitly (as `UpdateAsync` does), reduce its stock,
      then build the line at the product's current price. */
  function ReserveOne(prods: map<int, ProductData>, item: ItemRequest, explicitCheck: bool): (r: Reservation)
    ensures SameButStock(prods, r.produtos)
    ensures ProductsValid(prods) ==> ProductsValid(r.produtos)
    ensures r.outcome.Pass? ==> item.produtoId as int in prods && r.lines == [LineFor(prods, item)]
    ensures r.outcome.Pass? ==> WellFormedLine(r.lines[0])
    ensures r.outcome.Fail? ==> r.lines == []
    ensures forall k :: k in prods && k != item.produtoId as int ==> r.produtos[k] == prods[k]
  {
    var pid := item.produtoId as int;
    if pid !in prods then Reservation(prods, [], Fail(KeyNotFound(ProdutoEntity, pid)))
    else if explicitCheck && prods[pid].estoque < item.quantidade then
      Reservation(prods, [], Fail(InvalidOperation(InsufficientStock)))
    else
      match StockReduced(prods[pid], item.quantidade)
      case Failure(e) => Reservation(prods, [], Fail(e))
      case Success(p) =>
        assert ProductsValid(prods) ==> ProductInvariant(p) by {
          if ProductsValid(prods) {
            StockOperationsKeepInvariant(prods[pid], item.quantidade);
          }
        }
        match NewLine(item.produtoId, item.quantidade, p.preco)
        case Failure(e) => Reservation(prods[pid := p], [], Fail(e))
        case Success(l) => Reservation(prods[pid := p], [l], Pass)
  }

  /** One more line, built at the current price of a product whose price
      the loop has not changed, extends a list of lines built at the
      original prices. */
  lemma {:induction false} LinesSnoc(prods: map<int, ProductData>, mid: map<int, ProductData>,
                                     items: seq<ItemRequest>, lines: seq<Line>, l: Line)
    requires |items| > 0 && SameButStock(prods, mid) && |lines| == |items| - 1
    requires forall i :: 0 <= i < |items| - 1 ==>
      items[..|items| - 1][i].produtoId as int in prods && lines[i] == LineFor(prods, items[..|items| - 1][i])
    requires items[|items| - 1].produtoId as int in mid && l == LineFor(mid, items[|items| - 1])
    ensures forall i :: 0 <= i < |items| ==>
      items[i].produtoId as int in prods && (lines + [l])[i] == LineFor(prods, items[i])
  {
    var pid := items[|items| - 1].produtoId as int;
    assert pid in prods;
    assert mid[pid].preco == prods[pid].preco by {
      assert mid[pid].(estoque := prods[pid].estoque) == prods[pid];
    }
    assert l == LineFor(prods, items[|items| - 1]);
    forall i | 0 <= i < |items|
      ensures items[i].produtoId as int in prods && (lines + [l])[i] == LineFor(prods, items[i])
    {
      if i < |items| - 1 {
        assert items[..|items| - 1][i] == items[i];
        assert (lines + [l])[i] == lines[i];
      } else {
        assert (lines + [l])[i] == l;
      }
    }
  }

  /** A reservation loop over `items`: it stops at the first failure, with
      the stock changes made before it left in place. When it completes it
      has built one line per request, in request order, each at its
      product's price. */
  function Reserve(prods: map<int, ProductData>, items: seq<ItemRequest>, explicitCheck: bool): (r: Reservation)
    ensures SameButStock(prods, r.produtos)
    ensures ProductsValid(prods) ==> ProductsValid(r.produtos)
    ensures AllWellFormed(r.lines)
    ensures r.outcome.Pass? ==> |r.lines| == |items|
    ensures r.outcome.Pass? ==> forall i :: 0 <= i < |items| ==>
      items[i].produtoId as int in prods && r.lines[i] == LineFor(prods, items[i])
  {
    if |items| == 0 then Reservation(prods, [], Pass)
    else
      var r := Reserve(prods, items[..|items| - 1], explicitCheck);
      if r.outcome.Fail? then r
      else
        var s := ReserveOne(r.produtos, items[|items| - 1], explicitCheck);
        assert AllWellFormed(r.lines + s.lines) by {
          ConcatKeepsWellFormed(r.lines, s.lines);
        }
        assert s.outcome.Pass? ==> forall i :: 0 <= i < |items| ==>
          items[i].produtoId as int in prods && (r.lines + s.lines)[i] == LineFor(prods, items[i]) by {
          if s.outcome.Pass? {
            LinesSnoc(prods, r.produtos, items, r.lines, s.lines[0]);
          }
        }
        Reservation(s.produtos, r.lines + s.lines, s.outcome)
  }

  /** The products after a restoration loop and how it ended. */
  datatype Restoration = Restoration(produtos: map<int, ProductData>, outcome: Outcome)

  /** One pass of a restoration loop body: a product that no longer exists
      is skipped; otherwise the line's quantity goes back to its stock. */
  function RestoreOne(prods: map<int, ProductData>, line: Line): (r: Restoration)
    ensures SameButStock(prods, r.produtos)
    ensures ProductsValid(prods) ==> ProductsValid(r.produtos)
    ensures line.produtoId as int !in prods ==> r == Restoration(prods, Pass)
    ensures forall k :: k in prods && k != line.produtoId as int ==> r.produtos[k] == prods[k]
  {
    var pid := line.produtoId as int;
    if pid !in prods then Restoration(prods, Pass)
    else
      match StockIncreased(prods[pid], line.quantidade)
      case Failure(e) => Restoration(prods, Fail(e))
      case Success(p) =>
        assert ProductsValid(prods) ==> ProductInvariant(p) by {
          if ProductsValid(prods) {
            StockOperationsKeepInvariant(prods[pid], line.quantidade);
          }
        }
        Restoration(prods[pid := p], Pass)
  }

  /** A restoration loop over `lines`, stopping at the first failure. */
  function Restore(prods: map<int, ProductData>, lines: seq<Line>): (r: Restoration)
    ensures SameButStock(prods, r.produtos)
    ensures ProductsValid(prods) ==> ProductsValid(r.produtos)
  {
    if |lines| == 0 then Restoration(prods, Pass)
    else
      var r := Restore(prods, lines[..|lines| - 1]);
      if r.outcome.Fail? then r
      else RestoreOne(r.produtos, lines[|lines| - 1])
  }

  /** One more request after a prefix that completed. */
  lemma {:induction false} ReserveSnoc(prods: map<int, ProductData>, items: seq<ItemRequest>, i: int, explicitCheck: bool)
    requires 0 <= i < |items| && Reserve(prods, items[..i], explicitCheck).outcome.Pass?
    ensures
      var r := Reserve(prods, items[..i], explicitCheck);
      var s := ReserveOne(r.produtos, items[i], explicitCheck);
      Reserve(prods, items[..i + 1], explicitCheck) == Reservation(s.produtos, r.lines + s.lines, s.outcome)
  {
    assert items[..i + 1][..i] == items[..i];
  }

  /** One more line after a prefix that completed. */
  lemma {:induction false} RestoreSnoc(prods: map<int, ProductData>, lines: seq<Line>, i: int)
    requires 0 <= i < |lines| && Restore(prods, lines[..i]).outcome.Pass?
    ensures Restore(prods, lines[..i + 1]) == RestoreOne(Restore(prods, lines[..i]).produtos, lines[i])
  {
    assert lines[..i + 1][..i] == lines[..i];
  }

  /** A reservation loop that failed on a prefix of the requests ends
      there: the requests after it change nothing. */
  lemma {:induction false} ReserveStopsAtFailure(prods: map<int, ProductData>, items: seq<ItemRequest>, k: int, explicitCheck: bool)
    requires 0 <= k <= |items| && Reserve(prods, items[..k], explicitCheck).outcome.Fail?
    ensures Reserve(prods, items, explicitCheck) == Reserve(prods, items[..k], explicitCheck)
  {
    if k < |items| {
      var p := items[..|items| - 1];
      assert p[..k] == items[..k];
      ReserveStopsAtFailure(prods, p, k, explicitCheck);
    } else {
      assert items[..k] == items;
    }
  }

  /** Likewise for a restoration loop. */
  lemma {:induction false} RestoreStopsAtFailure(prods: map<int, ProductData>, lines: seq<Line>, k: int)
    requires 0 <= k <= |lines| && Restore(prods, lines[..k]).outcome.Fail?
    ensures Restore(prods, lines) == Restore(prods, lines[..k])
  {
    if k < |lines| {
      var p := lines[..|lines| - 1];
      assert p[..k] == lines[..k];
      RestoreStopsAtFailure(prods, p, k);
    } else {
      assert lines[..k] == lines;
    }
  }

  /** The requests a list of lines stands for. */
  function RequestsOf(lines: seq<Line>): (items: seq<ItemRequest>)
    ensures |items| == |lines|
    ensures forall i :: 0 <= i < |lines| ==>
      items[i] == ItemRequest(lines[i].produtoId, lines[i].quantidade)
  {
    seq(|lines|, i requires 0 <= i < |lines| => ItemRequest(lines[i].produtoId, lines[i].quantidade))
  }

  /** A completed reservation built one line per request, carrying that
      request's product and quantity. */
  lemma {:induction false} ReservedLinesMatchRequests(prods: map<int, ProductData>, items: seq<ItemRequest>, explicitCheck: bool)
    requires Reserve(prods, items, explicitCheck).outcome.Pass?
    ensures RequestsOf(Reserve(prods, items, explicitCheck).lines) == items
  {
    var lines := Reserve(prods, items, explicitCheck).lines;
    assert forall i :: 0 <= i < |lines| ==> RequestsOf(lines)[i] == items[i];
  }

  /** Once every product exists with enough stock for its summed quantity,
      no step of a reservation loop can fail, and each product's stock drops
      by exactly that sum. */
  lemma {:induction false} ReserveWithinStock(prods: map<int, ProductData>, items: seq<ItemRequest>, explicitCheck: bool)
    requires ProductsValid(prods) && AllPositive(items) && SufficientStock(items, prods)
    ensures Reserve(prods, items, explicitCheck).outcome == Pass
    ensures StockMovedBy(prods, Reserve(prods, items, explicitCheck).produtos, items, -1)
  {
    var n := |items|;
    if n == 0 {
      return;
    }
    var p := items[..n - 1];
    var item := items[n - 1];
    var pid := item.produtoId as int;
    ProductIdsSnoc(items);
    forall x | x in ProductIds(p)
      ensures x in prods && prods[x].estoque >= QtyFor(p, x)
    {
      QtyForNonNegative(p, x);
      assert QtyFor(p, x) <= QtyFor(items, x);
    }
    assert AllPositive(p);
    ReserveWithinStock(prods, p, explicitCheck);
    var r := Reserve(prods, p, explicitCheck);
    assert r.produtos[pid].estoque == prods[pid].estoque - QtyFor(p, pid);
    var s := ReserveOne(r.produtos, item, explicitCheck);
    assert Reserve(prods, items, explicitCheck) == Reservation(s.produtos, r.lines + s.lines, s.outcome) by {
      ReserveSnoc(prods, items, n - 1, explicitCheck);
      assert items[..n] == items;
    }
    assert QtyFor(items, pid) == QtyFor(p, pid) + item.quantidade as int;
    var reduced := StockReduced(r.produtos[pid], item.quantidade);
    assert reduced.Success?;
    assert s.produtos == r.produtos[pid := reduced.value];
    assert s.outcome == Pass;
    MovedBySnoc(prods, r.produtos, s.produtos, items, -1);
  }

  /** One more request moves its own product's stock by its quantity and
      leaves every other product where the earlier requests left it. */
  lemma {:induction false} MovedBySnoc(prods: map<int, ProductData>, mid: map<int, ProductData>,
                                       after: map<int, ProductData>, items: seq<ItemRequest>, delta: int)
    requires |items| > 0 && StockMovedBy(prods, mid, items[..|items| - 1], delta)
    requires
      var pid := items[|items| - 1].produtoId as int;
      pid in mid && pid in after && after == mid[pid := after[pid]]
      && StockShifted(mid[pid], after[pid], delta * items[|items| - 1].quantidade as int)
    ensures StockMovedBy(prods, after, items, delta)
  {
    var p, item := items[..|items| - 1], items[|items| - 1];
    forall x | x in prods
      ensures x in after && StockShifted(prods[x], after[x], delta * QtyFor(items, x))
    {
      assert QtyFor(items, x) == QtyFor(p, x) + (if item.produtoId as int == x then item.quantidade as int else 0);
    }
  }

  /** One pass of a reservation loop on a valid product and a positive
      quantity passes exactly when the product exists with enough stock,
      and otherwise says which of the two it lacked. */
  lemma {:induction false} ReserveOneChecksStock(prods: map<int, ProductData>, item: ItemRequest, explicitCheck: bool)
    requires ProductsValid(prods) && item.quantidade > 0
    ensures
      var pid := item.produtoId as int;
      ReserveOne(prods, item, explicitCheck).outcome ==
        if pid !in prods then Fail(KeyNotFound(ProdutoEntity, pid))
        else if prods[pid].estoque < item.quantidade as int then Fail(InvalidOperation(InsufficientStock))
        else Pass
  {
    var pid := item.produtoId as int;
    if pid in prods && prods[pid].estoque >= item.quantidade as int {
      var p := StockReduced(prods[pid], item.quantidade).value;
      assert p.preco == prods[pid].preco > 0.0;
    }
  }

  /** A reservation loop that completes had enough stock for every summed
      quantity to begin with. */
  lemma {:induction false} ReservePassNeedsStock(prods: map<int, ProductData>, items: seq<ItemRequest>, explicitCheck: bool)
    requires ProductsValid(prods) && AllPositive(items)
    requires Reserve(prods, items, explicitCheck).outcome.Pass?
    ensures SufficientStock(items, prods)
  {
    var n := |items|;
    if n == 0 {
      assert ProductIds(items) == {};
      return;
    }
    var p, item := items[..n - 1], items[n - 1];
    var pid := item.produtoId as int;
    assert AllPositive(p);
    var r := Reserve(prods, p, explicitCheck);
    assert r.outcome.Pass?;
    ReservePassNeedsStock(prods, p, explicitCheck);
    ReserveWithinStock(prods, p, explicitCheck);
    var s := ReserveOne(r.produtos, item, explicitCheck);
    assert s.outcome.Pass? by {
      ReserveSnoc(prods, items, n - 1, explicitCheck);
      assert items[..n] == items;
    }
    ReserveOneChecksStock(r.produtos, item, explicitCheck);
    assert pid in prods && r.produtos[pid].estoque == prods[pid].estoque - QtyFor(p, pid);
    ProductIdsSnoc(items);
    forall x | x in ProductIds(items)
      ensures x in prods && prods[x].estoque >= QtyFor(items, x)
    {
      assert QtyFor(items, x) == QtyFor(p, x) + (if x == pid then item.quantidade as int else 0);
    }
  }

  /** A reservation loop that fails stops with one of the two stock-check
      errors. */
  lemma {:induction false} ReserveFailureReason(prods: map<int, ProductData>, items: seq<ItemRequest>, explicitCheck: bool)
    requires ProductsValid(prods) && AllPositive(items)
    requires Reserve(prods, items, explicitCheck).outcome.Fail?
    ensures StockCheckError(items, prods, Reserve(prods, items, explicitCheck).outcome.error)
  {
    var n := |items|;
    var p, item := items[..n - 1], items[n - 1];
    var pid := item.produtoId as int;
    assert AllPositive(p);
    ProductIdsSnoc(items);
    var r := Reserve(prods, p, explicitCheck);
    if r.outcome.Fail? {
      ReserveFailureReason(prods, p, explicitCheck);
    } else {
      var s := ReserveOne(r.produtos, item, explicitCheck);
      assert Reserve(prods, items, explicitCheck).outcome == s.outcome by {
        ReserveSnoc(prods, items, n - 1, explicitCheck);
        assert items[..n] == items;
      }
      ReserveOneChecksStock(r.produtos, item, explicitCheck);
    }
  }

  /** The stock check of a reservation loop, with or without the explicit
      check of `UpdateAsync`: it completes exactly when every requested
      product exists with enough stock for its summed quantity; otherwise
      it stops with "not found" for a missing product or with "insufficient
      stock", and always the latter when every product exists. */
  lemma {:induction false} ReserveChecksStock(prods: map<int, ProductData>, items: seq<ItemRequest>, explicitCheck: bool)
    requires ProductsValid(prods) && AllPositive(items)
    ensures Reserve(prods, items, explicitCheck).outcome.Pass? <==> SufficientStock(items, prods)
    ensures Reserve(prods, items, explicitCheck).outcome.Fail? ==>
      StockCheckError(items, prods, Reserve(prods, items, explicitCheck).outcome.error)
    ensures Reserve(prods, items, explicitCheck).outcome.Fail? && ProductIds(items) <= prods.Keys ==>
      Reserve(prods, items, explicitCheck).outcome.error == InvalidOperation(InsufficientStock)
  {
    if SufficientStock(items, prods) {
      ReserveWithinStock(prods, items, explicitCheck);
    }
    if Reserve(prods, items, explicitCheck).outcome.Pass? {
      ReservePassNeedsStock(prods, items, explicitCheck);
    } else {
      ReserveFailureReason(prods, items, explicitCheck);
    }
  }

  lemma {:induction false} RequestsOfPrefix(lines: seq<Line>, k: int)
    requires 0 <= k <= |lines|
    ensures RequestsOf(lines[..k]) == RequestsOf(lines)[..k]
  {
  }

  /** When no stock can overflow, a restoration loop cannot fail, and each
      existing product gets back the sum of its lines' quantities, however
      many lines share it; lines of missing products change nothing. */
  lemma {:induction false} RestoreAddsQuantities(prods: map<int, ProductData>, lines: seq<Line>)
    requires AllWellFormed(lines)
    requires forall pid :: pid in prods ==> prods[pid].estoque + QtyFor(RequestsOf(lines), pid) <= MaxInt32
    ensures Restore(prods, lines).outcome == Pass
    ensures StockMovedBy(prods, Restore(prods, lines).produtos, RequestsOf(lines), 1)
  {
    var n := |lines|;
    if n == 0 {
      return;
    }
    var p := lines[..n - 1];
    var l := lines[n - 1];
    RequestsOfPrefix(lines, n - 1);
    assert RequestsOf(lines)[..n - 1] == RequestsOf(p);
    assert AllPositive(RequestsOf(lines));
    forall pid | pid in prods
      ensures prods[pid].estoque + QtyFor(RequestsOf(p), pid) <= MaxInt32
    {
      QtyForNonNegative(RequestsOf(lines)[..n - 1], pid);
      assert QtyFor(RequestsOf(lines), pid) == QtyFor(RequestsOf(p), pid)
        + (if l.produtoId as int == pid then l.quantidade as int else 0);
    }
    assert AllWellFormed(p) by {
      forall i | 0 <= i < |p| ensures WellFormedLine(p[i]) {
        assert p[i] == lines[i];
      }
    }
    RestoreAddsQuantities(prods, p);
    forall pid | pid in prods
      ensures QtyFor(RequestsOf(lines), pid) == QtyFor(RequestsOf(p), pid)
        + (if l.produtoId as int == pid then l.quantidade as int else 0)
    {
    }
  }

  // ---------------------------------------------------------------------
  // The store each workflow reaches before saving.

  /** Lines 110-130 of `CreateAsync`, after the checks: the change-tracker
      contents before saving, or the exception raised on the way. */
  function CreateEffect(s: Store, dto: CreatePedidoDto, now: Stamp, id: int): Result<Store> {
    var rv := Reserve(s.produtos, dto.itens, false);
    if rv.outcome.Fail? then Failure(rv.outcome.error)
    else
      match NewOrder(dto.clienteId, now, rv.lines)
      case Failure(e) => Failure(e)
      case Success(o) => Success(s.(produtos := rv.produtos, pedidos := s.pedidos[id := o]))
  }

  /** Lines 155-198 of `UpdateAsync`. */
  function UpdateEffect(s: Store, id: int, dto: UpdatePedidoDto): Result<Store> {
    if id !in s.pedidos then Failure(KeyNotFound(PedidoEntity, id))
    else
      var rs := Restore(s.produtos, s.pedidos[id].itens);
      if rs.outcome.Fail? then Failure(rs.outcome.error)
      else
        var rv := Reserve(rs.produtos, dto.itens, true);
        if rv.outcome.Fail? then Failure(rv.outcome.error)
        else
          match ItemsReplaced(s.pedidos[id], rv.lines)
          case Failure(e) => Failure(e)
          case Success(o) => Success(s.(produtos := rv.produtos, pedidos := s.pedidos[id := o]))
  }

  /** Lines 222-240 of `DeleteAsync`. */
  function DeleteEffect(s: Store, id: int): Result<Store> {
    if id !in s.pedidos then Failure(KeyNotFound(PedidoEntity, id))
    else
      var rs := Restore(s.produtos, s.pedidos[id].itens);
      if rs.outcome.Fail? then Failure(rs.outcome.error)
      else Success(s.(produtos := rs.produtos, pedidos := s.pedidos - {id}))
  }

  /** None of the workflows can leave a product, order or customer that
      breaks its invariant. */
  lemma {:induction false} EffectsKeepStoreValid(s: Store, dto: CreatePedidoDto, now: Stamp, id: int, u: UpdatePedidoDto)
    requires StoreValid(s)
    ensures CreateEffect(s, dto, now, id).Success? ==> StoreValid(CreateEffect(s, dto, now, id).value)
    ensures UpdateEffect(s, id, u).Success? ==> StoreValid(UpdateEffect(s, id, u).value)
    ensures DeleteEffect(s, id).Success? ==> StoreValid(DeleteEffect(s, id).value)
  {
    if CreateEffect(s, dto, now, id).Success? {
      CreateKeepsStoreValid(s, dto, now, id);
    }
    if UpdateEffect(s, id, u).Success? {
      UpdateKeepsStoreValid(s, id, u);
    }
    if DeleteEffect(s, id).Success? {
      DeleteKeepsStoreValid(s, id);
    }
  }

  lemma {:induction false} CreateKeepsStoreValid(s: Store, dto: CreatePedidoDto, now: Stamp, id: int)
    requires StoreValid(s) && CreateEffect(s, dto, now, id).Success?
    ensures StoreValid(CreateEffect(s, dto, now, id).value)
  {
    assert ProductsValid(s.produtos);
    var rv := Reserve(s.produtos, dto.itens, false);
    var o := NewOrder(dto.clienteId, now, rv.lines).value;
    var t := s.(produtos := rv.produtos, pedidos := s.pedidos[id := o]);
    assert CreateEffect(s, dto, now, id) == Success(t);
    assert ProductsValid(t.produtos);
    assert OrderInvariant(o);
  }

  lemma {:induction false} UpdateKeepsStoreValid(s: Store, id: int, u: UpdatePedidoDto)
    requires StoreValid(s) && UpdateEffect(s, id, u).Success?
    ensures StoreValid(UpdateEffect(s, id, u).value)
  {
    assert ProductsValid(s.produtos);
    var rs := Restore(s.produtos, s.pedidos[id].itens);
    var rv := Reserve(rs.produtos, u.itens, true);
    var o := ItemsReplaced(s.pedidos[id], rv.lines).value;
    var t := s.(produtos := rv.produtos, pedidos := s.pedidos[id := o]);
    assert UpdateEffect(s, id, u) == Success(t);
    assert ProductsValid(t.produtos);
    assert OrderInvariant(o);
  }

  lemma {:induction false} DeleteKeepsStoreValid(s: Store, id: int)
    requires StoreValid(s) && DeleteEffect(s, id).Success?
    ensures StoreValid(DeleteEffect(s, id).value)
  {
    assert ProductsValid(s.produtos);
    var rs := Restore(s.produtos, s.pedidos[id].itens);
    var t := s.(produtos := rs.produtos, pedidos := s.pedidos - {id});
    assert DeleteEffect(s, id) == Success(t);
    assert ProductsValid(t.produtos);
  }

  /** From a store whose foreign keys hold, a workflow that reaches its
      save keeps them: the order's customer exists (create checks it first,
      update keeps it) and every line built names a product the
      reservation found; products are never removed. */
  lemma {:induction false} EffectsKeepForeignKeys(s: Store, dto: CreatePedidoDto, now: Stamp, id: int, u: UpdatePedidoDto)
    requires ForeignKeysHold(s)
    ensures CreatePrecheck(s, dto).Pass? && CreateEffect(s, dto, now, id).Success? ==>
      ForeignKeysHold(CreateEffect(s, dto, now, id).value)
    ensures UpdateEffect(s, id, u).Success? ==> ForeignKeysHold(UpdateEffect(s, id, u).value)
    ensures DeleteEffect(s, id).Success? ==> ForeignKeysHold(DeleteEffect(s, id).value)
  {
    if CreatePrecheck(s, dto).Pass? && CreateEffect(s, dto, now, id).Success? {
      CreateKeepsForeignKeys(s, dto, now, id);
    }
    if UpdateEffect(s, id, u).Success? {
      UpdateKeepsForeignKeys(s, id, u);
    }
    if DeleteEffect(s, id).Success? {
      DeleteKeepsForeignKeys(s, id);
    }
  }

  /** A store that changes one order at most, keeps its customers and keeps
      its product keys, keeps the foreign keys of every other order. */
  lemma {:induction false} KeysCarryOver(s: Store, t: Store, id: int)
    requires ForeignKeysHold(s)
    requires t.clientes == s.clientes && t.produtos.Keys == s.produtos.Keys
    requires forall k :: k in t.pedidos && k != id ==> k in s.pedidos && t.pedidos[k] == s.pedidos[k]
    requires id in t.pedidos ==>
      t.pedidos[id].clienteId in t.clientes && LinesReferToProducts(t.pedidos[id].itens, t.produtos)
    ensures ForeignKeysHold(t)
  {
    forall k | k in t.pedidos
      ensures t.pedidos[k].clienteId in t.clientes && LinesReferToProducts(t.pedidos[k].itens, t.produtos)
    {
      if k != id {
        assert LinesReferToProducts(s.pedidos[k].itens, s.produtos);
      }
    }
  }

  /** The lines a completed reservation built name existing products. */
  lemma {:induction false} ReservedLinesReferToProducts(prods: map<int, ProductData>, items: seq<ItemRequest>, explicitCheck: bool)
    requires Reserve(prods, items, explicitCheck).outcome.Pass?
    ensures LinesReferToProducts(Reserve(prods, items, explicitCheck).lines, prods)
  {
    var lines := Reserve(prods, items, explicitCheck).lines;
    forall i | 0 <= i < |lines|
      ensures lines[i].produtoId as int in prods
    {
      assert lines[i] == LineFor(prods, items[i]);
    }
  }

  lemma {:induction false} CreateKeepsForeignKeys(s: Store, dto: CreatePedidoDto, now: Stamp, id: int)
    requires ForeignKeysHold(s) && CreatePrecheck(s, dto).Pass? && CreateEffect(s, dto, now, id).Success?
    ensures ForeignKeysHold(CreateEffect(s, dto, now, id).value)
  {
    var rv := Reserve(s.produtos, dto.itens, false);
    var o := NewOrder(dto.clienteId, now, rv.lines).value;
    var t := s.(produtos := rv.produtos, pedidos := s.pedidos[id := o]);
    assert CreateEffect(s, dto, now, id) == Success(t);
    assert LinesReferToProducts(o.itens, t.produtos) by {
      ReservedLinesReferToProducts(s.produtos, dto.itens, false);
    }
    KeysCarryOver(s, t, id);
  }

  lemma {:induction false} UpdateKeepsForeignKeys(s: Store, id: int, u: UpdatePedidoDto)
    requires ForeignKeysHold(s) && UpdateEffect(s, id, u).Success?
    ensures ForeignKeysHold(UpdateEffect(s, id, u).value)
  {
    var rs := Restore(s.produtos, s.pedidos[id].itens);
    var rv := Reserve(rs.produtos, u.itens, true);
    var o := ItemsReplaced(s.pedidos[id], rv.lines).value;
    var t := s.(produtos := rv.produtos, pedidos := s.pedidos[id := o]);
    assert UpdateEffect(s, id, u) == Success(t);
    assert LinesReferToProducts(o.itens, t.produtos) by {
      ReservedLinesReferToProducts(rs.produtos, u.itens, true);
    }
    KeysCarryOver(s, t, id);
  }

  lemma {:induction false} DeleteKeepsForeignKeys(s: Store, id: int)
    requires ForeignKeysHold(s) && DeleteEffect(s, id).Success?
    ensures ForeignKeysHold(DeleteEffect(s, id).value)
  {
    var rs := Restore(s.produtos, s.pedidos[id].itens);
    var t := s.(produtos := rs.produtos, pedidos := s.pedidos - {id});
    assert DeleteEffect(s, id) == Success(t);
    KeysCarryOver(s, t, id);
  }

  /** A create whose checks pass, on requests the validator admits, cannot
      fail before saving: each product's stock drops by its summed
      quantity, and the new order belongs to the customer, holds one line
      per request in request order at the product's price, and totals
      the sum of quantity times price. Nothing else changes. */
  lemma {:induction false} CreateEffectSpec(s: Store, dto: CreatePedidoDto, now: Stamp, id: int)
    requires StoreValid(s) && CreatePrecheck(s, dto).Pass?
    requires AllPositive(dto.itens) && |dto.itens| > 0
    ensures CreateEffect(s, dto, now, id).Success?
    ensures CreateEffect(s, dto, now, id).value.clientes == s.clientes
    ensures CreateEffect(s, dto, now, id).value.produtos.Keys == s.produtos.Keys
    ensures StockMovedBy(s.produtos, CreateEffect(s, dto, now, id).value.produtos, dto.itens, -1)
    ensures id in CreateEffect(s, dto, now, id).value.pedidos
    ensures
      var o := CreateEffect(s, dto, now, id).value.pedidos[id];
      CreateEffect(s, dto, now, id).value.pedidos == s.pedidos[id := o]
      && o.clienteId == dto.clienteId && o.dataPedido == now
      && |o.itens| == |dto.itens|
      && (forall i :: 0 <= i < |dto.itens| ==>
            dto.itens[i].produtoId as int in s.produtos && o.itens[i] == LineFor(s.produtos, dto.itens[i]))
      && o.total == Total(o.itens) && OrderInvariant(o)
  {
    CreateValidationPasses(dto.itens, s.produtos);
    ReserveWithinStock(s.produtos, dto.itens, false);
    var rv := Reserve(s.produtos, dto.itens, false);
    var o := NewOrder(dto.clienteId, now, rv.lines);
    assert o.Success?;
    var t := s.(produtos := rv.produtos, pedidos := s.pedidos[id := o.value]);
    assert CreateEffect(s, dto, now, id) == Success(t);
  }

  /** Deleting an order just created gives back the store as it was: every
      stock level is restored and the order is gone. */
  lemma {:induction false} CreateThenDelete(s: Store, dto: CreatePedidoDto, now: Stamp, id: int)
    requires StoreValid(s) && CreatePrecheck(s, dto).Pass?
    requires AllPositive(dto.itens) && |dto.itens| > 0
    requires id !in s.pedidos
    ensures CreateEffect(s, dto, now, id).Success?
    ensures DeleteEffect(CreateEffect(s, dto, now, id).value, id) == Success(s)
  {
    CreateValidationPasses(dto.itens, s.produtos);
    ReserveWithinStock(s.produtos, dto.itens, false);
    var rv := Reserve(s.produtos, dto.itens, false);
    var lines := rv.lines;
    var t := s.(produtos := rv.produtos, pedidos := s.pedidos[id := NewOrder(dto.clienteId, now, lines).value]);
    assert CreateEffect(s, dto, now, id) == Success(t);
    ReservedLinesMatchRequests(s.produtos, dto.itens, false);
    DeleteUndoesAdd(s, t, id, dto.itens);
  }

  /** The second half of `CreateThenDelete`: an order added under a fresh
      key, whose reservation took its quantities out of stock, is undone by
      deleting it. */
  lemma {:induction false} DeleteUndoesAdd(s: Store, t: Store, id: int, items: seq<ItemRequest>)
    requires id !in s.pedidos && id in t.pedidos
    requires t.pedidos == s.pedidos[id := t.pedidos[id]] && t.clientes == s.clientes
    requires t.produtos.Keys == s.produtos.Keys && StockMovedBy(s.produtos, t.produtos, items, -1)
    requires RequestsOf(t.pedidos[id].itens) == items && AllWellFormed(t.pedidos[id].itens)
    ensures DeleteEffect(t, id) == Success(s)
  {
    var lines := t.pedidos[id].itens;
    forall pid | pid in t.produtos
      ensures t.produtos[pid].estoque + QtyFor(RequestsOf(lines), pid) <= MaxInt32
    {
      assert pid in s.produtos;
    }
    RestoreAddsQuantities(t.produtos, lines);
    var back := Restore(t.produtos, lines).produtos;
    MovesCancel(s.produtos, t.produtos, back, items, -1);
    assert t.pedidos - {id} == s.pedidos;
  }

  /** `UpdateAsync` keeps the order's customer and date (the request's
      `ClienteId` plays no part), and touches no other order and no
      customer. */
  lemma {:induction false} UpdateKeepsOwner(s: Store, id: int, dto: UpdatePedidoDto, otherClienteId: Int32)
    requires UpdateEffect(s, id, dto).Success?
    ensures UpdateEffect(s, id, dto.(clienteId := otherClienteId)) == UpdateEffect(s, id, dto)
    ensures
      var t := UpdateEffect(s, id, dto).value;
      t.clientes == s.clientes && t.pedidos.Keys == s.pedidos.Keys
      && t.pedidos[id].clienteId == s.pedidos[id].clienteId
      && t.pedidos[id].dataPedido == s.pedidos[id].dataPedido
      && (forall k :: k in s.pedidos && k != id ==> t.pedidos[k] == s.pedidos[k])
  {
  }

  /** Updating an order to the lines it already has, when all its products
      exist and no stock can overflow, leaves every stock level unchanged;
      the lines are rebuilt at the products' current prices. */
  lemma {:induction false} UpdateWithSameLinesKeepsStock(s: Store, id: int, clienteId: Int32)
    requires StoreValid(s) && ForeignKeysHold(s) && id in s.pedidos
    requires forall pid :: pid in s.produtos ==>
      s.produtos[pid].estoque + QtyFor(RequestsOf(s.pedidos[id].itens), pid) <= MaxInt32
    ensures UpdateEffect(s, id, UpdatePedidoDto(clienteId, RequestsOf(s.pedidos[id].itens))).Success?
    ensures UpdateEffect(s, id, UpdatePedidoDto(clienteId, RequestsOf(s.pedidos[id].itens))).value.produtos == s.produtos
  {
    var lines := s.pedidos[id].itens;
    var items := RequestsOf(lines);
    assert OrderInvariant(s.pedidos[id]);
    RestoreAddsQuantities(s.produtos, lines);
    var restored := Restore(s.produtos, lines).produtos;
    assert ProductsValid(restored);
    forall pid | pid in ProductIds(items)
      ensures pid in restored && restored[pid].estoque >= QtyFor(items, pid)
    {
      var i :| 0 <= i < |items| && items[i].produtoId as int == pid;
      assert lines[i].produtoId as int in s.produtos;
    }
    assert AllPositive(items);
    ReserveWithinStock(restored, items, true);
    var rv := Reserve(restored, items, true);
    MovesCancel(s.produtos, restored, rv.produtos, items, 1);
    assert ItemsReplaced(s.pedidos[id], rv.lines).Success?;
  }

  /** `UpdateAsync`'s stock check runs against the stock after the old
      lines are given back: once that restoration completes, a non-empty
      update succeeds exactly when every requested product exists with
      enough of the restored stock; otherwise it fails with "not found" for
      a missing product or "insufficient stock", the latter whenever every
      requested product exists. */
  lemma {:induction false} UpdateChecksStock(s: Store, id: int, dto: UpdatePedidoDto)
    requires StoreValid(s) && id in s.pedidos && AllPositive(dto.itens)
    requires Restore(s.produtos, s.pedidos[id].itens).outcome.Pass?
    ensures
      var restored := Restore(s.produtos, s.pedidos[id].itens).produtos;
      UpdateEffect(s, id, dto).Success? <==> |dto.itens| > 0 && SufficientStock(dto.itens, restored)
    ensures
      var restored := Restore(s.produtos, s.pedidos[id].itens).produtos;
      !SufficientStock(dto.itens, restored) ==>
        UpdateEffect(s, id, dto).Failure? && StockCheckError(dto.itens, s.produtos, UpdateEffect(s, id, dto).error)
    ensures
      var restored := Restore(s.produtos, s.pedidos[id].itens).produtos;
      !SufficientStock(dto.itens, restored) && ProductIds(dto.itens) <= s.produtos.Keys ==>
        UpdateEffect(s, id, dto) == Failure(InvalidOperation(InsufficientStock))
  {
    var restored := Restore(s.produtos, s.pedidos[id].itens).produtos;
    assert ProductsValid(s.produtos);
    ReserveChecksStock(restored, dto.itens, true);
  }

  /** Deleting an order, when no stock can overflow, gives each existing
      product back the sum of the order's quantities for it and removes
      exactly that order. */
  lemma {:induction false} DeleteRestoresStock(s: Store, id: int)
    requires StoreValid(s) && id in s.pedidos
    requires forall pid :: pid in s.produtos ==>
      s.produtos[pid].estoque + QtyFor(RequestsOf(s.pedidos[id].itens), pid) <= MaxInt32
    ensures DeleteEffect(s, id).Success?
    ensures
      var t := DeleteEffect(s, id).value;
      t.pedidos == s.pedidos - {id} && t.clientes == s.clientes
      && t.produtos.Keys == s.produtos.Keys
      && StockMovedBy(s.produtos, t.produtos, RequestsOf(s.pedidos[id].itens), 1)
  {
    assert OrderInvariant(s.pedidos[id]);
    RestoreAddsQuantities(s.produtos, s.pedidos[id].itens);
  }
}
