/** The `Pedido` aggregate: a customer, a time stamp and an ordered, never
    empty list of lines whose subtotals always sum to the stored total. */
module Pedidos {
  import opened Errors
  import opened Numbers
  import opened ItensPedido

  /** A point in time (`DateTime.UtcNow` is passed in by the caller). */
  type Stamp = int

  /** The state of an order, as the database stores it. */
  datatype OrderData = OrderData(clienteId: Int32, dataPedido: Stamp, itens: seq<Line>, total: Money)

  /** `CalculateTotal`: the sum of the line subtotals. */
  function Total(lines: seq<Line>): Money
  {
    if |lines| == 0 then 0.0
    else Total(lines[..|lines| - 1]) + LineSubtotal(lines[|lines| - 1])
  }

  predicate AllWellFormed(lines: seq<Line>) {
    forall i :: 0 <= i < |lines| ==> WellFormedLine(lines[i])
  }

  /** What every order keeps: at least one line, each line well formed, and
      the total equal to the sum of the subtotals. */
  predicate OrderInvariant(o: OrderData) {
    |o.itens| > 0 && AllWellFormed(o.itens) && o.total == Total(o.itens)
  }

  /** `IsValid()`. */
  predicate OrderIsValid(o: OrderData) {
    |o.itens| > 0 && o.total > 0.0
  }

  // ---------------------------------------------------------------------
  // The sum of subtotals.

  lemma {:induction false} TotalAppend(s: seq<Line>, l: Line)
    ensures Total(s + [l]) == Total(s) + LineSubtotal(l)
  {
    assert (s + [l])[..|s|] == s;
  }

  lemma {:induction false} TotalConcat(a: seq<Line>, b: seq<Line>)
    ensures Total(a + b) == Total(a) + Total(b)
    decreases |b|
  {
    if |b| == 0 {
      assert a + b == a;
    } else {
      var b' := b[..|b| - 1];
      assert a + b == (a + b') + [b[|b| - 1]];
      TotalAppend(a + b', b[|b| - 1]);
      TotalConcat(a, b');
      TotalAppend(b', b[|b| - 1]);
      assert b' + [b[|b| - 1]] == b;
    }
  }

  /** Lines built one after another stay well formed together. */
  lemma {:induction false} ConcatKeepsWellFormed(a: seq<Line>, b: seq<Line>)
    requires AllWellFormed(a) && AllWellFormed(b)
    ensures AllWellFormed(a + b)
  {
    forall j | 0 <= j < |a + b|
      ensures WellFormedLine((a + b)[j])
    {
      assert (a + b)[j] == if j < |a| then a[j] else b[j - |a|];
    }
  }

  /** Taking a line out keeps the others well formed. */
  lemma {:induction false} RemoveAtKeepsWellFormed(s: seq<Line>, k: int)
    requires 0 <= k < |s| && AllWellFormed(s)
    ensures AllWellFormed(s[..k] + s[k + 1..])
  {
    var t := s[..k] + s[k + 1..];
    forall j | 0 <= j < |t|
      ensures WellFormedLine(t[j])
    {
      assert t[j] == if j < k then s[j] else s[j + 1];
    }
  }

  /** Taking out line `k` takes its subtotal off the total. */
  lemma {:induction false} TotalRemoveAt(s: seq<Line>, k: int)
    requires 0 <= k < |s|
    ensures Total(s[..k] + s[k + 1..]) == Total(s) - LineSubtotal(s[k])
  {
    var a, x, b := s[..k], s[k], s[k + 1..];
    assert s == (a + [x]) + b;
    TotalConcat(a + [x], b);
    TotalAppend(a, x);
    TotalConcat(a, b);
  }

  /** A non-empty list of well-formed lines has a positive total. */
  lemma {:induction false} TotalPositive(s: seq<Line>)
    requires |s| > 0 && AllWellFormed(s)
    ensures Total(s) > 0.0
    decreases |s|
  {
    SubtotalPositive(s[|s| - 1]);
    if |s| > 1 {
      TotalPositive(s[..|s| - 1]);
    }
  }

  /** `IsValid()` holds for every order that keeps the invariant. */
  lemma {:induction false} InvariantMakesValid(o: OrderData)
    requires OrderInvariant(o)
    ensures OrderIsValid(o)
  {
    TotalPositive(o.itens);
  }

  // ---------------------------------------------------------------------
  // The operations on values.

  /** The constructor: an empty list is rejected; otherwise the order holds
      the lines in the given order and their total. */
  function NewOrder(clienteId: Int32, now: Stamp, itens: seq<Line>): (r: Result<OrderData>)
    ensures r.Success? <==> |itens| > 0
    ensures r.Failure? ==> r.error == Argument(NoItems)
    ensures r.Success? ==> r.value.clienteId == clienteId && r.value.dataPedido == now
    ensures r.Success? ==> r.value.itens == itens
    ensures r.Success? && AllWellFormed(itens) ==> OrderInvariant(r.value) && r.value.total > 0.0
  {
    if |itens| == 0 then Failure(Argument(NoItems))
    else
      assert AllWellFormed(itens) ==> Total(itens) > 0.0 by {
        if AllWellFormed(itens) {
          TotalPositive(itens);
        }
      }
      Success(OrderData(clienteId, now, itens, Total(itens)))
  }

  /** `AddItem`: a null line is rejected; otherwise the line goes at the end
      and its subtotal is added to the total. */
  function ItemAdded(o: OrderData, item: Option<Line>): (r: Result<OrderData>)
    ensures r.Success? <==> item.Some?
    ensures r.Failure? ==> r.error == Argument(NullItem)
    ensures r.Success? ==> r.value.itens == o.itens + [item.value]
    ensures r.Success? ==> r.value.clienteId == o.clienteId && r.value.dataPedido == o.dataPedido
    ensures r.Success? && o.total == Total(o.itens) ==> r.value.total == o.total + LineSubtotal(item.value)
    ensures r.Success? && OrderInvariant(o) && WellFormedLine(item.value) ==> OrderInvariant(r.value)
  {
    match item
    case None => Failure(Argument(NullItem))
    case Some(l) =>
      var itens := o.itens + [l];
      TotalAppend(o.itens, l);
      Success(o.(itens := itens, total := Total(itens)))
  }

  /** `FirstOrDefault(i => i.Id == id)`: the position of the first line with
      that id, or -1. */
  function FindLine(lines: seq<Line>, id: int): (k: int)
    ensures -1 <= k < |lines|
    ensures k >= 0 ==> lines[k].id == id && forall j :: 0 <= j < k ==> lines[j].id != id
    ensures k < 0 ==> forall j :: 0 <= j < |lines| ==> lines[j].id != id
  {
    if |lines| == 0 then -1
    else if lines[0].id == id then 0
    else
      var k := FindLine(lines[1..], id);
      if k < 0 then -1 else k + 1
  }

  /** `RemoveItem`: an order with one line refuses any removal, even of an
      unknown id; otherwise an unknown id is rejected, and the first line
      with the id is taken out, the others keeping their order. */
  function ItemRemoved(o: OrderData, itemId: int): (r: Result<OrderData>)
    ensures |o.itens| <= 1 ==> r == Failure(InvalidOperation(LastItem))
    ensures |o.itens| > 1 && FindLine(o.itens, itemId) < 0 ==> r == Failure(Argument(ItemNotFound))
    ensures r.Success? <==> |o.itens| > 1 && FindLine(o.itens, itemId) >= 0
    ensures r.Success? ==>
      var k := FindLine(o.itens, itemId);
      r.value.itens == o.itens[..k] + o.itens[k + 1..]
      && (o.total == Total(o.itens) ==> r.value.total == o.total - LineSubtotal(o.itens[k]))
    ensures r.Success? ==> r.value.clienteId == o.clienteId && r.value.dataPedido == o.dataPedido
    ensures r.Success? ==> |r.value.itens| == |o.itens| - 1 > 0
    ensures r.Success? && OrderInvariant(o) ==> OrderInvariant(r.value)
  {
    if |o.itens| <= 1 then Failure(InvalidOperation(LastItem))
    else
      var k := FindLine(o.itens, itemId);
      if k < 0 then Failure(Argument(ItemNotFound))
      else
        var itens := o.itens[..k] + o.itens[k + 1..];
        TotalRemoveAt(o.itens, k);
        assert AllWellFormed(o.itens) ==> AllWellFormed(itens) by {
          if AllWellFormed(o.itens) {
            RemoveAtKeepsWellFormed(o.itens, k);
          }
        }
        Success(o.(itens := itens, total := Total(itens)))
  }

  /** `UpdateItems`: an empty list is rejected; otherwise the lines become
      exactly the new list and the total follows. */
  function ItemsReplaced(o: OrderData, novos: seq<Line>): (r: Result<OrderData>)
    ensures r.Success? <==> |novos| > 0
    ensures r.Failure? ==> r.error == Argument(NoItems)
    ensures r.Success? ==> r.value.itens == novos
    ensures r.Success? ==> r.value.clienteId == o.clienteId && r.value.dataPedido == o.dataPedido
    ensures r.Success? && AllWellFormed(novos) ==> OrderInvariant(r.value)
  {
    if |novos| == 0 then Failure(Argument(NoItems))
    else Success(o.(itens := novos, total := Total(novos)))
  }

  /** The order the tests build from (2 × 10.50) and (3 × 5.00): the
      constructor accepts it, keeps both lines and totals 36.00. */
  lemma {:induction false} TotalOfTwoLines(clienteId: Int32, now: Stamp, a: Line, b: Line)
    requires a.quantidade == 2 && a.precoUnitario == 10.50
    requires b.quantidade == 3 && b.precoUnitario == 5.00
    ensures NewOrder(clienteId, now, [a, b]).Success?
    ensures |NewOrder(clienteId, now, [a, b]).value.itens| == 2
    ensures NewOrder(clienteId, now, [a, b]).value.total == 36.00
  {
    assert [a, b][..1] == [a];
    assert [a][..0] == [];
    assert Total([a]) == LineSubtotal(a) == 21.00;
    assert LineSubtotal(b) == 15.00;
  }

  // ---------------------------------------------------------------------
  // The entity.

  class Pedido {
    var clienteId: Int32
    var dataPedido: Stamp
    var total: Money
    var itens: seq<ItemPedido>

    /** The values of the line objects. */
    function Lines(): seq<Line>
      reads this, itens
    {
      LinesOf(itens)
    }

    /** The fields as one value. */
    function Data(): OrderData
      reads this, itens
    {
      OrderData(clienteId, dataPedido, Lines(), total)
    }

    ghost predicate Valid()
      reads this, itens
    {
      OrderInvariant(Data())
    }

    /** `Pedido(clienteId, itens)` for a list that is not empty; `now` is the
        clock reading. */
    constructor (clienteId: Int32, itens: seq<ItemPedido>, now: Stamp)
      requires |itens| > 0
      ensures this.itens == itens
      ensures Data() == NewOrder(clienteId, now, LinesOf(itens)).value
      ensures AllWellFormed(LinesOf(itens)) ==> Valid()
    {
      this.clienteId := clienteId;
      this.dataPedido := now;
      this.itens := itens;
      this.total := Total(LinesOf(itens));
    }

    /** The constructor, with its exception returned as a failure. */
    static method Create(clienteId: Int32, itens: seq<ItemPedido>, now: Stamp)
      returns (r: Result<Pedido>)
      ensures r.Success? <==> NewOrder(clienteId, now, LinesOf(itens)).Success?
      ensures r.Success? ==> fresh(r.value) && r.value.itens == itens
      ensures r.Success? ==> r.value.Data() == NewOrder(clienteId, now, LinesOf(itens)).value
      ensures r.Failure? ==> r.error == NewOrder(clienteId, now, LinesOf(itens)).error
    {
      if |itens| == 0 {
        return Failure(Argument(NoItems));
      }
      var p := new Pedido(clienteId, itens, now);
      return Success(p);
    }

    /** `CalculateTotal`. */
    method CalculateTotal()
      modifies this`total
      ensures Lines() == old(Lines())
      ensures total == Total(Lines())
    {
      total := Total(Lines());
    }

    /** Taking an object out of the list takes its value out of the
        values. */
    static lemma {:induction false} LinesOfRemoveAt(items: seq<ItemPedido>, k: int)
      requires 0 <= k < |items|
      ensures LinesOf(items[..k] + items[k + 1..]) == LinesOf(items)[..k] + LinesOf(items)[k + 1..]
    {
      var t := items[..k] + items[k + 1..];
      assert forall j :: 0 <= j < |t| ==> t[j] == if j < k then items[j] else items[j + 1];
    }

    /** `AddItem`, with a null argument reported. */
    method AddItem(item: ItemPedido?) returns (o: Outcome)
      modifies this`itens, this`total
      ensures o == OutcomeOf(ItemAdded(old(Data()), if item == null then None else Some(item.Data())))
      ensures Data() == ValueOr(ItemAdded(old(Data()), if item == null then None else Some(item.Data())), old(Data()))
      ensures item != null ==> itens == old(itens) + [item]
    {
      if item == null {
        return Fail(Argument(NullItem));
      }
      itens := itens + [item];
      assert Lines() == old(Lines()) + [item.Data()];
      CalculateTotal();
      return Pass;
    }

    /** `RemoveItem`. */
    method RemoveItem(itemId: int) returns (o: Outcome)
      modifies this`itens, this`total
      ensures o == OutcomeOf(ItemRemoved(old(Data()), itemId))
      ensures Data() == ValueOr(ItemRemoved(old(Data()), itemId), old(Data()))
    {
      if |itens| <= 1 {
        return Fail(InvalidOperation(LastItem));
      }
      var k := FindLine(Lines(), itemId);
      if k < 0 {
        return Fail(Argument(ItemNotFound));
      }
      assert ItemRemoved(old(Data()), itemId).value == old(Data()).(itens := old(Lines())[..k] + old(Lines())[k + 1..], total := Total(old(Lines())[..k] + old(Lines())[k + 1..]));
      TakeOut(k);
      return Pass;
    }

    /** The list without its `k`-th object, and the total recomputed. */
    method TakeOut(k: int)
      requires 0 <= k < |itens|
      modifies this`itens, this`total
      ensures itens == old(itens[..k] + itens[k + 1..])
      ensures Lines() == old(Lines()[..k] + Lines()[k + 1..])
      ensures total == Total(Lines())
    {
      var rest := itens[..k] + itens[k + 1..];
      assert LinesOf(rest) == Lines()[..k] + Lines()[k + 1..] by {
        LinesOfRemoveAt(itens, k);
      }
      itens := rest;
      CalculateTotal();
    }

    /** `UpdateItems`. */
    method UpdateItems(novosItens: seq<ItemPedido>) returns (o: Outcome)
      modifies this`itens, this`total
      ensures o == OutcomeOf(ItemsReplaced(old(Data()), LinesOf(novosItens)))
      ensures Data() == ValueOr(ItemsReplaced(old(Data()), LinesOf(novosItens)), old(Data()))
      ensures o.Pass? ==> itens == novosItens
    {
      if |novosItens| == 0 {
        return Fail(Argument(NoItems));
      }
      itens := novosItens;
      CalculateTotal();
      return Pass;
    }

    /** `IsValid()`: true of every order that keeps the invariant. */
    function IsValid(): (b: bool)
      reads this, itens
      ensures b == OrderIsValid(Data())
      ensures Valid() ==> b
    {
      assert Valid() ==> OrderIsValid(Data()) by {
        if Valid() {
          InvariantMakesValid(Data());
        }
      }
      |itens| > 0 && total > 0.0
    }
  }
}
