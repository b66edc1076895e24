/** The `ItemPedido` order line: a product id, a positive quantity and the
    positive unit price captured when the line was made. */
module ItensPedido {
  import opened Errors
  import opened Numbers

  /** A line's state. `id` is the key the database gives it; a line that was
      never stored has id 0. */
  datatype Line = Line(id: int, produtoId: Int32, quantidade: Int32, precoUnitario: Money)

  /** What the constructor and `UpdateQuantity` establish. */
  predicate WellFormedLine(l: Line) {
    l.quantidade > 0 && l.precoUnitario > 0.0
  }

  /** `Subtotal`: quantity times unit price, in exact decimal arithmetic. */
  function LineSubtotal(l: Line): Money {
    l.quantidade as real * l.precoUnitario
  }

  /** The constructor: a quantity that is not positive is reported before a
      unit price that is not positive; otherwise the three values are kept. */
  function NewLine(produtoId: Int32, quantidade: Int32, precoUnitario: Money): (r: Result<Line>)
    ensures r.Success? <==> quantidade > 0 && precoUnitario > 0.0
    ensures quantidade <= 0 ==> r == Failure(Argument(QuantityNotPositive))
    ensures quantidade > 0 && precoUnitario <= 0.0 ==> r == Failure(Argument(UnitPriceNotPositive))
    ensures r.Success? ==> WellFormedLine(r.value)
    ensures r.Success? ==> r.value == Line(0, produtoId, quantidade, precoUnitario)
  {
    if quantidade <= 0 then Failure(Argument(QuantityNotPositive))
    else if precoUnitario <= 0.0 then Failure(Argument(UnitPriceNotPositive))
    else Success(Line(0, produtoId, quantidade, precoUnitario))
  }

  /** `UpdateQuantity(n)`: rejects `n` that is not positive; otherwise only
      the quantity changes. */
  function QuantityUpdated(l: Line, n: Int32): (r: Result<Line>)
    ensures r.Success? <==> n > 0
    ensures r.Failure? ==> r.error == Argument(QuantityNotPositive)
    ensures r.Success? ==> r.value.quantidade == n && r.value.(quantidade := l.quantidade) == l
  {
    if n <= 0 then Failure(Argument(QuantityNotPositive))
    else Success(l.(quantidade := n))
  }

  /** Every well-formed line has a positive subtotal. */
  lemma {:induction false} SubtotalPositive(l: Line)
    requires WellFormedLine(l)
    ensures LineSubtotal(l) > 0.0
  {
    assert l.quantidade as real >= 1.0;
    assert LineSubtotal(l) >= l.precoUnitario;
  }

  /** Updating the quantity keeps a line well formed, and the subtotal
      follows the new quantity at the captured price. */
  lemma {:induction false} QuantityUpdatedKeepsLine(l: Line, n: Int32)
    requires WellFormedLine(l) && n > 0
    ensures WellFormedLine(QuantityUpdated(l, n).value)
    ensures LineSubtotal(QuantityUpdated(l, n).value) == n as real * l.precoUnitario
  {
  }

  class ItemPedido {
    var id: int
    var produtoId: Int32
    var quantidade: Int32
    var precoUnitario: Money

    /** The fields as one value. */
    function Data(): Line
      reads this
    {
      Line(id, produtoId, quantidade, precoUnitario)
    }

    ghost predicate Valid()
      reads this
    {
      WellFormedLine(Data())
    }

    /** `Subtotal`. */
    function Subtotal(): (s: Money)
      reads this
      ensures Valid() ==> s > 0.0
    {
      assert Valid() ==> LineSubtotal(Data()) > 0.0 by {
        if Valid() {
          SubtotalPositive(Data());
        }
      }
      LineSubtotal(Data())
    }

    /** `ItemPedido(produtoId, quantidade, precoUnitario)` for arguments that
        pass its guards. */
    constructor (produtoId: Int32, quantidade: Int32, precoUnitario: Money)
      requires quantidade > 0 && precoUnitario > 0.0
      ensures Data() == Line(0, produtoId, quantidade, precoUnitario)
      ensures Valid()
    {
      this.id := 0;
      this.produtoId := produtoId;
      this.quantidade := quantidade;
      this.precoUnitario := precoUnitario;
    }

    /** The constructor, with its exception returned as a failure. */
    static method Create(produtoId: Int32, quantidade: Int32, precoUnitario: Money)
      returns (r: Result<ItemPedido>)
      ensures r.Success? <==> NewLine(produtoId, quantidade, precoUnitario).Success?
      ensures r.Success? ==> fresh(r.value) && r.value.Valid()
      ensures r.Success? ==> r.value.Data() == NewLine(produtoId, quantidade, precoUnitario).value
      ensures r.Failure? ==> r.error == NewLine(produtoId, quantidade, precoUnitario).error
    {
      if quantidade <= 0 {
        return Failure(Argument(QuantityNotPositive));
      }
      if precoUnitario <= 0.0 {
        return Failure(Argument(UnitPriceNotPositive));
      }
      var item := new ItemPedido(produtoId, quantidade, precoUnitario);
      return Success(item);
    }

    /** `UpdateQuantity`. */
    method UpdateQuantity(novaQuantidade: Int32) returns (o: Outcome)
      modifies this`quantidade
      ensures o == OutcomeOf(QuantityUpdated(old(Data()), novaQuantidade))
      ensures Data() == ValueOr(QuantityUpdated(old(Data()), novaQuantidade), old(Data()))
      ensures old(Valid()) ==> Valid()
    {
      if novaQuantidade <= 0 {
        return Fail(Argument(QuantityNotPositive));
      }
      quantidade := novaQuantidade;
      return Pass;
    }
  }

  /** The values of a list of line objects, in order. */
  function LinesOf(items: seq<ItemPedido>): (r: seq<Line>)
    reads items
    ensures |r| == |items|
    ensures forall k :: 0 <= k < |items| ==> r[k] == items[k].Data()
  {
    seq(|items|, k requires 0 <= k < |items| reads items => items[k].Data())
  }
}
