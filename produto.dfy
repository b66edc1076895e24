/** The `Produto` aggregate: name, price, optional description and stock,
    revalidated together on creation and update, and a stock that is reduced
    and increased under guards. */
module Produtos {
  import opened Errors
  import opened Numbers
  import opened Text

  /** The state of a product, as the database stores it. */
  datatype ProductData = ProductData(nome: string, preco: Money, descricao: Option<string>, estoque: Int32)

  /** What creation and every update establish: a name, a positive price and
      a stock that is not negative. */
  predicate ProductInvariant(p: ProductData) {
    !IsBlank(p.nome) && p.preco > 0.0 && p.estoque >= 0
  }

  /** `ValidateProductData`: a blank name is reported first, then a price that
      is not positive, then a negative stock. */
  function ValidateProductData(nome: string, preco: Money, estoque: Int32): (o: Outcome)
    ensures o.Pass? <==> !IsBlank(nome) && preco > 0.0 && estoque >= 0
    ensures IsBlank(nome) ==> o == Fail(Argument(ProductNameRequired))
    ensures !IsBlank(nome) && preco <= 0.0 ==> o == Fail(Argument(PriceNotPositive))
    ensures !IsBlank(nome) && preco > 0.0 && estoque < 0 ==> o == Fail(Argument(StockNegative))
  {
    if IsBlank(nome) then Fail(Argument(ProductNameRequired))
    else if preco <= 0.0 then Fail(Argument(PriceNotPositive))
    else if estoque < 0 then Fail(Argument(StockNegative))
    else Pass
  }

  /** The constructor and `Update`: the four fields as given, once validated. */
  function NewProduct(nome: string, preco: Money, descricao: Option<string>, estoque: Int32): (r: Result<ProductData>)
    ensures r.Success? ==> ProductInvariant(r.value)
    ensures r.Success? ==> r.value == ProductData(nome, preco, descricao, estoque)
    ensures r.Failure? ==> ValidateProductData(nome, preco, estoque) == Fail(r.error)
  {
    match ValidateProductData(nome, preco, estoque)
    case Fail(e) => Failure(e)
    case Pass => Success(ProductData(nome, preco, descricao, estoque))
  }

  /** `ReduceStock(q)`: rejects a quantity that is not positive, then one the
      stock cannot cover; otherwise takes `q` off the stock. */
  function StockReduced(p: ProductData, q: Int32): (r: Result<ProductData>)
    ensures r.Success? <==> 0 < q <= p.estoque
    ensures q <= 0 ==> r == Failure(Argument(QuantityNotPositive))
    ensures 0 < q && p.estoque < q ==> r == Failure(InvalidOperation(InsufficientStock))
    ensures r.Success? ==> r.value.estoque + q == p.estoque && r.value.(estoque := p.estoque) == p
  {
    if q <= 0 then Failure(Argument(QuantityNotPositive))
    else if p.estoque < q then Failure(InvalidOperation(InsufficientStock))
    else Success(p.(estoque := p.estoque - q))
  }

  /** `IncreaseStock(q)` as written: `Estoque += q` in unchecked 32-bit
      arithmetic, so a sum past `MaxInt32` wraps around to a negative stock. */
  function StockIncreasedAsWritten(p: ProductData, q: Int32): (r: Result<ProductData>)
    ensures r.Success? <==> q > 0
    ensures r.Success? ==> r.value.(estoque := p.estoque) == p
    ensures r.Success? && p.estoque + q <= MaxInt32 ==> r.value.estoque == p.estoque + q
  {
    if q <= 0 then Failure(Argument(QuantityNotPositive))
    else Success(p.(estoque := Wrap32(p.estoque + q)))
  }

  /** `IncreaseStock(q)` as intended: a quantity that is not positive is
      rejected, and a sum the stock field cannot hold fails as checked
      arithmetic does instead of wrapping; otherwise `q` is added. */
  function StockIncreased(p: ProductData, q: Int32): (r: Result<ProductData>)
    ensures r.Success? <==> q > 0 && p.estoque + q <= MaxInt32
    ensures q <= 0 ==> r == Failure(Argument(QuantityNotPositive))
    ensures q > 0 && p.estoque + q > MaxInt32 ==> r == Failure(Overflow)
    ensures r.Success? ==> r.value.estoque == p.estoque + q && r.value.(estoque := p.estoque) == p
  {
    if q <= 0 then Failure(Argument(QuantityNotPositive))
    else if p.estoque + q > MaxInt32 then Failure(Overflow)
    else Success(p.(estoque := p.estoque + q))
  }

  // ---------------------------------------------------------------------
  // Properties of the specification.

  /** Validation passes exactly for the data the invariant admits. */
  lemma {:induction false} ValidationIsInvariant(nome: string, preco: Money, descricao: Option<string>, estoque: Int32)
    ensures ValidateProductData(nome, preco, estoque).Pass?
        <==> ProductInvariant(ProductData(nome, preco, descricao, estoque))
  {
  }

  /** Neither stock operation can make the stock negative or touch the other
      fields. */
  lemma {:induction false} StockOperationsKeepInvariant(p: ProductData, q: Int32)
    requires ProductInvariant(p)
    ensures StockReduced(p, q).Success? ==> ProductInvariant(StockReduced(p, q).value)
    ensures StockIncreased(p, q).Success? ==> ProductInvariant(StockIncreased(p, q).value)
    ensures StockReduced(p, q).Success? ==>
      var r := StockReduced(p, q).value; r.nome == p.nome && r.preco == p.preco && r.descricao == p.descricao
    ensures StockIncreased(p, q).Success? ==>
      var r := StockIncreased(p, q).value; r.nome == p.nome && r.preco == p.preco && r.descricao == p.descricao
  {
  }

  /** Reducing by `q` and increasing by `q` again gives the product back. */
  lemma {:induction false} ReduceThenIncrease(p: ProductData, q: Int32)
    requires StockReduced(p, q).Success?
    ensures StockIncreased(StockReduced(p, q).value, q) == Success(p)
  {
  }

  /** Increasing by `q` and reducing by `q` again gives the product back. */
  lemma {:induction false} IncreaseThenReduce(p: ProductData, q: Int32)
    requires ProductInvariant(p) && StockIncreased(p, q).Success?
    ensures StockReduced(StockIncreased(p, q).value, q) == Success(p)
  {
  }

  /** The unchecked addition breaks the invariant: a product holding
      `MaxInt32` units that receives one more is left with a negative stock. */
  lemma {:induction false} IncreaseAsWrittenWraps(p: ProductData)
    requires ProductInvariant(p) && p.estoque == MaxInt32
    ensures StockIncreasedAsWritten(p, 1).Success?
    ensures StockIncreasedAsWritten(p, 1).value.estoque == MinInt32
    ensures !ProductInvariant(StockIncreasedAsWritten(p, 1).value)
  {
    assert Wrap32(MaxInt32 + 1) == MinInt32;
  }

  /** The corrected increase differs from the written one only where the
      written one wraps. */
  lemma {:induction false} IncreaseAgreesBelowLimit(p: ProductData, q: Int32)
    requires p.estoque + q <= MaxInt32
    ensures StockIncreased(p, q) == StockIncreasedAsWritten(p, q)
  {
  }

  // ---------------------------------------------------------------------
  // The entity.

  class Produto {
    var nome: string
    var preco: Money
    var descricao: Option<string>
    var estoque: Int32

    /** The fields as one value. */
    function Data(): ProductData
      reads this
    {
      ProductData(nome, preco, descricao, estoque)
    }

    ghost predicate Valid()
      reads this
    {
      ProductInvariant(Data())
    }

    /** `Produto(nome, preco, descricao, estoque)` for arguments that pass
        validation. */
    constructor (nome: string, preco: Money, descricao: Option<string>, estoque: Int32)
      requires ValidateProductData(nome, preco, estoque).Pass?
      ensures Data() == ProductData(nome, preco, descricao, estoque)
      ensures Valid()
    {
      this.nome := nome;
      this.preco := preco;
      this.descricao := descricao;
      this.estoque := estoque;
    }

    /** The constructor, with its exception returned as a failure. */
    static method Create(nome: string, preco: Money, descricao: Option<string>, estoque: Int32)
      returns (r: Result<Produto>)
      ensures r.Success? <==> NewProduct(nome, preco, descricao, estoque).Success?
      ensures r.Success? ==> fresh(r.value) && r.value.Valid()
      ensures r.Success? ==> r.value.Data() == NewProduct(nome, preco, descricao, estoque).value
      ensures r.Failure? ==> r.error == NewProduct(nome, preco, descricao, estoque).error
    {
      var v := ValidateProductData(nome, preco, estoque);
      if v.Fail? {
        return Failure(v.error);
      }
      var p := new Produto(nome, preco, descricao, estoque);
      return Success(p);
    }

    /** `Update`: validates first, so a failure leaves every field as it was;
        a success replaces all four. */
    method Update(nome: string, preco: Money, descricao: Option<string>, estoque: Int32)
      returns (o: Outcome)
      modifies this
      ensures o == OutcomeOf(NewProduct(nome, preco, descricao, estoque))
      ensures Data() == ValueOr(NewProduct(nome, preco, descricao, estoque), old(Data()))
      ensures old(Valid()) ==> Valid()
    {
      o := ValidateProductData(nome, preco, estoque);
      if o.Fail? {
        return;
      }
      this.nome := nome;
      this.preco := preco;
      this.descricao := descricao;
      this.estoque := estoque;
    }

    /** `ReduceStock`. */
    method ReduceStock(quantity: Int32) returns (o: Outcome)
      modifies this`estoque
      ensures o == OutcomeOf(StockReduced(old(Data()), quantity))
      ensures Data() == ValueOr(StockReduced(old(Data()), quantity), old(Data()))
      ensures old(Valid()) ==> Valid()
    {
      if quantity <= 0 {
        return Fail(Argument(QuantityNotPositive));
      }
      if estoque < quantity {
        return Fail(InvalidOperation(InsufficientStock));
      }
      estoque := estoque - quantity;
      return Pass;
    }

    /** `IncreaseStock`, with the overflow of the addition reported. */
    method IncreaseStock(quantity: Int32) returns (o: Outcome)
      modifies this`estoque
      ensures o == OutcomeOf(StockIncreased(old(Data()), quantity))
      ensures Data() == ValueOr(StockIncreased(old(Data()), quantity), old(Data()))
      ensures old(Valid()) ==> Valid()
    {
      if quantity <= 0 {
        return Fail(Argument(QuantityNotPositive));
      }
      if estoque > MaxInt32 - quantity {
        return Fail(Overflow);
      }
      estoque := estoque + quantity;
      return Pass;
    }
  }
}
