/** `PedidoService`: creating, updating and deleting orders inside a
    database transaction, moving product stock as the lines change. */
module PedidoServices {
  import opened Errors
  import opened Numbers
  import opened Produtos
  import opened ItensPedido
  import opened Pedidos
  import opened Persistence
  import opened OrderWorkflow

  /** The validation loop of `CreateAsync` over the per-product totals, in
      the dictionary's enumeration order: the first product that is
      missing, or whose stock is below its total, stops it. */
  method ValidateStock(ks: seq<int>, need: map<int, int>, found: map<int, ProductData>) returns (o: Outcome)
    requires forall pid :: pid in ks ==> pid in need
    ensures o == CheckStock(ks, need, found)
  {
    var i := 0;
    while i < |ks|
      invariant 0 <= i <= |ks|
      invariant CheckStock(ks[i..], need, found) == CheckStock(ks, need, found)
    {
      assert ks[i..][1..] == ks[i + 1..];
      var pid := ks[i];
      assert pid in ks;
      if pid !in found {
        return Fail(KeyNotFound(ProdutoEntity, pid));
      }
      if found[pid].estoque < need[pid] {
        return Fail(InvalidOperation(InsufficientStock));
      }
      i := i + 1;
    }
    return Pass;
  }

  class PedidoService {
    const unitOfWork: DbContext

    constructor (unitOfWork: DbContext)
      ensures this.unitOfWork == unitOfWork
    {
      this.unitOfWork := unitOfWork;
    }

    /** One pass of the reservation loop: finds the product, optionally
        compares its stock (as `UpdateAsync` does), reduces the stock and
        builds the line at the product's price. */
    method ReserveItem(item: ItemRequest, explicitCheck: bool) returns (lines: seq<Line>, o: Outcome)
      requires unitOfWork.Valid()
      modifies unitOfWork`tracked
      ensures unitOfWork.Valid()
      ensures
        var r := ReserveOne(old(unitOfWork.tracked.produtos), item, explicitCheck);
        unitOfWork.tracked == old(unitOfWork.tracked).(produtos := r.produtos)
        && lines == r.lines && o == r.outcome
    {
      lines := [];
      var pid := item.produtoId as int;
      if pid !in unitOfWork.tracked.produtos {
        return [], Fail(KeyNotFound(ProdutoEntity, pid));
      }
      var produto := unitOfWork.tracked.produtos[pid];
      if explicitCheck && produto.estoque < item.quantidade {
        return [], Fail(InvalidOperation(InsufficientStock));
      }
      var reduced := StockReduced(produto, item.quantidade);
      if reduced.Failure? {
        return [], Fail(reduced.error);
      }
      StockOperationsKeepInvariant(produto, item.quantidade);
      unitOfWork.SetProduto(pid, reduced.value);
      var line := NewLine(item.produtoId, item.quantidade, reduced.value.preco);
      assert line.Success?;
      return [line.value], Pass;
    }

    /** The loop that reduces stock and builds one line per request at the
        product's price; `explicitCheck` adds the stock comparison that
        `UpdateAsync` makes before reducing. It stops at the first failure,
        leaving the stock changes made so far pending. */
    method ReserveLines(items: seq<ItemRequest>, explicitCheck: bool) returns (lines: seq<Line>, o: Outcome)
      requires unitOfWork.Valid()
      modifies unitOfWork`tracked
      ensures unitOfWork.Valid()
      ensures
        var r := Reserve(old(unitOfWork.tracked.produtos), items, explicitCheck);
        unitOfWork.tracked == old(unitOfWork.tracked).(produtos := r.produtos)
        && lines == r.lines && o == r.outcome
    {
      var p0 := unitOfWork.tracked.produtos;
      lines := [];
      o := Pass;
      var i := 0;
      while i < |items| && o.Pass?
        invariant 0 <= i <= |items|
        invariant unitOfWork.Valid()
        invariant unitOfWork.tracked == old(unitOfWork.tracked).(produtos := unitOfWork.tracked.produtos)
        invariant Reserve(p0, items[..i], explicitCheck) == Reservation(unitOfWork.tracked.produtos, lines, o)
      {
        ReserveSnoc(p0, items, i, explicitCheck);
        var more, step := ReserveItem(items[i], explicitCheck);
        lines := lines + more;
        o := step;
        i := i + 1;
      }
      if i < |items| {
        ReserveStopsAtFailure(p0, items, i, explicitCheck);
      } else {
        assert items[..i] == items;
      }
    }

    /** One pass of the restoration loop: a product that no longer exists
        is skipped; otherwise the line's quantity goes back to its stock. */
    method RestoreItem(line: Line) returns (o: Outcome)
      requires unitOfWork.Valid()
      modifies unitOfWork`tracked
      ensures unitOfWork.Valid()
      ensures
        var r := RestoreOne(old(unitOfWork.tracked.produtos), line);
        unitOfWork.tracked == old(unitOfWork.tracked).(produtos := r.produtos) && o == r.outcome
    {
      var pid := line.produtoId as int;
      if pid !in unitOfWork.tracked.produtos {
        return Pass;
      }
      var produto := unitOfWork.tracked.produtos[pid];
      var increased := StockIncreased(produto, line.quantidade);
      if increased.Failure? {
        return Fail(increased.error);
      }
      StockOperationsKeepInvariant(produto, line.quantidade);
      unitOfWork.SetProduto(pid, increased.value);
      return Pass;
    }

    /** The loop that gives each line's quantity back to its product,
        skipping products that no longer exist; it stops at the first
        failure. */
    method RestoreLines(lines: seq<Line>) returns (o: Outcome)
      requires unitOfWork.Valid()
      modifies unitOfWork`tracked
      ensures unitOfWork.Valid()
      ensures
        var r := Restore(old(unitOfWork.tracked.produtos), lines);
        unitOfWork.tracked == old(unitOfWork.tracked).(produtos := r.produtos) && o == r.outcome
    {
      var p0 := unitOfWork.tracked.produtos;
      o := Pass;
      var i := 0;
      while i < |lines| && o.Pass?
        invariant 0 <= i <= |lines|
        invariant unitOfWork.Valid()
        invariant unitOfWork.tracked == old(unitOfWork.tracked).(produtos := unitOfWork.tracked.produtos)
        invariant Restore(p0, lines[..i]) == Restoration(unitOfWork.tracked.produtos, o)
      {
        RestoreSnoc(p0, lines, i);
        o := RestoreItem(lines[i]);
        i := i + 1;
      }
      if i < |lines| {
        RestoreStopsAtFailure(p0, lines, i);
      } else {
        assert lines[..i] == lines;
      }
    }

    /** `CreateAsync`. The customer and stock checks run before any
        transaction and change nothing when they fail. After them, every
        failure rolls the database back to where the transaction began and
        is passed on; success leaves the database holding exactly the new
        state and returns the new order's key. */
    method CreateAsync(dto: CreatePedidoDto, now: Stamp, io: Io) returns (r: Result<int>)
      requires unitOfWork.Valid()
      modifies unitOfWork
      ensures unitOfWork.Valid()
      ensures CreatePrecheck(old(unitOfWork.tracked), dto).Fail? ==>
        r == Failure(CreatePrecheck(old(unitOfWork.tracked), dto).error) && unchanged(unitOfWork)
      ensures CreatePrecheck(old(unitOfWork.tracked), dto).Pass? ==>
        unitOfWork.currentTransaction.None?
        && (r.Failure? ==> unitOfWork.db == old(unitOfWork.RollbackTarget()))
      ensures CreatePrecheck(old(unitOfWork.tracked), dto).Pass? ==>
        var e := CreateEffect(old(unitOfWork.tracked), dto, now, old(unitOfWork.nextPedidoId));
        (e.Failure? ==> r == Failure(e.error))
        && (r.Success? <==> e.Success? && io == Io(true, true, true) && ForeignKeysHold(e.value))
        && (r.Success? ==>
              r.value == old(unitOfWork.nextPedidoId)
              && unitOfWork.tracked == e.value && unitOfWork.db == unitOfWork.tracked)
    {
      var s := unitOfWork.tracked;
      if dto.clienteId as int !in s.clientes {
        return Failure(KeyNotFound(ClienteEntity, dto.clienteId as int));
      }
      var aggregated := Aggregate(dto.itens);
      if aggregated.Failure? {
        return Failure(aggregated.error);
      }
      var need := aggregated.value;
      AggregateSums(dto.itens);
      var found := FetchProducts(s.produtos, need.Keys);
      var checked := ValidateStock(GroupOrder(dto.itens), need, found);
      if checked.Fail? {
        return Failure(checked.error);
      }
      r := CreateInTransaction(dto, now, io);
    }

    /** Lines 111-143 of `CreateAsync`, once the checks have passed. */
    method CreateInTransaction(dto: CreatePedidoDto, now: Stamp, io: Io) returns (r: Result<int>)
      requires unitOfWork.Valid()
      modifies unitOfWork
      ensures unitOfWork.Valid()
      ensures unitOfWork.currentTransaction.None?
      ensures r.Failure? ==> unitOfWork.db == old(unitOfWork.RollbackTarget())
      ensures
        var e := CreateEffect(old(unitOfWork.tracked), dto, now, old(unitOfWork.nextPedidoId));
        (e.Failure? ==> r == Failure(e.error))
        && (r.Success? <==> e.Success? && io == Io(true, true, true) && ForeignKeysHold(e.value))
        && (r.Success? ==>
              r.value == old(unitOfWork.nextPedidoId)
              && unitOfWork.tracked == e.value && unitOfWork.db == unitOfWork.tracked)
    {
      unitOfWork.BeginTransaction();
      r := StageCreate(dto, now);
      if r.Failure? {
        unitOfWork.RollbackTransaction();
        return;
      }
      var committed := Commit(io);
      if committed.Fail? {
        return Failure(committed.error);
      }
    }

    /** The body of `CreateAsync`'s transaction up to the save: the new
        order and the stock it takes are pending under the next key, or the
        first failure is returned. */
    method StageCreate(dto: CreatePedidoDto, now: Stamp) returns (r: Result<int>)
      requires unitOfWork.Valid()
      modifies unitOfWork`tracked, unitOfWork`nextPedidoId
      ensures unitOfWork.Valid()
      ensures
        var e := CreateEffect(old(unitOfWork.tracked), dto, now, old(unitOfWork.nextPedidoId));
        (e.Failure? ==> r == Failure(e.error))
        && (e.Success? ==> r == Success(old(unitOfWork.nextPedidoId)) && unitOfWork.tracked == e.value)
    {
      var lines, reserved := ReserveLines(dto.itens, false);
      if reserved.Fail? {
        return Failure(reserved.error);
      }
      var pedido := NewOrder(dto.clienteId, now, lines);
      if pedido.Failure? {
        return Failure(pedido.error);
      }
      var id := unitOfWork.AddPedido(pedido.value);
      return Success(id);
    }

    /** The end every workflow shares once its changes are pending: save,
        commit, and on any failure roll back and pass the failure on. */
    method Commit(io: Io) returns (o: Outcome)
      requires unitOfWork.Valid() && unitOfWork.currentTransaction.Some?
      modifies unitOfWork`db, unitOfWork`currentTransaction, unitOfWork`disposed
      ensures unitOfWork.Valid()
      ensures unitOfWork.currentTransaction.None?
      ensures o.Pass? <==> io == Io(true, true, true) && ForeignKeysHold(unitOfWork.tracked)
      ensures o.Pass? ==> unitOfWork.db == unitOfWork.tracked
      ensures o.Fail? ==> o.error == Storage && unitOfWork.db == old(unitOfWork.RollbackTarget())
    {
      o := unitOfWork.SaveChanges(io.saveOk);
      if o.Fail? {
        unitOfWork.RollbackTransaction();
        return;
      }
      o := unitOfWork.CommitTransaction(io.commitSaveOk, io.commitOk);
      if o.Fail? {
        // the commit has rolled back already; the service's own rollback
        // then finds no transaction
        unitOfWork.RollbackTransaction();
      }
    }

    /** `UpdateAsync`: inside a transaction, gives the old lines' quantities
        back, reserves the new ones and replaces the lines. Any failure
        rolls the database back to where the transaction began and is
        passed on; success leaves the database holding exactly the new
        state. */
    method UpdateAsync(id: int, dto: UpdatePedidoDto, io: Io) returns (o: Outcome)
      requires unitOfWork.Valid()
      modifies unitOfWork
      ensures unitOfWork.Valid()
      ensures unitOfWork.currentTransaction.None?
      ensures UpdateEffect(old(unitOfWork.tracked), id, dto).Failure? ==>
        o == Fail(UpdateEffect(old(unitOfWork.tracked), id, dto).error)
      ensures o.Pass? <==>
        UpdateEffect(old(unitOfWork.tracked), id, dto).Success?
        && io == Io(true, true, true)
        && ForeignKeysHold(UpdateEffect(old(unitOfWork.tracked), id, dto).value)
      ensures o.Pass? ==>
        unitOfWork.tracked == UpdateEffect(old(unitOfWork.tracked), id, dto).value
        && unitOfWork.db == unitOfWork.tracked
      ensures o.Fail? ==> unitOfWork.db == old(unitOfWork.RollbackTarget())
    {
      unitOfWork.BeginTransaction();
      o := StageUpdate(id, dto);
      if o.Fail? {
        unitOfWork.RollbackTransaction();
        return;
      }
      o := Commit(io);
    }

    /** The body of `UpdateAsync`'s transaction up to the save: the order's
        new state and the stock it implies are pending, or the first
        failure is returned. */
    method StageUpdate(id: int, dto: UpdatePedidoDto) returns (o: Outcome)
      requires unitOfWork.Valid()
      modifies unitOfWork`tracked
      ensures unitOfWork.Valid()
      ensures UpdateEffect(old(unitOfWork.tracked), id, dto).Failure? ==>
        o == Fail(UpdateEffect(old(unitOfWork.tracked), id, dto).error)
      ensures UpdateEffect(old(unitOfWork.tracked), id, dto).Success? ==>
        o.Pass? && unitOfWork.tracked == UpdateEffect(old(unitOfWork.tracked), id, dto).value
    {
      if id !in unitOfWork.tracked.pedidos {
        return Fail(KeyNotFound(PedidoEntity, id));
      }
      var pedido := unitOfWork.tracked.pedidos[id];
      o := RestoreLines(pedido.itens);
      if o.Fail? {
        return;
      }
      var lines;
      lines, o := ReserveLines(dto.itens, true);
      if o.Fail? {
        return;
      }
      var updated := ItemsReplaced(pedido, lines);
      if updated.Failure? {
        return Fail(updated.error);
      }
      unitOfWork.SetPedido(id, updated.value);
    }

    /** `DeleteAsync`: inside a transaction, gives the order's quantities
        back to stock and removes the order. Any failure rolls the database
        back to where the transaction began and is passed on. */
    method DeleteAsync(id: int, io: Io) returns (o: Outcome)
      requires unitOfWork.Valid()
      modifies unitOfWork
      ensures unitOfWork.Valid()
      ensures unitOfWork.currentTransaction.None?
      ensures DeleteEffect(old(unitOfWork.tracked), id).Failure? ==>
        o == Fail(DeleteEffect(old(unitOfWork.tracked), id).error)
      ensures o.Pass? <==>
        DeleteEffect(old(unitOfWork.tracked), id).Success?
        && io == Io(true, true, true)
        && ForeignKeysHold(DeleteEffect(old(unitOfWork.tracked), id).value)
      ensures o.Pass? ==>
        unitOfWork.tracked == DeleteEffect(old(unitOfWork.tracked), id).value
        && unitOfWork.db == unitOfWork.tracked
      ensures o.Fail? ==> unitOfWork.db == old(unitOfWork.RollbackTarget())
    {
      unitOfWork.BeginTransaction();
      if id !in unitOfWork.tracked.pedidos {
        unitOfWork.RollbackTransaction();
        return Fail(KeyNotFound(PedidoEntity, id));
      }
      var pedido := unitOfWork.tracked.pedidos[id];
      var restored := RestoreLines(pedido.itens);
      if restored.Fail? {
        unitOfWork.RollbackTransaction();
        return restored;
      }
      unitOfWork.RemovePedido(id);
      o := Commit(io);
    }
  }
}
