/** `ApplicationDbContext`: the database contents, the change tracker's view
    of them, and the transaction state machine over `_currentTransaction`
    (Idle when it is null, Active otherwise). */
module Persistence {
  import opened Errors
  import opened Numbers
  import opened Produtos
  import opened ItensPedido
  import opened Pedidos
  import opened Clientes

  /** The three tables, by primary key. An order carries its lines, which
      the database deletes with it (cascade). */
  datatype Store = Store(
    produtos: map<int, ProductData>,
    pedidos: map<int, OrderData>,
    clientes: map<int, CustomerData>)

  /** No two customers share an email. The database has no unique index
      on the column: only the customer service's check keeps this. */
  predicate DistinctEmails(c: map<int, CustomerData>) {
    forall i, j :: i in c && j in c && i != j ==> c[i].email != c[j].email
  }

  /** Every entity keeps its own invariant. */
  predicate StoreValid(s: Store) {
    (forall k :: k in s.produtos ==> ProductInvariant(s.produtos[k]))
    && (forall k :: k in s.pedidos ==> OrderInvariant(s.pedidos[k]))
    && (forall k :: k in s.clientes ==> CustomerInvariant(s.clientes[k]))
  }

  predicate LinesReferToProducts(lines: seq<Line>, produtos: map<int, ProductData>) {
    forall i :: 0 <= i < |lines| ==> lines[i].produtoId in produtos
  }

  /** The restricting foreign keys: an order's customer and every line's
      product exist. The database refuses a save that breaks them. */
  predicate ForeignKeysHold(s: Store) {
    forall k :: k in s.pedidos ==>
      s.pedidos[k].clienteId in s.clientes && LinesReferToProducts(s.pedidos[k].itens, s.produtos)
  }

  /** Keys handed out so far are below the identity counters. */
  predicate KeysBelow(s: Store, nextPedidoId: int, nextClienteId: int) {
    (forall k :: k in s.pedidos ==> k < nextPedidoId)
    && (forall k :: k in s.clientes ==> k < nextClienteId)
  }

  /** An open database transaction: the contents it would roll back to. */
  datatype Transaction = Transaction(id: nat, snapshot: Store)

  /** The faults the database may raise at each point where the services
      wait on it: the service's own save, the save inside
      `CommitTransactionAsync`, and the commit itself. */
  datatype Io = Io(saveOk: bool, commitSaveOk: bool, commitOk: bool)

  class DbContext {
    /** What the database holds (including writes made inside the open
        transaction). */
    var db: Store
    /** The entities as the change tracker sees them: the database plus the
        changes not yet saved. */
    var tracked: Store
    var currentTransaction: Option<Transaction>
    /** The identity sequences of the two tables whose rows the core adds;
        like database sequences, they are not rolled back. */
    var nextPedidoId: int
    var nextClienteId: int
    /** How many transactions were begun, and which were disposed, in the
        order of disposal. */
    var begun: nat
    ghost var disposed: seq<nat>

    ghost predicate Valid()
      reads this
    {
      (forall k :: 0 <= k < |disposed| ==> disposed[k] == k)
      && (currentTransaction.None? ==> |disposed| == begun)
      && (currentTransaction.Some? ==>
            |disposed| + 1 == begun && currentTransaction.value.id == begun - 1
            && StoreValid(currentTransaction.value.snapshot)
            && ForeignKeysHold(currentTransaction.value.snapshot)
            && KeysBelow(currentTransaction.value.snapshot, nextPedidoId, nextClienteId))
      && StoreValid(db) && ForeignKeysHold(db) && KeysBelow(db, nextPedidoId, nextClienteId)
      && StoreValid(tracked) && KeysBelow(tracked, nextPedidoId, nextClienteId)
    }

    /** What the database returns to if the current unit of work fails: the
        snapshot of the open transaction, or the contents as they are. */
    function RollbackTarget(): Store
      reads this
    {
      if currentTransaction.Some? then currentTransaction.value.snapshot else db
    }

    /** A fresh context over a database, with nothing pending; the
        sequences continue from the given values. */
    constructor (contents: Store, nextPedidoId: int, nextClienteId: int)
      requires StoreValid(contents) && ForeignKeysHold(contents)
      requires KeysBelow(contents, nextPedidoId, nextClienteId)
      ensures db == contents && tracked == contents && currentTransaction.None?
      ensures this.nextPedidoId == nextPedidoId && this.nextClienteId == nextClienteId
      ensures begun == 0 && disposed == []
      ensures Valid()
    {
      db := contents;
      tracked := contents;
      currentTransaction := None;
      this.nextPedidoId := nextPedidoId;
      this.nextClienteId := nextClienteId;
      begun := 0;
      disposed := [];
    }

    /** `BeginTransactionAsync`: a no-op while a transaction is open;
        otherwise opens one over the current contents. */
    method BeginTransaction()
      requires Valid()
      modifies this`currentTransaction, this`begun
      ensures Valid()
      ensures old(currentTransaction).Some? ==>
        currentTransaction == old(currentTransaction) && begun == old(begun)
      ensures old(currentTransaction).None? ==>
        currentTransaction == Some(Transaction(old(begun), db)) && begun == old(begun) + 1
      ensures RollbackTarget() == old(RollbackTarget())
    {
      if currentTransaction.Some? {
        return;
      }
      currentTransaction := Some(Transaction(begun, db));
      begun := begun + 1;
    }

    /** `SaveChangesAsync`: writes the pending changes, unless the database
        fails or a foreign key would break, in which case nothing is
        written. */
    method SaveChanges(ok: bool) returns (o: Outcome)
      requires Valid()
      modifies this`db
      ensures Valid()
      ensures o.Pass? <==> ok && ForeignKeysHold(tracked)
      ensures o.Pass? ==> db == tracked
      ensures o.Fail? ==> db == old(db) && o.error == Storage
    {
      if !ok || !ForeignKeysHold(tracked) {
        return Fail(Storage);
      }
      db := tracked;
      return Pass;
    }

    // The repository calls the services make: each changes only what the
    // change tracker holds, until the next save.

    /** `Produtos.UpdateAsync`: the product's new state is pending. */
    method SetProduto(pid: int, p: ProductData)
      requires Valid() && pid in tracked.produtos && ProductInvariant(p)
      modifies this`tracked
      ensures Valid()
      ensures tracked == old(tracked).(produtos := old(tracked).produtos[pid := p])
    {
      tracked := tracked.(produtos := tracked.produtos[pid := p]);
    }

    /** `Pedidos.AddAsync`: the order is pending under the next key of its
        identity sequence. */
    method AddPedido(o: OrderData) returns (id: int)
      requires Valid() && OrderInvariant(o)
      modifies this`tracked, this`nextPedidoId
      ensures Valid()
      ensures id == old(nextPedidoId) && nextPedidoId == id + 1
      ensures tracked == old(tracked).(pedidos := old(tracked).pedidos[id := o])
    {
      id := nextPedidoId;
      tracked := tracked.(pedidos := tracked.pedidos[id := o]);
      nextPedidoId := id + 1;
    }

    /** `Pedidos.UpdateAsync`: the order's new state is pending. */
    method SetPedido(id: int, o: OrderData)
      requires Valid() && id in tracked.pedidos && OrderInvariant(o)
      modifies this`tracked
      ensures Valid()
      ensures tracked == old(tracked).(pedidos := old(tracked).pedidos[id := o])
    {
      tracked := tracked.(pedidos := tracked.pedidos[id := o]);
    }

    /** `Pedidos.DeleteAsync`: the order, with its lines, is pending
        removal. */
    method RemovePedido(id: int)
      requires Valid()
      modifies this`tracked
      ensures Valid()
      ensures tracked == old(tracked).(pedidos := old(tracked).pedidos - {id})
    {
      tracked := tracked.(pedidos := tracked.pedidos - {id});
    }

    /** `Clientes.AddAsync`: the customer is pending under the next key of
        its identity sequence. */
    method AddCliente(c: CustomerData) returns (id: int)
      requires Valid() && CustomerInvariant(c)
      modifies this`tracked, this`nextClienteId
      ensures Valid()
      ensures id == old(nextClienteId) && nextClienteId == id + 1
      ensures tracked == old(tracked).(clientes := old(tracked).clientes[id := c])
    {
      id := nextClienteId;
      tracked := tracked.(clientes := tracked.clientes[id := c]);
      nextClienteId := id + 1;
    }

    /** `Clientes.UpdateAsync`: the customer's new state is pending. */
    method SetCliente(id: int, c: CustomerData)
      requires Valid() && id in tracked.clientes && CustomerInvariant(c)
      modifies this`tracked
      ensures Valid()
      ensures tracked == old(tracked).(clientes := old(tracked).clientes[id := c])
    {
      tracked := tracked.(clientes := tracked.clientes[id := c]);
    }

    /** `Clientes.DeleteAsync`: the customer is pending removal. */
    method RemoveCliente(id: int)
      requires Valid()
      modifies this`tracked
      ensures Valid()
      ensures tracked == old(tracked).(clientes := old(tracked).clientes - {id})
    {
      tracked := tracked.(clientes := tracked.clientes - {id});
    }

    /** `RollbackTransactionAsync`: with a transaction open, the database
        returns to its snapshot and the transaction is disposed and
        cleared; otherwise nothing happens. The change tracker is left as
        it is. */
    method RollbackTransaction()
      requires Valid()
      modifies this`db, this`currentTransaction, this`disposed
      ensures Valid()
      ensures currentTransaction.None?
      ensures db == old(RollbackTarget())
      ensures old(currentTransaction).Some? ==> disposed == old(disposed) + [old(currentTransaction).value.id]
      ensures old(currentTransaction).None? ==> disposed == old(disposed) && db == old(db)
    {
      if currentTransaction.Some? {
        db := currentTransaction.value.snapshot;
        disposed := disposed + [currentTransaction.value.id];
        currentTransaction := None;
      }
    }

    /** `CommitTransactionAsync`: saves, then commits the open transaction
        (there is nothing to commit without one). A failure of either rolls
        back and is passed on. Whatever happens, the transaction is disposed
        exactly once and the context is Idle afterwards. */
    method CommitTransaction(saveOk: bool, commitOk: bool) returns (o: Outcome)
      requires Valid()
      modifies this`db, this`currentTransaction, this`disposed
      ensures Valid()
      ensures currentTransaction.None?
      ensures old(currentTransaction).Some? ==> disposed == old(disposed) + [old(currentTransaction).value.id]
      ensures old(currentTransaction).None? ==> disposed == old(disposed)
      ensures o.Pass? <==> saveOk && ForeignKeysHold(tracked) && (old(currentTransaction).None? || commitOk)
      ensures o.Pass? ==> db == tracked
      ensures o.Fail? ==> db == old(RollbackTarget()) && o.error == Storage
    {
      o := SaveChanges(saveOk);
      if o.Pass? && currentTransaction.Some? && !commitOk {
        o := Fail(Storage);
      }
      if o.Fail? {
        RollbackTransaction();
        return;
      }
      if currentTransaction.Some? {
        // the commit makes the saved contents permanent; `finally` disposes
        disposed := disposed + [currentTransaction.value.id];
        currentTransaction := None;
      }
    }
  }
}
