/** The exceptions the domain and the services throw, and the failure-compatible
    wrappers that carry them instead of throwing. */
module Errors {

  datatype Option<+T> = None | Some(value: T)

  /** Which kind of record a `KeyNotFoundException` is about. */
  datatype Entity = ClienteEntity | ProdutoEntity | PedidoEntity

  /** Why an `ArgumentException` or `InvalidOperationException` was thrown; one
      constructor per distinct message of the source. */
  datatype Reason =
    | ProductNameRequired   // "Nome do produto é obrigatório."
    | PriceNotPositive      // "Preço deve ser maior que zero."
    | StockNegative         // "Estoque não pode ser negativo."
    | QuantityNotPositive   // "Quantidade deve ser maior que zero."
    | UnitPriceNotPositive  // "Preço unitário deve ser maior que zero."
    | NoItems               // "Pedido deve conter pelo menos um item."
    | NullItem              // ArgumentNullException for a null line
    | ItemNotFound          // "Item com ID ... não encontrado no pedido."
    | LastItem              // "... Não é possível remover o último item."
    | InsufficientStock     // "Estoque insuficiente ..."
    | CustomerNameRequired  // "Nome do cliente é obrigatório."
    | EmailRequired         // "Email é obrigatório."
    | EmailEmpty            // "Email não pode ser vazio."
    | EmailMalformed        // "Formato de email inválido."
    | EmailTaken            // "Já existe (outro) cliente cadastrado com o email ..."

  datatype Error =
    | Argument(reason: Reason)          // ArgumentException, ArgumentNullException
    | InvalidOperation(reason: Reason)  // InvalidOperationException
    | KeyNotFound(entity: Entity, id: int)  // KeyNotFoundException
    | Overflow                          // OverflowException of checked 32-bit arithmetic
    | Storage                           // a failure raised by the database or a cancellation

  datatype Result<+T> = Success(value: T) | Failure(error: Error)

  datatype Outcome = Pass | Fail(error: Error)

  /** The exception a computation threw, if any. */
  function OutcomeOf<T>(r: Result<T>): Outcome {
    if r.Success? then Pass else Fail(r.error)
  }

  /** The value a computation produced, or `d` when it threw. */
  function ValueOr<T>(r: Result<T>, d: T): T {
    if r.Success? then r.value else d
  }
}
