# Order management: a verified model of the domain, the order and customer services, and the transaction state machine

This Dafny project models the core of an order-management API written in C#.

The domain has four entities and one value object:

- **Produto** (product): name, price, optional description and stock, revalidated together on create and update. Stock is reduced and increased with guards.
- **ItemPedido** (order line): product id, positive quantity and positive unit price. Its subtotal is derived.
- **Pedido** (order): a never-empty list of lines, a customer id and an order date. Its total is recomputed as the sum of the line subtotals after every change.
- **Cliente** (customer): name, optional phone and email.
- **Email**: validated against `^[^@\s]+@[^@\s]+\.[^@\s]+$` and normalised to lower case. It compares case-insensitively.

Two services drive it:

- **PedidoService** (order service). It creates, updates and deletes orders, moving product stock inside a database transaction. Any exception rolls back the transaction.
- **ClienteService** (customer service). It creates, updates and deletes customers, and refuses an email that another customer already holds.

**ApplicationDbContext** owns the transaction. Its nullable `_currentTransaction` is an Idle/Active state machine.

How each part is modelled:

- **Entities the source mutates in place are classes.** `Produtos.Produto`, `ItensPedido.ItemPedido`, `Pedidos.Pedido` and `Clientes.Cliente` have the source's fields. Each mutating method is proved against a pure function on a value view `Data()`: `StockReduced`, `ItemAdded`, `NewCustomer` and so on. The properties are lemmas about those functions.
- **Failures are values.** An exception is a `Failure(e)` or `Fail(e)`, where `e` is one of `Argument`, `InvalidOperation`, `KeyNotFound(entity, id)`, `Overflow` or `Storage`. Each `Reason` names one distinct message of the source.
- **The database is `Persistence.DbContext`.** It holds:
  - `db`: what the database contains, with money at full precision (see Left out);
  - `tracked`: what the change tracker shows, the database plus pending changes;
  - the open transaction, as a snapshot of `db` taken when it began;
  - the identity sequences, which are not rolled back;
  - a ghost log of disposed transactions.

  Saving copies `tracked` into `db`, unless the database fails or a restricting foreign key would break. Rollback restores the snapshot. Faults the database can raise are passed in as booleans (`Io`).
- **Each service method is imperative.** Its loops are proved against the pure `OrderWorkflow` functions: `Reserve` and `Restore` for the stock loops, and `CreateEffect`, `UpdateEffect` and `DeleteEffect` for the whole change before saving. The `OrderWorkflow` lemmas then state what the source promises: exact stock deltas, lines in request order at the product price, create followed by delete restoring the store, and invariants and foreign keys preserved.
- **C# `int` parameters are the `Int32` subset type.** Money is `real`: C# `decimal` is exact within its range. The range and the two-decimal rounding of the money columns are left out (see Left out). The stock overflow is written out. The model's increase fails with `Overflow` past `int.MaxValue`. The wrap-around of `Estoque += q` survives only in `Produtos.StockIncreasedAsWritten` (see Findings).

Differences from a plain reading of the sources, where the model follows the code:

- .NET's `$` also matches before a final newline. So `Email.Create` accepts `"user@example.com\n"`, and the `Trim` in `Email.Create` then removes that newline. Its effect is not void (`Emails.NewlineTolerated`).
- `Produto.IncreaseStock` has no overflow guard in the source, so its stock wraps. The model uses the corrected increase, which fails with `Overflow` instead (see Findings and Left out).

## Model

| member | source | states |
|---|---|---|
| Text.TrimFinalNewline | src/OrderManagement.Domain/ValueObjects/Email.cs:26 | `Trim` removes exactly one final newline from a whitespace-free non-empty string |
| Text.UpperInjectiveOnLower | src/OrderManagement.Domain/ValueObjects/Email.cs:32 | on lower-case strings, ordinal case-insensitive equality coincides with equality |
| Emails.Create | src/OrderManagement.Domain/ValueObjects/Email.cs:18-27 | blank input fails with the "empty" error first; otherwise it succeeds exactly when the pattern (with .NET's `$`) matches, else it gives the "invalid format" error |
| Emails.ShapeIsPattern | src/OrderManagement.Domain/ValueObjects/Email.cs:7-9 | the hand-written shape test (no white space, one '@' after a non-empty local part, an inner '.' in the domain) holds exactly when the string is three `[^@\s]+` atoms joined by '@' and '.' |
| Emails.CreateAcceptsPattern | src/OrderManagement.Domain/ValueObjects/Email.cs:7-24 | `Create` succeeds iff the input matches the pattern in full, optionally followed by one newline |
| Emails.CreateNormalises | src/OrderManagement.Domain/ValueObjects/Email.cs:26 | an accepted value is the lower-cased input without its tolerated final newline; it has the email shape and no upper-case letter |
| Emails.CreateIdempotent | src/OrderManagement.Domain/ValueObjects/Email.cs:18-26 | feeding an accepted value back into `Create` accepts it and returns the same value |
| Emails.NewlineTolerated | src/OrderManagement.Domain/ValueObjects/Email.cs:8-26 | a shaped address followed by "\n" is accepted and stored exactly as the address alone |
| Emails.SampleIsShaped | src/OrderManagement.Domain/ValueObjects/Email.cs:8 | "a@b.co" has the email shape; `ClienteServices.DuplicateExample` builds its stored customer on it |
| Emails.EqualsIsEquivalence | src/OrderManagement.Domain/ValueObjects/Email.cs:29-33 | `Equals` is reflexive, symmetric and transitive, and false against null |
| Emails.EqualEmailsHashAlike | src/OrderManagement.Domain/ValueObjects/Email.cs:29-37 | equal emails have equal hash codes |
| Emails.CreatedEqualIffSameValue | src/OrderManagement.Domain/ValueObjects/Email.cs:26-32 | two accepted emails are `Equals` exactly when their stored values are the same string |
| Emails.CreateIgnoresCase | src/OrderManagement.Domain/ValueObjects/Email.cs:26 | lower-casing an accepted input before `Create` gives the same email |
| Produtos.ValidateProductData | src/OrderManagement.Domain/Entities/Produto.cs:56-66 | passes iff the name is not blank, the price is positive and the stock is not negative; otherwise the first failing check's `ArgumentException`, in that order |
| Produtos.NewProduct | src/OrderManagement.Domain/Entities/Produto.cs:14-33 | on success the four fields exactly as given and the product invariant; on failure the validation's error |
| Produtos.StockReduced | src/OrderManagement.Domain/Entities/Produto.cs:35-45 | succeeds iff 0 < q <= stock; q <= 0 is an argument error, too little stock an invalid operation; on success stock drops by exactly q and nothing else changes |
| Produtos.StockIncreasedAsWritten | src/OrderManagement.Domain/Entities/Produto.cs:47-54 | the code as written: succeeds iff q > 0, changes only the stock, and adds q when no 32-bit wrap occurs |
| Produtos.StockIncreased | src/OrderManagement.Domain/Entities/Produto.cs:47-54 | corrected: q <= 0 is an argument error, a sum beyond `int.MaxValue` an overflow; otherwise stock grows by exactly q and nothing else changes |
| Produtos.ValidationIsInvariant | src/OrderManagement.Domain/Entities/Produto.cs:56-66 | validation passes exactly for data satisfying the product invariant |
| Produtos.StockOperationsKeepInvariant | src/OrderManagement.Domain/Entities/Produto.cs:35-54 | successful stock changes keep the stock non-negative and leave name, price and description unchanged |
| Produtos.ReduceThenIncrease | src/OrderManagement.Domain/Entities/Produto.cs:43-52 | reducing by q and then increasing by q restores the product |
| Produtos.IncreaseThenReduce | src/OrderManagement.Domain/Entities/Produto.cs:43-52 | increasing by q and then reducing by q restores the product |
| Produtos.IncreaseAsWrittenWraps | src/OrderManagement.Domain/Entities/Produto.cs:52 | as written, increasing a stock of `int.MaxValue` by 1 succeeds with stock `int.MinValue`, breaking the invariant |
| Produtos.IncreaseAgreesBelowLimit | src/OrderManagement.Domain/Entities/Produto.cs:52 | without overflow, the corrected and the as-written increase agree |
| Produtos.Produto.constructor | src/OrderManagement.Domain/Entities/Produto.cs:14-22 | a validated product holds the given fields and its invariant |
| Produtos.Produto.Create | src/OrderManagement.Domain/Entities/Produto.cs:14-22 | a new product exactly when `NewProduct` succeeds, with its fields; otherwise its error |
| Produtos.Produto.Update | src/OrderManagement.Domain/Entities/Produto.cs:24-33 | validates before assigning: a failure leaves every field unchanged, a success replaces all four |
| Produtos.Produto.ReduceStock | src/OrderManagement.Domain/Entities/Produto.cs:35-45 | outcome and new state are those of `StockReduced`; the invariant is kept |
| Produtos.Produto.IncreaseStock | src/OrderManagement.Domain/Entities/Produto.cs:47-54 | outcome and new state are those of `StockIncreased`; the invariant is kept |
| ItensPedido.NewLine | src/OrderManagement.Domain/Entities/ItemPedido.cs:19-30 | quantity <= 0 is reported before price <= 0; success iff both are positive, storing exactly the product id, quantity and unit price |
| ItensPedido.QuantityUpdated | src/OrderManagement.Domain/Entities/ItemPedido.cs:32-39 | fails iff n <= 0; otherwise only the quantity changes, to n |
| ItensPedido.SubtotalPositive | src/OrderManagement.Domain/Entities/ItemPedido.cs:15-25 | the subtotal of any constructed line is strictly positive |
| ItensPedido.QuantityUpdatedKeepsLine | src/OrderManagement.Domain/Entities/ItemPedido.cs:15-39 | a positive update keeps the line well formed and its subtotal becomes n times the unit price |
| ItensPedido.ItemPedido.Subtotal | src/OrderManagement.Domain/Entities/ItemPedido.cs:15 | quantity times unit price, positive for a valid line |
| ItensPedido.ItemPedido.constructor | src/OrderManagement.Domain/Entities/ItemPedido.cs:19-30 | holds exactly the given product id, quantity and unit price |
| ItensPedido.ItemPedido.Create | src/OrderManagement.Domain/Entities/ItemPedido.cs:19-30 | a new line exactly when `NewLine` succeeds; otherwise its error |
| ItensPedido.ItemPedido.UpdateQuantity | src/OrderManagement.Domain/Entities/ItemPedido.cs:32-39 | outcome and state are those of `QuantityUpdated`; a failure changes nothing |
| Pedidos.TotalAppend | src/OrderManagement.Domain/Entities/Pedido.cs:34-35 | appending a line adds its subtotal to the total |
| Pedidos.TotalConcat | src/OrderManagement.Domain/Entities/Pedido.cs:64-67 | the total of a concatenation is the sum of the totals |
| Pedidos.TotalRemoveAt | src/OrderManagement.Domain/Entities/Pedido.cs:48-49 | removing a line subtracts its subtotal from the total |
| Pedidos.TotalPositive | src/OrderManagement.Domain/Entities/Pedido.cs:64-67 | a non-empty list of constructed lines has a positive total |
| Pedidos.InvariantMakesValid | src/OrderManagement.Domain/Entities/Pedido.cs:69-72 | every order keeping the invariant (non-empty, well-formed lines, total = sum) satisfies `IsValid` |
| Pedidos.NewOrder | src/OrderManagement.Domain/Entities/Pedido.cs:18-27 | an empty list is an argument error; otherwise the order has the given customer, date and lines, and with constructed lines a positive total equal to the sum of subtotals |
| Pedidos.ItemAdded | src/OrderManagement.Domain/Entities/Pedido.cs:29-37 | null is rejected; otherwise the line is appended at the end, the total grows by its subtotal, customer and date are kept, and the invariant is preserved |
| Pedidos.FindLine | src/OrderManagement.Domain/Entities/Pedido.cs:44 | the index of the first line with the id, or -1 when none has it |
| Pedidos.ItemRemoved | src/OrderManagement.Domain/Entities/Pedido.cs:39-51 | with at most one line, the "last item" error whatever the id; with more, an unknown id is an argument error; otherwise exactly the first matching line is removed, the rest kept in order, and the invariant preserved |
| Pedidos.ItemsReplaced | src/OrderManagement.Domain/Entities/Pedido.cs:53-62 | an empty list is rejected; otherwise the lines become exactly the new list, customer and date kept |
| Pedidos.TotalOfTwoLines | tests/OrderManagement.Tests/Domain/PedidoTests.cs:19-31 | the constructor accepts the lines 2 x 10.50 and 3 x 5.00, keeps both of them and totals 36.00 |
| Pedidos.Pedido.constructor | src/OrderManagement.Domain/Entities/Pedido.cs:18-27 | keeps the passed line objects and the value `NewOrder` gives |
| Pedidos.Pedido.Create | src/OrderManagement.Domain/Entities/Pedido.cs:18-27 | a new order exactly when `NewOrder` succeeds; otherwise its error |
| Pedidos.Pedido.CalculateTotal | src/OrderManagement.Domain/Entities/Pedido.cs:64-67 | the total becomes the sum of the lines' subtotals |
| Pedidos.Pedido.AddItem | src/OrderManagement.Domain/Entities/Pedido.cs:29-37 | outcome and state are those of `ItemAdded`; the line object is appended |
| Pedidos.Pedido.RemoveItem | src/OrderManagement.Domain/Entities/Pedido.cs:39-51 | outcome and state are those of `ItemRemoved`; a failure changes nothing |
| Pedidos.Pedido.TakeOut | src/OrderManagement.Domain/Entities/Pedido.cs:48-49 | the list loses exactly its `k`-th line object, the others keep their order, and the total is recomputed over what remains |
| Pedidos.Pedido.UpdateItems | src/OrderManagement.Domain/Entities/Pedido.cs:53-62 | outcome and state are those of `ItemsReplaced`; on success the line objects are the new list |
| Pedidos.Pedido.IsValid | src/OrderManagement.Domain/Entities/Pedido.cs:69-72 | `count > 0 && Total > 0`, true for every order keeping the invariant |
| Clientes.NewCustomer | src/OrderManagement.Domain/Entities/Cliente.cs:15-29 | a blank name first, then a blank email, then a malformed email are argument errors; otherwise name and phone as given and the email as `Email.Create` normalises it, lower case |
| Clientes.NewCustomerNormalises | src/OrderManagement.Domain/Entities/Cliente.cs:24-27 | the stored email is the lower-cased shaped input, and lower-casing the input first makes no difference |
| Clientes.StoredCustomerRevalidates | src/OrderManagement.Domain/Entities/Cliente.cs:31-46 | revalidating a stored customer's own fields accepts them unchanged |
| Clientes.Cliente.constructor | src/OrderManagement.Domain/Entities/Cliente.cs:15-29 | the fields are those `NewCustomer` gives, and the invariant holds |
| Clientes.Cliente.New | src/OrderManagement.Domain/Entities/Cliente.cs:15-29 | a new customer exactly when `NewCustomer` succeeds; otherwise its error |
| Clientes.Cliente.Update | src/OrderManagement.Domain/Entities/Cliente.cs:31-46 | validates before assigning: a failure leaves every field unchanged, a success replaces all three with the email normalised |
| Persistence.DbContext.constructor | src/OrderManagement.Infrastructure/Persistence/ApplicationDbContext.cs:12-14 | a context over consistent contents starts Idle with nothing pending |
| Persistence.DbContext.BeginTransaction | src/OrderManagement.Infrastructure/Persistence/ApplicationDbContext.cs:29-37 | a no-op while a transaction is open; otherwise opens one whose snapshot is the current contents |
| Persistence.DbContext.SaveChanges | src/OrderManagement.Infrastructure/Repositories/UnitOfWork.cs:45-48 | succeeds iff the database does and the foreign keys hold; then the database equals the tracked view, otherwise it is unchanged |
| Persistence.DbContext.SetProduto | src/OrderManagement.Application/Services/PedidoService.cs:123 | the product's new state becomes pending; nothing else changes |
| Persistence.DbContext.AddPedido | src/OrderManagement.Application/Services/PedidoService.cs:130 | the order becomes pending under the next identity key, which advances by one |
| Persistence.DbContext.SetPedido | src/OrderManagement.Application/Services/PedidoService.cs:198 | the order's new state becomes pending |
| Persistence.DbContext.RemovePedido | src/OrderManagement.Application/Services/PedidoService.cs:240 | the order, with its lines, becomes pending removal |
| Persistence.DbContext.AddCliente | src/OrderManagement.Application/Services/ClienteService.cs:41 | the customer becomes pending under the next identity key |
| Persistence.DbContext.SetCliente | src/OrderManagement.Application/Services/ClienteService.cs:62 | the customer's new state becomes pending |
| Persistence.DbContext.RemoveCliente | src/OrderManagement.Application/Services/ClienteService.cs:76 | the customer becomes pending removal |
| Persistence.DbContext.RollbackTransaction | src/OrderManagement.Infrastructure/Persistence/ApplicationDbContext.cs:61-75 | the database returns to the open transaction's snapshot, which is disposed once and cleared; with none open, nothing changes |
| Persistence.DbContext.CommitTransaction | src/OrderManagement.Infrastructure/Persistence/ApplicationDbContext.cs:39-59 | saves then commits; succeeds iff both do; a failure rolls back to the snapshot; either way the transaction is disposed exactly once and the context is Idle |
| OrderWorkflow.Aggregate | src/OrderManagement.Application/Services/PedidoService.cs:82-84 | the checked per-product sums: an overflow error, or sums within `int` |
| OrderWorkflow.AggregateSums | src/OrderManagement.Application/Services/PedidoService.cs:82-84 | the keys are exactly the requested product ids, each mapped to the sum of its requested quantities |
| OrderWorkflow.AggregateSucceeds | src/OrderManagement.Application/Services/PedidoService.cs:82-84 | with positive quantities whose sums fit in `int`, aggregation succeeds |
| OrderWorkflow.GroupOrder | src/OrderManagement.Application/Services/PedidoService.cs:82-90 | the distinct requested product ids, each once |
| OrderWorkflow.FetchProducts | src/OrderManagement.Infrastructure/Repositories/ProdutoRepository.cs:35-43 | exactly the found subset of the requested ids, with their stored products |
| OrderWorkflow.CheckStock | src/OrderManagement.Application/Services/PedidoService.cs:90-108 | a failure is "not found" for a missing product or "insufficient stock" for a short one |
| OrderWorkflow.CheckStockPasses | src/OrderManagement.Application/Services/PedidoService.cs:90-108 | the check passes iff every id was found with stock at least its summed quantity |
| OrderWorkflow.CreateValidationPasses | src/OrderManagement.Application/Services/PedidoService.cs:81-108 | create's validation passes iff the sums do not overflow and every product exists with enough stock for its summed quantity |
| OrderWorkflow.ReserveOne | src/OrderManagement.Application/Services/PedidoService.cs:117-126 | the same products, every one other than the requested product unchanged; on success builds exactly the line at the product's current price |
| OrderWorkflow.Reserve | src/OrderManagement.Application/Services/PedidoService.cs:117-127 | products differ only in stock and stay valid; on success one line per request, in request order, at each product's price |
| OrderWorkflow.RestoreOne | src/OrderManagement.Application/Services/PedidoService.cs:163-171 | a missing product is skipped with nothing changed; every product other than the line's is unchanged; products stay valid |
| OrderWorkflow.Restore | src/OrderManagement.Application/Services/PedidoService.cs:163-171 | products differ only in stock and stay valid |
| OrderWorkflow.ReserveStopsAtFailure | src/OrderManagement.Application/Services/PedidoService.cs:175-195 | once a request fails, the later ones change nothing |
| OrderWorkflow.RestoreStopsAtFailure | src/OrderManagement.Application/Services/PedidoService.cs:163-171 | once a line fails, the later ones change nothing |
| OrderWorkflow.MovesCancel | src/OrderManagement.Application/Services/PedidoService.cs:163-195 | moving stock by the same quantities one way then back gives the same products |
| OrderWorkflow.ReserveWithinStock | src/OrderManagement.Application/Services/PedidoService.cs:90-123 | after a passed validation no `ReduceStock` fails, and each product's stock drops by exactly its summed requested quantity |
| OrderWorkflow.ReserveOneChecksStock | src/OrderManagement.Application/Services/PedidoService.cs:177-189 | one pass with a positive quantity passes iff the product exists with enough stock; else "not found" for the missing product, or "insufficient stock" |
| OrderWorkflow.ReservePassNeedsStock | src/OrderManagement.Application/Services/PedidoService.cs:175-195 | a reservation loop that completes had enough stock for every summed quantity |
| OrderWorkflow.ReserveFailureReason | src/OrderManagement.Application/Services/PedidoService.cs:175-195 | a reservation loop that fails stops with "not found" for a requested product that is missing, or with "insufficient stock" |
| OrderWorkflow.ReserveChecksStock | src/OrderManagement.Application/Services/PedidoService.cs:175-195 | the loop completes iff every requested product exists with enough stock for its summed quantity; a failure is "not found" for a missing product or "insufficient stock", always the latter when all products exist |
| OrderWorkflow.RestoreAddsQuantities | src/OrderManagement.Application/Services/PedidoService.cs:230-238 | restoring lines adds each line's quantity back, cumulatively per product, when no sum overflows |
| OrderWorkflow.EffectsKeepStoreValid | src/OrderManagement.Application/Services/PedidoService.cs:117-240 | create, update and delete never leave an entity breaking its invariant (stock non-negative, orders non-empty with total = sum) |
| OrderWorkflow.CreateKeepsStoreValid | src/OrderManagement.Application/Services/PedidoService.cs:117-130 | a create that reaches the save leaves every product, order and customer keeping its invariant |
| OrderWorkflow.UpdateKeepsStoreValid | src/OrderManagement.Application/Services/PedidoService.cs:155-198 | so does an update |
| OrderWorkflow.DeleteKeepsStoreValid | src/OrderManagement.Application/Services/PedidoService.cs:222-240 | so does a delete |
| OrderWorkflow.EffectsKeepForeignKeys | src/OrderManagement.Infrastructure/Persistence/Configurations/PedidoConfiguration.cs:29-39 | from a store whose foreign keys hold, each workflow that reaches its save keeps them |
| OrderWorkflow.CreateKeepsForeignKeys | src/OrderManagement.Infrastructure/Persistence/Configurations/PedidoConfiguration.cs:29-39 | a create whose checks passed leaves every order's customer and every line's product present |
| OrderWorkflow.UpdateKeepsForeignKeys | src/OrderManagement.Infrastructure/Persistence/Configurations/PedidoConfiguration.cs:29-39 | so does an update: its new lines name products that exist |
| OrderWorkflow.DeleteKeepsForeignKeys | src/OrderManagement.Infrastructure/Persistence/Configurations/PedidoConfiguration.cs:29-39 | so does a delete |
| OrderWorkflow.CreateEffectSpec | src/OrderManagement.Application/Services/PedidoService.cs:115-130 | a validated create succeeds: stock drops by summed quantities, the order has the requested customer, one line per request in order at product price, and total = Σ quantity x price; customers unchanged |
| OrderWorkflow.CreateThenDelete | src/OrderManagement.Application/Services/PedidoService.cs:117-240 | deleting an order just created gives back exactly the store before the create |
| OrderWorkflow.UpdateKeepsOwner | src/OrderManagement.Application/Services/PedidoService.cs:197-198 | the update ignores `dto.ClienteId`: the order keeps its customer |
| OrderWorkflow.UpdateWithSameLinesKeepsStock | src/OrderManagement.Application/Services/PedidoService.cs:163-198 | updating an order to its own lines, all products present, leaves every stock level unchanged |
| OrderWorkflow.UpdateChecksStock | src/OrderManagement.Application/Services/PedidoService.cs:163-198 | once the old lines are given back, a non-empty update succeeds iff every requested product exists with enough restored stock; otherwise it fails with "not found" for a missing product or "insufficient stock", the latter whenever all products exist |
| OrderWorkflow.DeleteRestoresStock | src/OrderManagement.Application/Services/PedidoService.cs:222-240 | a delete succeeds, adds each line's quantity back to its product, removes only that order |
| PedidoServices.ValidateStock | src/OrderManagement.Application/Services/PedidoService.cs:90-108 | the validation loop computes exactly `CheckStock` |
| PedidoServices.PedidoService.constructor | src/OrderManagement.Application/Services/PedidoService.cs:16-21 | the service works on the given unit of work |
| PedidoServices.PedidoService.ReserveItem | src/OrderManagement.Application/Services/PedidoService.cs:119-126 | one pass of either reservation loop (create's, and update's at lines 177-194 with the explicit stock check): the pending products, the line built and the outcome are those `ReserveOne` gives; nothing else changes |
| PedidoServices.PedidoService.ReserveLines | src/OrderManagement.Application/Services/PedidoService.cs:117-195 | create's reservation loop (lines 117-127) and update's (lines 175-195) leave the products, lines and outcome `Reserve` specifies, everything else unchanged |
| PedidoServices.PedidoService.RestoreItem | src/OrderManagement.Application/Services/PedidoService.cs:165-170 | one loop pass: the pending products and the outcome are those `RestoreOne` gives; nothing else changes |
| PedidoServices.PedidoService.RestoreLines | src/OrderManagement.Application/Services/PedidoService.cs:163-238 | update's restoration loop (lines 163-171) and delete's (lines 230-238) leave the products and outcome `Restore` specifies |
| PedidoServices.PedidoService.CreateAsync | src/OrderManagement.Application/Services/PedidoService.cs:69-144 | an unknown customer or a failed validation fails before any transaction or change; otherwise it succeeds iff the save and commit do, with the database equal to `CreateEffect`, and any failure rolls the database back to where the transaction began (the contents before the call when none was open), Idle |
| PedidoServices.PedidoService.CreateInTransaction | src/OrderManagement.Application/Services/PedidoService.cs:110-143 | after validation: the transactional part, rolled back to the snapshot on any failure |
| PedidoServices.PedidoService.StageCreate | src/OrderManagement.Application/Services/PedidoService.cs:117-130 | the transaction body before the save: `CreateEffect`'s error, or its store pending with the new key returned |
| PedidoServices.PedidoService.Commit | src/OrderManagement.Application/Services/PedidoService.cs:131-141 | save then commit succeed iff the I/O does and the foreign keys hold; a failure rolls back once (the service's own second rollback is a no-op) |
| PedidoServices.PedidoService.UpdateAsync | src/OrderManagement.Application/Services/PedidoService.cs:146-211 | the error of `UpdateEffect` when it fails; otherwise success iff the I/O succeeds, with the database equal to the effect; any failure rolls the database back to where the transaction began (the contents before the call when none was open) |
| PedidoServices.PedidoService.StageUpdate | src/OrderManagement.Application/Services/PedidoService.cs:155-198 | the transaction body before the save: `UpdateEffect`'s error, or its store pending |
| PedidoServices.PedidoService.DeleteAsync | src/OrderManagement.Application/Services/PedidoService.cs:213-252 | the error of `DeleteEffect` when it fails; otherwise success iff the I/O succeeds, with the database equal to the effect; any failure rolls back |
| ClienteServices.LookupFindsStoredForm | src/OrderManagement.Infrastructure/Repositories/ClienteRepository.cs:14-19 | the corrected lookup key is exactly the email a customer created from that input would store |
| ClienteServices.LookupAgreesWithoutNewline | src/OrderManagement.Infrastructure/Repositories/ClienteRepository.cs:17 | without a trailing newline, the corrected and the as-written lookup keys coincide |
| ClienteServices.CreateCustomer | src/OrderManagement.Application/Services/ClienteService.cs:32-45 | a taken email is refused before entity validation; success iff the email is free and the customer is valid |
| ClienteServices.UpdateCustomer | src/OrderManagement.Application/Services/ClienteService.cs:47-66 | with the corrected lookup: unknown id is "not found"; an email held by a different customer is refused, one's own is allowed; success iff found, free and valid |
| ClienteServices.CreateKeepsEmailsDistinct | src/OrderManagement.Application/Services/ClienteService.cs:34-42 | a successful create keeps all stored emails pairwise distinct |
| ClienteServices.UpdateKeepsEmailsDistinct | src/OrderManagement.Application/Services/ClienteService.cs:55-61 | a successful update keeps all stored emails pairwise distinct |
| ClienteServices.CreateAsWrittenDuplicates | src/OrderManagement.Application/Services/ClienteService.cs:34-40 | as written, any stored email followed by "\n" passes the duplicate check and is stored as that same email |
| ClienteServices.AsWrittenBreaksDistinctEmails | src/OrderManagement.Application/Services/ClienteService.cs:34-42 | as written, that create leaves two customers with the same email |
| ClienteServices.DuplicateExample | src/OrderManagement.Application/Services/ClienteService.cs:34-40 | with "a@b.co" stored, the written check lets a customer with "a@b.co\n" through and stores it as "a@b.co"; the corrected check refuses it |
| ClienteServices.UpdateAsWrittenDuplicates | src/OrderManagement.Application/Services/ClienteService.cs:55-61 | as written, customer x updating to customer y's email followed by "\n" passes the check and stores y's email; the corrected `UpdateCustomer` refuses it as taken |
| ClienteServices.UpdateAsWrittenBreaksDistinctEmails | src/OrderManagement.Application/Services/ClienteService.cs:55-62 | as written, that update leaves two customers with the same email |
| ClienteServices.DeleteWithOrdersBreaksForeignKey | src/OrderManagement.Infrastructure/Persistence/Configurations/PedidoConfiguration.cs:29-32 | removing a customer who has orders breaks the restricting key, so that save is refused |
| ClienteServices.ClienteService.constructor | src/OrderManagement.Application/Services/ClienteService.cs:14-18 | the service works on the given unit of work |
| ClienteServices.ClienteService.CreateAsync | src/OrderManagement.Application/Services/ClienteService.cs:32-45 | a refused request changes nothing; otherwise the new customer is added under a new key, the save succeeds iff the database does, and distinct emails are kept |
| ClienteServices.ClienteService.StageCreate | src/OrderManagement.Application/Services/ClienteService.cs:34-41 | before the save: a refused request changes nothing; otherwise the customer `CreateCustomer` gives is pending under a new key, which is returned |
| ClienteServices.ClienteService.UpdateAsync | src/OrderManagement.Application/Services/ClienteService.cs:47-66 | a refused request changes nothing; otherwise exactly that customer is replaced, and distinct emails are kept |
| ClienteServices.ClienteService.StageUpdate | src/OrderManagement.Application/Services/ClienteService.cs:49-62 | before the save: the outcome of `UpdateCustomer`; a refusal changes nothing, a success makes exactly that customer's new state pending |
| ClienteServices.ClienteService.DeleteAsync | src/OrderManagement.Application/Services/ClienteService.cs:68-78 | an unknown id is "not found" and changes nothing; otherwise only that customer is removed, and the save is refused while orders refer to them |

## Findings

| source | as written | input that shows it | evidently intended | confidence | as-written member | corrected member |
|---|---|---|---|---|---|---|
| src/OrderManagement.Application/Services/ClienteService.cs:34-40 | the duplicate check looks up `dto.Email.ToLowerInvariant()` (ClienteRepository.cs:17), but `Email.Create` accepts a final "\n" (.NET `$`) and `Trim` removes it before storing | a customer with "a@b.co" is stored; `CreateAsync` with email "a@b.co\n" finds no match and stores a second "a@b.co" | look up the normalised value `Email.Create` would store, so stored emails stay distinct | not executed | ClienteServices.AsWrittenBreaksDistinctEmails | ClienteServices.CreateKeepsEmailsDistinct |
| src/OrderManagement.Domain/Entities/Produto.cs:52 | `Estoque += quantity` on `int` in an unchecked context wraps around | stock 2147483647, `IncreaseStock(1)` leaves stock -2147483648 | refuse (or fail) an increase past `int.MaxValue`, keeping stock non-negative | not executed | Produtos.IncreaseAsWrittenWraps | Produtos.StockOperationsKeepInvariant |
| src/OrderManagement.Application/Services/ClienteService.cs:55-61 | the update's duplicate check uses the same lookup, `dto.Email.ToLowerInvariant()`, and `Update` then trims the final "\n" away | customers x and y are stored; `UpdateAsync(x)` with y's email plus "\n" finds no other holder and gives x the email of y | look up the normalised value, so stored emails stay distinct | not executed | ClienteServices.UpdateAsWrittenBreaksDistinctEmails | ClienteServices.UpdateKeepsEmailsDistinct |

The rest of the model uses the corrected definitions:

- `ClienteServices.LookupKey` serves as the duplicate lookup. `ClienteServices.CreateAsWrittenDuplicates`, `UpdateAsWrittenDuplicates`, `LookupKeyAsWritten`, `CreateCustomerAsWritten` and `UpdateCustomerAsWritten` keep the code as written.
- `Produtos.StockIncreased` serves for the increase, failing with `Overflow`. `Produtos.StockIncreasedAsWritten` keeps the code as written.

## Left out

- HTTP layer: controllers, middleware and `Program.cs` are routing. Request validation (FluentValidation) is not modelled: positive quantities (`OrderWorkflow.AllPositive`) and non-empty item lists are lemma preconditions, not checks.
- Logging, DTO mapping (AutoMapper) and dependency injection: they compute nothing the core depends on.
- Asynchrony and cancellation tokens: calls are sequential. A cancellation or other repository fault in the middle of a loop leaves the database as a failed save does, so only faults at save and commit are parameters (`Io`, `saveOk`).
- `UnitOfWork.cs` is pure delegation to the context. The generic `Repository<T>` base class is not part of this model: its add, update and delete are the `DbContext` methods that change the tracked view.
- After a rollback the change tracker's entities are not modelled. The context is per request, so queries read the tracked view, which equals the database when a request starts.
- A rollback that itself fails is not modelled.
- Line ids assigned by the database: lines built by the services carry id 0. `Pedido.RemoveItem` is modelled over the ids the lines hold.
- `DateTime.UtcNow` is a `Stamp` parameter, and `UpdateTimestamp`/`UpdatedAt` are left out.
- Null strings and null lists: for `Email.Create` and the entity constructors, null is treated as blank or empty. `AddItem(null)` is modelled as `null`, `Equals(null)` as `None`.
- Aliasing of a list passed to `new Pedido` or `UpdateItems` is not modelled: the order keeps the same line objects, and later changes through another reference are not modelled.
- Unicode case mapping: `ToLowerInvariant` and `OrdinalIgnoreCase` are modelled over ASCII letters only. White space (`char.IsWhiteSpace`, `\s`) is the full .NET set.
- The .NET string hash is randomised per process. `Emails.StringHash` is a deterministic stand-in, so only "equal emails hash alike" is stated.
- Concurrency between requests: the code relies on database isolation.
- `ProdutoService.cs` is a pass-through to `Produto.Update`, which is modelled.
- `GetByEmailAsync`'s `FirstOrDefault` is modelled as "some other customer holds the key". That is the same condition whenever emails are distinct, which the corrected services keep.
- In the order services, product entities are values in the tracked map, not objects: an entity read twice in one request is the same map entry, which is what EF's identity map gives.
- The read-only `Get*` methods of both services are not part of this model.
- Produtos.Produto.IncreaseStock: fails with `Overflow` when the new stock would pass `int.MaxValue`, where the source (Produto.cs:52) wraps and stores a negative stock. The model follows the corrected increase (see Findings).
- OrderWorkflow.RestoreOne: returning a line's quantity to a product fails with `Overflow` past `int.MaxValue`, where the source (PedidoService.cs:168, 235) wraps.
- PedidoServices.PedidoService.UpdateAsync: a restore that would pass `int.MaxValue` fails with `Overflow` and rolls back, where the source (PedidoService.cs:165-169) saves the wrapped, negative stock.
- PedidoServices.PedidoService.DeleteAsync: likewise, a restore past `int.MaxValue` fails and rolls back, where the source (PedidoService.cs:235-243) saves the wrapped stock.
- ItensPedido.ItemPedido.Subtotal: money is unbounded `real`, so the `OverflowException` C# `decimal` throws past about ±7.9 × 10^28 (ItemPedido.cs:15) is not modelled.
- Pedidos.Total: likewise, a sum of subtotals past the `decimal` range (Pedido.cs:66) does not fail in the model.
- Persistence.DbContext.SaveChanges: the database keeps money exactly, but the `Preco`, `PrecoUnitario` and `Total` columns are `decimal(18, 2)` (ProdutoConfiguration.cs:24, ItemPedidoConfiguration.cs:29, PedidoConfiguration.cs:23), so the real database rounds them to two decimals. A price such as 0.001 passes validation and is stored as 0.00, which breaks the positive-price invariant `StoreValid` assumes. A later order on that product would then fail in `new ItemPedido` (PedidoService.cs:125, 193), which the model does not show.
