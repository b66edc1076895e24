/** `ClienteService`: creating, updating and deleting customers, with the
    check that no other customer already holds the email. */
module ClienteServices {
  import opened Errors
  import opened Text
  import opened Emails
  import opened Clientes
  import opened Persistence

  datatype CreateClienteDto = CreateClienteDto(nome: string, email: string, telefone: Option<string>)
  datatype UpdateClienteDto = UpdateClienteDto(nome: string, email: string, telefone: Option<string>)

  // ---------------------------------------------------------------------
  // The duplicate check.

  /** Some customer other than `self` holds `key`. */
  predicate EmailInUse(c: map<int, CustomerData>, key: string, self: Option<int>) {
    exists k :: k in c && c[k].email == key && self != Some(k)
  }

  /** `GetByEmailAsync` as written compares the stored addresses with the
      argument lowered, and nothing more. */
  function LookupKeyAsWritten(email: string): string {
    ToLower(email)
  }

  /** The address `GetByEmailAsync` should compare with: the one the entity
      would store, when the address is accepted at all. */
  function LookupKey(email: string): string {
    match Create(email)
    case Success(e) => e.value
    case Failure(_) => ToLower(email)
  }

  /** The corrected key is exactly the address a created or updated
      customer stores. */
  lemma {:induction false} LookupFindsStoredForm(nome: string, email: string, telefone: Option<string>)
    requires NewCustomer(nome, email, telefone).Success?
    ensures LookupKey(email) == NewCustomer(nome, email, telefone).value.email
  {
  }

  /** The two keys agree on every address without the trailing line break
      the pattern's `$` tolerates. */
  lemma {:induction false} LookupAgreesWithoutNewline(email: string)
    requires IsEmailShape(email)
    ensures LookupKey(email) == LookupKeyAsWritten(email)
  {
    assert RegexIsMatch(email);
    CreateNormalises(email);
  }

  /** `CreateAsync`'s decisions as written (lines 34-40): the duplicate
      check first, then the entity's own validation. */
  function CreateCustomerAsWritten(c: map<int, CustomerData>, dto: CreateClienteDto): Result<CustomerData> {
    if EmailInUse(c, LookupKeyAsWritten(dto.email), None) then Failure(InvalidOperation(EmailTaken))
    else NewCustomer(dto.nome, dto.email, dto.telefone)
  }

  /** The same decisions with the corrected lookup. */
  function CreateCustomer(c: map<int, CustomerData>, dto: CreateClienteDto): (r: Result<CustomerData>)
    ensures EmailInUse(c, LookupKey(dto.email), None) ==> r == Failure(InvalidOperation(EmailTaken))
    ensures r.Success? <==> !EmailInUse(c, LookupKey(dto.email), None) && NewCustomer(dto.nome, dto.email, dto.telefone).Success?
  {
    if EmailInUse(c, LookupKey(dto.email), None) then Failure(InvalidOperation(EmailTaken))
    else NewCustomer(dto.nome, dto.email, dto.telefone)
  }

  /** `UpdateAsync`'s decisions (lines 49-61), corrected likewise: an
      unknown customer, then another customer holding the address, then
      the entity's own validation. */
  function UpdateCustomer(c: map<int, CustomerData>, id: int, dto: UpdateClienteDto): (r: Result<CustomerData>)
    ensures id !in c ==> r == Failure(KeyNotFound(ClienteEntity, id))
    ensures id in c && EmailInUse(c, LookupKey(dto.email), Some(id)) ==> r == Failure(InvalidOperation(EmailTaken))
    ensures r.Success? <==>
      id in c && !EmailInUse(c, LookupKey(dto.email), Some(id)) && NewCustomer(dto.nome, dto.email, dto.telefone).Success?
  {
    if id !in c then Failure(KeyNotFound(ClienteEntity, id))
    else if EmailInUse(c, LookupKey(dto.email), Some(id)) then Failure(InvalidOperation(EmailTaken))
    else NewCustomer(dto.nome, dto.email, dto.telefone)
  }

  /** Creating a customer never gives two customers the same address. */
  lemma {:induction false} CreateKeepsEmailsDistinct(c: map<int, CustomerData>, dto: CreateClienteDto, id: int)
    requires DistinctEmails(c) && id !in c && CreateCustomer(c, dto).Success?
    ensures DistinctEmails(c[id := CreateCustomer(c, dto).value])
  {
    LookupFindsStoredForm(dto.nome, dto.email, dto.telefone);
  }

  /** Nor does updating one. */
  lemma {:induction false} UpdateKeepsEmailsDistinct(c: map<int, CustomerData>, id: int, dto: UpdateClienteDto)
    requires DistinctEmails(c) && UpdateCustomer(c, id, dto).Success?
    ensures DistinctEmails(c[id := UpdateCustomer(c, id, dto).value])
  {
    LookupFindsStoredForm(dto.nome, dto.email, dto.telefone);
  }

  /** As written, any stored address followed by a line break passes the
      duplicate check and creates a second customer with the same address. */
  lemma {:induction false} CreateAsWrittenDuplicates(c: map<int, CustomerData>, id: int, nome: string, telefone: Option<string>)
    requires forall k :: k in c ==> CustomerInvariant(c[k])
    requires id in c && !IsBlank(nome)
    ensures CreateCustomerAsWritten(c, CreateClienteDto(nome, c[id].email + "\n", telefone)).Success?
    ensures CreateCustomerAsWritten(c, CreateClienteDto(nome, c[id].email + "\n", telefone)).value.email == c[id].email
  {
    var t := c[id].email;
    CreateNormalises(t);
    assert IsEmailShape(t);
    NewlineTolerated(t);
    var key := LookupKeyAsWritten(t + "\n");
    assert key[|t|] == '\n';
    forall k | k in c
      ensures c[k].email != key
    {
      CreateNormalises(c[k].email);
      assert NoWhiteSpace(c[k].email);
      if |c[k].email| == |key| {
        assert c[k].email[|t|] != key[|t|];
      }
    }
  }

  /** So the written check cannot keep the addresses distinct. */
  lemma {:induction false} AsWrittenBreaksDistinctEmails(c: map<int, CustomerData>, id: int, newId: int, nome: string, telefone: Option<string>)
    requires forall k :: k in c ==> CustomerInvariant(c[k])
    requires id in c && newId !in c && !IsBlank(nome)
    ensures CreateCustomerAsWritten(c, CreateClienteDto(nome, c[id].email + "\n", telefone)).Success?
    ensures !DistinctEmails(c[newId := CreateCustomerAsWritten(c, CreateClienteDto(nome, c[id].email + "\n", telefone)).value])
  {
    CreateAsWrittenDuplicates(c, id, nome, telefone);
    var d := c[newId := CreateCustomerAsWritten(c, CreateClienteDto(nome, c[id].email + "\n", telefone)).value];
    assert id in d && newId in d && id != newId && d[id].email == d[newId].email;
  }

  /** "a@b.co" is stored as it is given. */
  lemma {:induction false} SampleIsNormalised(t: string)
    requires t == "a@b.co"
    ensures IsNormalisedEmail(t)
  {
    SampleIsShaped(t);
    CreateNormalises(t);
    SampleIsLower(t);
    assert Shaped(t) == t;
  }

  lemma {:induction false} SampleIsLower(t: string)
    requires t == "a@b.co"
    ensures ToLower(t) == t
  {
    assert forall i :: 0 <= i < |t| ==> LowerChar(t[i]) == t[i];
  }

  /** One concrete case of the written check: with "a@b.co" stored, a new
      customer with "a@b.co\n" passes it and is stored as "a@b.co" again,
      where the corrected check refuses it. */
  lemma {:induction false} DuplicateExample(c: map<int, CustomerData>, t: string)
    requires t == "a@b.co" && c == map[1 := CustomerData("Ana", t, None)]
    ensures CreateCustomerAsWritten(c, CreateClienteDto("Bia", t + "\n", None)) == Success(CustomerData("Bia", t, None))
    ensures CreateCustomer(c, CreateClienteDto("Bia", t + "\n", None)) == Failure(InvalidOperation(EmailTaken))
  {
    assert forall k :: k in c ==> CustomerInvariant(c[k]) by {
      SampleIsNormalised(t);
      assert !IsWhiteSpace("Ana"[0]);
    }
    assert !IsBlank("Bia") by {
      assert !IsWhiteSpace("Bia"[0]);
    }
    CreateAsWrittenDuplicates(c, 1, "Bia", None);
    LookupFindsStoredForm("Bia", t + "\n", None);
    assert c[1].email == LookupKey(t + "\n");
  }

  /** `UpdateAsync`'s decisions as written (lines 49-61): the same lookup
      as the creation path, so the same line break slips through. */
  function UpdateCustomerAsWritten(c: map<int, CustomerData>, id: int, dto: UpdateClienteDto): Result<CustomerData> {
    if id !in c then Failure(KeyNotFound(ClienteEntity, id))
    else if EmailInUse(c, LookupKeyAsWritten(dto.email), Some(id)) then Failure(InvalidOperation(EmailTaken))
    else NewCustomer(dto.nome, dto.email, dto.telefone)
  }

  /** As written, customer `x` can take customer `y`'s address followed by
      a line break; the corrected check refuses it. */
  lemma {:induction false} UpdateAsWrittenDuplicates(c: map<int, CustomerData>, x: int, y: int, nome: string, telefone: Option<string>)
    requires forall k :: k in c ==> CustomerInvariant(c[k])
    requires x in c && y in c && x != y && !IsBlank(nome)
    ensures UpdateCustomerAsWritten(c, x, UpdateClienteDto(nome, c[y].email + "\n", telefone)).Success?
    ensures UpdateCustomerAsWritten(c, x, UpdateClienteDto(nome, c[y].email + "\n", telefone)).value.email == c[y].email
    ensures UpdateCustomer(c, x, UpdateClienteDto(nome, c[y].email + "\n", telefone)) == Failure(InvalidOperation(EmailTaken))
  {
    var e := c[y].email + "\n";
    CreateAsWrittenDuplicates(c, y, nome, telefone);
    assert !EmailInUse(c, LookupKeyAsWritten(e), None);
    LookupFindsStoredForm(nome, e, telefone);
    assert c[y].email == LookupKey(e);
  }

  /** So the written update cannot keep the addresses distinct either. */
  lemma {:induction false} UpdateAsWrittenBreaksDistinctEmails(c: map<int, CustomerData>, x: int, y: int, nome: string, telefone: Option<string>)
    requires forall k :: k in c ==> CustomerInvariant(c[k])
    requires x in c && y in c && x != y && !IsBlank(nome)
    ensures UpdateCustomerAsWritten(c, x, UpdateClienteDto(nome, c[y].email + "\n", telefone)).Success?
    ensures !DistinctEmails(c[x := UpdateCustomerAsWritten(c, x, UpdateClienteDto(nome, c[y].email + "\n", telefone)).value])
  {
    UpdateAsWrittenDuplicates(c, x, y, nome, telefone);
    var d := c[x := UpdateCustomerAsWritten(c, x, UpdateClienteDto(nome, c[y].email + "\n", telefone)).value];
    assert x in d && y in d && x != y && d[x].email == d[y].email;
  }

  /** A customer with orders cannot be deleted: the removal breaks the
      restricting foreign key, so the save fails. */
  lemma {:induction false} DeleteWithOrdersBreaksForeignKey(s: Store, id: int, pedidoId: int)
    requires pedidoId in s.pedidos && s.pedidos[pedidoId].clienteId as int == id
    ensures !ForeignKeysHold(s.(clientes := s.clientes - {id}))
  {
  }

  class ClienteService {
    const unitOfWork: DbContext

    constructor (unitOfWork: DbContext)
      ensures this.unitOfWork == unitOfWork
    {
      this.unitOfWork := unitOfWork;
    }

    /** `CreateAsync`: a refused request changes nothing; otherwise the new
        customer is pending under the next key and the save decides. */
    method CreateAsync(dto: CreateClienteDto, saveOk: bool) returns (r: Result<int>)
      requires unitOfWork.Valid()
      modifies unitOfWork
      ensures unitOfWork.Valid()
      ensures old(DistinctEmails(unitOfWork.tracked.clientes)) ==> DistinctEmails(unitOfWork.tracked.clientes)
      ensures CreateCustomer(old(unitOfWork.tracked.clientes), dto).Failure? ==>
        r == Failure(CreateCustomer(old(unitOfWork.tracked.clientes), dto).error) && unchanged(unitOfWork)
      ensures CreateCustomer(old(unitOfWork.tracked.clientes), dto).Success? ==>
        unitOfWork.tracked == old(unitOfWork.tracked).(clientes :=
          old(unitOfWork.tracked.clientes)[old(unitOfWork.nextClienteId) := CreateCustomer(old(unitOfWork.tracked.clientes), dto).value])
        && (r.Success? <==> saveOk && ForeignKeysHold(unitOfWork.tracked))
        && (r.Success? ==> r.value == old(unitOfWork.nextClienteId) && unitOfWork.db == unitOfWork.tracked)
        && (r.Failure? ==> r.error == Storage && unitOfWork.db == old(unitOfWork.db))
      ensures unitOfWork.currentTransaction == old(unitOfWork.currentTransaction)
    {
      ghost var before := unitOfWork.tracked.clientes;
      r := StageCreate(dto);
      if r.Failure? {
        return;
      }
      assert DistinctEmails(before) ==> DistinctEmails(unitOfWork.tracked.clientes) by {
        if DistinctEmails(before) {
          CreateKeepsEmailsDistinct(before, dto, r.value);
        }
      }
      var saved := unitOfWork.SaveChanges(saveOk);
      if saved.Fail? {
        return Failure(saved.error);
      }
    }

    /** `CreateAsync` up to the save: a refused request changes nothing;
        otherwise the new customer is pending under the next key, which is
        returned. */
    method StageCreate(dto: CreateClienteDto) returns (r: Result<int>)
      requires unitOfWork.Valid()
      modifies unitOfWork`tracked, unitOfWork`nextClienteId
      ensures unitOfWork.Valid()
      ensures CreateCustomer(old(unitOfWork.tracked.clientes), dto).Failure? ==>
        r == Failure(CreateCustomer(old(unitOfWork.tracked.clientes), dto).error) && unchanged(unitOfWork)
      ensures CreateCustomer(old(unitOfWork.tracked.clientes), dto).Success? ==>
        r == Success(old(unitOfWork.nextClienteId)) && r.value !in old(unitOfWork.tracked.clientes)
        && unitOfWork.tracked == old(unitOfWork.tracked).(clientes :=
          old(unitOfWork.tracked.clientes)[r.value := CreateCustomer(old(unitOfWork.tracked.clientes), dto).value])
    {
      if EmailInUse(unitOfWork.tracked.clientes, LookupKey(dto.email), None) {
        return Failure(InvalidOperation(EmailTaken));
      }
      var created := Cliente.New(dto.nome, dto.email, dto.telefone);
      if created.Failure? {
        return Failure(created.error);
      }
      var id := unitOfWork.AddCliente(created.value.Data());
      return Success(id);
    }

    /** `UpdateAsync` up to the save: a refused request changes nothing;
        otherwise the customer's new state is pending. */
    method StageUpdate(id: int, dto: UpdateClienteDto) returns (o: Outcome)
      requires unitOfWork.Valid()
      modifies unitOfWork`tracked
      ensures unitOfWork.Valid()
      ensures o == OutcomeOf(UpdateCustomer(old(unitOfWork.tracked.clientes), id, dto))
      ensures o.Fail? ==> unitOfWork.tracked == old(unitOfWork.tracked)
      ensures o.Pass? ==>
        unitOfWork.tracked == old(unitOfWork.tracked).(clientes :=
          old(unitOfWork.tracked.clientes)[id := UpdateCustomer(old(unitOfWork.tracked.clientes), id, dto).value])
    {
      if id !in unitOfWork.tracked.clientes {
        return Fail(KeyNotFound(ClienteEntity, id));
      }
      if EmailInUse(unitOfWork.tracked.clientes, LookupKey(dto.email), Some(id)) {
        return Fail(InvalidOperation(EmailTaken));
      }
      var stored := unitOfWork.tracked.clientes[id];
      StoredCustomerRevalidates(stored);
      var cliente := new Cliente(stored.nome, stored.email, stored.telefone);
      o := cliente.Update(dto.nome, dto.email, dto.telefone);
      if o.Pass? {
        unitOfWork.SetCliente(id, cliente.Data());
      }
    }

    /** `UpdateAsync`: a refused request changes nothing; otherwise the
        customer's new state is pending and the save decides. */
    method UpdateAsync(id: int, dto: UpdateClienteDto, saveOk: bool) returns (o: Outcome)
      requires unitOfWork.Valid()
      modifies unitOfWork
      ensures unitOfWork.Valid()
      ensures old(DistinctEmails(unitOfWork.tracked.clientes)) ==> DistinctEmails(unitOfWork.tracked.clientes)
      ensures UpdateCustomer(old(unitOfWork.tracked.clientes), id, dto).Failure? ==>
        o == Fail(UpdateCustomer(old(unitOfWork.tracked.clientes), id, dto).error) && unchanged(unitOfWork)
      ensures UpdateCustomer(old(unitOfWork.tracked.clientes), id, dto).Success? ==>
        unitOfWork.tracked == old(unitOfWork.tracked).(clientes :=
          old(unitOfWork.tracked.clientes)[id := UpdateCustomer(old(unitOfWork.tracked.clientes), id, dto).value])
        && (o.Pass? <==> saveOk && ForeignKeysHold(unitOfWork.tracked))
        && (o.Pass? ==> unitOfWork.db == unitOfWork.tracked)
        && (o.Fail? ==> o.error == Storage && unitOfWork.db == old(unitOfWork.db))
      ensures unitOfWork.currentTransaction == old(unitOfWork.currentTransaction)
    {
      ghost var before := unitOfWork.tracked.clientes;
      o := StageUpdate(id, dto);
      if o.Fail? {
        return;
      }
      assert DistinctEmails(before) ==> DistinctEmails(unitOfWork.tracked.clientes) by {
        if DistinctEmails(before) {
          UpdateKeepsEmailsDistinct(before, id, dto);
        }
      }
      o := unitOfWork.SaveChanges(saveOk);
    }

    /** `DeleteAsync`: an unknown customer is refused; otherwise the removal
        is pending and the save decides, failing while orders refer to the
        customer. */
    method DeleteAsync(id: int, saveOk: bool) returns (o: Outcome)
      requires unitOfWork.Valid()
      modifies unitOfWork
      ensures unitOfWork.Valid()
      ensures old(DistinctEmails(unitOfWork.tracked.clientes)) ==> DistinctEmails(unitOfWork.tracked.clientes)
      ensures id !in old(unitOfWork.tracked.clientes) ==>
        o == Fail(KeyNotFound(ClienteEntity, id)) && unchanged(unitOfWork)
      ensures id in old(unitOfWork.tracked.clientes) ==>
        unitOfWork.tracked == old(unitOfWork.tracked).(clientes := old(unitOfWork.tracked.clientes) - {id})
        && (o.Pass? <==> saveOk && ForeignKeysHold(unitOfWork.tracked))
        && (o.Pass? ==> unitOfWork.db == unitOfWork.tracked)
        && (o.Fail? ==> o.error == Storage && unitOfWork.db == old(unitOfWork.db))
      ensures unitOfWork.currentTransaction == old(unitOfWork.currentTransaction)
    {
      if id !in unitOfWork.tracked.clientes {
        return Fail(KeyNotFound(ClienteEntity, id));
      }
      unitOfWork.RemoveCliente(id);
      o := unitOfWork.SaveChanges(saveOk);
    }
  }
}
