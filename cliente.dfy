/** The `Cliente` entity: a name, a normalised email and an optional phone
    number, validated on creation and on every update. */
module Clientes {
  import opened Errors
  import opened Text
  import opened Emails

  /** The state of a customer, as the database stores it. */
  datatype CustomerData = CustomerData(nome: string, email: string, telefone: Option<string>)

  /** An email as `Email.Create` leaves it: accepted again, and unchanged. */
  predicate IsNormalisedEmail(e: string) {
    Create(e) == Success(Email(e))
  }

  /** What creation and every update establish. */
  predicate CustomerInvariant(c: CustomerData) {
    !IsBlank(c.nome) && IsNormalisedEmail(c.email)
  }

  /** The constructor and `Update`: a blank name first, then a blank email,
      then whatever `Email.Create` rejects; otherwise the name and phone as
      given and the normalised email. */
  function NewCustomer(nome: string, email: string, telefone: Option<string>): (r: Result<CustomerData>)
    ensures IsBlank(nome) ==> r == Failure(Argument(CustomerNameRequired))
    ensures !IsBlank(nome) && IsBlank(email) ==> r == Failure(Argument(EmailRequired))
    ensures !IsBlank(nome) && !IsBlank(email) && !RegexIsMatch(email) ==> r == Failure(Argument(EmailMalformed))
    ensures r.Success? <==> !IsBlank(nome) && RegexIsMatch(email)
    ensures r.Success? ==> r.value.nome == nome && r.value.telefone == telefone
    ensures r.Success? ==> r.value.email == Create(email).value.value
    ensures r.Success? ==> CustomerInvariant(r.value) && IsLower(r.value.email)
  {
    if IsBlank(nome) then Failure(Argument(CustomerNameRequired))
    else if IsBlank(email) then Failure(Argument(EmailRequired))
    else
      match Create(email)
      case Failure(e) => Failure(e)
      case Success(vo) =>
        CreateIdempotent(email);
        CreateNormalises(email);
        Success(CustomerData(nome, vo.value, telefone))
  }

  /** A customer created from an accepted address differing only in letter
      case, or by a trailing newline, stores the same email. */
  lemma {:induction false} NewCustomerNormalises(nome: string, email: string, telefone: Option<string>)
    requires NewCustomer(nome, email, telefone).Success?
    ensures NewCustomer(nome, email, telefone).value.email == ToLower(Shaped(email))
    ensures NewCustomer(nome, ToLower(email), telefone) == NewCustomer(nome, email, telefone)
  {
    CreateNormalises(email);
    CreateIgnoresCase(email);
  }


  /** Validating a stored customer's own fields again accepts them and
      gives the same customer back. */
  lemma {:induction false} StoredCustomerRevalidates(c: CustomerData)
    requires CustomerInvariant(c)
    ensures NewCustomer(c.nome, c.email, c.telefone) == Success(c)
  {
    assert RegexIsMatch(c.email);
  }

  class Cliente {
    var nome: string
    var email: string
    var telefone: Option<string>

    /** The fields as one value. */
    function Data(): CustomerData
      reads this
    {
      CustomerData(nome, email, telefone)
    }

    ghost predicate Valid()
      reads this
    {
      CustomerInvariant(Data())
    }

    /** `Cliente(nome, email, telefone)` for arguments that pass its guards. */
    constructor (nome: string, email: string, telefone: Option<string>)
      requires NewCustomer(nome, email, telefone).Success?
      ensures Data() == NewCustomer(nome, email, telefone).value
      ensures Valid()
    {
      var vo := Create(email);
      this.nome := nome;
      this.email := vo.value.value;
      this.telefone := telefone;
    }

    /** The constructor, with its exception returned as a failure. */
    static method New(nome: string, email: string, telefone: Option<string>)
      returns (r: Result<Cliente>)
      ensures r.Success? <==> NewCustomer(nome, email, telefone).Success?
      ensures r.Success? ==> fresh(r.value) && r.value.Valid()
      ensures r.Success? ==> r.value.Data() == NewCustomer(nome, email, telefone).value
      ensures r.Failure? ==> r.error == NewCustomer(nome, email, telefone).error
    {
      var v := NewCustomer(nome, email, telefone);
      if v.Failure? {
        return Failure(v.error);
      }
      var c := new Cliente(nome, email, telefone);
      return Success(c);
    }

    /** `Update`: validates first, so a failure leaves every field as it was;
        a success replaces all three, the email normalised. */
    method Update(nome: string, email: string, telefone: Option<string>) returns (o: Outcome)
      modifies this
      ensures o == OutcomeOf(NewCustomer(nome, email, telefone))
      ensures Data() == ValueOr(NewCustomer(nome, email, telefone), old(Data()))
      ensures old(Valid()) ==> Valid()
    {
      if IsBlank(nome) {
        return Fail(Argument(CustomerNameRequired));
      }
      if IsBlank(email) {
        return Fail(Argument(EmailRequired));
      }
      var vo := Create(email);
      if vo.Failure? {
        return Fail(vo.error);
      }
      this.nome := nome;
      this.email := vo.value.value;
      this.telefone := telefone;
      return Pass;
    }
  }
}
