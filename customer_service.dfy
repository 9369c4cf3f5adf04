/**
 * The customer service of the music catalogue: creating and updating
 * customers with e-mail uniqueness, copying a record's fields onto a row,
 * replacing the support rep only when one is named, and the not-found rules
 * of delete, lookup and invoice count.
 */
module CustomerService {
  import opened Wrappers
  import opened ChinookDtos

  /** A customer row; `supportRep` is the id of the employee serving the customer. */
  datatype Customer = Customer(firstName: Option<string>, lastName: Option<string>, company: Option<string>,
                               address: Option<string>, city: Option<string>, state: Option<string>,
                               country: Option<string>, postalCode: Option<string>, phone: Option<string>,
                               fax: Option<string>, email: Option<string>, supportRep: Option<int>)

  /** A freshly built row, before any field is set. */
  const Blank := Customer(None, None, None, None, None, None, None, None, None, None, None, None)

  /**
   * updateCustomerFromDto: every scalar field takes the record's value,
   * nulls included; a named support rep replaces the old one and must exist
   * (a null id is refused by the repository), otherwise the old rep stays.
   */
  function ApplyDto(c: Customer, dto: CustomerDto, employees: set<int>): (r: Result<Customer, Exception>)
    ensures dto.supportRep.Some? && dto.supportRep.value.id.None? ==> r == Err(IllegalArgument)
    ensures dto.supportRep.Some? && dto.supportRep.value.id.Some? && dto.supportRep.value.id.value !in employees ==>
              r == Err(EntityNotFound)
    ensures r.Ok? <==> dto.supportRep.None? || (dto.supportRep.value.id.Some? && dto.supportRep.value.id.value in employees)
    ensures r.Ok? ==> r.value.firstName == dto.firstName && r.value.lastName == dto.lastName
                      && r.value.company == dto.company && r.value.address == dto.address
                      && r.value.city == dto.city && r.value.state == dto.state
                      && r.value.country == dto.country && r.value.postalCode == dto.postalCode
                      && r.value.phone == dto.phone && r.value.fax == dto.fax && r.value.email == dto.email
    ensures r.Ok? ==> r.value.supportRep == (if dto.supportRep.Some? then dto.supportRep.value.id else c.supportRep)
  {
    var copied := c.(firstName := dto.firstName, lastName := dto.lastName, company := dto.company,
                     address := dto.address, city := dto.city, state := dto.state, country := dto.country,
                     postalCode := dto.postalCode, phone := dto.phone, fax := dto.fax, email := dto.email);
    match dto.supportRep
    case None => Ok(copied)
    case Some(rep) =>
      if rep.id.None? then Err(IllegalArgument)
      else if rep.id.value !in employees then Err(EntityNotFound)
      else Ok(copied.(supportRep := rep.id))
  }

  /** Copying the same record twice is copying it once: the second copy changes nothing. */
  lemma ApplyDtoIdempotent(c: Customer, dto: CustomerDto, employees: set<int>)
    requires ApplyDto(c, dto, employees).Ok?
    ensures ApplyDto(ApplyDto(c, dto, employees).value, dto, employees) == ApplyDto(c, dto, employees)
  {
  }

  /** Only the support rep of the old row survives a copy: two rows with the same rep end up equal. */
  lemma ApplyDtoForgetsOldFields(c1: Customer, c2: Customer, dto: CustomerDto, employees: set<int>)
    requires c1.supportRep == c2.supportRep
    ensures ApplyDto(c1, dto, employees) == ApplyDto(c2, dto, employees)
  {
  }

  /**
   * The customer table, the employees a support rep may be chosen from, and
   * the customer each invoice belongs to.
   */
  class CustomerStore {
    var customers: map<int, Customer>
    var employees: set<int>
    var invoiceOwners: map<int, int>
    var nextId: int

    ghost predicate Valid()
      reads this
    {
      forall k :: k in customers ==> k < nextId
    }

    /** No two customers share a non-null e-mail address. */
    predicate EmailsUnique()
      reads this
    {
      forall a, b :: a in customers && b in customers && a != b && customers[a].email.Some? ==>
        customers[a].email != customers[b].email
    }

    /**
     * `findByEmail(email)` finds a customer other than `except`. A null
     * e-mail is looked up as a null-valued column, so it matches the
     * customers without an e-mail.
     */
    predicate EmailHeld(email: Option<string>, except: Option<int>)
      reads this
    {
      exists k :: k in customers && customers[k].email == email && Some(k) != except
    }

    /** The invoices of customer `id`. */
    function Invoices(id: int): (s: set<int>)
      reads this
      ensures forall i :: i in s <==> i in invoiceOwners && invoiceOwners[i] == id
    {
      set i | i in invoiceOwners && invoiceOwners[i] == id
    }

    constructor(customers: map<int, Customer>, employees: set<int>, invoiceOwners: map<int, int>, nextId: int)
      requires forall k :: k in customers ==> k < nextId
      ensures Valid()
      ensures this.customers == customers && this.employees == employees
      ensures this.invoiceOwners == invoiceOwners && this.nextId == nextId
    {
      this.customers, this.employees, this.invoiceOwners, this.nextId := customers, employees, invoiceOwners, nextId;
    }

    /**
     * createCustomer: an e-mail some customer already has is an
     * IllegalArgumentException before the row is built; building it can then
     * fail on the support rep. Only a fully built row is saved.
     */
    method CreateCustomer(dto: CustomerDto) returns (r: Result<int, Exception>)
      requires Valid()
      modifies this
      ensures Valid() && employees == old(employees) && invoiceOwners == old(invoiceOwners)
      ensures old(EmailHeld(dto.email, None)) ==> r == Err(IllegalArgument) && customers == old(customers)
      ensures !old(EmailHeld(dto.email, None)) && ApplyDto(Blank, dto, employees).Err? ==>
                r == Err(ApplyDto(Blank, dto, employees).error) && customers == old(customers)
      ensures !old(EmailHeld(dto.email, None)) && ApplyDto(Blank, dto, employees).Ok? ==>
                r == Ok(old(nextId)) && old(nextId) !in old(customers)
                && customers == old(customers)[old(nextId) := ApplyDto(Blank, dto, employees).value]
      ensures old(EmailsUnique()) ==> EmailsUnique()
    {
      if exists k :: k in customers && customers[k].email == dto.email {
        return Err(IllegalArgument);
      }
      var built := ApplyDto(Blank, dto, employees);
      if built.Err? {
        return Err(built.error);
      }
      r := Ok(nextId);
      customers := customers[nextId := built.value];
      nextId := nextId + 1;
    }

    /**
     * updateCustomer: an unknown id is an EntityNotFoundException before any
     * e-mail check; an e-mail held by a different customer is an
     * IllegalArgumentException; then the record is copied onto the row. A
     * failure while copying rolls the whole update back.
     */
    method UpdateCustomer(id: int, dto: CustomerDto) returns (r: Result<Customer, Exception>)
      requires Valid()
      modifies this
      ensures Valid() && employees == old(employees) && invoiceOwners == old(invoiceOwners) && nextId == old(nextId)
      ensures id !in old(customers) ==> r == Err(EntityNotFound) && customers == old(customers)
      ensures id in old(customers) && old(EmailHeld(dto.email, Some(id))) ==>
                r == Err(IllegalArgument) && customers == old(customers)
      ensures id in old(customers) && !old(EmailHeld(dto.email, Some(id))) ==>
                r == ApplyDto(old(customers)[id], dto, employees)
                && customers == (if r.Ok? then old(customers)[id := r.value] else old(customers))
      ensures old(EmailsUnique()) ==> EmailsUnique()
    {
      if id !in customers {
        return Err(EntityNotFound);
      }
      if exists k :: k in customers && customers[k].email == dto.email && k != id {
        return Err(IllegalArgument);
      }
      r := ApplyDto(customers[id], dto, employees);
      if r.Ok? {
        customers := customers[id := r.value];
      }
    }

    /** deleteCustomer: an unknown id is an EntityNotFoundException; otherwise the row is removed. */
    method DeleteCustomer(id: int) returns (thrown: Option<Exception>)
      requires Valid()
      modifies this
      ensures Valid() && employees == old(employees) && invoiceOwners == old(invoiceOwners) && nextId == old(nextId)
      ensures id !in old(customers) ==> thrown == Some(EntityNotFound) && customers == old(customers)
      ensures id in old(customers) ==> thrown == None && customers == old(customers) - {id}
    {
      if id !in customers {
        return Some(EntityNotFound);
      }
      customers := customers - {id};
      thrown := None;
    }

    /** getCustomer: the row, or an EntityNotFoundException for an unknown id. */
    function GetCustomer(id: int): (r: Result<Customer, Exception>)
      reads this
      ensures r.Ok? <==> id in customers
      ensures r.Ok? ==> r.value == customers[id]
      ensures r.Err? ==> r.error == EntityNotFound
    {
      if id in customers then Ok(customers[id]) else Err(EntityNotFound)
    }

    /** getCustomerDetail: the row with its invoices, or an EntityNotFoundException. */
    function GetCustomerDetail(id: int): (r: Result<(Customer, set<int>), Exception>)
      reads this
      ensures r.Ok? <==> id in customers
      ensures r.Ok? ==> r.value.0 == customers[id]
                        && forall i :: i in r.value.1 <==> i in invoiceOwners && invoiceOwners[i] == id
      ensures r.Err? ==> r.error == EntityNotFound
    {
      if id in customers then Ok((customers[id], Invoices(id))) else Err(EntityNotFound)
    }

    /** getCustomerInvoiceCount: how many invoices the customer has; unknown ids are not found. */
    function GetCustomerInvoiceCount(id: int): (r: Result<nat, Exception>)
      reads this
      ensures r.Ok? <==> id in customers
      ensures r.Ok? ==> r.value == |Invoices(id)|
      ensures r.Err? ==> r.error == EntityNotFound
    {
      if id in customers then Ok(|Invoices(id)|) else Err(EntityNotFound)
    }
  }
}
