/**
 * `CustomerService`: registration with the email-uniqueness check, profile updates,
 * deletion, a customer's orders, and the entity-to-DTO copy. The password encoder is an
 * opaque function supplied to the service.
 */
module Customers {
  import opened Common
  import opened Entities
  import opened Repositories

  /** `AuthDto.RegisterRequest`. */
  datatype RegisterRequest = RegisterRequest(
    firstName: string,
    lastName: string,
    email: string,
    password: string,
    phoneNumber: string,
    address: string)

  /** `CustomerDto`: the customer without the password. */
  datatype CustomerDto = CustomerDto(
    id: Option<Id>,
    firstName: string,
    lastName: string,
    email: string,
    phoneNumber: string,
    address: string,
    role: Option<Role>)

  /** No two customers share an email. */
  ghost predicate UniqueEmails(rows: map<Id, Customer>)
  {
    forall a, b :: a in rows && b in rows && a != b ==> rows[a].email != rows[b].email
  }

  /** `existsByEmail`. */
  predicate EmailInUse(rows: map<Id, Customer>, email: string)
  {
    exists id :: id in rows && rows[id].email == email
  }

  /** The customer `registerCustomer` builds: copied fields, encoded password, role USER. */
  function NewCustomer(req: RegisterRequest, encode: string -> string): (r: Customer)
  {
    Customer(req.firstName, req.lastName, req.email, encode(req.password), req.phoneNumber, req.address, User)
  }

  /** The five setter calls of `updateCustomer`; role and password are kept. */
  function Updated(c: Customer, dto: CustomerDto): (r: Customer)
  {
    c.(firstName := dto.firstName, lastName := dto.lastName, email := dto.email,
       phoneNumber := dto.phoneNumber, address := dto.address)
  }

  /** `convertToDto`: the id, the five profile fields and the role; the password is not copied. */
  function ToDto(id: Id, c: Customer): (r: CustomerDto)
    ensures r.id == Some(id) && r.role == Some(c.role)
    ensures r.firstName == c.firstName && r.lastName == c.lastName && r.email == c.email
    ensures r.phoneNumber == c.phoneNumber && r.address == c.address
  {
    CustomerDto(Some(id), c.firstName, c.lastName, c.email, c.phoneNumber, c.address, Some(c.role))
  }

  /** The DTO does not depend on the stored password. */
  lemma ToDtoHidesPassword(id: Id, c: Customer, password: string)
    ensures ToDto(id, c.(password := password)) == ToDto(id, c)
  {
  }

  /** Updating a customer from its own DTO changes nothing. */
  lemma UpdateFromOwnDto(id: Id, c: Customer)
    ensures Updated(c, ToDto(id, c)) == c
  {
  }

  /**
   * `updateCustomer` does not check the new email against the other customers, so it
   * can break email uniqueness.
   */
  lemma UpdateCanDuplicateEmail()
    ensures var alice := Customer("A", "A", "a@x", "h1", "", "", User);
            var bob := Customer("B", "B", "b@x", "h2", "", "", User);
            var rows := map[1 := alice, 2 := bob];
            var dto := CustomerDto(None, "B", "B", "a@x", "", "", None);
            UniqueEmails(rows) && !UniqueEmails(rows[2 := Updated(rows[2], dto)])
  {
    var alice := Customer("A", "A", "a@x", "h1", "", "", User);
    var bob := Customer("B", "B", "b@x", "h2", "", "", User);
    var rows := map[1 := alice, 2 := bob];
    var dto := CustomerDto(None, "B", "B", "a@x", "", "", None);
    assert "a@x" != "b@x" by { assert "a@x"[0] != "b@x"[0]; }
    var after := rows[2 := Updated(rows[2], dto)];
    assert after[1].email == after[2].email;
  }

  class CustomerService {
    const customers: CustomerRepository
    const orders: OrderRepository
    const encode: string -> string

    constructor (customers: CustomerRepository, orders: OrderRepository, encode: string -> string)
      ensures this.customers == customers && this.orders == orders && this.encode == encode
    {
      this.customers := customers;
      this.orders := orders;
      this.encode := encode;
    }

    /**
     * `registerCustomer`: a taken email fails and changes nothing; otherwise a USER with
     * the request's fields and the encoded password is added. Uniqueness is kept.
     */
    method RegisterCustomer(req: RegisterRequest) returns (r: Result<Id>)
      requires customers.Valid()
      modifies customers
      ensures customers.Valid()
      ensures r.Err? <==> EmailInUse(old(customers.rows), req.email)
      ensures r.Err? ==> r.error == DuplicateEmail && unchanged(customers)
      ensures r.Ok? ==> r.value !in old(customers.rows)
                        && customers.rows == old(customers.rows)[r.value := NewCustomer(req, encode)]
      ensures r.Ok? ==> customers.rows[r.value].role == User
                        && customers.rows[r.value].password == encode(req.password)
      ensures old(UniqueEmails(customers.rows)) ==> UniqueEmails(customers.rows)
    {
      if EmailInUse(customers.rows, req.email) {
        return Err(DuplicateEmail);
      }
      var id := customers.Insert(NewCustomer(req, encode));
      r := Ok(id);
    }

    /**
     * `updateCustomer`: a missing id fails; otherwise names, email, phone and address are
     * overwritten and role and password kept. The new email is not checked.
     */
    method UpdateCustomer(id: Id, dto: CustomerDto) returns (r: Result<Customer>)
      requires customers.Valid()
      modifies customers
      ensures customers.Valid()
      ensures r.Err? <==> id !in old(customers.rows)
      ensures r.Err? ==> r.error == NotFound(CustomerEntity, id) && unchanged(customers)
      ensures r.Ok? ==> r.value == Updated(old(customers.rows[id]), dto)
                        && customers.rows == old(customers.rows)[id := r.value]
      ensures r.Ok? ==> r.value.role == old(customers.rows[id].role)
                        && r.value.password == old(customers.rows[id].password)
      ensures customers.nextId == old(customers.nextId)
    {
      if id !in customers.rows {
        return Err(NotFound(CustomerEntity, id));
      }
      var customer := Updated(customers.rows[id], dto);
      customers.rows := customers.rows[id := customer];
      r := Ok(customer);
    }

    /** `deleteCustomer`: a missing id fails; otherwise exactly that customer is removed. */
    method DeleteCustomer(id: Id) returns (r: Result<()>)
      requires customers.Valid()
      modifies customers
      ensures customers.Valid()
      ensures r.Err? <==> id !in old(customers.rows)
      ensures r.Err? ==> r.error == NotFound(CustomerEntity, id) && unchanged(customers)
      ensures r.Ok? ==> customers.rows == old(customers.rows) - {id}
      ensures customers.nextId == old(customers.nextId)
      ensures old(UniqueEmails(customers.rows)) ==> UniqueEmails(customers.rows)
    {
      if id !in customers.rows {
        return Err(NotFound(CustomerEntity, id));
      }
      customers.rows := customers.rows - {id};
      r := Ok(());
    }

    /** `getCustomerOrders`: a missing id fails; otherwise the orders placed by that customer. */
    function GetCustomerOrders(id: Id): (r: Result<map<Id, Order>>)
      reads customers, orders
      ensures r.Err? <==> id !in customers.rows
      ensures r.Err? ==> r.error == NotFound(CustomerEntity, id)
      ensures r.Ok? ==> forall oid :: oid in r.value <==> oid in orders.rows && orders.rows[oid].customerId == id
      ensures r.Ok? ==> forall oid :: oid in r.value ==> r.value[oid] == orders.rows[oid]
    {
      if id !in customers.rows then Err(NotFound(CustomerEntity, id))
      else Ok(OrdersOf(orders.rows, id))
    }
  }
}
