/**
 * The Spring Data repositories as in-memory tables: a map from id to row, and the next
 * id the database will generate. `findById` is a map read, `save` of a new entity is
 * `Insert`, `save` of a loaded entity is a map update and `delete` a map removal.
 */
module Repositories {
  import opened Common
  import opened Entities

  class ProductRepository {
    var rows: map<Id, Product>
    var nextId: Id

    /** Every stored id was generated before `nextId`. */
    ghost predicate Valid()
      reads this
    {
      forall id :: id in rows ==> id < nextId
    }

    constructor ()
      ensures Valid() && rows == map[] && nextId == 1
    {
      rows := map[];
      nextId := 1;
    }

    method Insert(p: Product) returns (id: Id)
      requires Valid()
      modifies this
      ensures Valid()
      ensures id !in old(rows) && rows == old(rows)[id := p]
      ensures nextId == id + 1
    {
      id := nextId;
      rows := rows[id := p];
      nextId := nextId + 1;
    }
  }

  class CustomerRepository {
    var rows: map<Id, Customer>
    var nextId: Id

    ghost predicate Valid()
      reads this
    {
      forall id :: id in rows ==> id < nextId
    }

    constructor ()
      ensures Valid() && rows == map[] && nextId == 1
    {
      rows := map[];
      nextId := 1;
    }

    method Insert(c: Customer) returns (id: Id)
      requires Valid()
      modifies this
      ensures Valid()
      ensures id !in old(rows) && rows == old(rows)[id := c]
      ensures nextId == id + 1
    {
      id := nextId;
      rows := rows[id := c];
      nextId := nextId + 1;
    }
  }

  class OrderRepository {
    var rows: map<Id, Order>
    var nextId: Id

    ghost predicate Valid()
      reads this
    {
      forall id :: id in rows ==> id < nextId
    }

    constructor ()
      ensures Valid() && rows == map[] && nextId == 1
    {
      rows := map[];
      nextId := 1;
    }

    method Insert(o: Order) returns (id: Id)
      requires Valid()
      modifies this
      ensures Valid()
      ensures id !in old(rows) && rows == old(rows)[id := o]
      ensures nextId == id + 1
    {
      id := nextId;
      rows := rows[id := o];
      nextId := nextId + 1;
    }
  }
}
