# Order core of a Spring e-commerce backend, in Dafny

This project models the order core of a Spring Boot e-commerce backend and proves
properties of that model. The core turns a list of (product id, quantity) requests into
an order while reserving stock. It can later change the order's status, or cancel it and
return the stock. Around it sit the parts the core needs: the `OrderItem` entity, the
order transfer object of the `com.saif` API, and the product and customer services.

Each service call is one sequential, atomic step over three in-memory tables: products,
customers and orders. These are the Spring Data repositories, modelled as a map from id
to row plus a counter for generated ids (`Repositories`). Money is integer cents. The
`OrderItem` columns for unit price and subtotal have scale 2, so cents are exact there.
Other amounts in the source are `BigDecimal`s without a scale limit; see "## Left out".

Modules, one per source file or component:

- `Common`: ids, money, `Option`, `Result`, and the error kinds the services throw.
- `Entities`: the persisted `Product`, `Customer`, `Order` and `LineItem`, the order invariant `WellFormed` and the order filters.
- `Repositories`: the three tables.
- `OrderItems`: the `OrderItem` entity as a class, with its setters and its subtotal hook.
- `Reservation`: what order creation and cancellation do to the catalog, as functions of the catalog before the call, with the lemmas about them.
- `Orders`: `OrderService` as a class over the repositories.
- `OrderDtos`: the `com.saif` `OrderDto` and its `OrderItemDto`.
- `Products`: `ProductService`, sort direction and DTO conversion.
- `Customers`: `CustomerService`.
- `StatusNames`: reading a status from its name, as the admin endpoint does before it calls `updateOrderStatus`.

`createOrder` is a loop that writes each stock decrement before it looks up the next
line. A product named twice is therefore checked the second time against the stock
the first line left. `Reservation` states this with prefix sums: line k is judged on the
stock minus what lines 0..k-1 took from the same product. The class-level
`@Transactional` rolls back everything when a line fails. The model reproduces that by
working on a copy of the catalog and committing it only after the last line passes.

Behaviour of the code worth knowing:

- `cancelOrder` rejects only DELIVERED orders. An order that is already CANCELLED is cancelled again and its stock is returned a second time (`CancelTwiceRestoresTwice`).
- `updateOrderStatus` sets any status from any status. There is no transition table.
- The insufficient-stock error carries only the product name, not the requested and available quantities.
- An order item keeps a live reference to its product. Only the unit price is a snapshot.
- `OrderItem.setSubtotal` can set a subtotal that disagrees with unit price × quantity. The next persist/update hook recomputes it (`SetSubtotalThenPersist`).

## Model

| member | source | states |
|---|---|---|
| `Orders.OrderService.CreateOrder` | src/main/java/com/ecommerce/service/OrderService.java:52-88 | An unknown customer fails with NotFound. The call succeeds iff the customer exists and every line passes its product-exists and stock check, with each line judged on the stock left by the earlier lines. On a failure, nothing changes and the error is the first failing line's. On success, each product loses exactly the units requested for it. One PENDING order is added, with one item per line in request order, priced at the product's price, and with total = sum of subtotals. Orders stay well formed, and non-negative stock stays non-negative. Only product rows change: the product table keeps its set of ids and its id counter, so it stays valid |
| `Orders.OrderService.UpdateOrderStatus` | src/main/java/com/ecommerce/service/OrderService.java:90-96 | Fails with NotFound iff the id is unknown, and then changes nothing. Otherwise it sets the status to the given value whatever it was, and leaves items, total, the other orders and all stock unchanged |
| `Orders.OrderService.CancelOrder` | src/main/java/com/ecommerce/service/OrderService.java:98-115 | An unknown id fails with NotFound, and a DELIVERED order fails with NotCancellable. Both change nothing. Any other order, a CANCELLED one included, gives each item's quantity back to its product and becomes CANCELLED. Nothing else changes: the product table keeps its set of ids and its id counter. Non-negative stock stays non-negative |
| `Orders.OrderService.CreateThenCancel` | src/main/java/com/ecommerce/service/OrderService.java:62-114 | Creating an order and then cancelling it leaves every product's stock as it was before the order |
| `Orders.OrderService.GetOrdersByCustomerId` | src/main/java/com/ecommerce/service/OrderService.java:43-46 | Returns exactly the stored orders whose customer is the given one, unchanged |
| `Orders.OrderService.GetOrdersByStatus` | src/main/java/com/ecommerce/service/OrderService.java:48-50 | Returns exactly the stored orders in the given status, unchanged |
| `Entities.OrdersOf` | src/main/java/com/ecommerce/service/OrderService.java:45 | An id is in the result iff the order exists and belongs to the customer |
| `Entities.OrdersWithStatus` | src/main/java/com/ecommerce/service/OrderService.java:49 | An id is in the result iff the order exists and has the status |
| `Entities.TotalAppend` | src/main/java/com/ecommerce/service/OrderService.java:76-77 | Appending an item to the running list adds exactly its subtotal to the total |
| `Reservation.NoOversell` | src/main/java/com/ecommerce/service/OrderService.java:62-82 | If every line passes its stock check against the stock left by the earlier lines, no product's stock ends negative |
| `Reservation.UnrequestedUnchanged` | src/main/java/com/ecommerce/service/OrderService.java:62-82 | A product that no line names keeps its record, stock included |
| `Reservation.FeasibleNamesKnownProducts` | src/main/java/com/ecommerce/service/OrderService.java:63-64 | An order that passes every check names only products of the catalog |
| `Reservation.CancelUndoesCreate` | src/main/java/com/ecommerce/service/OrderService.java:106-111 | Returning the items of the order created from a request puts the catalog back exactly as it was before the order |
| `Reservation.CancelTwiceRestoresTwice` | src/main/java/com/ecommerce/service/OrderService.java:102-113 | Cancelling the same order twice leaves each product with its original stock plus the units the order took, because nothing guards against a second cancellation |
| `Reservation.UnitOrdersNeverOversell` | src/main/java/com/ecommerce/service/OrderService.java:66-80 | n one-unit orders, placed one after another against stock S, give exactly min(n, S) successes and leave S - min(n, S) |
| `Reservation.Scenario` | src/main/java/com/ecommerce/service/OrderService.java:59-113 | Stock 10 at 9.99: ordering 3 costs 29.97 and leaves 7, cancelling restores 10, and cancelling again gives 13 |
| `Reservation.NonPositiveQuantityRaisesStock` | src/main/java/com/ecommerce/service/OrderService.java:66-80 | A line asking for 0 units or fewer passes the stock check whenever the stock is not negative, and processing it raises the stock by the absolute quantity |
| `Reservation.NegativeQuantityExample` | src/main/java/com/ecommerce/service/OrderService.java:66-80 | With stock 3, a request for -5 units passes and leaves stock 8 |
| `Reservation.RemainingStep` | src/main/java/com/ecommerce/service/OrderService.java:80 | Processing a line subtracts its quantity from its product, on top of the earlier lines |
| `Reservation.LineFailureOnRemaining` | src/main/java/com/ecommerce/service/OrderService.java:63-68 | A line is refused for a missing product or for stock below its quantity, judged on the catalog the earlier lines left |
| `OrderItems.OrderItem.Init` | src/main/java/com/ecommerce/model/OrderItem.java:38 | `new OrderItem()` leaves every field null |
| `OrderItems.OrderItem.constructor` | src/main/java/com/ecommerce/model/OrderItem.java:40-46 | Stores order, product, quantity and unit price, and sets subtotal = unitPrice × quantity. With quantity ≥ 1 and unit price > 0, the item meets its validation constraints |
| `OrderItems.OrderItem.CalculateSubtotal` | src/main/java/com/ecommerce/model/OrderItem.java:48-54 | With both factors present, subtotal becomes unitPrice × quantity. If either is null, subtotal is unchanged |
| `OrderItems.OrderItem.SetQuantity` | src/main/java/com/ecommerce/model/OrderItem.java:67-70 | Stores the quantity and recomputes subtotal from the current unit price when both are present. Otherwise subtotal is unchanged |
| `OrderItems.OrderItem.SetUnitPrice` | src/main/java/com/ecommerce/model/OrderItem.java:73-76 | Stores the unit price and recomputes subtotal from the current quantity when both are present. Otherwise subtotal is unchanged |
| `OrderItems.OrderItem.SetSubtotal` | src/main/java/com/ecommerce/model/OrderItem.java:79 | Stores the subtotal as given, whatever the factors are |
| `OrderItems.OrderItem.SetId` | src/main/java/com/ecommerce/model/OrderItem.java:58 | Sets the id and leaves quantity, unit price and subtotal unchanged |
| `OrderItems.OrderItem.SetOrder` | src/main/java/com/ecommerce/model/OrderItem.java:61 | Sets the order and leaves quantity, unit price and subtotal unchanged |
| `OrderItems.OrderItem.SetProduct` | src/main/java/com/ecommerce/model/OrderItem.java:64 | Sets the product and leaves quantity, unit price and subtotal unchanged |
| `OrderItems.PositiveProduct` | src/main/java/com/ecommerce/model/OrderItem.java:23-36 | A unit price > 0 and a quantity ≥ 1 give a subtotal > 0, so a consistent item with valid factors has a valid subtotal |
| `OrderItems.SetSubtotalThenPersist` | src/main/java/com/ecommerce/model/OrderItem.java:48-54 | After `setSubtotal` the subtotal can differ from unitPrice × quantity. The persist/update hook sets it back to unitPrice × quantity |
| `OrderDtos.RequestItem` | src/main/java/com/saif/ecommerce/dto/OrderDto.java:75-78 | The request constructor sets product id and quantity. Name, unit price and subtotal stay null |
| `OrderDtos.SubtotalSum` | src/main/java/com/saif/ecommerce/dto/OrderDto.java:215-217 | The fold gives a value iff every item's subtotal is non-null. With non-negative subtotals, the sum is non-negative |
| `OrderDtos.SubtotalSumAppend` | src/main/java/com/saif/ecommerce/dto/OrderDto.java:209-217 | After appending an item, the fold gives the old sum plus that item's subtotal. It gives null if either is null |
| `OrderDtos.RequestItemsHaveNoTotal` | src/main/java/com/saif/ecommerce/dto/OrderDto.java:75-78 | A non-empty list built with the request constructor has no computable total |
| `OrderDtos.PricedItemsHaveTotal` | src/main/java/com/saif/ecommerce/dto/OrderDto.java:56-67 | Items that meet their constraints (product id present, quantity ≥ 1, unit price > 0) and whose subtotal is unit price × quantity always have a total, and a positive one when there is at least one |
| `OrderDtos.OrderDto.constructor` | src/main/java/com/saif/ecommerce/dto/OrderDto.java:28-31 | The default constructor gives an empty item list and null fields |
| `OrderDtos.OrderDto.ForCreation` | src/main/java/com/saif/ecommerce/dto/OrderDto.java:46-51 | The creation constructor sets the customer id, the given item list, status "PENDING" and total 0, so the object meets its validation constraints |
| `OrderDtos.OrderDto.AddOrderItem` | src/main/java/com/saif/ecommerce/dto/OrderDto.java:209-211 | Appends at the end and grows the list by one. Earlier items are unchanged, and the total is not touched |
| `OrderDtos.OrderDto.CalculateTotalAmount` | src/main/java/com/saif/ecommerce/dto/OrderDto.java:214-218 | Succeeds iff every subtotal is non-null, and then sets the total to the sum of the subtotals (0 for no items). A null subtotal fails and leaves the total unchanged. The item list is never changed, so a second call gives the same state. When every item is valid and priced, the call succeeds, and a DTO with a status then meets its constraints |
| `Products.ProductService.CreateProduct` | src/main/java/com/ecommerce/service/ProductService.java:73-82 | Adds under a fresh id a product whose five fields are the DTO's. `convertToDto` of it gives those fields back. A valid DTO keeps all stock non-negative |
| `Products.ProductService.UpdateProduct` | src/main/java/com/ecommerce/service/ProductService.java:84-95 | A missing id fails with NotFound and changes nothing. Otherwise it overwrites that product's five fields, and every other product is unchanged. A valid DTO keeps all stock non-negative |
| `Products.ProductService.DeleteProduct` | src/main/java/com/ecommerce/service/ProductService.java:97-101 | A missing id fails with NotFound and changes nothing. Otherwise it removes exactly that id |
| `Products.ToDto` | src/main/java/com/ecommerce/service/ProductService.java:103-112 | The DTO carries the id and the product's name, description, price, category and stock |
| `Products.ToDtoOfFromDto` | src/main/java/com/ecommerce/service/ProductService.java:103-112 | Converting a product built from a DTO gives that DTO back, with the id filled in |
| `Products.EqualsIgnoreCase` | src/main/java/com/ecommerce/service/ProductService.java:48 | Equal ignoring case iff the lengths agree and each character matches its letter under Java's per-character case rules |
| `Products.SortDirection` | src/main/java/com/ecommerce/service/ProductService.java:48-50 | Descending iff the direction string equals "desc" ignoring case, so only four-character strings sort descending. Ascending otherwise |
| `Products.SortDirectionCases` | src/main/java/com/ecommerce/service/ProductService.java:48-50 | Every mix of upper and lower case of "desc" sorts descending. Any string of another length sorts ascending |
| `Customers.CustomerService.RegisterCustomer` | src/main/java/com/ecommerce/service/CustomerService.java:42-57 | Fails with DuplicateEmail iff the email is already stored, and then changes nothing. Otherwise it adds a USER with the request's fields and the encoder's output as password. Email uniqueness is preserved |
| `Customers.CustomerService.UpdateCustomer` | src/main/java/com/ecommerce/service/CustomerService.java:59-70 | A missing id fails with NotFound. Otherwise it overwrites names, email, phone and address, and keeps role and password |
| `Customers.CustomerService.DeleteCustomer` | src/main/java/com/ecommerce/service/CustomerService.java:72-76 | A missing id fails with NotFound. Otherwise it removes exactly that customer. Email uniqueness is preserved |
| `Customers.CustomerService.GetCustomerOrders` | src/main/java/com/ecommerce/service/CustomerService.java:78-82 | A missing id fails with NotFound. Otherwise the result is exactly the stored orders of that customer |
| `Customers.ToDto` | src/main/java/com/ecommerce/service/CustomerService.java:84-94 | The DTO carries the id, the five profile fields and the role of the customer |
| `Customers.ToDtoHidesPassword` | src/main/java/com/ecommerce/service/CustomerService.java:84-94 | The DTO is the same whatever the stored password is, so the password is not copied |
| `Customers.UpdateFromOwnDto` | src/main/java/com/ecommerce/service/CustomerService.java:59-94 | Updating a customer with its own DTO leaves the customer unchanged |
| `Customers.UpdateCanDuplicateEmail` | src/main/java/com/ecommerce/service/CustomerService.java:63-69 | Because the new email is not checked, an update can give two customers the same email |
| `StatusNames.ParseStatus` | src/main/java/com/saif/ecommerce/controller/OrderController.java:304-318 | A missing name is a bad request. Otherwise the result is the status whose name is the upper-cased input, or a bad request listing the valid names when there is none |
| `StatusNames.ParseIgnoresAsciiCase` | src/main/java/com/saif/ecommerce/controller/OrderController.java:310 | A status name in any mix of ASCII case parses to that status |
| `StatusNames.ParseName` | src/main/java/com/saif/ecommerce/controller/OrderController.java:310 | Every status parses back from its own name |
| `StatusNames.UpperCaseOfAsciiSpelling` | src/main/java/com/saif/ecommerce/controller/OrderController.java:310 | Upper-casing a word of ASCII capitals in any mix of case gives that word |

## Left out

- Orders.OrderService.CreateOrder: requires a non-empty request, because both controllers reject an empty item list before they call the service (src/main/java/com/saif/ecommerce/controller/OrderController.java:255-258, src/main/java/com/ecommerce/dto/OrderCreateDto.java:10).
- Orders.OrderService.CreateOrder: requires every quantity to be at least 1, which the source does not guarantee. `OrderCreateDto` puts only `@NotEmpty` on its item list and does not cascade validation to the items (src/main/java/com/ecommerce/dto/OrderCreateDto.java:10-11). So the controller passes quantities of 0 or below to the service. For such a line, the stock check passes whenever the stock is at least the quantity, and the decrement raises the stock (`Reservation.NonPositiveQuantityRaisesStock`, `Reservation.NegativeQuantityExample`). The item then breaks `@Min(1)` on `OrderItem` (src/main/java/com/ecommerce/model/OrderItem.java:23-24). Whether that rolls the order back when it is persisted depends on the `Order` mapping, which is not part of this model. The model therefore leaves such requests out of `CreateOrder`.
- Orders.OrderService.CreateOrder: the entity's own validation when an order is persisted is not modelled. A product priced at 0 would give a subtotal of 0, which that validation rejects, but the model stores the order.
- Orders.OrderService.CreateOrder and Orders.OrderService.CancelOrder: do not model 32-bit overflow of `stockQuantity`, because stock is an unbounded integer here.
- Orders.OrderService.CancelOrder: skips an item whose product is no longer in the catalog. The item's product join column (src/main/java/com/ecommerce/model/OrderItem.java:19-21) normally gives the table a foreign key that keeps such a product from being deleted. The `Product` mapping and the schema are not part of this model, so this is not certain.
- Customers.CustomerService.RegisterCustomer: states that the stored password is the encoder's output. It does not state that this differs from the raw password, because the encoder is an opaque function here.
- Orders.OrderService.CreateOrder, Orders.OrderService.CancelOrder: `orderDate` and other timestamps are left out, because they come from the clock.
- Concurrency and transaction isolation are not modelled. Every service call is one atomic, sequential step. `UnitOrdersNeverOversell` is about orders placed one after another.
- Paging is not modelled for the listings. Of `getAllProducts`, only the choice of sort direction is modelled. Product search and category filtering are repository queries and are not modelled. Nor are the plain reads `getAllOrders`, `getOrderById`, `getAllCustomers`, `getCustomerById` and `getCustomerByEmail`, which do no more than the lookups above.
- `OrderService.convertToDto` (src/main/java/com/ecommerce/service/OrderService.java:117-141) is a field copy to a transfer object and is not modelled.
- Null fields of products, customers and request DTOs are not modelled; they are plain strings and numbers. The fields of `OrderItem` and the scalar fields of the `com.saif` `OrderDto` and `OrderItemDto` may be null. The item list of `OrderDto` and the arguments of the four-argument `OrderItem` constructor may not; see the lines below.
- OrderDtos.OrderDto.ForCreation: stores a copy of the caller's list, and the list is never null. In the source the object keeps the caller's list itself (src/main/java/com/saif/ecommerce/dto/OrderDto.java:48), so the two share later changes.
- OrderDtos.OrderDto.AddOrderItem: always succeeds, changes only this object and never appends null. In the source it throws on a null list and on an unmodifiable list. It appends a null item as given, which makes a later `calculateTotalAmount` throw. It also grows the list of whoever passed that list to the constructor.
- OrderDtos.OrderDto.CalculateTotalAmount: does not model the NullPointerException the stream throws when the list itself is null (src/main/java/com/saif/ecommerce/dto/OrderDto.java:215). Nor does it model the one thrown at `OrderItemDto::getSubtotal` when the list holds a null element (src/main/java/com/saif/ecommerce/dto/OrderDto.java:216).
- OrderDtos.OrderDto.CalculateTotalAmount: amounts are whole cents, so subtotals with more than two decimals, which the `OrderItemDto` setters accept (src/main/java/com/saif/ecommerce/dto/OrderDto.java:119-129), are not modelled.
- Products.ProductService.CreateProduct: the price is whole cents. The `com.ecommerce` `ProductDto` price carries only a lower bound (src/main/java/com/ecommerce/dto/ProductDto.java:15-17), so a price with more than two decimals, such as 9.995, is copied as is in the source; the model does not capture such prices.
- Products.ProductService.UpdateProduct: the price is whole cents; as for `CreateProduct`, a price with more than two decimals is not modelled.
- OrderItems.OrderItem.constructor: takes a quantity and a unit price that cannot be null. In the source a null one makes the subtotal computation throw a NullPointerException (src/main/java/com/ecommerce/model/OrderItem.java:45).
- `Products.ValidDto` treats a name or category as blank when every character is in U+0000..U+0020, the characters `String.trim` removes. That is how Hibernate Validator implements `@NotBlank`; the validator is not part of this model. Unicode space separators such as U+00A0 and U+2000..U+200A count as not blank, as they do in that implementation. An implementation based on `Character.isWhitespace` would differ from the model in two ways. It would treat U+1680, U+2000..U+2006, U+2008..U+200A, U+2028, U+2029, U+205F and U+3000 as blank; U+00A0, U+2007 and U+202F would stay not blank. It would treat control characters other than U+0009..U+000D and U+001C..U+001F as not blank.
- StatusNames.ParseStatus: upper-cases the way Java does in a non-Turkic default locale. In a Turkish locale, `"i"` upper-cases to a dotted capital I, and lower-case names with an i would not parse.
- `existsByEmail` is modelled as exact string equality. A case-insensitive database collation is not modelled.
- Customers.CustomerService.DeleteCustomer: a customer with orders is removed and the orders stay. What the source does depends on the mapping of the customer's `orders` collection (src/main/java/com/ecommerce/service/CustomerService.java:81). A foreign key without a cascade refuses the delete, and a cascade deletes the orders too. That mapping is not part of this model.
- Products.ProductService.DeleteProduct: a product that order items refer to is removed. A foreign key on the items' product column would refuse the delete, and a cascade from `Product` would delete the items. The `Product` mapping is not part of this model.
- The `Order`, `Product`, `Customer`, `CustomerDto` and `OrderItemCreateDto` classes are not part of this model. Their fields are inferred from the calls the services make on them. A new order's status is taken to be PENDING.
- In `createOrder`, the new item's back-reference to its order (`setOrder`) is implicit: the item is stored inside its order.
- `OrderItemDto` is a value here. Its setters, its response constructor, the response constructor and setters of `OrderDto`, and `toString` are not modelled.
- The `com.saif` order service behind the statistics, revenue, date-range, cancellable-orders and access-check endpoints is not part of this model.
- Controllers, authentication and JWT handling, the security configuration, the exception handlers and the message tables are not modelled. Errors are modelled as the `Common.Error` kinds.
