/**
 * `ProductService`: catalog management over the product repository, the choice of sort
 * direction for listings, and the entity-to-DTO copy.
 */
module Products {
  import opened Common
  import opened Entities
  import opened Repositories

  /** `com.ecommerce.dto.ProductDto`. */
  datatype ProductDto = ProductDto(
    id: Option<Id>,
    name: string,
    description: string,
    price: Money,
    category: string,
    stockQuantity: int)

  /**
   * The characters `@NotBlank` treats as blank: those `String.trim` removes, U+0000 to
   * U+0020. Unicode space separators such as U+00A0 are not blank.
   */
  predicate TrimRemoves(c: char)
  {
    c <= '\U{0020}'
  }

  predicate NotBlank(s: string)
  {
    exists k :: 0 <= k < |s| && !TrimRemoves(s[k])
  }

  /** The bean-validation constraints of the DTO. */
  predicate ValidDto(d: ProductDto)
  {
    NotBlank(d.name) && d.price > 0 && NotBlank(d.category) && d.stockQuantity >= 0
  }

  /** The five setter calls of `createProduct` and `updateProduct`. */
  function FromDto(d: ProductDto): (r: Product)
  {
    Product(d.name, d.description, d.price, d.category, d.stockQuantity)
  }

  /** `convertToDto`: the id and the five fields of the product. */
  function ToDto(id: Id, p: Product): (r: ProductDto)
    ensures r.id == Some(id) && r.name == p.name && r.description == p.description
    ensures r.price == p.price && r.category == p.category && r.stockQuantity == p.stockQuantity
  {
    ProductDto(Some(id), p.name, p.description, p.price, p.category, p.stockQuantity)
  }

  /** Converting a stored product back gives the DTO it was written from, with its id. */
  lemma ToDtoOfFromDto(id: Id, d: ProductDto)
    ensures ToDto(id, FromDto(d)) == d.(id := Some(id))
  {
  }

  datatype Direction = Ascending | Descending

  /**
   * One step of Java's `equalsIgnoreCase` against a lower-case ASCII letter: equal, equal
   * after upper-casing, or equal after upper- then lower-casing. Besides the letter and
   * its capital this admits the long s (U+017F) for 's', the dotless i (U+0131) and the
   * dotted capital I (U+0130) for 'i', and the Kelvin sign (U+212A) for 'k'.
   */
  predicate CharMatchesIgnoringCase(c: char, lower: char)
    requires 'a' <= lower <= 'z'
  {
    || c == lower
    || c as int == lower as int - 32
    || (lower == 's' && c == '\U{017F}')
    || (lower == 'i' && (c == '\U{0131}' || c == '\U{0130}'))
    || (lower == 'k' && c == '\U{212A}')
  }

  predicate LowerAscii(word: string)
  {
    forall k :: 0 <= k < |word| ==> 'a' <= word[k] <= 'z'
  }

  /** `s.equalsIgnoreCase(word)` for a lower-case ASCII `word`, compared character by character. */
  function EqualsIgnoreCase(s: string, word: string): (r: bool)
    requires LowerAscii(word)
    ensures r <==> |s| == |word| && forall k :: 0 <= k < |s| ==> CharMatchesIgnoringCase(s[k], word[k])
  {
    if |s| != |word| then false
    else if s == [] then true
    else CharMatchesIgnoringCase(s[0], word[0]) && EqualsIgnoreCase(s[1..], word[1..])
  }

  /** The sort direction `getAllProducts` builds: descending iff `sortDir` is "desc" in any case. */
  function SortDirection(sortDir: string): (d: Direction)
    ensures d == Descending ==> |sortDir| == 4
    ensures d == Descending <==> EqualsIgnoreCase(sortDir, "desc")
  {
    if EqualsIgnoreCase(sortDir, "desc") then Descending else Ascending
  }

  /** "desc" with any mix of ASCII capitals is descending; anything else of another length is ascending. */
  lemma SortDirectionCases(sortDir: string)
    ensures |sortDir| == 4
            && (sortDir[0] == 'd' || sortDir[0] == 'D') && (sortDir[1] == 'e' || sortDir[1] == 'E')
            && (sortDir[2] == 's' || sortDir[2] == 'S') && (sortDir[3] == 'c' || sortDir[3] == 'C')
            ==> SortDirection(sortDir) == Descending
    ensures |sortDir| != 4 ==> SortDirection(sortDir) == Ascending
  {
  }

  class ProductService {
    const products: ProductRepository

    constructor (products: ProductRepository)
      ensures this.products == products
    {
      this.products := products;
    }

    /**
     * `createProduct`: a new product with the DTO's five fields under a fresh id;
     * `convertToDto` of it gives those fields back.
     */
    method CreateProduct(dto: ProductDto) returns (id: Id)
      requires products.Valid()
      modifies products
      ensures products.Valid()
      ensures id !in old(products.rows) && products.rows == old(products.rows)[id := FromDto(dto)]
      ensures ToDto(id, products.rows[id]) == dto.(id := Some(id))
      ensures ValidDto(dto) && old(StockNonNegative(products.rows)) ==> StockNonNegative(products.rows)
    {
      id := products.Insert(FromDto(dto));
    }

    /** `updateProduct`: a missing id fails and changes nothing; otherwise the five fields of that product are overwritten. */
    method UpdateProduct(id: Id, dto: ProductDto) returns (r: Result<Product>)
      requires products.Valid()
      modifies products
      ensures products.Valid()
      ensures r.Err? <==> id !in old(products.rows)
      ensures r.Err? ==> r.error == NotFound(ProductEntity, id) && unchanged(products)
      ensures r.Ok? ==> r.value == FromDto(dto) && products.rows == old(products.rows)[id := FromDto(dto)]
      ensures products.nextId == old(products.nextId)
      ensures ValidDto(dto) && old(StockNonNegative(products.rows)) ==> StockNonNegative(products.rows)
    {
      if id !in products.rows {
        return Err(NotFound(ProductEntity, id));
      }
      var product := FromDto(dto);
      products.rows := products.rows[id := product];
      r := Ok(product);
    }

    /** `deleteProduct`: a missing id fails; otherwise exactly that id is removed. */
    method DeleteProduct(id: Id) returns (r: Result<()>)
      requires products.Valid()
      modifies products
      ensures products.Valid()
      ensures r.Err? <==> id !in old(products.rows)
      ensures r.Err? ==> r.error == NotFound(ProductEntity, id) && unchanged(products)
      ensures r.Ok? ==> products.rows == old(products.rows) - {id}
      ensures products.nextId == old(products.nextId)
    {
      if id !in products.rows {
        return Err(NotFound(ProductEntity, id));
      }
      products.rows := products.rows - {id};
      r := Ok(());
    }
  }
}
