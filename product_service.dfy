/** `ProductService` (backend): product lookups, creation, update and deletion
    against the product and category tables, the sort and paging a product
    query uses, and the reviewer name shown with a review. */
module ProductCatalog {
  import opened Wrappers
  import opened JavaStrings
  import opened JavaLang
  import opened Failures

  /** The product entity's fields this service writes. */
  datatype Product = Product(
    name: Option<string>,
    description: Option<string>,
    price: Option<real>,
    stockQuantity: Option<int>,
    categoryId: int,
    sku: Option<string>,
    active: bool)

  /** `BaseProductDto` (and its create and update subclasses): every field may
      be null. */
  datatype ProductDto = ProductDto(
    name: Option<string>,
    description: Option<string>,
    price: Option<real>,
    stockQuantity: Option<int>,
    categoryId: Option<int>,
    sku: Option<string>,
    active: Option<bool>)

  /** The message `CrudRepository.findById` rejects a null id with. */
  const NULL_ID_MESSAGE := "The given id must not be null"

  /** `Product not found with id: <id>`. */
  function ProductNotFound(id: int): Failure
  {
    ResourceNotFound("Product not found with id: " + IntToString(id))
  }

  /** `updateProductFromDto`: every field is overwritten from the DTO (null
      included); the category must be found by the DTO's id; `active` is the
      DTO's when given and true otherwise. The product's previous field values
      play no part in the outcome. */
  function ApplyDto(categories: set<int>, dto: ProductDto): (r: Result<Product, Failure>)
    ensures r.Ok? <==> dto.categoryId.Some? && dto.categoryId.value in categories
    ensures dto.categoryId.None? ==> r == Err(Runtime(NULL_ID_MESSAGE))
    ensures dto.categoryId.Some? && dto.categoryId.value !in categories ==>
      r == Err(ResourceNotFound("Category not found with id: " + IntToString(dto.categoryId.value)))
    ensures r.Ok? ==>
      r.value.name == dto.name && r.value.description == dto.description && r.value.price == dto.price
      && r.value.stockQuantity == dto.stockQuantity && r.value.categoryId == dto.categoryId.value
      && r.value.sku == dto.sku
    ensures r.Ok? ==> (r.value.active <==> dto.active != Some(false))
  {
    match dto.categoryId
    case None => Err(Runtime(NULL_ID_MESSAGE))
    case Some(c) =>
      if c !in categories then Err(ResourceNotFound("Category not found with id: " + IntToString(c)))
      else Ok(Product(dto.name, dto.description, dto.price, dto.stockQuantity, c, dto.sku, dto.active.GetOr(true)))
  }

  /** The DTO the order services build to deduct stock: a fresh update DTO
      with only the stock quantity set. */
  function StockOnlyDto(stockQuantity: int): ProductDto
  {
    ProductDto(None, None, None, Some(stockQuantity), None, None, None)
  }

  /** `updateProduct(id, dto)` as a function of the tables: an unknown id is
      reported first, then whatever `ApplyDto` reports; otherwise the product
      stored under the id is replaced by the DTO's values. */
  function Updated(products: map<int, Product>, categories: set<int>, id: int, dto: ProductDto)
    : (r: Result<map<int, Product>, Failure>)
    ensures id !in products ==> r == Err(ProductNotFound(id))
    ensures id in products ==> r.Ok? == ApplyDto(categories, dto).Ok?
    ensures r.Ok? ==> r.value.Keys == products.Keys && r.value[id] == ApplyDto(categories, dto).value
    ensures r.Ok? ==> forall k :: k in products && k != id ==> r.value[k] == products[k]
  {
    if id !in products then Err(ProductNotFound(id))
    else
      match ApplyDto(categories, dto)
      case Err(e) => Err(e)
      case Ok(p) => Ok(products[id := p])
  }

  /** Deducting stock through `updateProduct` with a stock-only DTO can never
      succeed: the DTO's null category id is rejected by the category lookup.
      Were the lookup to pass (a category id supplied), the update would still
      erase the product's name, description, price and SKU. */
  lemma StockOnlyUpdateFails(products: map<int, Product>, categories: set<int>, id: int, n: int, c: int)
    ensures Updated(products, categories, id, StockOnlyDto(n)).Err?
    ensures id in products ==> Updated(products, categories, id, StockOnlyDto(n)) == Err(Runtime(NULL_ID_MESSAGE))
    ensures c in categories ==>
      var p := ApplyDto(categories, StockOnlyDto(n).(categoryId := Some(c))).value;
      p.name.None? && p.description.None? && p.price.None? && p.sku.None? && p.stockQuantity == Some(n)
  {
  }

  /** What deducting stock is meant to do: only the stock quantity of the
      product changes. */
  function WithStock(products: map<int, Product>, id: int, quantity: int): (r: Result<map<int, Product>, Failure>)
    ensures r.Ok? <==> id in products
    ensures r.Err? ==> r.error == ProductNotFound(id)
    ensures r.Ok? ==> r.value.Keys == products.Keys && r.value[id].stockQuantity == Some(quantity)
    ensures r.Ok? ==> r.value[id].(stockQuantity := products[id].stockQuantity) == products[id]
    ensures r.Ok? ==> forall k :: k in products && k != id ==> r.value[k] == products[k]
  {
    if id in products then Ok(products[id := products[id].(stockQuantity := Some(quantity))])
    else Err(ProductNotFound(id))
  }

  /** Sort direction. */
  datatype Direction = ASC | DESC

  /** Spring's `Sort`: unsorted, or by one property in one direction. */
  datatype Sort = Unsorted | By(direction: Direction, property: string)

  /** `createSort`: no property, no sort; otherwise descending exactly when the
      direction text is "desc" in any case. */
  function CreateSort(sortBy: Option<string>, sortDirection: Option<string>): (s: Sort)
    ensures s.Unsorted? <==> sortBy.None?
    ensures s.By? ==> s.property == sortBy.value
    ensures s.By? ==> (s.direction == DESC <==> sortDirection.Some? && EqualsIgnoreCase(sortDirection.value, "desc"))
  {
    if sortBy.None? then Unsorted
    else if sortDirection.Some? && EqualsIgnoreCase(sortDirection.value, "desc") then By(DESC, sortBy.value)
    else By(ASC, sortBy.value)
  }

  /** The direction text is compared without regard to case, and anything but
      "desc" (including a missing one) sorts ascending. */
  lemma CreateSortExamples()
    ensures CreateSort(Some("price"), Some("DESC")) == By(DESC, "price")
    ensures CreateSort(Some("price"), Some("Desc")) == By(DESC, "price")
    ensures CreateSort(Some("price"), Some("descending")) == By(ASC, "price")
    ensures CreateSort(Some("price"), None) == By(ASC, "price")
    ensures CreateSort(None, Some("desc")) == Unsorted
  {
    UpperDesc("desc");
    UpperDesc("Desc");
    UpperDesc("DESC");
    assert |ToUpper("descending")| == 10;
  }

  /** Each spelling of "desc" used above upper-cases to "DESC". */
  lemma UpperDesc(t: string)
    requires t in {"desc", "Desc", "DESC"}
    ensures ToUpper(t) == "DESC"
  {
    var u := ToUpper(t);
    assert u[0] == 'D' && u[1] == 'E' && u[2] == 'S' && u[3] == 'C';
  }

  /** A page request. */
  datatype Paging = Paging(page: int, size: int)

  /** `PageRequest.of(page ?: 0, size ?: 10, sort)`; Spring rejects a negative
      page index and a size below one. */
  function PageRequest(page: Option<int>, size: Option<int>): (r: Result<Paging, Failure>)
    ensures r.Ok? <==> page.GetOr(0) >= 0 && size.GetOr(10) >= 1
    ensures r.Ok? ==> r.value.page == page.GetOr(0) && r.value.size == size.GetOr(10)
  {
    var p := page.GetOr(0);
    var s := size.GetOr(10);
    if p < 0 then Err(Runtime("Page index must not be less than zero"))
    else if s < 1 then Err(Runtime("Page size must not be less than one"))
    else Ok(Paging(p, s))
  }

  /** A filter without paging asks for the first page of ten. */
  lemma PagingDefaults()
    ensures PageRequest(None, None) == Ok(Paging(0, 10))
  {
  }

  /** The full name `convertReviewToDto` builds before trimming: the first name
      (or nothing) followed by a space and the last name when there is one. */
  function FullName(firstName: Option<string>, lastName: Option<string>): string
  {
    firstName.GetOr("") + (if lastName.Some? then " " + lastName.value else "")
  }

  /** The review's `userName`: the trimmed full name, or the e-mail address
      when that is empty. */
  function ReviewUserName(firstName: Option<string>, lastName: Option<string>, email: Option<string>)
    : (r: Option<string>)
    ensures Blank(FullName(firstName, lastName)) ==> r == email
    ensures !Blank(FullName(firstName, lastName)) ==> r == Some(Trim(FullName(firstName, lastName)))
    ensures !Blank(FullName(firstName, lastName)) ==>
      r.Some? && r.value != [] && !IsTrimmable(r.value[0]) && !IsTrimmable(r.value[|r.value| - 1])
  {
    var full := FullName(firstName, lastName);
    TrimEmptyIffBlank(full);
    if Trim(full) == [] then email else Some(Trim(full))
  }

  /** A user with both names, neither padded, is shown as "first last"; one
      with no names at all is shown by e-mail. */
  lemma ReviewUserNameCases(first: string, last: string, email: Option<string>)
    requires first != [] && !IsTrimmable(first[0]) && !IsTrimmable(first[|first| - 1])
    requires last != [] && !IsTrimmable(last[|last| - 1])
    ensures ReviewUserName(Some(first), Some(last), email) == Some(first + " " + last)
    ensures ReviewUserName(None, None, email) == email
  {
    var full := first + " " + last;
    assert FullName(Some(first), Some(last)) == full;
    assert full[0] == first[0] && full[|full| - 1] == last[|last| - 1];
    TrimOfUntrimmedEnds(full);
    assert !Blank(full) by { assert !IsTrimmable(full[0]); }
    assert FullName(None, None) == [];
  }

  /** The product table with the category table it refers to. Ids are handed
      out in increasing order. */
  class ProductService {
    var products: map<int, Product>
    const categories: set<int>
    var nextId: int

    /** Every stored id is below the next one to be handed out. */
    predicate Valid()
      reads this
    {
      forall k :: k in products ==> k < nextId
    }

    constructor (categories: set<int>)
      ensures products == map[] && this.categories == categories && nextId == 1
      ensures Valid()
    {
      products := map[];
      this.categories := categories;
      nextId := 1;
    }

    /** `getProductById` / `getProductEntityById`. */
    function Find(id: int): (r: Result<Product, Failure>)
      reads this
      ensures r.Ok? <==> id in products
      ensures r.Ok? ==> r.value == products[id]
      ensures r.Err? ==> r.error == ProductNotFound(id)
    {
      if id in products then Ok(products[id]) else Err(ProductNotFound(id))
    }

    /** `createProduct`: a new product from the DTO under a fresh id; a DTO
        that `ApplyDto` rejects stores nothing. */
    method CreateProduct(dto: ProductDto) returns (r: Result<int, Failure>)
      requires Valid()
      modifies this`products, this`nextId
      ensures Valid()
      ensures ApplyDto(categories, dto).Err? ==>
        r == Err(ApplyDto(categories, dto).error) && products == old(products) && nextId == old(nextId)
      ensures ApplyDto(categories, dto).Ok? ==>
        r == Ok(old(nextId)) && old(nextId) !in old(products)
        && products == old(products)[old(nextId) := ApplyDto(categories, dto).value]
    {
      var applied := ApplyDto(categories, dto);
      if applied.Err? {
        r := Err(applied.error);
      } else {
        r := Ok(nextId);
        products := products[nextId := applied.value];
        nextId := nextId + 1;
      }
    }

    /** `updateProduct`: atomic, so a failure leaves the table as it was. */
    method UpdateProduct(id: int, dto: ProductDto) returns (r: Result<Product, Failure>)
      requires Valid()
      modifies this`products
      ensures Valid()
      ensures Updated(old(products), categories, id, dto).Err? ==>
        r == Err(Updated(old(products), categories, id, dto).error) && products == old(products)
      ensures Updated(old(products), categories, id, dto).Ok? ==>
        products == Updated(old(products), categories, id, dto).value && r == Ok(products[id])
    {
      var u := Updated(products, categories, id, dto);
      if u.Err? {
        r := Err(u.error);
      } else {
        products := u.value;
        r := Ok(products[id]);
      }
    }

    /** `deleteProduct`: an unknown id is an error; otherwise exactly that
        product is removed. */
    method DeleteProduct(id: int) returns (r: Result<(), Failure>)
      requires Valid()
      modifies this`products
      ensures Valid()
      ensures id !in old(products) ==> r == Err(ProductNotFound(id)) && products == old(products)
      ensures id in old(products) ==> r == Ok(()) && products == old(products) - {id}
    {
      if id !in products {
        r := Err(ProductNotFound(id));
      } else {
        products := products - {id};
        r := Ok(());
      }
    }

    /** The stock deduction the order services need: only the product's
        stock quantity changes. */
    method SetStockQuantity(id: int, quantity: int) returns (r: Result<(), Failure>)
      requires Valid()
      modifies this`products
      ensures Valid()
      ensures WithStock(old(products), id, quantity).Err? ==>
        r == Err(ProductNotFound(id)) && products == old(products)
      ensures WithStock(old(products), id, quantity).Ok? ==>
        r == Ok(()) && products == WithStock(old(products), id, quantity).value
    {
      if id !in products {
        r := Err(ProductNotFound(id));
      } else {
        products := products[id := products[id].(stockQuantity := Some(quantity))];
        r := Ok(());
      }
    }
  }
}
