/** The product service. Products have no query filter: a soft-deleted product is still listed and found. */
module Products {
  import opened Wrappers
  import opened Calendar
  import opened ChangeTracking
  import opened ProductModel
  import opened DbContext

  /** The create and update request. */
  datatype ProductRequest = ProductRequest(name: string, carbs: real, sugar: real, fats: real, protein: real, sodium: real)

  /** ProductListingModel and ProductDetailsModel, which have the same fields. */
  datatype ProductInfo = ProductInfo(id: int, name: string, carbs: real, fats: real, protein: real, sodium: real, sugar: real)

  /** AllProducts as written: the projection copies every nutrient but Carbs, which keeps its default of 0. */
  function AllProducts(products: map<int, Product>): (m: map<int, ProductInfo>)
    ensures m.Keys == products.Keys
    ensures forall id :: id in m ==>
              id in products && m[id] == ProductInfo(id, products[id].name, 0.0, products[id].fats,
                                                 products[id].protein, products[id].sodium, products[id].sugar)
  {
    map id | id in products :: ProductInfo(id, products[id].name, 0.0, products[id].fats, products[id].protein,
                                          products[id].sodium, products[id].sugar)
  }

  /** The listing of one product as its details show it, Carbs included. */
  function Info(p: Product): (i: ProductInfo)
    ensures i.id == p.id && i.name == p.name && i.carbs == p.carbs && i.fats == p.fats
    ensures i.protein == p.protein && i.sodium == p.sodium && i.sugar == p.sugar
  {
    ProductInfo(p.id, p.name, p.carbs, p.fats, p.protein, p.sodium, p.sugar)
  }

  /** AllProducts as evidently intended: every product, with the same fields its details show. */
  function AllProductsWithCarbs(products: map<int, Product>): (m: map<int, ProductInfo>)
    ensures m.Keys == products.Keys
    ensures forall id :: id in m ==> id in products && m[id] == Info(products[id])
  {
    map id | id in products :: Info(products[id])
  }

  /** The listing as written reports no carbs even for a product that has them. */
  lemma AllProductsDropsCarbs(products: map<int, Product>, id: int)
    requires id in products && products[id].carbs != 0.0
    ensures AllProducts(products)[id].carbs == 0.0 != products[id].carbs
    ensures AllProducts(products)[id] != Info(products[id])
  {
  }

  /** The corrected listing agrees with the details of every product. */
  lemma ListingAgreesWithDetails(products: map<int, Product>, id: int)
    requires id in products
    ensures Details(products, id) == Some(AllProductsWithCarbs(products)[id])
  {
  }

  /** AllProductsByNames: the id and name of every product. */
  function AllProductsByNames(products: map<int, Product>): (m: map<int, string>)
    ensures m.Keys == products.Keys
    ensures forall id :: id in m ==> id in products && m[id] == products[id].name
  {
    map id | id in products :: products[id].name
  }

  /** Details: the product with this id, deleted or not. */
  function Details(products: map<int, Product>, id: int): (d: Option<ProductInfo>)
    ensures d.Some? <==> id in products
    ensures d.Some? ==> d.value == Info(products[id])
  {
    if id in products then Some(Info(products[id])) else None
  }

  /** The row Create inserts. */
  function NewProduct(id: int, model: ProductRequest, now: DateTime, userName: Option<string>): (p: Product)
    ensures p.id == id && p.name == model.name && p.carbs == model.carbs && p.sugar == model.sugar
    ensures p.fats == model.fats && p.protein == model.protein && p.sodium == model.sodium
    ensures !p.deletion.isDeleted && p.audit == CreatedAudit(now, userName)
  {
    Product(id, model.name, model.carbs, model.sugar, model.fats, model.protein, model.sodium,
            CreatedAudit(now, userName), BaseEntities.NotDeleted)
  }

  /** Whether the update assigns a column a different value, so that the product is saved as Modified. */
  predicate ColumnsChange(p: Product, model: ProductRequest) {
    p.name != model.name || p.carbs != model.carbs || p.sugar != model.sugar || p.fats != model.fats
    || p.protein != model.protein || p.sodium != model.sodium
  }

  /** The product after Update. */
  function UpdatedProduct(p: Product, model: ProductRequest, now: DateTime, userName: Option<string>): (u: Product)
    ensures u == NewProduct(p.id, model, now, userName).(
                   audit := if ColumnsChange(p, model) then ModifiedAudit(p.audit, now, userName) else p.audit,
                   deletion := p.deletion)
  {
    p.(name := model.name, carbs := model.carbs, sugar := model.sugar, fats := model.fats,
       protein := model.protein, sodium := model.sodium,
       audit := if ColumnsChange(p, model) then ModifiedAudit(p.audit, now, userName) else p.audit)
  }

  /** The product after Delete: the removal is turned into a soft delete stamped with the current user's name. */
  function RemovedProduct(p: Product, now: DateTime, userName: Option<string>): (d: Product)
    ensures d == p.(deletion := RemovedDeletion(now, userName))
  {
    p.(deletion := RemovedDeletion(now, userName))
  }

  method Create(db: FitnessAppDbContext, model: ProductRequest, newId: int, now: DateTime, userName: Option<string>)
    returns (id: int)
    requires db.Valid() && newId !in db.products
    modifies db`products
    ensures id == newId
    ensures db.Snapshot() == old(db.Snapshot()).(products := old(db.products)[newId := NewProduct(newId, model, now, userName)])
    ensures db.Valid()
  {
    db.products := db.products[newId := NewProduct(newId, model, now, userName)];
    id := newId;
  }

  method Delete(db: FitnessAppDbContext, id: int, now: DateTime, userName: Option<string>) returns (r: Result)
    requires db.Valid()
    modifies db`products
    ensures id !in old(db.products) ==> r == Failure("Product Not Found.") && db.Snapshot() == old(db.Snapshot())
    ensures id in old(db.products) ==>
              r == Success && db.products == old(db.products)[id := RemovedProduct(old(db.products)[id], now, userName)]
    ensures db.Valid()
  {
    if id !in db.products {
      return Failure("Product Not Found.");
    }
    db.products := db.products[id := RemovedProduct(db.products[id], now, userName)];
    r := Success;
  }

  method Update(db: FitnessAppDbContext, id: int, model: ProductRequest, now: DateTime, userName: Option<string>)
    returns (r: Result)
    requires db.Valid()
    modifies db`products
    ensures id !in old(db.products) ==> r == Failure("Product Not Found.") && db.Snapshot() == old(db.Snapshot())
    ensures id in old(db.products) ==>
              r == Success && db.products == old(db.products)[id := UpdatedProduct(old(db.products)[id], model, now, userName)]
    ensures db.Valid()
  {
    if id !in db.products {
      return Failure("Product Not Found.");
    }
    db.products := db.products[id := UpdatedProduct(db.products[id], model, now, userName)];
    r := Success;
  }

  /** A deleted product is still listed and still found: only its deletion columns change. */
  lemma DeletedProductStillListed(products: map<int, Product>, id: int, now: DateTime, userName: Option<string>)
    requires id in products
    ensures var after := products[id := RemovedProduct(products[id], now, userName)];
            && AllProductsByNames(after) == AllProductsByNames(products)
            && AllProductsWithCarbs(after) == AllProductsWithCarbs(products)
            && Details(after, id) == Details(products, id)
  {
    var after := products[id := RemovedProduct(products[id], now, userName)];
    assert forall k :: k in after ==> Info(after[k]) == Info(products[k]);
  }

  /** Details after Update show exactly the requested values. */
  lemma UpdatedProductDetails(products: map<int, Product>, id: int, model: ProductRequest, now: DateTime,
                              userName: Option<string>)
    requires id in products && products[id].id == id
    ensures Details(products[id := UpdatedProduct(products[id], model, now, userName)], id) ==
            Some(ProductInfo(id, model.name, model.carbs, model.fats, model.protein, model.sodium, model.sugar))
  {
  }
}
