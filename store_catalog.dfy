/** The category and product tables behind CategoryViewSet and
    ProductViewSet (store/views.py). */
module StoreCatalog {
  import opened Common
  import opened Users
  import opened StoreModels

  datatype DestroyOutcome = DestroyForbidden | CategoryNotFound | CategoryInUse | CategoryDeleted

  /** The products filed under a category (`category.products`). */
  function ProductsIn(products: seq<Product>, category: nat): (r: seq<Product>)
    ensures forall p :: p in r <==> p in products && p.category == category
  {
    Filter(products, (p: Product) => p.category == category)
  }

  /** The decision of CategoryViewSet.destroy: IsAdminUser (an authenticated
      staff user), then the lookup, then the refusal (405) of a category that
      still has products. */
  function DestroyDecision(requester: Requester, categories: seq<Category>, products: seq<Product>, id: nat): (r: DestroyOutcome)
    ensures r == DestroyForbidden <==> !(requester.authenticated && requester.isStaff)
    ensures r == CategoryNotFound <==>
              requester.authenticated && requester.isStaff && forall c :: c in categories ==> c.id != id
    ensures r == CategoryInUse ==> exists p :: p in products && p.category == id
    ensures r == CategoryDeleted <==>
              && requester.authenticated && requester.isStaff
              && (exists c :: c in categories && c.id == id)
              && forall p :: p in products ==> p.category != id
  {
    if !(requester.authenticated && requester.isStaff) then DestroyForbidden
    else match FindIndex(categories, (c: Category) => c.id == id)
      case None =>
        assert forall c :: c in categories ==> c.id != id;
        CategoryNotFound
      case Some(k) =>
        assert categories[k] in categories;
        if Count(products, (p: Product) => p.category == id) > 0 then CategoryInUse
        else CategoryDeleted
  }

  /** A seller sees only its own products; everybody else sees them all
      (ProductViewSet.get_queryset). */
  function VisibleProducts(requester: Requester, products: seq<Product>): (r: seq<Product>)
    ensures requester.sellerProfile.Some? ==>
              forall p :: p in r <==> p in products && p.vendor == requester.sellerProfile
    ensures requester.sellerProfile.None? ==> r == products
  {
    match requester.sellerProfile
    case Some(s) => Filter(products, (p: Product) => p.vendor == Some(s))
    case None => products
  }

  datatype ProductError = ProductNotAuthenticated | ProductInvalid | NotASeller

  /** The optional, writable `vendor` of a product body: omitted, an explicit
      null (refused: the field does not allow null) or a seller-profile
      primary key (refused unless such a profile exists). */
  datatype VendorInput = VendorOmitted | VendorNull | VendorPk(pk: nat)

  /** ProductSerializer's check of the `vendor` field against the ids of
      the existing seller profiles. */
  predicate VendorFieldValid(vendor: VendorInput, sellerProfileIds: set<nat>) {
    vendor.VendorOmitted? || (vendor.VendorPk? && vendor.pk in sellerProfileIds)
  }

  /** The product tables. Category ids are unique and product ids are below
      `nextProductId`. */
  class Catalog {
    var categories: seq<Category>
    var products: seq<Product>
    var nextProductId: nat

    ghost predicate Valid()
      reads this
    {
      && UniqueCategoryIds(categories)
      && (forall i :: 0 <= i < |products| ==> products[i].id < nextProductId)
    }

    constructor ()
      ensures Valid()
      ensures categories == [] && products == [] && nextProductId == 0
    {
      categories := [];
      products := [];
      nextProductId := 0;
    }

    /** CategoryViewSet.destroy: the category is removed only when the
        requester is an admin, it exists and no product is filed under it;
        the products are never touched. */
    method DestroyCategory(requester: Requester, id: nat) returns (outcome: DestroyOutcome)
      requires Valid()
      modifies this
      ensures Valid()
      ensures outcome == DestroyDecision(requester, old(categories), old(products), id)
      ensures products == old(products) && nextProductId == old(nextProductId)
      ensures outcome == CategoryDeleted ==>
                categories == Filter(old(categories), (c: Category) => c.id != id)
      ensures outcome != CategoryDeleted ==> categories == old(categories)
    {
      outcome := DestroyDecision(requester, categories, products, id);
      if outcome == CategoryDeleted {
        var kept := Filter(categories, (c: Category) => c.id != id);
        FilterKeepsDistinct(categories, (c: Category) => c.id != id);
        categories := kept;
      }
    }

    /** ProductViewSet.create: authentication first, then the serializer's
        field validation (the title stripped of surrounding white space, an
        existing category, and a `vendor` that is omitted or names an
        existing seller profile), then `perform_create`, which saves the
        product with the requester's seller profile as vendor, whatever
        vendor the body named, or fails for a requester without one. */
    method CreateProduct(requester: Requester, title: string, unitPrice: int, inventory: int, category: nat,
                         vendor: VendorInput, sellerProfileIds: set<nat>)
      returns (r: Result<Product, ProductError>)
      requires Valid()
      modifies this
      ensures Valid()
      ensures categories == old(categories)
      ensures !requester.authenticated ==> r == Err(ProductNotAuthenticated)
      ensures requester.authenticated
              && !(&& ProductFieldsValid(title, unitPrice, inventory)
                   && (exists c :: c in categories && c.id == category)
                   && VendorFieldValid(vendor, sellerProfileIds))
              ==> r == Err(ProductInvalid)
      ensures r.Err? ==> products == old(products) && nextProductId == old(nextProductId)
      ensures requester.authenticated && ProductFieldsValid(title, unitPrice, inventory)
              && (exists c :: c in categories && c.id == category) && VendorFieldValid(vendor, sellerProfileIds)
              && requester.sellerProfile.None?
              ==> r == Err(NotASeller)
      ensures r.Ok? <==> && requester.authenticated && ProductFieldsValid(title, unitPrice, inventory)
                         && (exists c :: c in categories && c.id == category)
                         && VendorFieldValid(vendor, sellerProfileIds)
                         && requester.sellerProfile.Some?
      ensures r.Ok? ==> && r.value == Product(old(nextProductId), Strip(title), unitPrice, inventory, category,
                                              requester.sellerProfile)
                        && products == old(products) + [r.value]
    {
      if !requester.authenticated {
        return Err(ProductNotAuthenticated);
      }
      var found := FindIndex(categories, (c: Category) => c.id == category);
      if !ProductFieldsValid(title, unitPrice, inventory) || found.None?
         || !VendorFieldValid(vendor, sellerProfileIds) {
        return Err(ProductInvalid);
      }
      assert categories[found.value] in categories;
      if requester.sellerProfile.None? {
        return Err(NotASeller);
      }
      var p := AppendProduct(Strip(title), unitPrice, inventory, category, requester.sellerProfile);
      r := Ok(p);
    }

    /** `serializer.save(...)`: a product with the next id is appended. */
    method AppendProduct(title: string, unitPrice: int, inventory: int, category: nat, vendor: Option<nat>)
      returns (p: Product)
      requires Valid()
      modifies this
      ensures Valid()
      ensures p == Product(old(nextProductId), title, unitPrice, inventory, category, vendor)
      ensures products == old(products) + [p] && categories == old(categories)
    {
      p := Product(nextProductId, title, unitPrice, inventory, category, vendor);
      products := products + [p];
      nextProductId := nextProductId + 1;
    }
  }

  /** No two category rows share an id. */
  predicate UniqueCategoryIds(categories: seq<Category>) {
    && Distinct(categories)
    && forall c1, c2 :: c1 in categories && c2 in categories && c1.id == c2.id ==> c1 == c2
  }
}
