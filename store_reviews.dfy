/** Reviews and the vendor rating they keep up to date: Review.save,
    Review.delete and update_vendor_rating (store/models.py), and
    ReviewViewSet (store/views.py). */
module StoreReviews {
  import opened Common
  import opened Users
  import opened StoreModels
  import opened StoreSerializers

  /** ReviewViewSet.get_queryset: under a product's URL, that product's
      reviews; otherwise a requester with a customer profile sees its own
      reviews; anybody else sees none. */
  function VisibleReviews(productPk: Option<ProductId>, requester: Requester, reviews: seq<Review>): (r: seq<Review>)
    ensures productPk.Some? ==> forall x :: x in r <==> x in reviews && x.product == productPk.value
    ensures productPk.None? && requester.customerProfile.Some? ==>
              forall x :: x in r <==> x in reviews && x.user == requester.user
    ensures productPk.None? && requester.customerProfile.None? ==> r == []
  {
    match productPk
    case Some(pid) => Filter(reviews, (x: Review) => x.product == pid)
    case None =>
      if requester.customerProfile.Some? then Filter(reviews, (x: Review) => x.user == requester.user)
      else []
  }

  /** `super().save()`: an existing row with the same id is replaced, a new
      one is appended. */
  function SaveRow(reviews: seq<Review>, review: Review): (r: seq<Review>)
    ensures review in r
    ensures forall x :: x in r && x.id != review.id ==> x in reviews
    ensures forall x :: x in reviews && x.id != review.id ==> x in r
    ensures |r| == |reviews| || |r| == |reviews| + 1
  {
    match FindIndex(reviews, (x: Review) => x.id == review.id)
    case Some(k) =>
      var r := reviews[k := review];
      assert r[k] == review;
      assert forall x :: x in reviews && x.id != review.id ==> x in r by {
        forall x | x in reviews && x.id != review.id ensures x in r {
          var j :| 0 <= j < |reviews| && reviews[j] == x;
          assert r[j] == x;
        }
      }
      r
    case None => reviews + [review]
  }

  /** `super().delete()`: the rows with the id are removed. */
  function DeleteRow(reviews: seq<Review>, id: nat): (r: seq<Review>)
    ensures forall x :: x in r <==> x in reviews && x.id != id
  {
    Filter(reviews, (x: Review) => x.id != id)
  }

  datatype ReviewError = ProductMissing | ReviewMissing | VendorMissing

  /** The review rows and the `average_rating` column of the seller
      profiles, keyed by the profile's id. */
  class Reviews {
    var reviews: seq<Review>
    var vendorRatings: map<VendorId, RatingSummary>

    constructor ()
      ensures reviews == [] && vendorRatings == map[]
    {
      reviews := [];
      vendorRatings := map[];
    }

    /** `update_vendor_rating(vendor)`: `vendor or self.product.vendor`;
        with neither, the assignment to None's attribute raises. Otherwise
        the vendor's rating becomes the summary over all of its products;
        no other vendor changes. */
    method UpdateVendorRating(vendor: Option<VendorId>, reviewProduct: Product, products: seq<Product>)
      returns (r: Result<VendorId, ReviewError>)
      modifies this
      ensures reviews == old(reviews)
      ensures var v := if vendor.Some? then vendor else reviewProduct.vendor;
              if v.None? then r == Err(VendorMissing) && vendorRatings == old(vendorRatings)
              else r == Ok(v.value) && vendorRatings == old(vendorRatings)[v.value := VendorRating(v.value, reviews, products)]
    {
      var v := if vendor.Some? then vendor else reviewProduct.vendor;
      if v.None? {
        return Err(VendorMissing);
      }
      vendorRatings := vendorRatings[v.value := VendorRating(v.value, reviews, products)];
      r := Ok(v.value);
    }

    /** Review.save: the row is written (refused when its product does not
        exist), then the rating of the product's vendor is recomputed; a
        product without a vendor raises after the row is written. */
    method SaveReview(review: Review, products: seq<Product>) returns (r: Result<VendorId, ReviewError>)
      modifies this
      ensures ProductById(products, review.product).None? ==>
                r == Err(ProductMissing) && reviews == old(reviews) && vendorRatings == old(vendorRatings)
      ensures ProductById(products, review.product).Some? ==> reviews == SaveRow(old(reviews), review)
      ensures ProductById(products, review.product).Some? ==>
                var vendor := ProductById(products, review.product).value.vendor;
                if vendor.None? then r == Err(VendorMissing) && vendorRatings == old(vendorRatings)
                else r == Ok(vendor.value)
                     && vendorRatings == old(vendorRatings)[vendor.value := VendorRating(vendor.value, reviews, products)]
    {
      var product := ProductById(products, review.product);
      if product.None? {
        return Err(ProductMissing);
      }
      reviews := SaveRow(reviews, review);
      r := UpdateVendorRating(None, product.value, products);
    }

    /** Review.delete: the vendor is read before the row goes, and its
        rating is then recomputed without the deleted review. */
    method DeleteReview(id: nat, products: seq<Product>) returns (r: Result<VendorId, ReviewError>)
      modifies this
      ensures (forall x :: x in old(reviews) ==> x.id != id) ==>
                r == Err(ReviewMissing) && reviews == old(reviews) && vendorRatings == old(vendorRatings)
      ensures r == Err(ProductMissing) ==> reviews == old(reviews) && vendorRatings == old(vendorRatings)
      ensures r.Ok? ==> && reviews == DeleteRow(old(reviews), id)
                        && (forall x :: x in reviews ==> x.id != id)
                        && vendorRatings == old(vendorRatings)[r.value := VendorRating(r.value, reviews, products)]
                        && exists x :: x in old(reviews) && x.id == id
                                       && ProductById(products, x.product).Some?
                                       && ProductById(products, x.product).value.vendor == Some(r.value)
      ensures r == Err(VendorMissing) ==> reviews == DeleteRow(old(reviews), id) && vendorRatings == old(vendorRatings)
      ensures var k := FindIndex(old(reviews), (x: Review) => x.id == id);
              && (r == Err(ReviewMissing) <==> k.None?)
              && (k.Some? ==>
                    var product := ProductById(products, old(reviews)[k.value].product);
                    && (r == Err(ProductMissing) <==> product.None?)
                    && (product.Some? && product.value.vendor.Some? ==> r == Ok(product.value.vendor.value))
                    && (product.Some? && product.value.vendor.None? ==> r == Err(VendorMissing)))
    {
      var k := FindIndex(reviews, (x: Review) => x.id == id);
      if k.None? {
        assert forall x :: x in reviews ==> x.id != id by {
          forall x | x in reviews ensures x.id != id {
            var j :| 0 <= j < |reviews| && reviews[j] == x;
          }
        }
        return Err(ReviewMissing);
      }
      var review := reviews[k.value];
      assert review in reviews;
      var product := ProductById(products, review.product);
      if product.None? {
        return Err(ProductMissing);
      }
      var vendor := product.value.vendor;
      reviews := DeleteRow(reviews, id);
      r := UpdateVendorRating(vendor, product.value, products);
    }

    /** ReviewViewSet.perform_create: the review is saved for the requester
        (Review.save recomputes the vendor's rating), then the vendor's
        rating is overwritten with the average of this product's reviews
        alone. The serializer inserts a new row, so the review's id is one
        the table does not hold yet. */
    method PerformCreate(requester: Requester, review: Review, products: seq<Product>)
      returns (r: Result<VendorId, ReviewError>)
      requires forall x :: x in reviews ==> x.id != review.id
      modifies this
      ensures var saved := review.(user := requester.user);
              && (r.Ok? ==> && ProductById(products, review.product).Some?
                            && ProductById(products, review.product).value.vendor == Some(r.value)
                            && reviews == SaveRow(old(reviews), saved)
                            && vendorRatings == old(vendorRatings)[r.value := ProductAverageRating(review.product, reviews)])
              && ((ProductById(products, review.product).Some?
                   && ProductById(products, review.product).value.vendor.Some?) ==> r.Ok?)
      ensures ProductById(products, review.product).None? ==> r == Err(ProductMissing)
      ensures ProductById(products, review.product).Some? && ProductById(products, review.product).value.vendor.None? ==>
                r == Err(VendorMissing)
      ensures r.Err? ==>
                && vendorRatings == old(vendorRatings)
                && reviews == (if ProductById(products, review.product).Some?
                               then SaveRow(old(reviews), review.(user := requester.user))
                               else old(reviews))
    {
      var saved := review.(user := requester.user);
      var product := ProductById(products, review.product);
      r := SaveReview(saved, products);
      if product.None? || product.value.vendor.None? {
        return;
      }
      assert r == Ok(product.value.vendor.value);
      var average := ProductAverageRating(review.product, reviews);
      OverwriteKey(old(vendorRatings), r.value, vendorRatings[r.value], average);
      vendorRatings := vendorRatings[r.value := average];
    }
  }

  /** A vendor's recomputed rating does not depend on reviews of other
      vendors' products: adding such a review leaves it unchanged. */
  lemma {:induction false} VendorRatingIgnoresOthers(vendor: VendorId, reviews: seq<Review>, products: seq<Product>, extra: Review)
    requires !OfVendor(extra, vendor, products)
    ensures VendorRatings(vendor, reviews + [extra], products) == VendorRatings(vendor, reviews, products)
  {
    if reviews == [] {
      assert reviews + [extra] == [extra];
    } else {
      assert (reviews + [extra])[1..] == reviews[1..] + [extra];
      VendorRatingIgnoresOthers(vendor, reviews[1..], products, extra);
    }
  }
}
