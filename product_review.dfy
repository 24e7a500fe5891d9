/** `ProductReviewService` (older `src` tree): product reviews, which only
    their author may change or delete. The authenticated principal's name
    (an e-mail) is a parameter; the user table is the map from e-mail to user
    id that `getUserByEmail` looks up. */
module ProductReviews {
  import opened Wrappers
  import opened JavaLang
  import opened Failures

  /** The `ProductReview` entity's fields the service writes. */
  datatype Review = Review(productId: int, userId: int, rating: Option<int>, comment: Option<string>)

  /** Which reviews a listing asks for: those of a product or those of a
      user. */
  datatype ReviewFilter = OfProduct(productId: int) | ByUser(userId: int)
  {
    predicate Selects(rv: Review)
    {
      match this
      case OfProduct(p) => rv.productId == p
      case ByUser(u) => rv.userId == u
    }
  }

  const NOT_OWNER := "You can only update your own reviews"

  function ReviewNotFound(id: int): Failure
  {
    ResourceNotFound("Review not found with id: " + IntToString(id))
  }

  function UserNotFound(email: string): Failure
  {
    ResourceNotFound("User not found with email: " + email)
  }

  /** `getAuthenticatedUser`: the id of the principal's user. */
  function AuthenticatedUser(users: map<string, int>, principal: string): (r: Result<int, Failure>)
    ensures r.Ok? <==> principal in users
    ensures r.Ok? ==> r.value == users[principal]
    ensures r.Err? ==> r.error == UserNotFound(principal)
  {
    if principal in users then Ok(users[principal]) else Err(UserNotFound(principal))
  }

  /** The review lookup, then the principal lookup, then the ownership test
      shared by update and delete; on success, the review. */
  function OwnedReview(reviews: map<int, Review>, users: map<string, int>, principal: string, id: int)
    : (r: Result<Review, Failure>)
    ensures r.Ok? <==> id in reviews && principal in users && reviews[id].userId == users[principal]
    ensures r.Ok? ==> r.value == reviews[id]
    ensures id !in reviews ==> r == Err(ReviewNotFound(id))
    ensures id in reviews && principal !in users ==> r == Err(UserNotFound(principal))
    ensures id in reviews && principal in users && reviews[id].userId != users[principal] ==>
      r == Err(ResourceNotFound(NOT_OWNER))
  {
    if id !in reviews then Err(ReviewNotFound(id))
    else
      match AuthenticatedUser(users, principal)
      case Err(e) => Err(e)
      case Ok(userId) =>
        if reviews[id].userId != userId then Err(ResourceNotFound(NOT_OWNER)) else Ok(reviews[id])
  }

  /** `updateReview` on the table: the owner's review gets the new rating
      and comment (null included). */
  function UpdatedReviews(reviews: map<int, Review>, users: map<string, int>, principal: string, id: int,
                          rating: Option<int>, comment: Option<string>): (r: Result<map<int, Review>, Failure>)
    ensures OwnedReview(reviews, users, principal, id).Err? ==>
      r == Err(OwnedReview(reviews, users, principal, id).error)
    ensures r.Ok? ==>
      r.value.Keys == reviews.Keys
      && (forall k :: k in reviews && k != id ==> r.value[k] == reviews[k])
      && r.value[id].productId == reviews[id].productId && r.value[id].userId == reviews[id].userId
      && r.value[id].rating == rating && r.value[id].comment == comment
    ensures r.Ok? <==> OwnedReview(reviews, users, principal, id).Ok?
  {
    match OwnedReview(reviews, users, principal, id)
    case Err(e) => Err(e)
    case Ok(review) => Ok(reviews[id := review.(rating := rating, comment := comment)])
  }

  /** `deleteReview` on the table: exactly the owner's review goes. */
  function DeletedReviews(reviews: map<int, Review>, users: map<string, int>, principal: string, id: int)
    : (r: Result<map<int, Review>, Failure>)
    ensures OwnedReview(reviews, users, principal, id).Err? ==>
      r == Err(OwnedReview(reviews, users, principal, id).error)
    ensures r.Ok? ==> r.value == reviews - {id} && id in reviews
    ensures r.Ok? <==> OwnedReview(reviews, users, principal, id).Ok?
  {
    match OwnedReview(reviews, users, principal, id)
    case Err(e) => Err(e)
    case Ok(_) => Ok(reviews - {id})
  }

  /** Only the author can change a review: a principal whose user id is not
      the review's gets an error from both operations. */
  lemma OnlyAuthorChanges(reviews: map<int, Review>, users: map<string, int>, principal: string, id: int,
                          rating: Option<int>, comment: Option<string>)
    requires id in reviews && principal in users && users[principal] != reviews[id].userId
    ensures UpdatedReviews(reviews, users, principal, id, rating, comment) == Err(ResourceNotFound(NOT_OWNER))
    ensures DeletedReviews(reviews, users, principal, id) == Err(ResourceNotFound(NOT_OWNER))
  {
  }

  /** Updating with the values already stored changes nothing. */
  lemma UpdateWithSameValues(reviews: map<int, Review>, users: map<string, int>, principal: string, id: int)
    requires OwnedReview(reviews, users, principal, id).Ok?
    ensures UpdatedReviews(reviews, users, principal, id, reviews[id].rating, reviews[id].comment) == Ok(reviews)
  {
    var r := UpdatedReviews(reviews, users, principal, id, reviews[id].rating, reviews[id].comment).value;
    assert r[id] == reviews[id];
    assert r == reviews;
  }

  /** The review table, with the product ids and users that exist. */
  class ProductReviewService {
    var reviews: map<int, Review>
    var nextId: int
    const products: set<int>
    const users: map<string, int>

    predicate Valid()
      reads this
    {
      forall k :: k in reviews ==> k < nextId
    }

    constructor (products: set<int>, users: map<string, int>)
      ensures reviews == map[] && nextId == 1 && this.products == products && this.users == users
      ensures Valid()
    {
      reviews := map[];
      nextId := 1;
      this.products := products;
      this.users := users;
    }

    /** `getProductReviews` and `getUserReviews`: the ids of the reviews of
        one product, or of one user. */
    function ReviewIds(filter: ReviewFilter): (r: set<int>)
      reads this
      ensures forall k :: k in r <==> k in reviews && filter.Selects(reviews[k])
    {
      set k | k in reviews && filter.Selects(reviews[k])
    }

    /** `createReview`: the principal must be a user and the product must
        exist (looked up in that order); the principal becomes the author. */
    method CreateReview(principal: string, productId: int, rating: Option<int>, comment: Option<string>)
      returns (r: Result<int, Failure>)
      requires Valid()
      modifies this`reviews, this`nextId
      ensures Valid()
      ensures principal !in users ==> r == Err(UserNotFound(principal)) && unchanged(this)
      ensures principal in users && productId !in products ==>
        r == Err(ResourceNotFound("Product not found with id: " + IntToString(productId))) && unchanged(this)
      ensures principal in users && productId in products ==>
        r == Ok(old(nextId)) && old(nextId) !in old(reviews)
        && reviews == old(reviews)[old(nextId) := Review(productId, users[principal], rating, comment)]
    {
      var user := AuthenticatedUser(users, principal);
      if user.Err? {
        return Err(user.error);
      }
      if productId !in products {
        return Err(ResourceNotFound("Product not found with id: " + IntToString(productId)));
      }
      reviews := reviews[nextId := Review(productId, user.value, rating, comment)];
      r := Ok(nextId);
      nextId := nextId + 1;
    }

    /** `updateReview`: the table becomes `UpdatedReviews`, or stays as it
        was on an error. */
    method UpdateReview(principal: string, id: int, rating: Option<int>, comment: Option<string>)
      returns (r: Result<Review, Failure>)
      requires Valid()
      modifies this`reviews
      ensures Valid()
      ensures var u := UpdatedReviews(old(reviews), users, principal, id, rating, comment);
        (u.Err? ==> r == Err(u.error) && reviews == old(reviews))
        && (u.Ok? ==> reviews == u.value && r == Ok(reviews[id]))
    {
      var u := UpdatedReviews(reviews, users, principal, id, rating, comment);
      if u.Err? {
        return Err(u.error);
      }
      reviews := u.value;
      r := Ok(reviews[id]);
    }

    /** `deleteReview`: the table becomes `DeletedReviews`, or stays as it
        was on an error. */
    method DeleteReview(principal: string, id: int) returns (r: Result<(), Failure>)
      requires Valid()
      modifies this`reviews
      ensures Valid()
      ensures var d := DeletedReviews(old(reviews), users, principal, id);
        (d.Err? ==> r == Err(d.error) && reviews == old(reviews))
        && (d.Ok? ==> reviews == d.value && r == Ok(()))
    {
      var d := DeletedReviews(reviews, users, principal, id);
      if d.Err? {
        return Err(d.error);
      }
      reviews := d.value;
      r := Ok(());
    }
  }
}
