/** The product detail page: the product arrives in the navigation state; the shopper
    picks a size and a colour from fixed lists, adds the product with those picks to the
    cart or to the wishlist, and writes reviews (a 1-to-5 star rating, a text and an
    optional photo) that are put at the top of the page's review list. */
module ProductDetails {
  import opened Strings
  import opened Products
  import opened ImageUrls

  /** The size buttons, in order. */
  const Sizes: seq<string> := ["XS", "S", "M", "L", "XL", "XXL"]
  /** The colour swatches, in order. */
  const Colors: seq<string> := ["Black", "White", "Blue", "Red", "Green"]
  /** `useState("M")`, `useState("Black")`, `useState(5)` */
  const DefaultSize := "M"
  const DefaultColor := "Black"
  const DefaultRating := 5

  /** What the page renders. */
  datatype DetailView = ProductNotFound | ShowProduct(item: Product, imageUrl: string)

  /** Without an `item` in the navigation state the page renders only "Product not
      found"; otherwise it renders that product, with the image address that falls back
      to the placeholder when the product has no image. */
  function View(item: Option<Product>): (v: DetailView)
    ensures v.ProductNotFound? <==> item.None?
    ensures v.ShowProduct? ==> v.item == item.value && StartsWith(v.imageUrl, "http")
    ensures v.ShowProduct? && DetailsImageUrl(item.value.image).Some? ==>
              v.imageUrl == DetailsImageUrl(item.value.image).value
  {
    match item
    case None => ProductNotFound
    case Some(p) => ShowProduct(p, DetailsImageUrlOrPlaceholder(p.image))
  }

  /** `{ ...item, selectedSize, selectedColor }`: every field of the product, and the
      two picks. */
  datatype CartLine = CartLine(
    id: int,
    name: string,
    price: real,
    oldPrice: Option<real>,
    description: string,
    image: Option<string>,
    selectedSize: string,
    selectedColor: string)

  /** The product a cart line was made from. */
  function ProductOf(line: CartLine): Product {
    Product(line.id, line.name, line.price, line.oldPrice, line.description, line.image)
  }

  /** The cart line extends the product with the picks and changes none of its fields. */
  function WithSelections(item: Product, size: string, color: string): (line: CartLine)
    ensures ProductOf(line) == item
    ensures line.selectedSize == size && line.selectedColor == color
  {
    CartLine(item.id, item.name, item.price, item.oldPrice, item.description, item.image, size, color)
  }

  /** A shown review. `image` is the photo's object URL, if one was attached. */
  datatype Review = Review(id: int, name: string, rating: int, date: string, comment: string, image: Option<string>)

  /** The two reviews the page starts with. */
  const InitialReviews: seq<Review> := [
    Review(1, "Sarah Johnson", 5, "2025-02-15",
           "This product exceeded my expectations! The quality is outstanding and it fits perfectly.",
           Some("/api/placeholder/80/80")),
    Review(2, "Michael Chen", 4, "2025-02-10",
           "Great product overall. The material is high quality but I wish there were more color options.",
           None)
  ]

  /** The review `handleReviewSubmit` builds: the next id, the name "You", and the form's
      rating, text and photo. */
  function NewReview(reviews: seq<Review>, rating: int, date: string, comment: string, image: Option<string>): (r: Review)
    ensures r.id == |reviews| + 1 && r.name == "You"
    ensures IdsNumbered(reviews) ==> r.id !in ReviewIds(reviews)
    ensures r.rating == rating && r.comment == comment && r.image == image && r.date == date
  {
    Review(|reviews| + 1, "You", rating, date, comment, image)
  }

  ghost function ReviewIds(reviews: seq<Review>): set<int> {
    set i | 0 <= i < |reviews| :: reviews[i].id
  }

  /** The numbers 1 to `n`. */
  ghost function OneTo(n: nat): (s: set<int>)
    ensures forall k :: k in s <==> 1 <= k <= n
  {
    if n == 0 then {} else OneTo(n - 1) + {n}
  }

  /** The ids are pairwise distinct and are exactly 1 to the number of reviews. */
  ghost predicate IdsNumbered(reviews: seq<Review>) {
    && (forall i, j :: 0 <= i < j < |reviews| ==> reviews[i].id != reviews[j].id)
    && ReviewIds(reviews) == OneTo(|reviews|)
  }

  /** Every review has a rating of 1 to 5 stars and a non-empty text. */
  ghost predicate WellFormed(reviews: seq<Review>) {
    forall i :: 0 <= i < |reviews| ==> 1 <= reviews[i].rating <= 5 && reviews[i].comment != ""
  }

  lemma InitialReviewsNumbered()
    ensures IdsNumbered(InitialReviews) && WellFormed(InitialReviews)
  {
    assert InitialReviews[0].id == 1 && InitialReviews[1].id == 2;
    assert ReviewIds(InitialReviews) == {1, 2};
    assert OneTo(2) == {1, 2};
  }

  /** Putting a new review in front keeps the ids distinct and numbered 1 to n: the new
      id is one past the largest. */
  lemma SubmitKeepsIdsNumbered(reviews: seq<Review>, rating: int, date: string, comment: string, image: Option<string>)
    requires IdsNumbered(reviews)
    ensures IdsNumbered([NewReview(reviews, rating, date, comment, image)] + reviews)
  {
    var r := NewReview(reviews, rating, date, comment, image);
    var s := [r] + reviews;
    forall i | 0 <= i < |reviews| ensures 1 <= reviews[i].id <= |reviews| {
      assert reviews[i].id in ReviewIds(reviews);
    }
    assert ReviewIds(s) == {r.id} + ReviewIds(reviews) by {
      forall x ensures x in ReviewIds(s) <==> x in {r.id} + ReviewIds(reviews) {
        if x == r.id {
          assert s[0].id == x;
        }
        if x in ReviewIds(s) {
          var i :| 0 <= i < |s| && s[i].id == x;
          if i > 0 { assert reviews[i - 1].id == x; }
        }
        if x in ReviewIds(reviews) {
          var i :| 0 <= i < |reviews| && reviews[i].id == x;
          assert s[i + 1].id == x;
        }
      }
    }
    assert OneTo(|s|) == OneTo(|reviews|) + {|s|};
  }

  /** `"★".repeat(rating)` followed by `"☆".repeat(5 - rating)` in a shown review.
      `repeat` throws a RangeError on a negative count, modelled as `None`. */
  function ReviewStars(rating: int): (stars: Option<string>)
    ensures stars.Some? <==> 0 <= rating <= 5
    ensures stars.Some? ==> |stars.value| == 5
    ensures stars.Some? ==> forall i :: 0 <= i < 5 ==> stars.value[i] == if i < rating then '★' else '☆'
  {
    if 0 <= rating <= 5 then Some(seq(rating, _ => '★') + seq(5 - rating, _ => '☆')) else None
  }

  /** The form's five star buttons: star `k` (1 to 5) is filled when `k <= rating`. */
  function FormStars(rating: int): (stars: string)
    ensures |stars| == 5
  {
    seq(5, i => if i + 1 <= rating then '★' else '☆')
  }

  /** A posted review shows the stars the form showed when it was submitted. */
  lemma PostedStarsMatchForm(rating: int)
    requires 1 <= rating <= 5
    ensures ReviewStars(rating) == Some(FormStars(rating))
  {
    var shown, form := ReviewStars(rating).value, FormStars(rating);
    assert forall i :: 0 <= i < 5 ==> shown[i] == form[i];
    assert shown == form;
  }

  class ProductDetailsPage {
    /** `location.state?.item` */
    const item: Option<Product>
    var selectedSize: string
    var selectedColor: string
    var reviewText: string
    var rating: int
    /** The photo picked for the review, by file name. */
    var reviewImage: Option<string>
    var reviews: seq<Review>

    /** The picks come from the fixed lists, the rating is 1 to 5 stars, and the review
      list is well formed and numbered. */
    ghost predicate Valid()
      reads this
    {
      && selectedSize in Sizes
      && selectedColor in Colors
      && 1 <= rating <= 5
      && IdsNumbered(reviews)
      && WellFormed(reviews)
    }

    constructor (navigationItem: Option<Product>)
      ensures Valid()
      ensures item == navigationItem
      ensures selectedSize == DefaultSize && selectedColor == DefaultColor
      ensures reviewText == "" && rating == DefaultRating && reviewImage == None
      ensures reviews == InitialReviews
    {
      item := navigationItem;
      selectedSize, selectedColor := DefaultSize, DefaultColor;
      reviewText, rating, reviewImage := "", DefaultRating, None;
      reviews := InitialReviews;
      InitialReviewsNumbered();
    }

    /** A click on a size button: `setSelectedSize(size)`. */
    method SelectSize(size: string)
      requires Valid() && item.Some? && size in Sizes
      modifies this`selectedSize
      ensures Valid() && selectedSize == size
    {
      selectedSize := size;
    }

    /** A click on a colour swatch: `setSelectedColor(color)`. */
    method SelectColor(color: string)
      requires Valid() && item.Some? && color in Colors
      modifies this`selectedColor
      ensures Valid() && selectedColor == color
    {
      selectedColor := color;
    }

    /** A click on star button `star` of the form: `setRating(star)`. */
    method SelectRating(star: int)
      requires Valid() && item.Some? && 1 <= star <= 5
      modifies this`rating
      ensures Valid() && rating == star
    {
      rating := star;
    }

    /** Typing in the review box: `setReviewText(e.target.value)`. */
    method EditReviewText(text: string)
      requires Valid() && item.Some?
      modifies this`reviewText
      ensures Valid() && reviewText == text
    {
      reviewText := text;
    }

    /** `handleImageUpload`: the first chosen file, if any, becomes the review's photo;
      an empty choice keeps the previous one. */
    method UploadImage(files: seq<string>)
      requires Valid() && item.Some?
      modifies this`reviewImage
      ensures Valid()
      ensures reviewImage == if |files| > 0 then Some(files[0]) else old(reviewImage)
    {
      if |files| > 0 {
        reviewImage := Some(files[0]);
      }
    }

    /** `handleAddToCart`: the cart line dispatched with `addToCart`. It is the shown
      product with the current picks, which are always among the offered ones. */
    method AddToCart() returns (line: CartLine)
      requires Valid() && item.Some?
      ensures ProductOf(line) == item.value
      ensures line.selectedSize == selectedSize && line.selectedColor == selectedColor
      ensures line.selectedSize in Sizes && line.selectedColor in Colors
    {
      line := WithSelections(item.value, selectedSize, selectedColor);
    }

    /** The heart button: `addToFavorite(item)`; unlike the listings it never removes. */
    method AddToFavorite() returns (action: FavoriteAction)
      requires Valid() && item.Some?
      ensures action.AddToFavorite? && action.product == item.value
    {
      action := FavoriteAction.AddToFavorite(item.value);
    }

    /** Submitting the review form. The text box is `required`, so the browser runs
      `handleReviewSubmit` only when the text is not empty; the handler puts the new
      review first (today's date and the photo's object URL come from the browser) and
      resets the text, the rating and the photo. */
    method SubmitForm(today: string, objectUrl: string) returns (submitted: bool)
      requires Valid() && item.Some?
      modifies this`reviews, this`reviewText, this`rating, this`reviewImage
      ensures Valid()
      ensures submitted <==> old(reviewText) != ""
      ensures submitted ==>
                && reviews == [NewReview(old(reviews), old(rating), today, old(reviewText),
                                         if old(reviewImage).Some? then Some(objectUrl) else None)] + old(reviews)
                && reviewText == "" && rating == DefaultRating && reviewImage == None
      ensures !submitted ==>
                reviews == old(reviews) && reviewText == old(reviewText) &&
                rating == old(rating) && reviewImage == old(reviewImage)
      ensures |reviews| == |old(reviews)| + (if submitted then 1 else 0)
    {
      submitted := reviewText != "";
      if submitted {
        var image := if reviewImage.Some? then Some(objectUrl) else None;
        SubmitKeepsIdsNumbered(reviews, rating, today, reviewText, image);
        reviews := [NewReview(reviews, rating, today, reviewText, image)] + reviews;
        reviewText, rating, reviewImage := "", DefaultRating, None;
      }
    }
  }
}
