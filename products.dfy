/** Product records as the listings and the detail page receive them, the discount
    badge test and the wishlist decision shared by the two listings. */
module Products {

  datatype Option<+T> = None | Some(value: T)

  /** A catalog product. A missing `oldPrice` or `image` is `None`; prices are exact
      decimals. */
  datatype Product = Product(
    id: int,
    name: string,
    price: real,
    oldPrice: Option<real>,
    description: string,
    image: Option<string>)

  /** JavaScript truthiness of an optional number: present and not zero. */
  predicate TruthyNumber(x: Option<real>) {
    x.Some? && x.value != 0.0
  }

  /** `product.oldPrice && product.oldPrice > product.price`: whether a listing shows
      the discount badge and the struck-through old price. */
  predicate HasDiscount(p: Product)
    ensures HasDiscount(p) ==> p.oldPrice.Some? && p.oldPrice.value > p.price
    ensures p.oldPrice == Some(0.0) ==> !HasDiscount(p)
  {
    TruthyNumber(p.oldPrice) && p.oldPrice.value > p.price
  }

  /** For a product whose price is not negative, the truthiness test is redundant: the
      badge shows exactly when an old price is present and above the current one. */
  lemma HasDiscountForNonNegativePrice(p: Product)
    requires p.price >= 0.0
    ensures HasDiscount(p) <==> p.oldPrice.Some? && p.oldPrice.value > p.price
  {
  }

  /** `favoriteItems.some((fav) => fav.id === id)`, scanning from the front. */
  function AnyHasId(favorites: seq<Product>, id: int): (r: bool)
    ensures r <==> exists i :: 0 <= i < |favorites| && favorites[i].id == id
  {
    if favorites == [] then false
    else favorites[0].id == id || AnyHasId(favorites[1..], id)
  }

  /** The action a click on a product's heart dispatches to the wishlist store. */
  datatype FavoriteAction = AddToFavorite(product: Product) | RemoveFromFavorite(id: int)

  /** A wishlisted product (one sharing its id with some favourite) is removed by id;
      any other product is added whole. */
  function FavoriteToggle(favorites: seq<Product>, product: Product): (a: FavoriteAction)
    ensures a.RemoveFromFavorite? <==> exists i :: 0 <= i < |favorites| && favorites[i].id == product.id
    ensures a.RemoveFromFavorite? ==> a.id == product.id
    ensures a.AddToFavorite? ==> a.product == product
  {
    if AnyHasId(favorites, product.id) then RemoveFromFavorite(product.id) else AddToFavorite(product)
  }
}
