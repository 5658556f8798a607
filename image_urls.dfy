/** The three ways the storefront turns a product's `image` field into the `src` of an
    `<img>`: `getImageUrl` on the Kids listing, the inline `imageUrl` on the Sale listing,
    and `imageUrl` on the product detail page. Stored paths may use Windows separators,
    which are rewritten to forward slashes before they are put behind the API server's
    address. */
module ImageUrls {
  import opened Strings
  import opened Products

  /** The API server that serves uploaded images. */
  const ServerBase := "http://localhost:5000/"
  /** The server's uploads folder. */
  const UploadsBase := "http://localhost:5000/uploads/"
  /** The fallback image of the listings. */
  const Placeholder := "https://via.placeholder.com/300"

  /** JavaScript truthiness of `product.image`: present and not the empty string. */
  predicate Truthy(image: Option<string>) {
    image.Some? && image.value != ""
  }

  /** `s` ends with `suffix`. */
  predicate EndsWith(s: string, suffix: string) {
    |suffix| <= |s| && s[|s| - |suffix|..] == suffix
  }

  lemma IncludesAfterPrefix(prefix: string, s: string, sub: string)
    requires Includes(s, sub)
    ensures Includes(prefix + s, sub)
  {
    var i :| OccursAt(s, sub, i);
    assert (prefix + s)[|prefix| + i..|prefix| + i + |sub|] == s[i..i + |sub|];
    assert OccursAt(prefix + s, sub, |prefix| + i);
  }

  lemma NormalisedIncludes(s: string, sub: string)
    requires '\\' !in sub && Includes(s, sub)
    ensures Includes(ReplaceBackslashes(s), sub)
  {
    var i :| OccursAt(s, sub, i);
    ReplaceKeepsOccurrence(s, sub, i);
  }

  /** `getImageUrl(product)` of the Kids listing. Every result is an absolute http(s)
      address. A missing or empty image gives the placeholder; an image that already is
      an http address is used as it is, and only then; any other image becomes a
      backslash-free address on the API server ending in the slash-normalised path, with
      the uploads folder put in front of the path exactly when the path does not mention
      "uploads" already, so it is never added twice. */
  function KidsImageUrl(image: Option<string>): (url: string)
    ensures StartsWith(url, "http")
    ensures !Truthy(image) ==> url == Placeholder
    ensures Truthy(image) ==> (url == image.value <==> StartsWith(image.value, "http"))
    ensures Truthy(image) && !StartsWith(image.value, "http") ==>
              && '\\' !in url
              && EndsWith(url, ReplaceBackslashes(image.value))
              && (if Includes(image.value, "uploads")
                  then |url| == |ServerBase| + |image.value| && StartsWith(url, ServerBase)
                  else |url| == |UploadsBase| + |image.value| && StartsWith(url, UploadsBase))
  {
    if Truthy(image) then
      var path := image.value;
      if StartsWith(path, "http") then path
      else if Includes(path, "uploads") then ServerBase + ReplaceBackslashes(path)
      else UploadsBase + ReplaceBackslashes(path)
    else
      Placeholder
  }

  /** A local image on the Kids listing is always looked up in the uploads folder: the
      address mentions "uploads" whether or not the stored path did. */
  lemma KidsLocalImagesInUploads(image: Option<string>)
    requires Truthy(image) && !StartsWith(image.value, "http")
    ensures Includes(KidsImageUrl(image), "uploads")
  {
    var path := image.value;
    if Includes(path, "uploads") {
      NormalisedIncludes(path, "uploads");
      IncludesAfterPrefix(ServerBase, ReplaceBackslashes(path), "uploads");
    } else {
      assert OccursAt(UploadsBase + ReplaceBackslashes(path), "uploads", 22);
    }
  }

  /** The inline `imageUrl` of the Sale listing. Every result is an absolute http(s)
      address; a missing or empty image gives the placeholder; an http address is used as
      it is, and only then; any other image becomes the API server's address followed by
      the slash-normalised path, with no uploads folder put in between. */
  function SaleImageUrl(image: Option<string>): (url: string)
    ensures StartsWith(url, "http")
    ensures !Truthy(image) ==> url == Placeholder
    ensures Truthy(image) ==> (url == image.value <==> StartsWith(image.value, "http"))
    ensures Truthy(image) && !StartsWith(image.value, "http") ==>
              && '\\' !in url
              && StartsWith(url, ServerBase)
              && EndsWith(url, ReplaceBackslashes(image.value))
              && |url| == |ServerBase| + |image.value|
  {
    if Truthy(image) && StartsWith(image.value, "http") then image.value
    else if Truthy(image) then ServerBase + ReplaceBackslashes(image.value)
    else Placeholder
  }

  /** The two listings resolve an image to the same address except for a local path that
      does not mention "uploads": there the Kids listing looks in the uploads folder and
      the Sale listing at the server's root. */
  lemma ListingUrlsAgree(image: Option<string>)
    ensures KidsImageUrl(image) == SaleImageUrl(image) <==>
              !Truthy(image) || StartsWith(image.value, "http") || Includes(image.value, "uploads")
  {
    if Truthy(image) && !StartsWith(image.value, "http") && !Includes(image.value, "uploads") {
      assert |KidsImageUrl(image)| != |SaleImageUrl(image)|;
    }
  }

  /** Resolving an address the listings produced changes nothing. */
  lemma ListingUrlsIdempotent(image: Option<string>)
    ensures KidsImageUrl(Some(KidsImageUrl(image))) == KidsImageUrl(image)
    ensures SaleImageUrl(Some(SaleImageUrl(image))) == SaleImageUrl(image)
  {
  }

  /** `imageUrl` of the detail page as written: `item.image.startsWith("http")` is called
      without a presence check, so a product without an image makes the render throw a
      TypeError, modelled as `None`. A present image (even an empty one) resolves like
      the Sale listing's non-placeholder branches. */
  function DetailsImageUrl(image: Option<string>): (url: Option<string>)
    ensures url.None? <==> image.None?
    ensures url.Some? ==> StartsWith(url.value, "http")
    ensures url.Some? ==> (url.value == image.value <==> StartsWith(image.value, "http"))
    ensures url.Some? && !StartsWith(image.value, "http") ==>
              '\\' !in url.value && StartsWith(url.value, ServerBase) &&
              EndsWith(url.value, ReplaceBackslashes(image.value)) &&
              |url.value| == |ServerBase| + |image.value|
  {
    match image
    case None => None
    case Some(path) => Some(if StartsWith(path, "http") then path else ServerBase + ReplaceBackslashes(path))
  }

  /** A product without an image is shown with the placeholder by both listings, yet
      opening it makes the detail page throw. */
  lemma MissingImageBreaksDetails(p: Product)
    requires p.image == None
    ensures KidsImageUrl(p.image) == Placeholder && SaleImageUrl(p.image) == Placeholder
    ensures DetailsImageUrl(p.image) == None
  {
  }

  /** The detail page's address with the listings' fallback for a missing image: it
      always resolves, agrees with the page as written wherever that does not throw, and
      shows every product the way the Sale listing does except an empty image path. */
  function DetailsImageUrlOrPlaceholder(image: Option<string>): (url: string)
    ensures StartsWith(url, "http")
    ensures DetailsImageUrl(image).Some? ==> url == DetailsImageUrl(image).value
    ensures image.None? ==> url == Placeholder
    ensures image != Some("") ==> url == SaleImageUrl(image)
  {
    match image
    case None => Placeholder
    case Some(_) => DetailsImageUrl(image).value
  }
}
