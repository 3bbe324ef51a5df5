/** The art detail page (src/components/UserViewArt.jsx): the image shown and
    its thumbnails, and the add-to-cart and add-to-wishlist handlers with
    their login guard. */
module ArtDetailView {
  import opened Base
  import opened Js
  import opened Seqs
  import opened Effects
  import Api

  /** The fetched art; the four picture URLs as the server sent them. */
  datatype ArtDetail = ArtDetail(id: int, artTitle: string, pictureUrls: seq<JsValue>)

  /** The URLs that get a thumbnail: the truthy ones, in order. */
  function Thumbnails(art: ArtDetail): (r: seq<JsValue>)
    ensures forall u :: u in r <==> u in art.pictureUrls && Truthy(u)
    ensures IsSubsequence(r, art.pictureUrls)
  {
    FilterIsSubsequence(art.pictureUrls, Truthy);
    Filter(art.pictureUrls, Truthy)
  }

  /** The image shown right after the fetch: the first picture URL, or
      undefined when the art has none. */
  function FirstPicture(art: ArtDetail): JsValue
  {
    if |art.pictureUrls| > 0 then art.pictureUrls[0] else Undefined
  }

  const CartLoginText := "User not logged in. Please log in to add items to your cart."
  const WishlistLoginText := "User not logged in. Please log in to add items to your wishlist."
  const CartFailedText := "Failed to add to cart. Please try again."
  const WishlistFailedText := "Failed to add to wishlist. Please try again."

  /** `handleAddToCart`. Without a session: an alert and the login page, no
      request. Before the art has loaded, reading `art.id` throws and only
      the failure alert is shown. Otherwise one item of the current art is
      added, and the cart page follows a success. */
  function AddToCartEffects(session: Option<int>, art: Option<ArtDetail>, result: Result<JsValue, JsError>): (r: seq<Effect>)
    ensures session.None? ==> r == [Alert(Str(CartLoginText)), Navigate("/login")]
    ensures session.Some? && art.None? ==> r == [Alert(Str(CartFailedText))]
    ensures session.Some? && art.Some? ==> |r| >= 2 && r[0] == Send(AddToCartRequest(session.value, art.value.id, 1))
    ensures session.Some? && art.Some? && result.Success? ==>
              r[1..] == [Alert(Str(art.value.artTitle + " has been added to your cart.")), Navigate("/cart")]
    ensures session.Some? && art.Some? && result.Failure? ==> r[1..] == [Alert(Str(CartFailedText))]
    ensures (forall q :: q in Requests(r) ==> q.AddToCartRequest? && q.quantity == 1)
    ensures Navigate("/cart") in r <==> session.Some? && art.Some? && result.Success?
  {
    if session.None? then [Alert(Str(CartLoginText)), Navigate("/login")]
    else if art.None? then [Alert(Str(CartFailedText))]
    else
      var sent := [Send(AddToCartRequest(session.value, art.value.id, 1))];
      var after := if result.Success? then [Alert(Str(art.value.artTitle + " has been added to your cart.")), Navigate("/cart")]
                   else [Alert(Str(CartFailedText))];
      assert (sent + after)[1..] == after;
      sent + after
  }

  /** `handleAddToWishlist`: the same guard, then `addToWishlist`, and the
      wishlist page after a success. */
  function AddToWishlistEffects(session: Option<int>, art: Option<ArtDetail>, result: Result<JsValue, JsError>): (r: seq<Effect>)
    ensures session.None? ==> r == [Alert(Str(WishlistLoginText)), Navigate("/login")]
    ensures session.Some? && art.None? ==> r == [Alert(Str(WishlistFailedText))]
    ensures session.Some? && art.Some? ==> |r| >= 2 && r[0] == Send(AddToWishlistRequest(session.value, art.value.id))
    ensures session.Some? && art.Some? && result.Success? ==>
              r[1..] == [Alert(Str(art.value.artTitle + " has been added to your wishlist.")), Navigate("/wishlist")]
    ensures session.Some? && art.Some? && result.Failure? ==> r[1..] == [Alert(Str(WishlistFailedText))]
    ensures Navigate("/wishlist") in r <==> session.Some? && art.Some? && result.Success?
  {
    if session.None? then [Alert(Str(WishlistLoginText)), Navigate("/login")]
    else if art.None? then [Alert(Str(WishlistFailedText))]
    else
      var sent := [Send(AddToWishlistRequest(session.value, art.value.id))];
      var after := if result.Success? then [Alert(Str(art.value.artTitle + " has been added to your wishlist.")), Navigate("/wishlist")]
                   else [Alert(Str(WishlistFailedText))];
      assert (sent + after)[1..] == after;
      sent + after
  }

  /** No request leaves the page without a session. */
  lemma GuardSendsNothing(art: Option<ArtDetail>, result: Result<JsValue, JsError>)
    ensures Requests(AddToCartEffects(None, art, result)) == []
    ensures Requests(AddToWishlistEffects(None, art, result)) == []
  {
    var cart := AddToCartEffects(None, art, result);
    var wish := AddToWishlistEffects(None, art, result);
    assert cart[1..][1..] == [] && wish[1..][1..] == [];
  }

  /** The page's state. */
  class ArtPage {
    const userId: Option<int>
    const artId: string
    var art: Option<ArtDetail>
    var currentImage: JsValue
    var effects: seq<Effect>

    constructor (session: Option<int>, routeArtId: string)
      ensures userId == session && artId == routeArtId
      ensures art == None && currentImage == Str("") && effects == []
    {
      userId, artId := session, routeArtId;
      art, currentImage, effects := None, Str(""), [];
    }

    /** The fetch effect: on success the art is stored and its first picture
        becomes the current image; a failure is only logged. */
    method Load(outcome: Api.AxiosOutcome<ArtDetail>)
      modifies this
      ensures effects == old(effects) + [Send(GetArtByIdRequest(artId))]
      ensures outcome.Resolved? ==> art == Some(outcome.data) && currentImage == FirstPicture(outcome.data)
      ensures outcome.Rejected? ==> art == old(art) && currentImage == old(currentImage)
    {
      effects := effects + [Send(GetArtByIdRequest(artId))];
      match Api.Call(outcome) {
        case Success(data) =>
          art := Some(data);
          currentImage := FirstPicture(data);
        case Failure(_) =>
      }
    }

    /** Clicking a thumbnail (only shown for a truthy URL) makes it current. */
    method SelectThumbnail(url: JsValue)
      requires art.Some? && url in Thumbnails(art.value)
      modifies this
      ensures currentImage == url && Truthy(currentImage)
      ensures art == old(art) && effects == old(effects)
    {
      currentImage := url;
    }

    method AddToCart(outcome: Api.AxiosOutcome<JsValue>)
      modifies this
      ensures effects == old(effects) + AddToCartEffects(userId, art, Api.Call(outcome))
      ensures art == old(art) && currentImage == old(currentImage)
    {
      effects := effects + AddToCartEffects(userId, art, Api.Call(outcome));
    }

    method AddToWishlist(outcome: Api.FetchOutcome<JsValue>)
      modifies this
      ensures effects == old(effects) + AddToWishlistEffects(userId, art, Api.AddToWishlist(outcome))
      ensures art == old(art) && currentImage == old(currentImage)
    {
      effects := effects + AddToWishlistEffects(userId, art, Api.AddToWishlist(outcome));
    }
  }
}
