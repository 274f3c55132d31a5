/** The marketplace grid: an empty-state panel when nothing matches, and
    otherwise one card per property with its image and its two flags. */
module PropertyGrid {
  import opened Common
  import JsString
  import Marketplace

  /** What a card is given: the property, the image (`undefined` when the
      index misses the list), and whether the property is wishlisted or in
      the cart. */
  datatype Card = Card(property: Marketplace.Property, imageUrl: Option<string>,
                       isInWishlist: bool, isInCart: bool)

  datatype Grid = EmptyState | Cards(cards: seq<Card>)

  /** `demoImages[id % demoImages.length]`: with no images the remainder is
      NaN, and a negative id leaves a negative remainder; both index nothing. */
  function ImageFor(images: seq<string>, id: int): (r: Option<string>)
    ensures |images| == 0 ==> r == None
    ensures r.Some? ==> r.value in images
    ensures |images| > 0 && id >= 0 ==> r == Some(images[id % |images|])
  {
    if |images| == 0 then None
    else
      var k := JsString.JsRem(id, |images|);
      if 0 <= k then Some(images[k]) else None
  }

  function CardFor(p: Marketplace.Property, images: seq<string>, wishlist: seq<int>,
                   cart: seq<Marketplace.CartItem>): Card
  {
    Card(p, ImageFor(images, p.id), p.id in wishlist, Marketplace.InCart(cart, p.id))
  }

  /** The grid as rendered from its props. */
  function Render(filtered: seq<Marketplace.Property>, images: seq<string>, wishlist: seq<int>,
                  cart: seq<Marketplace.CartItem>): (r: Grid)
    ensures r.EmptyState? <==> filtered == []
    ensures r.Cards? ==> |r.cards| == |filtered|
    ensures r.Cards? ==> forall i :: 0 <= i < |filtered| ==>
      && r.cards[i].property == filtered[i]
      && (r.cards[i].isInWishlist <==> filtered[i].id in wishlist)
      && (r.cards[i].isInCart <==> Marketplace.InCart(cart, filtered[i].id))
      && r.cards[i].imageUrl == ImageFor(images, filtered[i].id)
  {
    if filtered == [] then EmptyState
    else Cards(seq(|filtered|, i requires 0 <= i < |filtered| => CardFor(filtered[i], images, wishlist, cart)))
  }

  /** Toggling a property's wishlist entry flips the heart on its card and on
      no other property's card. */
  lemma ToggleFlipsHeart(filtered: seq<Marketplace.Property>, images: seq<string>, wishlist: seq<int>,
                         cart: seq<Marketplace.CartItem>, id: int, i: int)
    requires 0 <= i < |filtered|
    ensures Render(filtered, images, Marketplace.WishlistToggle(wishlist, id), cart).cards[i].isInWishlist ==
      (if filtered[i].id == id then !Render(filtered, images, wishlist, cart).cards[i].isInWishlist
       else Render(filtered, images, wishlist, cart).cards[i].isInWishlist)
  {
  }

  /** Adding a property to the cart marks its card, whatever was in the
      cart before. */
  lemma AddMarksCart(filtered: seq<Marketplace.Property>, images: seq<string>, wishlist: seq<int>,
                     cart: seq<Marketplace.CartItem>, p: Marketplace.Property, i: int)
    requires 0 <= i < |filtered| && filtered[i].id == p.id
    ensures Render(filtered, images, wishlist, Marketplace.CartAdd(cart, p)).cards[i].isInCart
  {
  }
}
