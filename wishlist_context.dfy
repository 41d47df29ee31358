/** The client's wishlist state. Each operation takes the remote reply as an
    input; there is no in-flight guard, so an operation is one step. */
module WishlistContext {
  import opened Common
  import opened Models

  /** A wishlist entry as the client holds it: a populated art object (what
      `GET /wishlist` sends) or a bare id string (what add and remove send
      back). Only the populated form has an `_id`. */
  datatype WishEntry = PopulatedArt(id: ArtId) | BareId(id: ArtId)

  /** A reply to add or remove: its `wishlist` field, when it has one. */
  type WishReply = Remote<Option<seq<WishEntry>>>

  /** `wishlist.some(item => item._id === artId)`. */
  /** Only a populated entry can match: the art is recognised exactly when
      its populated form is in the list, whatever bare ids it holds. */
  predicate IsInWishlist(list: seq<WishEntry>, art: ArtId)
    ensures IsInWishlist(list, art) <==> PopulatedArt(art) in list
  {
    exists k :: 0 <= k < |list| && list[k].PopulatedArt? && list[k].id == art
  }

  /** `error.message || fallback`: an empty message gives the fallback. */
  function MessageOr(message: string, fallback: string): string {
    if message != "" then message else fallback
  }

  /** Line 126: drop the populated entries of the art; bare ids, which have no
      `_id`, all stay. */
  function LocalRemove(list: seq<WishEntry>, art: ArtId): (r: seq<WishEntry>)
    ensures !IsInWishlist(r, art)
    ensures forall k :: 0 <= k < |list| && list[k].BareId? ==> list[k] in r
    ensures forall k :: 0 <= k < |list| && list[k].id != art ==> list[k] in r
    ensures forall k :: 0 <= k < |r| ==> r[k] in list
  {
    Filter(list, (e: WishEntry) => !(e.PopulatedArt? && e.id == art))
  }

  /** The list the backend sends back after add or remove: bare ids. */
  function BareIds(ids: seq<ArtId>): (r: seq<WishEntry>)
    ensures |r| == |ids| && forall k :: 0 <= k < |r| ==> r[k] == BareId(ids[k])
  {
    seq(|ids|, k requires 0 <= k < |ids| => BareId(ids[k]))
  }

  /** The list `GET /wishlist` sends: populated arts. */
  function PopulatedArts(arts: seq<Art>): (r: seq<WishEntry>)
    ensures |r| == |arts| && forall k :: 0 <= k < |r| ==> r[k] == PopulatedArt(arts[k].id)
  {
    seq(|arts|, k requires 0 <= k < |arts| => PopulatedArt(arts[k].id))
  }

  /** After a reply of bare ids no art is recognised as wishlisted, whatever
      the ids; after a fetched list exactly the fetched arts are. */
  lemma RecognisedEntries(ids: seq<ArtId>, arts: seq<Art>, art: ArtId)
    ensures !IsInWishlist(BareIds(ids), art)
    ensures IsInWishlist(PopulatedArts(arts), art) <==> exists k :: 0 <= k < |arts| && arts[k].id == art
  {
    var fetched := PopulatedArts(arts);
    if exists k :: 0 <= k < |arts| && arts[k].id == art {
      var k :| 0 <= k < |arts| && arts[k].id == art;
      assert fetched[k] == PopulatedArt(art);
    }
  }

  class WishlistState {
    var wishlist: seq<WishEntry>
    var loading: bool
    var error: Option<string>

    constructor ()
      ensures wishlist == [] && !loading && error == None
    {
      wishlist, loading, error := [], false, None;
    }

    /** `fetchWishlist`: the fetched list replaces the local one; a failure
        records its message and keeps the list. */
    method Fetch(loggedIn: bool, reply: Remote<seq<WishEntry>>)
      modifies this
      ensures !loggedIn ==> unchanged(this)
      ensures loggedIn && reply.Succeeded? ==> wishlist == reply.data && error == None && !loading
      ensures loggedIn && reply.Failed? ==>
        wishlist == old(wishlist) && error == Some(MessageOr(reply.message, "Failed to fetch wishlist")) && !loading
    {
      if !loggedIn {
        return;
      }
      loading := true;
      error := None;
      match reply {
        case Succeeded(list) => wishlist := list;
        case Failed(message) => error := Some(MessageOr(message, "Failed to fetch wishlist"));
      }
      loading := false;
    }

    /** The effect on a change of user: a signed-in user's list is fetched, a
        signed-out visitor's list is emptied. */
    method UserChanged(loggedIn: bool, reply: Remote<seq<WishEntry>>)
      modifies this
      ensures !loggedIn ==> wishlist == [] && error == old(error) && loading == old(loading)
      ensures loggedIn && reply.Succeeded? ==> wishlist == reply.data && error == None && !loading
      ensures loggedIn && reply.Failed? ==>
        wishlist == old(wishlist) && error == Some(MessageOr(reply.message, "Failed to fetch wishlist")) && !loading
    {
      if loggedIn {
        Fetch(loggedIn, reply);
      } else {
        wishlist := [];
      }
    }

    /** `clearError`. */
    method ClearError()
      modifies this
      ensures error == None && wishlist == old(wishlist) && loading == old(loading)
    {
      error := None;
    }

    /** `addToWishlist`: without a user an error and `false`; a reply with a
        `wishlist` replaces the list; one without triggers a fetch, whose reply
        is `refetch`; a failure records its message and keeps the list. */
    method Add(loggedIn: bool, art: ArtId, reply: WishReply, refetch: Remote<seq<WishEntry>>) returns (ok: bool)
      modifies this
      ensures !loggedIn ==> !ok && error == Some("You must be logged in to add to wishlist")
                            && wishlist == old(wishlist) && loading == old(loading)
      ensures loggedIn ==> !loading
      ensures loggedIn && reply.Failed? ==>
        !ok && wishlist == old(wishlist) && error == Some(MessageOr(reply.message, "Failed to add to wishlist"))
      ensures loggedIn && reply.Succeeded? && reply.data.Some? ==> ok && wishlist == reply.data.value && error == None
      ensures loggedIn && reply.Succeeded? && reply.data.None? && refetch.Succeeded? ==>
        ok && wishlist == refetch.data && error == None
      ensures loggedIn && reply.Succeeded? && reply.data.None? && refetch.Failed? ==>
        ok && wishlist == old(wishlist) && error == Some(MessageOr(refetch.message, "Failed to fetch wishlist"))
    {
      if !loggedIn {
        error := Some("You must be logged in to add to wishlist");
        return false;
      }
      loading := true;
      error := None;
      match reply {
        case Failed(message) =>
          error := Some(MessageOr(message, "Failed to add to wishlist"));
          ok := false;
        case Succeeded(data) =>
          if data.Some? {
            wishlist := data.value;
          } else {
            Fetch(loggedIn, refetch);
          }
          ok := true;
      }
      loading := false;
    }

    /** `removeFromWishlist`: as add, except that a reply without a `wishlist`
        drops the art's populated entries locally. */
    method Remove(loggedIn: bool, art: ArtId, reply: WishReply) returns (ok: bool)
      modifies this
      ensures !loggedIn ==> !ok && error == Some("You must be logged in to remove from wishlist")
                            && wishlist == old(wishlist) && loading == old(loading)
      ensures loggedIn ==> !loading
      ensures loggedIn && reply.Failed? ==>
        !ok && wishlist == old(wishlist) && error == Some(MessageOr(reply.message, "Failed to remove from wishlist"))
      ensures loggedIn && reply.Succeeded? ==> ok && error == None
      ensures loggedIn && reply.Succeeded? && reply.data.Some? ==> wishlist == reply.data.value
      ensures loggedIn && reply.Succeeded? && reply.data.None? ==> wishlist == LocalRemove(old(wishlist), art)
    {
      if !loggedIn {
        error := Some("You must be logged in to remove from wishlist");
        return false;
      }
      loading := true;
      error := None;
      match reply {
        case Failed(message) =>
          error := Some(MessageOr(message, "Failed to remove from wishlist"));
          ok := false;
        case Succeeded(data) =>
          if data.Some? {
            wishlist := data.value;
          } else {
            wishlist := LocalRemove(wishlist, art);
          }
          ok := true;
      }
      loading := false;
    }

    /** `toggleWishlistItem`: remove when the art is recognised, add otherwise.
        The reply (and the refetch) belong to whichever call is made. */
    method Toggle(loggedIn: bool, art: ArtId, reply: WishReply, refetch: Remote<seq<WishEntry>>) returns (ok: bool, removed: bool)
      modifies this
      ensures removed <==> IsInWishlist(old(wishlist), art)
      ensures !loggedIn ==> !ok && wishlist == old(wishlist)
      ensures loggedIn && removed && reply.Succeeded? && reply.data.None? ==> wishlist == LocalRemove(old(wishlist), art)
      ensures loggedIn && reply.Succeeded? && reply.data.Some? ==> ok && wishlist == reply.data.value
      ensures loggedIn && reply.Failed? ==> !ok && wishlist == old(wishlist)
    {
      removed := IsInWishlist(wishlist, art);
      if removed {
        ok := Remove(loggedIn, art, reply);
      } else {
        ok := Add(loggedIn, art, reply, refetch);
      }
    }
  }
}
