/** The arts page: the sample fallback when nothing is loaded, and its
    wishlist toggle, which adds two guards and toasts to the gallery's. */
module ArtsPage {
  import opened Common
  import opened Models

  /** `displayArts`: the loaded arts, or the samples when none are loaded; the
      samples are shown exactly in sample mode (when they are not the loaded
      list themselves). */
  function DisplayArts<T>(arts: seq<T>, samples: seq<T>): (r: seq<T>)
    ensures IsSampleData(arts) ==> r == samples
    ensures !IsSampleData(arts) ==> r == arts
    ensures arts != samples ==> (r == samples <==> IsSampleData(arts))
  {
    if |arts| > 0 then arts else samples
  }

  /** `isSampleData`: nothing is loaded. */
  predicate IsSampleData<T>(arts: seq<T>) {
    |arts| == 0
  }

  datatype ToastKind = Success | Info | Failure

  datatype Toast = Toast(message: string, kind: ToastKind)

  /** What a click on the heart does before any request. */
  datatype Start = NotLoggedIn | SampleMode | Busy | Started(removing: bool)

  class ArtsPageState {
    var localWishlist: set<ArtId>
    var processing: map<ArtId, bool>
    var toast: Option<Toast>

    constructor ()
      ensures localWishlist == {} && processing == map[] && toast == None
    {
      localWishlist, processing, toast := {}, map[], None;
    }

    /** `handleWishlistToggle` up to the request. Without a user, and on sample
        data, only a toast appears; a click on an art already processing is
        ignored; otherwise the art is marked and its membership flipped. */
    method BeginToggle(loggedIn: bool, sampleData: bool, art: ArtId) returns (s: Start)
      modifies this
      ensures !loggedIn ==> s == NotLoggedIn && toast == Some(Toast("Please log in to add to wishlist", Info))
      ensures loggedIn && sampleData ==> s == SampleMode && toast == Some(Toast("Please log in to use wishlist features", Info))
      ensures !s.Started? ==> localWishlist == old(localWishlist) && processing == old(processing)
      ensures loggedIn && !sampleData && art in old(processing) && old(processing)[art] ==> s == Busy && unchanged(this)
      ensures loggedIn && !sampleData && !(art in old(processing) && old(processing)[art]) ==>
        && s == Started(art in old(localWishlist))
        && localWishlist == Flip(old(localWishlist), art)
        && processing == old(processing)[art := true]
        && toast == old(toast)
    {
      if !loggedIn {
        toast := Some(Toast("Please log in to add to wishlist", Info));
        return NotLoggedIn;
      }
      if sampleData {
        toast := Some(Toast("Please log in to use wishlist features", Info));
        return SampleMode;
      }
      if art in processing && processing[art] {
        return Busy;
      }
      processing := processing[art := true];
      s := Started(art in localWishlist);
      localWishlist := Flip(localWishlist, art);
    }

    /** After the context call: a call that returned shows its toast and asks
        for a wishlist refetch; one that threw shows the failure toast and
        flips the art back. The processing mark is cleared either way. */
    method FinishToggle(art: ArtId, removing: bool, threw: bool) returns (refetch: bool)
      modifies this
      ensures refetch <==> !threw
      ensures !threw ==> localWishlist == old(localWishlist)
                         && toast == Some(if removing then Toast("Removed from wishlist", Info)
                                          else Toast("Added to wishlist", Success))
      ensures threw ==> localWishlist == Flip(old(localWishlist), art)
                        && toast == Some(Toast("Failed to update wishlist", Failure))
      ensures processing == old(processing)[art := false]
    {
      if threw {
        toast := Some(Toast("Failed to update wishlist", Failure));
        localWishlist := Flip(localWishlist, art);
        refetch := false;
      } else {
        toast := Some(if removing then Toast("Removed from wishlist", Info) else Toast("Added to wishlist", Success));
        refetch := true;
      }
      processing := processing[art := false];
    }
  }
}
