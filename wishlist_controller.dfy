/** The wishlist controller: a user's wishlist is a sequence of art ids with
    set semantics. Adding an art that is present is refused, removing drops
    every occurrence and has no error for an absent id. */
module WishlistController {
  import opened Common
  import opened Models
  import opened Store

  /** The error a handler reports when the user record is missing: reading
      `wishlist` of `null` throws, and the catch replies with status 500. */
  const NullUserMessage := "Cannot read properties of null (reading 'wishlist')"

  predicate Distinct(list: seq<ArtId>) {
    forall i, j :: 0 <= i < j < |list| ==> list[i] != list[j]
  }

  /** `wishlist.filter(id => id.toString() !== artId)`. */
  function WithoutArt(list: seq<ArtId>, art: ArtId): (r: seq<ArtId>)
    ensures art !in r
    ensures forall x :: x in list && x != art ==> x in r
    ensures forall x :: x in r ==> x in list
  {
    Filter(list, (id: ArtId) => id != art)
  }

  /** Appending an id that is not yet present keeps the list duplicate-free and
      makes it exactly one longer. */
  lemma AppendKeepsDistinct(list: seq<ArtId>, art: ArtId)
    requires Distinct(list) && art !in list
    ensures Distinct(list + [art]) && |list + [art]| == |list| + 1
  {
    var r := list + [art];
    forall i, j | 0 <= i < j < |r| ensures r[i] != r[j] {
      if j == |list| {
        assert r[i] == list[i];
      } else {
        assert r[i] == list[i] && r[j] == list[j];
      }
    }
  }

  /** Removing keeps every other id as many times as it occurred, and the art
      not at all. */
  lemma {:induction false} WithoutArtCounts(list: seq<ArtId>, art: ArtId)
    ensures multiset(WithoutArt(list, art)) == multiset(list)[art := 0]
  {
    if list == [] {
    } else {
      WithoutArtCounts(list[1..], art);
      var m := multiset(list[1..]);
      assert list == [list[0]] + list[1..];
      assert multiset(list) == multiset{list[0]} + m;
      if list[0] != art {
        assert WithoutArt(list, art) == [list[0]] + WithoutArt(list[1..], art);
        assert (multiset{list[0]} + m)[art := 0] == multiset{list[0]} + m[art := 0];
      } else {
        assert WithoutArt(list, art) == WithoutArt(list[1..], art);
        assert (multiset{art} + m)[art := 0] == m[art := 0];
      }
    }
  }

  /** Removing twice is removing once; removing an absent id changes nothing;
      a duplicate-free list stays duplicate-free. */
  lemma WithoutArtIdempotent(list: seq<ArtId>, art: ArtId)
    ensures WithoutArt(WithoutArt(list, art), art) == WithoutArt(list, art)
    ensures art !in list ==> WithoutArt(list, art) == list
    ensures Distinct(list) ==> Distinct(WithoutArt(list, art))
  {
    var p := (id: ArtId) => id != art;
    FilterIdempotent(list, p);
    if art !in list {
      FilterAllPass(list, p);
    }
    if Distinct(list) {
      FilterKeepsPairwise(list, p, (x: ArtId, y: ArtId) => x != y);
    }
  }

  /** The populated `wishlist`: the art of each id that still exists, in
      wishlist order; ids of deleted arts are dropped. */
  function Populate(ids: seq<ArtId>, arts: seq<Art>): (r: seq<Art>)
    ensures |r| <= |ids|
    ensures forall i :: 0 <= i < |r| ==> r[i].id in ids && FindArt(arts, r[i].id) == Some(r[i])
    ensures forall i :: 0 <= i < |ids| && FindArt(arts, ids[i]).Some? ==> FindArt(arts, ids[i]).value in r
  {
    if ids == [] then []
    else
      var rest := Populate(ids[1..], arts);
      PopulateStep(ids, arts, rest);
      match FindArt(arts, ids[0])
      case Some(a) =>
        var r := [a] + rest;
        assert forall i :: 1 <= i < |r| ==> r[i] == rest[i - 1];
        r
      case None => rest
  }

  /** What the tail's population says, restated for the whole list. */
  lemma PopulateStep(ids: seq<ArtId>, arts: seq<Art>, rest: seq<Art>)
    requires ids != []
    requires forall i :: 0 <= i < |rest| ==> rest[i].id in ids[1..]
    requires forall i :: 0 <= i < |ids[1..]| && FindArt(arts, ids[1..][i]).Some? ==> FindArt(arts, ids[1..][i]).value in rest
    ensures forall i :: 0 <= i < |rest| ==> rest[i].id in ids
    ensures forall i :: 1 <= i < |ids| && FindArt(arts, ids[i]).Some? ==> FindArt(arts, ids[i]).value in rest
  {
    forall i | 1 <= i < |ids| && FindArt(arts, ids[i]).Some? ensures FindArt(arts, ids[i]).value in rest {
      assert ids[i] == ids[1..][i - 1];
    }
  }

  /** Population works id by id: the populated list of two lists joined is the
      two populated lists joined, so the arts keep wishlist order. */
  lemma {:induction false} PopulateConcat(a: seq<ArtId>, b: seq<ArtId>, arts: seq<Art>)
    ensures Populate(a + b, arts) == Populate(a, arts) + Populate(b, arts)
  {
    if a == [] {
      assert a + b == b;
    } else {
      assert (a + b)[0] == a[0];
      assert (a + b)[1..] == a[1..] + b;
      PopulateConcat(a[1..], b, arts);
    }
  }

  /** One id populates to its art when it still exists, and to nothing when
      the art is gone. */
  lemma PopulateOne(id: ArtId, arts: seq<Art>)
    ensures FindArt(arts, id).Some? ==> Populate([id], arts) == [FindArt(arts, id).value]
    ensures FindArt(arts, id).None? ==> Populate([id], arts) == []
  {
    assert [id][1..] == [];
  }

  /** The populated list has one art per id that still resolves: as many as
      the ids a filter on existence keeps. */
  lemma {:induction false} PopulateLength(ids: seq<ArtId>, arts: seq<Art>)
    ensures |Populate(ids, arts)| == |Filter(ids, (id: ArtId) => FindArt(arts, id).Some?)|
  {
    if ids != [] {
      PopulateLength(ids[1..], arts);
    }
  }

  /** When every id still names an art, population keeps all of them in order. */
  lemma {:induction false} PopulateAllPresent(ids: seq<ArtId>, arts: seq<Art>)
    requires forall i :: 0 <= i < |ids| ==> FindArt(arts, ids[i]).Some?
    ensures |Populate(ids, arts)| == |ids|
    ensures forall i :: 0 <= i < |ids| ==> Populate(ids, arts)[i].id == ids[i]
  {
    if ids != [] {
      assert forall i :: 0 <= i < |ids[1..]| ==> FindArt(arts, ids[1..][i]).Some? by {
        forall i | 0 <= i < |ids[1..]| ensures FindArt(arts, ids[1..][i]).Some? {
          assert ids[1..][i] == ids[i + 1];
        }
      }
      PopulateAllPresent(ids[1..], arts);
      assert FindArt(arts, ids[0]).Some?;
      var r := Populate(ids, arts);
      forall i | 0 <= i < |ids| ensures r[i].id == ids[i] {
        if i > 0 {
          assert r[i] == Populate(ids[1..], arts)[i - 1];
        }
      }
    }
  }

  /** `addToWishlist`: 404 for an unknown art, 500 for a missing user, 400 when
      the art is already listed (none of them changing anything); otherwise the
      id is appended and the new list returned. */
  method AddToWishlist(db: Database, user: UserId, art: ArtId) returns (r: Reply<seq<ArtId>>)
    modifies db
    ensures db.arts == old(db.arts) && db.carts == old(db.carts)
    ensures FindArt(old(db.arts), art).None? ==> r == Err(404, "Art not found") && db.users == old(db.users)
    ensures FindArt(old(db.arts), art).Some? && UserIndex(old(db.users), user) < 0 ==>
      r == Err(500, NullUserMessage) && db.users == old(db.users)
    ensures FindArt(old(db.arts), art).Some? && UserIndex(old(db.users), user) >= 0
            && art in old(db.users)[UserIndex(old(db.users), user)].wishlist ==>
      r == Err(400, "Art already in wishlist") && db.users == old(db.users)
    ensures FindArt(old(db.arts), art).Some? && UserIndex(old(db.users), user) >= 0
            && art !in old(db.users)[UserIndex(old(db.users), user)].wishlist ==>
      && |db.users| == |old(db.users)|
      && db.users == old(db.users)[UserIndex(old(db.users), user) :=
           old(db.users)[UserIndex(old(db.users), user)].(wishlist :=
             old(db.users)[UserIndex(old(db.users), user)].wishlist + [art])]
      && r == Ok(200, db.users[UserIndex(old(db.users), user)].wishlist)
  {
    if FindArt(db.arts, art).None? {
      return Err(404, "Art not found");
    }
    var k := UserIndex(db.users, user);
    if k < 0 {
      return Err(500, NullUserMessage);
    }
    var record := db.users[k];
    if art in record.wishlist {
      return Err(400, "Art already in wishlist");
    }
    record := record.(wishlist := record.wishlist + [art]);
    db.users := db.users[k := record];
    r := Ok(200, record.wishlist);
  }

  /** `removeFromWishlist`: 500 for a missing user; otherwise every occurrence
      of the id is dropped, whether or not the art exists. */
  method RemoveFromWishlist(db: Database, user: UserId, art: ArtId) returns (r: Reply<seq<ArtId>>)
    modifies db
    ensures db.arts == old(db.arts) && db.carts == old(db.carts)
    ensures UserIndex(old(db.users), user) < 0 ==> r == Err(500, NullUserMessage) && db.users == old(db.users)
    ensures UserIndex(old(db.users), user) >= 0 ==>
      && db.users == old(db.users)[UserIndex(old(db.users), user) :=
           old(db.users)[UserIndex(old(db.users), user)].(wishlist :=
             WithoutArt(old(db.users)[UserIndex(old(db.users), user)].wishlist, art))]
      && r == Ok(200, db.users[UserIndex(old(db.users), user)].wishlist)
  {
    var k := UserIndex(db.users, user);
    if k < 0 {
      return Err(500, NullUserMessage);
    }
    var record := db.users[k];
    record := record.(wishlist := WithoutArt(record.wishlist, art));
    db.users := db.users[k := record];
    r := Ok(200, record.wishlist);
  }

  /** `getWishlist`: 500 for a missing user, otherwise the populated list. */
  method GetWishlist(db: Database, user: UserId) returns (r: Reply<seq<Art>>)
    ensures UserIndex(db.users, user) < 0 ==> r == Err(500, NullUserMessage)
    ensures UserIndex(db.users, user) >= 0 ==>
      r == Ok(200, Populate(db.users[UserIndex(db.users, user)].wishlist, db.arts))
  {
    var k := UserIndex(db.users, user);
    if k < 0 {
      return Err(500, NullUserMessage);
    }
    r := Ok(200, Populate(db.users[k].wishlist, db.arts));
  }
}
