/** The document store as one in-memory object: the Art and User collections in
    natural (insertion) order, and the Cart collection keyed by its owner, so
    that each user has at most one cart. */
module Store {
  import opened Common
  import opened Models

  class Database {
    var arts: seq<Art>
    var users: seq<User>
    var carts: map<UserId, seq<CartItem>>

    constructor ()
      ensures arts == [] && users == [] && carts == map[]
    {
      arts, users, carts := [], [], map[];
    }
  }

  /** `Art.findById(id)`: the position of the first art with that id, or -1. */
  function ArtIndex(arts: seq<Art>, id: ArtId): (i: int)
    ensures -1 <= i < |arts|
    ensures i == -1 <==> forall k :: 0 <= k < |arts| ==> arts[k].id != id
    ensures 0 <= i ==> arts[i].id == id && forall k :: 0 <= k < i ==> arts[k].id != id
  {
    FirstIndex(arts, (a: Art) => a.id == id)
  }

  function FindArt(arts: seq<Art>, id: ArtId): (r: Option<Art>)
    ensures r.Some? <==> exists k :: 0 <= k < |arts| && arts[k].id == id
    ensures r.Some? ==> r.value in arts && r.value.id == id
  {
    var i := ArtIndex(arts, id);
    if i < 0 then None else Some(arts[i])
  }

  /** `User.findById(id)`: the position of the first user with that id, or -1. */
  function UserIndex(users: seq<User>, id: UserId): (i: int)
    ensures -1 <= i < |users|
    ensures i == -1 <==> forall k :: 0 <= k < |users| ==> users[k].id != id
    ensures 0 <= i ==> users[i].id == id && forall k :: 0 <= k < i ==> users[k].id != id
  {
    FirstIndex(users, (u: User) => u.id == id)
  }

  /** `User.findOne({ email })`: the first user with that stored email, or -1. */
  function EmailIndex(users: seq<User>, email: string): (i: int)
    ensures -1 <= i < |users|
    ensures i == -1 <==> forall k :: 0 <= k < |users| ==> users[k].email != email
    ensures 0 <= i ==> users[i].email == email && forall k :: 0 <= k < i ==> users[k].email != email
  {
    FirstIndex(users, (u: User) => u.email == email)
  }

  /** The cart of a user, an empty one when there is none. */
  function CartOf(carts: map<UserId, seq<CartItem>>, user: UserId): seq<CartItem> {
    if user in carts then carts[user] else []
  }
}
