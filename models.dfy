/** The stored documents of the backend (the Art, Cart and User schemas).
    Identifiers, which are ObjectIds in the store, are strings here, prices and
    quantities integers, and the `createdAt` timestamps integer times. */
module Models {

  type ArtId = string
  type UserId = string

  /** An art listing. `description` is "" when none was given. */
  datatype Art = Art(
    id: ArtId,
    title: string,
    description: string,
    price: int,
    images: seq<string>,
    categories: seq<string>,
    createdBy: UserId,
    createdAt: int)

  /** One line of a cart: a reference to an art and a quantity. */
  datatype CartItem = CartItem(art: ArtId, quantity: int)

  /** The `role` enum of the User schema; "user" is its default. */
  datatype Role = UserRole | AdminRole

  /** An account. `name` is stored trimmed and `email` lower-cased, as the schema's
      `trim` and `lowercase` options do; `passwordHash` is the hashed password. */
  datatype User = User(
    id: UserId,
    name: string,
    email: string,
    passwordHash: string,
    role: Role,
    wishlist: seq<ArtId>,
    createdAt: int)
}
