# ArtVista in Dafny

ArtVista is an online art shop. An Express backend stores arts, users and carts in MongoDB. A React frontend keeps the catalogue, the cart and the wishlist in contexts, and derives prices, filters and sorted views on its pages. This project models the rules of that core and proves properties of them.

Backend:

- **Carts.** Each user has one cart, a list of (art, quantity) lines. `addToCart` merges into the art's line or appends one, `updateCartItem` sets, deletes or appends a line, `removeFromCart` drops every line of the art, and `clearCart` empties the cart. After each change `calculateTotal` sums price × quantity over the lines whose art still exists.
- **Wishlists.** A wishlist is a list of art ids with set semantics. Adding a present id is refused; removing drops every occurrence.
- **Arts.**
  - Category normalisation: split on ',', then trim and lower-case.
  - The category filter, newest-first sort and pagination of the public listing.
  - The requester's own listings.
  - The owner-only update and delete, with the `||` fallback on updated fields.
- **Auth.** The outcome codes of `register`, `login` and `me`. Hashing and token signing are function parameters.

Frontend:

- **Contexts.**
  - The cart context's optimistic changes, its snapshot rollback, its per-operation in-flight keys and its helper queries.
  - The wishlist context's replies and local updates.
  - The art context's query building, category filter and "load more" paging.
- **Pages.**
  - The cart and checkout price summaries.
  - The gallery's filter and sort pipeline and its optimistic wishlist toggle, and the arts page's sample fallback and toggle guards.
  - The collections filter, sort and like count, and the art details carousel and related-art strips.
  - The manage-art form's category handling and image previews.
  - The navbar's active item, search routing and badges.
  - The login and register form checks.

Modules follow the source: one per controller (`CartController`, `WishlistController`, `ArtController`, `AuthController`), per context (`CartContext`, `WishlistContext`, `ArtContext`) and per page or component. Shared modules hold the stored documents (`Models`), the store (`Store`), JavaScript-like text operations (`Strings`), a sort by key (`Sorting`) and sequence helpers (`Common`).

The remaining state is in-memory, and each source file's operations keep their own form:

- **The store.** It is one `Store.Database` object. Its `arts` and `users` fields are sequences in insertion order, and `carts` is a map from user to lines. Handlers are methods that modify it.
- **Contexts and pages.** Their state is a class per component. The React state variables are its fields, and each handler is a method.
- **Requests.** A remote reply is an input: `Remote.Failed(message)` or `Remote.Succeeded(data)`. Where an operation runs in two halves, the model has a `Begin…` method (guards, snapshot, optimistic change) and a `Finish…` method (apply the reply or roll back). Other calls may come between the two.
- **Pure code.** Pure filters, sums and decisions are functions. Their properties are proved as lemmas.

## Model

| member | source | states |
|---|---|---|
| CartController.CalculateTotal | backend/controllers/cartController.js:4-13 | the loop's total is Σ price × quantity over the lines, a line whose art no longer exists adding 0 |
| CartController.IndexOfArt | backend/controllers/cartController.js:31 | the index of the first line of the art, -1 exactly when no line has it |
| CartController.AddItem | backend/controllers/cartController.js:31-37 | the cart grows by one line exactly when the art was absent; the art is in the cart afterwards; lines of other arts are unchanged |
| CartController.AddItemQuantity | backend/controllers/cartController.js:31-37 | adding raises the art's quantity by `quantity \|\| 1` and leaves every other art's quantity unchanged |
| CartController.AddItemTotal | backend/controllers/cartController.js:31-39 | adding raises the total by the art's price × `quantity \|\| 1` |
| CartController.AddItemUnique | backend/controllers/cartController.js:31-37 | a cart with at most one line per art keeps that property after an add |
| CartController.RemoveItems | backend/controllers/cartController.js:80 | no line of the art remains; every line of another art is kept; no line is invented |
| CartController.RemoveItemsQuantity | backend/controllers/cartController.js:80 | after a remove the art's quantity is 0 and every other art's is unchanged |
| CartController.RemoveItemsTotal | backend/controllers/cartController.js:80-81 | removing lowers the total by the art's price × its quantity |
| CartController.RemoveItemsUnique | backend/controllers/cartController.js:80 | removing keeps at most one line per art |
| CartController.RemoveItemsIdempotent | backend/controllers/cartController.js:80 | removing twice is removing once; removing an absent art changes nothing |
| CartController.UpdateItem | backend/controllers/cartController.js:107-117 | a positive quantity leaves the art in the cart; the line count stays, drops by one or grows by one for the four cases present/absent × positive/not |
| CartController.UpdateItemQuantity | backend/controllers/cartController.js:107-117 | with at most one line per art, the art's quantity afterwards is the new quantity if positive and 0 otherwise, every other art unchanged |
| CartController.UpdateItemTotal | backend/controllers/cartController.js:107-119 | with at most one line per art, updating replaces the art's share of the total by price × the new quantity, or by nothing when it is not positive |
| CartController.UpdateItemUnique | backend/controllers/cartController.js:107-117 | updating keeps at most one line per art |
| CartController.UpdateNonPositiveIsRemove | backend/controllers/cartController.js:112-114 | with at most one line per art, an update to a quantity that is not positive equals a remove |
| CartController.RemoveUniqueIsSplice | backend/controllers/cartController.js:113 | with at most one line per art, splicing out the art's line equals filtering out the art |
| CartController.QuantityOfUnique | backend/controllers/cartController.js:31 | with at most one line per art, the art's quantity is that of its line |
| CartController.AddToCart | backend/controllers/cartController.js:15-47 | an unknown art is a 404 that changes nothing; otherwise the user's cart (empty when missing) gets the art added, and the total is `TotalOf` the new lines |
| CartController.GetCart | backend/controllers/cartController.js:49-69 | the stored cart, or for a user without one an empty reply with total 0 that creates nothing |
| CartController.RemoveFromCart | backend/controllers/cartController.js:72-90 | without a cart a 404 that changes nothing; otherwise the art's lines are dropped and the total recomputed |
| CartController.UpdateCartItem | backend/controllers/cartController.js:92-127 | an unknown art is a 404 (checked first), then a missing cart; neither changes anything; otherwise `UpdateItem` is stored and the total recomputed |
| CartController.ClearCart | backend/controllers/cartController.js:129-146 | without a cart a 404 that changes nothing; otherwise the lines become empty and the reply's total is 0 |
| CartController.HandlersKeepCartsUnique | backend/controllers/cartController.js:15-146 | if every stored cart has at most one line per art, it still does after add, update, remove or clear |
| WishlistController.WithoutArt | backend/controllers/wishlistController.js:33 | the art is gone, every other id stays, nothing new appears |
| WishlistController.WithoutArtCounts | backend/controllers/wishlistController.js:33 | removing keeps each other id exactly as many times as before and the art 0 times |
| WishlistController.WithoutArtIdempotent | backend/controllers/wishlistController.js:27-37 | removing twice is removing once; removing an absent id changes nothing; a duplicate-free list stays duplicate-free |
| WishlistController.AppendKeepsDistinct | backend/controllers/wishlistController.js:18 | appending an absent id keeps the list duplicate-free and makes it one longer |
| WishlistController.AddToWishlist | backend/controllers/wishlistController.js:5-25 | 404 for an unknown art, 500 for a missing user, 400 "Art already in wishlist" for a present id, none changing anything; otherwise the id is appended at the end and the list returned |
| WishlistController.RemoveFromWishlist | backend/controllers/wishlistController.js:27-40 | 500 for a missing user; otherwise every occurrence is dropped, with no error for an absent id or a missing art |
| WishlistController.Populate | backend/controllers/wishlistController.js:44-51 | every entry is the art an id of the list resolves to; every id that still resolves has its art in the list; no longer than the ids |
| WishlistController.PopulateConcat | backend/controllers/wishlistController.js:44-51 | population works id by id: the populated join of two lists is the join of the populated lists, so arts keep wishlist order |
| WishlistController.PopulateOne | backend/controllers/wishlistController.js:44-51 | one id populates to its art when it resolves and to nothing when the art is gone |
| WishlistController.PopulateLength | backend/controllers/wishlistController.js:44-51 | one art per id that still resolves: as many as the resolving ids |
| WishlistController.PopulateAllPresent | backend/controllers/wishlistController.js:44-51 | when every id names an art, the populated list has exactly those arts, in wishlist order |
| WishlistController.GetWishlist | backend/controllers/wishlistController.js:42-58 | 500 for a missing user, otherwise the populated wishlist |
| ArtController.CleanAll | backend/controllers/artController.js:14 | same length and order, each entry trimmed and lower-cased |
| ArtController.NormaliseCategories | backend/controllers/artController.js:11-16 | a falsy value gives []; an array gives, position by position, each entry trimmed and lower-cased; a non-empty text gives, piece by piece, each ','-separated piece trimmed and lower-cased |
| ArtController.NormaliseIdempotent | backend/controllers/artController.js:13-15 | normalising a normalised list returns it unchanged |
| ArtController.JoinedCategoriesRoundTrip | backend/controllers/artController.js:15 | clean, comma-free categories joined with ',' normalise back to the same list, except `[""]`, which joins to the falsy "" and comes back empty |
| ArtController.Matching | backend/controllers/artController.js:42-44 | keeps exactly the arts whose categories hold the lower-cased category; for a falsy category or 'all' every art (their order is the store's, by `Common.FilterConcat`) |
| ArtController.Newest | backend/controllers/artController.js:52 | a permutation of the arts ordered by `createdAt`, newest first |
| ArtController.Window | backend/controllers/artController.js:53-54 | the entries from position `skip`, at most `limit` of them (0 meaning no limit), in order |
| ArtController.TotalPages | backend/controllers/artController.js:61 | for a positive limit the ceiling of total / limit; `null` for a limit of 0 |
| ArtController.GetArts | backend/controllers/artController.js:35-69 | a negative skip is a 500; otherwise the window at (page-1)·limit of the matching arts sorted newest first, the matching count as `total`, and the page as given |
| ArtController.GetArtsRequest | backend/controllers/artController.js:35-69 | an absent `page` is 1 and an absent `limit` is 12: with neither, the reply is the first twelve matching arts newest first, page 1, and `totalPages` counted in twelves; given values are passed on unchanged |
| ArtController.PageNonEmptyIffInRange | backend/controllers/artController.js:50-61 | with a positive limit, page p ≥ 1 has arts exactly when p ≤ totalPages |
| ArtController.EveryArtOnItsPage | backend/controllers/artController.js:50-54 | the art of rank j in the sorted listing is entry j mod limit of page ⌊j / limit⌋ + 1 |
| ArtController.AllCategories | backend/controllers/artController.js:47 | exactly the categories some stored art has |
| ArtController.GetMyArts | backend/controllers/artController.js:96-103 | exactly the arts whose creator is the requester (in store order, by `Common.FilterConcat`) |
| Common.FilterConcat | backend/controllers/artController.js:42-44 | filtering a joined list is joining the filtered lists, so a filter keeps the survivors in their original order |
| ArtController.AddArt | backend/controllers/artController.js:4-32 | a missing title or price fails validation (500) and stores nothing; otherwise the art with normalised categories and the uploaded images is stored and returned with 201 and the message "Art added successfully" |
| ArtController.AddKeepsIdsUnique | backend/controllers/artController.js:18-27 | storing an art with a fresh id keeps ids unique |
| ArtController.OwnerCheck | backend/controllers/artController.js:110-112 | 404 exactly when the art is missing, 403 exactly when it exists but the requester did not create it, no error otherwise |
| ArtController.Patch | backend/controllers/artController.js:114-130 | images change only when files were uploaded; title, description and price keep their old value when the new one is falsy; categories are re-normalised only for a truthy value; id, creator and creation time never change |
| ArtController.PatchCannotClear | backend/controllers/artController.js:122-130 | an absent or empty price text keeps the old price, a non-empty title or description cannot become empty, an empty category text keeps the old categories, no files keep the images |
| ArtController.PatchSetsZeroPrice | backend/controllers/artController.js:124 | the text "0" that the form sends is truthy, so the price becomes 0 |
| ArtController.UpdateArt | backend/controllers/artController.js:105-137 | 404 or 403 changes nothing; otherwise the art is replaced by `Patch` in place and returned with the message "Art updated" |
| ArtController.DeleteArt | backend/controllers/artController.js:139-153 | 404 or 403 changes nothing; otherwise the art leaves the store, the others keep their order, and the reply is the message "Art deleted" |
| ArtController.DeletedArtIsGone | backend/controllers/artController.js:148 | after a delete the id no longer resolves, so carts and wishlists price and populate it as absent |
| AuthController.NewUser | backend/models/User.js:5-9 | the stored account has the trimmed name, the lower-cased email, the hashed password, role 'user' and an empty wishlist |
| AuthController.Register | backend/controllers/authController.js:7-25 | 400 for a blank name or email or a password shorter than 6 UTF-16 code units; 409 when the email is taken; 500 when the hash fails the schema; otherwise one account appended and 201 with its public fields and a token; only 201 changes the store |
| AuthController.PasswordLengthInCodeUnits | backend/controllers/authController.js:10 | the length rule counts UTF-16 code units: three emoji pass as six, three letters fail |
| Strings.JsLength | backend/controllers/authController.js:10 | `length` in UTF-16 code units: between the character count and twice it, equal to it exactly when no character is astral |
| Strings.JsLengthConcat | backend/controllers/authController.js:10 | the length of a concatenation is the sum of the lengths |
| AuthController.Login | backend/controllers/authController.js:27-43 | 400 exactly for a blank email or a missing password; an unknown email and a wrong password give the same 401 "Invalid credentials"; success exactly when the hash matches, with the account's public fields and a token |
| AuthController.RegisterThenLogin | backend/controllers/authController.js:7-43 | an account just registered logs in with the same email and password and gets the same user and token |
| AuthController.Me | backend/controllers/authController.js:45-53 | 404 exactly when no account has the id; otherwise that account's selected fields |
| Store.ArtIndex | backend/controllers/cartController.js:7 | the position of the first art with the id, -1 exactly when none has it |
| Store.FindArt | backend/controllers/cartController.js:20 | some art has the id exactly when the lookup succeeds, and it returns that art |
| Store.UserIndex | backend/controllers/wishlistController.js:13 | the position of the first user with the id, -1 exactly when none has it |
| Store.EmailIndex | backend/controllers/authController.js:13 | the position of the first user with the stored email, -1 exactly when none has it |
| CartContext.SnapshotRestores | frontend/src/context/CartContext.jsx:64-68 | restoring the snapshot gives the cart back exactly when its items were an array |
| CartContext.Normalise | frontend/src/context/CartContext.jsx:116-119 | a reply without `items` gives [], any other keeps the reply's own items |
| CartContext.OptimisticAdd | frontend/src/context/CartContext.jsx:155-167 | each line of the art gains `quantity` and other lines stay; with no such line `{art: {_id}, quantity}` is appended |
| CartContext.OptimisticRemove | frontend/src/context/CartContext.jsx:72-75 | no line of the art remains, every other line is kept, and every line left was in the cart |
| CartContext.OptimisticUpdate | frontend/src/context/CartContext.jsx:216-221 | each line of the art takes the new quantity; nothing else changes |
| CartContext.OptimisticUpdateAbsent | frontend/src/context/CartContext.jsx:216-221 | an art not in the cart leaves the lines unchanged |
| CartContext.OptimisticAddTotal | frontend/src/context/CartContext.jsx:155-167 | the item count grows by `quantity` per line of the art, or once when a line is appended |
| CartContext.OptimisticQueries | frontend/src/context/CartContext.jsx:292-306 | after an add the art is in the cart, after a remove it is not; an update keeps membership and shows the new quantity |
| CartContext.ItemQuantity | frontend/src/context/CartContext.jsx:302-306 | 0 when the art is not in the cart, otherwise the quantity of its first line |
| CartContext.TotalItems | frontend/src/context/CartContext.jsx:292-295 | 0 without an items array, otherwise the sum of the quantities; with at least one piece per line, at least the number of lines |
| CartContext.IsInCart | frontend/src/context/CartContext.jsx:297-300 | `some` finds a line of the art exactly when `find` does |
| CartContext.CartState.Fetch | frontend/src/context/CartContext.jsx:22-50 | without a token nothing changes; success shows the normalised reply and clears the error; failure records the message and empties the cart |
| CartContext.CartState.UserChanged | frontend/src/context/CartContext.jsx:14-20 | a signed-in user's cart is fetched; otherwise the cart is emptied |
| CartContext.CartState.BeginAdd | frontend/src/context/CartContext.jsx:138-167 | without a token an error and no change to the cart or keys; with the key in flight nothing at all; otherwise the key is taken, the snapshot stored and `OptimisticAdd` shown, with quantity 1 by default |
| CartContext.CartState.BeginRemove | frontend/src/context/CartContext.jsx:53-75 | the same guards; otherwise the snapshot stored and `OptimisticRemove` shown |
| CartContext.CartState.BeginUpdate | frontend/src/context/CartContext.jsx:198-221 | without a token an error; a quantity below 1 is a remove; otherwise under its own key the snapshot stored and `OptimisticUpdate` shown, keeping the last error |
| CartContext.CartState.BeginClear | frontend/src/context/CartContext.jsx:252-268 | the same guards; otherwise the snapshot stored and an empty cart shown, keeping the last error |
| CartContext.CartState.Finish | frontend/src/context/CartContext.jsx:123-134 | the key is released; a failure records its message and restores exactly the snapshot; a success shows the normalised reply, except for clear, which leaves the cart as it is |
| CartContext.CartState.IsOperationLoading | frontend/src/context/CartContext.jsx:308-311 | an operation reported in flight holds the snapshot it would roll back to |
| WishlistContext.LocalRemove | frontend/src/context/WishlistContext.jsx:126 | the art is no longer recognised; bare ids and entries of other arts stay; nothing new appears |
| WishlistContext.IsInWishlist | frontend/src/context/WishlistContext.jsx:150-152 | the art is recognised exactly when its populated entry is in the list; bare ids never match |
| WishlistContext.RecognisedEntries | frontend/src/context/WishlistContext.jsx:150-152 | after a reply of bare ids no art is recognised; after a fetch exactly the fetched arts are |
| WishlistContext.WishlistState.Fetch | frontend/src/context/WishlistContext.jsx:26-50 | the fetched list replaces the local one; a failure records its message and keeps the list |
| WishlistContext.WishlistState.UserChanged | frontend/src/context/WishlistContext.jsx:17-23 | a signed-in user's list is fetched; otherwise it is emptied |
| WishlistContext.WishlistState.ClearError | frontend/src/context/WishlistContext.jsx:155-157 | the error is cleared and nothing else changes |
| WishlistContext.WishlistState.Add | frontend/src/context/WishlistContext.jsx:53-93 | without a user an error and false, list untouched; a reply with `wishlist` replaces the list, one without triggers a refetch; a failure returns false, records the message and keeps the list |
| WishlistContext.WishlistState.Remove | frontend/src/context/WishlistContext.jsx:96-136 | as add, except that a reply without `wishlist` applies `LocalRemove` |
| WishlistContext.WishlistState.Toggle | frontend/src/context/WishlistContext.jsx:139-147 | removes exactly when the art is recognised, adds otherwise |
| ArtContext.Query | frontend/src/context/ArtContext.jsx:33-35 | exactly the entries whose value is truthy and not 'all', in order |
| ArtContext.BuildQuery | frontend/src/context/ArtContext.jsx:31-35 | the `forEach` loop builds `Query` of the entries |
| ArtContext.QueryOfFilters | frontend/src/context/ArtContext.jsx:33-35 | the category is sent unless it is empty or 'all', and page and limit unless they are 0 |
| ArtContext.WithCategory | frontend/src/context/ArtContext.jsx:59 | the category is set, the page reset to 1 and the limit kept |
| ArtContext.PaginationOf | frontend/src/context/ArtContext.jsx:42-46 | each field of the reply, or the defaults 1, the current page and 0 when it is falsy |
| ArtContext.LoadedPagesArePrefix | frontend/src/context/ArtContext.jsx:79 | with a positive limit, loading pages 1 to k gives the first k·limit arts of the listing in order, without gaps or repeats |
| ArtContext.ArtState.constructor | frontend/src/context/ArtContext.jsx:9-22 | no arts, filters `{all, 1, 12}`, pagination `{1, 1, 0}` |
| ArtContext.ArtState.GetArts | frontend/src/context/ArtContext.jsx:27-55 | the query is `Query` of the given or the current filters; a reply replaces arts, categories and pagination, [] for missing arts; a throw changes nothing and yields the empty reply |
| ArtContext.ArtState.UpdateCategoryFilter | frontend/src/context/ArtContext.jsx:58-62 | the filters become `WithCategory` and are used for the fetch |
| ArtContext.ArtState.LoadMore | frontend/src/context/ArtContext.jsx:65-91 | nothing on the last page; otherwise every filter entry is sent with the next page, and a reply appends its arts after the loaded ones and advances the page by exactly 1 |
| CartPage.SubtotalOfView | frontend/src/pages/Cart.jsx:22-28 | the page's subtotal of a populated cart equals the backend's `calculateTotal` of the same lines |
| CartPage.Subtotal | frontend/src/pages/Cart.jsx:22-28 | 0 for no lines; never negative when no price or quantity is |
| CartPage.Total | frontend/src/pages/Cart.jsx:30-36 | the subtotal plus 50 when it is positive, the subtotal alone otherwise |
| CartPage.TotalCharges | frontend/src/pages/Cart.jsx:22-36 | with no negative price or quantity the subtotal is not negative; the total is 0 exactly when the subtotal is, and subtotal + 50 otherwise |
| CartPage.CartPageState.BeginUpdateQuantity | frontend/src/pages/Cart.jsx:49-52 | a quantity below 1 sends nothing and changes nothing; otherwise the line is marked updating |
| CartPage.CartPageState.FinishItem | frontend/src/pages/Cart.jsx:45 | the line is no longer updating, whatever the outcome |
| CartPage.CartPageState.Decrement | frontend/src/pages/Cart.jsx:252-253 | a click on an enabled decrement button always sends the request |
| CartPage.CartPageState.BeginRemoveItem | frontend/src/pages/Cart.jsx:38-39 | the line is marked updating |
| CartPage.CartPageState.BeginClear | frontend/src/pages/Cart.jsx:62-63 | `clearing` is set |
| CartPage.CartPageState.FinishClear | frontend/src/pages/Cart.jsx:68-69 | `clearing` is cleared |
| Checkout.Shipping | frontend/src/components/Checkout.jsx:43-50 | express 100, premium 150, any other method 50 |
| Checkout.Total | frontend/src/components/Checkout.jsx:52-54 | the subtotal plus 50, 100 or 150; shipping alone for an empty cart; the cart page's total on a non-empty standard order |
| Checkout.CheckoutAgreesWithCart | frontend/src/components/Checkout.jsx:35-54 | on a non-empty standard order checkout charges what the cart page charges; on an empty cart checkout still charges 50 where the cart page charges 0 |
| Checkout.InitialForm | frontend/src/components/Checkout.jsx:22-33 | the ten fields, standard shipping, "save info" unticked, the user's email or "" |
| Checkout.InputChange | frontend/src/components/Checkout.jsx:56-62 | the named field takes `checked` for a checkbox and `value` otherwise; no other field changes |
| Checkout.InputChangeLastWins | frontend/src/components/Checkout.jsx:56-62 | of two changes to a field only the second counts; re-entering the current value changes nothing |
| Gallery.Reset | frontend/src/components/Gallery.jsx:275-278 | category 'all', price range [0, 5000], sort order kept |
| Gallery.Kept | frontend/src/components/Gallery.jsx:136-144 | exactly the arts in the chosen `category` (all for 'all') whose price, missing counted 0, lies in the range inclusively |
| Gallery.Visible | frontend/src/components/Gallery.jsx:136-158 | a permutation of the kept arts, ordered by price up or down or by creation time as chosen; an unknown order keeps the loaded order |
| Gallery.StoredArtsMatchNoCategory | frontend/src/components/Gallery.jsx:139 | arts from the backend have no `category`, so any category but 'all' shows none of them |
| Gallery.LocalWishlist | frontend/src/components/Gallery.jsx:53-57 | the ids of all entries, populated or bare |
| Gallery.LocalWishlistRecognisesMore | frontend/src/components/Gallery.jsx:53-61 | every art the context recognises is in the gallery's set, and so are the bare ids of a reply |
| Gallery.GalleryState.Sync | frontend/src/components/Gallery.jsx:53-58 | the set becomes `LocalWishlist` of the context's list |
| Gallery.GalleryState.BeginToggle | frontend/src/components/Gallery.jsx:70-91 | ignored while the art is processing; otherwise it is marked and its membership flipped before the call |
| Gallery.GalleryState.FinishToggle | frontend/src/components/Gallery.jsx:92-105 | a throw flips the membership back; the processing mark is cleared either way |
| ArtsPage.DisplayArts | frontend/src/pages/Arts.jsx:80-81 | the samples in sample mode and the loaded arts otherwise; the samples are shown exactly in sample mode |
| ArtsPage.ArtsPageState.BeginToggle | frontend/src/pages/Arts.jsx:158-198 | without a user, or on sample data, only a toast; while processing nothing; otherwise the art is marked and its membership flipped |
| ArtsPage.ArtsPageState.FinishToggle | frontend/src/pages/Arts.jsx:189-219 | a returned call shows its toast and refetches; a throw shows the failure toast and flips back; the mark is cleared either way |
| Collections.Filtered | frontend/src/pages/Collections.jsx:142-148 | exactly the collections in the category ('All' for every one) whose title, description or artist contains the query in any case (in data order, by `Common.FilterConcat`) |
| Collections.SearchIgnoresCase | frontend/src/pages/Collections.jsx:144-146 | the empty query matches everything, and the case of the query and the fields does not matter |
| Collections.NothingFilteredByDefault | frontend/src/pages/Collections.jsx:142-148 | with 'All' and no query every collection is listed in data order |
| Collections.Sorted | frontend/src/pages/Collections.jsx:150-163 | a permutation of the filtered list, by likes down for 'popular', by id down for 'newest', featured first then likes down for 'featured', by collation for 'a-z' |
| Collections.FeaturedStrip | frontend/src/pages/Collections.jsx:165 | the first three featured collections in data order |
| Collections.ShownLikes | frontend/src/pages/Collections.jsx:403 | the stored likes, plus one exactly while the visitor likes the collection |
| Collections.LikeMovesOneCount | frontend/src/pages/Collections.jsx:403 | a like moves the shown count of that collection by one, up or down, and of no other; a second like undoes it |
| Collections.CollectionsState.Like | frontend/src/pages/Collections.jsx:130-140 | the collection's membership in the liked set flips |
| ArtDetails.JsRem | frontend/src/pages/ArtDetails.jsx:90 | JavaScript's remainder: the sign of the dividend, magnitude below the divisor, and the dividend minus it a multiple of the divisor |
| ArtDetails.NextImage | frontend/src/pages/ArtDetails.jsx:89-91 | no index without images; on a valid index the next one, wrapping to 0 |
| ArtDetails.PrevImage | frontend/src/pages/ArtDetails.jsx:93-95 | no index without images; on a valid index the previous one, wrapping to the last |
| ArtDetails.CarouselInverse | frontend/src/pages/ArtDetails.jsx:89-95 | from a valid index both buttons stay in range and undo each other |
| ArtDetails.SameArtist | frontend/src/pages/ArtDetails.jsx:47-53 | no strip without a creator; otherwise the first four arts, in list order, of the same creator other than the art (all of them when there are fewer) |
| ArtDetails.OtherArts | frontend/src/pages/ArtDetails.jsx:55-59 | the first four arts, in list order, with another id and another creator (all of them when there are fewer) |
| ArtDetails.StripsDisjoint | frontend/src/pages/ArtDetails.jsx:47-59 | each strip is the head of its own filtered list, the two lists share no art, so neither do the strips; a strip of fewer than four holds every qualifying art |
| ManageArt.CategoryChange | frontend/src/pages/ManageArt.jsx:42-55 | ticking appends the category; unticking removes every occurrence and keeps every other category |
| ManageArt.TickUntick | frontend/src/pages/ManageArt.jsx:42-55 | unticking after ticking an unpicked category restores the picks |
| ManageArt.AddNewCategory | frontend/src/pages/ManageArt.jsx:57-62 | a new, non-blank entry is offered trimmed and lower-cased and the input cleared; otherwise nothing changes |
| ManageArt.AddNewCategoryKeepsOffer | frontend/src/pages/ManageArt.jsx:57-62 | offered categories stay clean and distinct |
| ManageArt.DefaultsDistinct | frontend/src/pages/ManageArt.jsx:19-28 | the initial categories are distinct |
| ManageArt.SentCategoriesRoundTrip | frontend/src/pages/ManageArt.jsx:98 | picks that are clean, comma-free and non-empty reach the backend unchanged, the empty list included |
| ManageArt.CommaSplitsNewCategory | frontend/src/pages/ManageArt.jsx:98 | a category holding a comma reaches the backend as two categories |
| ManageArt.ManageArtState.constructor | frontend/src/pages/ManageArt.jsx:7-29 | the empty form, no images or previews, not editing, the default categories |
| ManageArt.ManageArtState.ChangeCategory | frontend/src/pages/ManageArt.jsx:42-55 | the picks become `CategoryChange`; nothing else changes |
| ManageArt.ManageArtState.AddCategory | frontend/src/pages/ManageArt.jsx:57-62 | the offer and input become `AddNewCategory`; nothing else changes |
| ManageArt.ManageArtState.RemoveImagePreview | frontend/src/pages/ManageArt.jsx:72-82 | the same index leaves both arrays; aligned arrays stay aligned, each remaining preview beside its image |
| ManageArt.ManageArtState.Edit | frontend/src/pages/ManageArt.jsx:124-134 | the art's fields, categories and images are loaded and the form opened for that id |
| ManageArt.ManageArtState.Reset | frontend/src/pages/ManageArt.jsx:157-164 | the empty form, no images or previews, not editing, closed, input cleared |
| ManageArt.ManageArtState.Submit | frontend/src/pages/ManageArt.jsx:90-122 | an update while editing and an add otherwise, the typed price text and the categories joined with ','; after the call the form is emptied and closed |
| Navbar.ActiveItemIn | frontend/src/components/Navbar.jsx:34-47 | '' on excluded paths; else the first exact link; else the first link that starts the path; else '' |
| Navbar.HomeCatchesTheRest | frontend/src/components/Navbar.jsx:45-46 | every other path that starts with '/' and is not excluded highlights 'Home' |
| Navbar.Search | frontend/src/components/Navbar.jsx:107-122 | a blank query does nothing; otherwise a known category routes to its listing, anything else to /arts, and the box is cleared and closed |
| Navbar.SearchIgnoresCase | frontend/src/components/Navbar.jsx:110-113 | a query and its trimmed, lower-cased form route alike |
| Navbar.BadgeFor | frontend/src/components/Navbar.jsx:217-220 | hidden at 0, the count up to 9, '9+' beyond |
| Navbar.CartCount | frontend/src/components/Navbar.jsx:51-54 | 0 without an items array; with at least one piece per line, never more than the cart's item count |
| Navbar.CartBadgeCountsLines | frontend/src/components/Navbar.jsx:51-54 | the cart badge counts lines: more of a present art leaves it, a new art adds one |
| Login.EmailNeedsSign | frontend/src/pages/Login.jsx:50 | a text without '@' is invalid |
| Login.EmailShapeUnanchored | frontend/src/pages/Login.jsx:50 | the test is unanchored: text around a valid address keeps it valid |
| Login.ShortestEmail | frontend/src/pages/Login.jsx:50 | x@y.z with non-blank characters is valid |
| Login.ValidateForm | frontend/src/pages/Login.jsx:45-62 | an entry per failing field with its message ('required' before 'invalid' or the length); valid exactly when there is no entry, exactly when the email is present and shaped and the password has at least 6 UTF-16 code units |
| Login.ClearError | frontend/src/pages/Login.jsx:37-42 | the edited field's non-empty message becomes '', every other entry stays |
| Login.SubmitOutcome | frontend/src/pages/Login.jsx:70-81 | navigation exactly when the result has a token; otherwise its message or the default; a throw the unexpected-error message |
| Login.LoginState.Change | frontend/src/pages/Login.jsx:30-43 | the field takes the value and the errors become `ClearError` |
| Login.LoginState.Submit | frontend/src/pages/Login.jsx:64-84 | an invalid form records exactly the `validateForm` message of each failing field, the password length counted in UTF-16 code units, and sends nothing; a valid one leaves only a submit error, if any |
| Register.Submit | frontend/src/pages/Register.jsx:20-46 | a mismatch is reported before the length, counted in UTF-16 code units; `register` is called exactly when both pass; navigation exactly when the reply has a token, else its message or the default |
| Register.PageChecksCoverPassword | frontend/src/pages/Register.jsx:26-39 | a request the page sends can fail the backend's check only on a blank name or email |

## Left out

- Cryptography. `bcrypt.hash`, `bcrypt.compare` and `jwt.sign` are function parameters: comparing a password with a stored hash is `hash(password) == storedHash`, and token expiry is not modelled.
- Persistence. MongoDB is an in-memory object; `populate`, `distinct`, `countDocuments` and `save` are written out over sequences. Ids are strings, and a malformed id (a cast error, a 500 in the source) is not modelled.
- Error texts of the store. A 500 caught from a driver error carries the driver's message. The model uses fixed placeholder texts: the negative-skip error, the failed-validation error of `addArt`, and the null user read in the wishlist handlers.
- Concurrency. Each backend request is atomic; the race between two concurrent cart requests is not modelled. On the client, a `Begin…`/`Finish` pair stands for one asynchronous operation, and other operations may run between the two.
- CartController.AddToCart: `totalPrice` is the value `calculateTotal` returns and is not stored, because the Cart schema declares no such field. The reply carries the stored lines only.
- CartController.AddToCart: the reply is the stored cart, not the populated one. Population only attaches the art documents.
- CartController.AddToCart, CartController.UpdateCartItem: the source edits `cart.items` in place (`+=` on a line's quantity, `push`, `splice`). The model computes the new sequence of lines with `AddItem` or `UpdateItem` and stores it whole, so aliasing of the line objects is not captured.
- ArtController.Newest: the model sorts stably, so arts with equal `createdAt` keep store order. MongoDB promises no order among equal keys, and each page is its own query.
- ArtController.EveryArtOnItsPage: it holds of the model's order. In the source two arts with the same `createdAt` may swap between the queries of two pages, so an art can be shown twice or not at all.
- ArtContext.LoadedPagesArePrefix: the same tie caveat applies. Without repeated `createdAt` values the stored order is a strict order and the pages join up in the source too.
- CartContext.TotalItems: a line's quantity is always a number in the model, so the `|| 0` for a missing quantity does not arise.
- Uploads. Cloudinary and multer are out: the image URLs are an input.
- Network, `localStorage` and the auth context. Every reply is an input (`Remote`); the token is a `loggedIn` flag.
- Randomness, timers and animation: order numbers, ratings, toast timeouts, the refetch delay, the checkout delay and the canvas effects.
- Number parsing. Query strings and multipart fields arrive as text in the source. The model takes a present page and limit as integers, and `currentPage` echoes that integer rather than the query text. A price field is the text the form sent together with the number the schema casts it to; a text that does not cast (a cast error, a 500) is not modelled.
- ArtController.Patch: the price's truthiness is judged on the multipart text, as the manage page sends it. A JSON body with the number 0 would keep the old price; no client sends one.
- Text. `Strings.ToLower` lower-cases ASCII letters only. `Strings.IsSpace` is the JavaScript white-space set. Characters are Unicode scalar values; where the source measures `length` (the password rules), `Strings.JsLength` counts UTF-16 code units, two for a character outside the Basic Multilingual Plane.
- Collections.Sorted: 'a-z' uses `localeCompare`, which is locale-dependent. It is a collation parameter here, and equal keys are not claimed to keep their order.
- Gallery.Visible: ties are not claimed to keep the loaded order, except under an unknown sort order.
- CartPage.Subtotal: a cart whose `items` is neither absent nor an array makes the page's `reduce` throw. The model takes the items as a list.
- Navbar.CartCount: it gives 0 for `items` that is not an array, where the source would show that value's `length`.
- The wishlist badge is the list's length and has no member of its own.
- Register.Submit: a `register` call that throws is not caught in the source; the model takes its result as given.
- ArtContext: `getMyArts`, `getCategories`, `getArtById`, `addArt`, `updateArt`, `deleteArt` and the mount effect only forward a request and store its reply; they are not modelled.
- ManageArt: `handleChange`, `handleImageChange` (object URLs), the file input reset, `revokeObjectURL`, the delete dialog and the `getMyArts` refresh are not modelled.
- ManageArt.ManageArtState.Submit: a price loaded by an edit is sent as JavaScript's text of the number; that conversion is not modelled and `priceText` is taken as given in that case.
- ManageArt.ManageArtState.Submit: the context's `addArt` and `updateArt` catch their own errors, so in the source the call never throws. The `threw` case is kept for a call that does.
- ManageArt.ManageArtState.Edit: like the source, it does not clear the chosen image files.
- Gallery.GalleryState.FinishToggle: the context's add and remove catch their own errors, so in the source the rollback branch is not reached. `threw` is a parameter.
- ArtsPage.ArtsPageState.FinishToggle: the same holds for its rollback branch.
- Checkout: `handleSubmit`, the approval screen and `clearCart` after an order are not modelled.
- ArtDetails: the wishlist toggle and the fetch of the art only forward to the context and are not modelled.
- AuthController.Me: the reply's `updatedAt` is not modelled.
- Login.LoginState.Change: any other field name only clears its error, because the form has just the two fields.
- Dashboard, Contact, About, HomePage, Wishlist, Footer, HeroSection, ArtCategories, ArtByCategory, AddToCartButton, App, main, the server and the route files are presentation or wiring and are not part of this model.

Behaviour of the source that this model keeps:

- The gallery filters on `category`, which stored arts lack.
- The wishlist context does not recognise the bare ids that add and remove send back.
- A category holding a comma is split by the server.
- `loadMoreArts` sends `category=all`.
- Checkout charges shipping on an empty cart.
- The client's optimistic add uses the quantity as given, where the server adds 1 for a zero or absent quantity.
- The register page neither trims nor checks the name or the email.
- Login's `handleChange` keeps the field's key with an empty message.
