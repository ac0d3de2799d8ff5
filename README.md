# A verified model of the shop's cart, catalogue and authentication rules

The shop is a React client with an Express/Mongo server that takes payments through a hosted checkout page. This project models the small rules at its core and proves what they promise:

- **The client cart** (`CartContext`). It is a sequence of lines keyed by product id and mirrored into a storage slot. The model covers add, remove, set-quantity and clear, together with the derived item count.
- **The cart page's money rules** (`CartPage`). All amounts are integer cents: the fee of $5.99 is 599 and the free-shipping threshold of $50 is 5000. The module also covers the quantity buttons, the free-shipping hint and the checkout hand-off, including the success page clearing the cart.
- **The product list's pagination and display rules** (`ProductList`).
- **The product controller** (`ProductController`). Listing arithmetic and single reads are functions. Create, update and delete run over an abstract store: a map from id to product plus a set of stored image files.
- **The auth controller** (`AuthController`). It covers signup, login, the profile lookup and the token lookup over an ordered user store. The token library is the pair `Sign`/`Verify`.
- **The Google verify callback and `serializeUser`** (`GoogleAuth`).
- **The client session** (`AuthContext`). It models the signed-in user, the loading and error flags and the stored token.
- **The two form validators and their submit gates** (`SignupPage`, `AddProductForm`).
- **The server's CORS origin predicate and the checkout-session handler** (`Server`).

`Text` holds JavaScript's white-space class, `trim`, ASCII lower-casing, the decimal rendering of a number and the `message || fallback` choice. `Http` holds the reply and role types, and `Wrappers` holds `Option`.

Stateful code is modelled as classes whose methods state the whole new state:

- the cart provider (`CartContext.CartStore`);
- the product store (`ProductController.Catalog`);
- the user store (`AuthController.UserStore`);
- the client session (`AuthContext.Session`);
- the two forms (`SignupPage.SignupForm`, `AddProductForm.ProductForm`).

The array computations behind them are functions, and the lemmas prove their properties.

Everything the program gets from outside is an input to the operation that uses it:

- what the database, the file system, the payment provider and the auth service answer;
- whether a store write or a file removal fails;
- the random username suffix.

## Model

| member | source | states |
|---|---|---|
| CartContext.IndexOf | client/src/context/CartContext.js:40 | finds the first line with the id, and finds none exactly when no line has it |
| CartContext.AddedTo | client/src/context/CartContext.js:38-55 | an id already in the cart gains exactly one unit on its own line, with length, products and other quantities unchanged; a new id is appended as one line of quantity 1 |
| CartContext.AddedToExisting | client/src/context/CartContext.js:41-49 | in a well-formed cart, adding a product that a line holds raises that line by one and leaves every other line as it was |
| CartContext.Removed | client/src/context/CartContext.js:57-59 | no line with the id remains, and the result is no longer than the cart |
| CartContext.RemovedCutsOut | client/src/context/CartContext.js:57-59 | in a well-formed cart, removing is cutting out exactly that one line, the others keeping their order |
| CartContext.RemovedAbsent | client/src/context/CartContext.js:57-59 | removing an id that has no line leaves the cart unchanged |
| CartContext.UpdatedQuantity | client/src/context/CartContext.js:61-72 | a quantity of zero or less leaves no line for the id; a positive one keeps the length and every line's product |
| CartContext.WithQuantity | client/src/context/CartContext.js:67-71 | the lines for the id take quantity q; every other line and every product is unchanged |
| CartContext.WithQuantityCount | client/src/context/CartContext.js:61-72 | a positive quantity keeps the cart well formed, an unknown id changes nothing, and the count moves by exactly the difference |
| CartContext.Count | client/src/context/CartContext.js:33-36 | the sum of the quantities; its properties are CountAppend, CountChangeAt, CountSameQuantities and CountAtLeastLines |
| CartContext.CountAppend | client/src/context/CartContext.js:33-36 | the count of a concatenation is the sum of the counts |
| CartContext.CountChangeAt | client/src/context/CartContext.js:33-36 | carts differing in one line's quantity differ in count by exactly that difference |
| CartContext.CountSameQuantities | client/src/context/CartContext.js:33-36 | carts with the same quantities have the same count |
| CartContext.WellFormedTail | client/src/context/CartContext.js:38-72 | the tail of a cart with unique ids and positive quantities keeps both |
| CartContext.AddedToCount | client/src/context/CartContext.js:38-55 | adding raises the item count by exactly one, whether or not the product was in the cart |
| CartContext.AddedToWellFormed | client/src/context/CartContext.js:38-55 | adding keeps ids unique and quantities at least 1 |
| CartContext.RemovedWellFormed | client/src/context/CartContext.js:57-59 | removing keeps ids unique and quantities at least 1 |
| CartContext.CutOutWellFormed | client/src/context/CartContext.js:57-59 | cutting one line out of a well-formed cart leaves it well formed |
| CartContext.RemovedCount | client/src/context/CartContext.js:57-59 | removing lowers the count by the removed line's quantity, or by nothing for an unknown id |
| CartContext.UpdatedQuantityWellFormed | client/src/context/CartContext.js:61-72 | set-quantity keeps ids unique and quantities at least 1, for every q |
| CartContext.CountAtLeastLines | client/src/context/CartContext.js:33-36 | with every quantity at least 1, the count is at least the number of lines |
| CartContext.CartStore.Load | client/src/context/CartContext.js:14-31 | a parsable slot is restored verbatim, anything else gives the empty cart, and the slot and count then mirror the lines |
| CartContext.CartStore.Save | client/src/context/CartContext.js:28-36 | the slot holds the lines and the count is the sum of the quantities |
| CartContext.CartStore.AddToCart | client/src/context/CartContext.js:38-55 | the lines become AddedTo of the old lines and stay mirrored; a well-formed cart stays well formed and its count rises by one |
| CartContext.CartStore.RemoveFromCart | client/src/context/CartContext.js:57-59 | the lines become Removed of the old lines, none carries the id, and the cart stays well formed |
| CartContext.CartStore.UpdateQuantity | client/src/context/CartContext.js:61-72 | q <= 0 is exactly removal; q > 0 sets only that line's quantity; the cart stays well formed |
| CartContext.CartStore.ClearCart | client/src/context/CartContext.js:74-76 | the cart, the count and the slot become empty |
| CartPage.ItemTotal | client/src/pages/CartPage.js:12-14 | price times quantity, which is not a number exactly when the price is not one |
| CartPage.Contribution | client/src/pages/CartPage.js:17 | a line's total, 0 for a non-number; ContributionOneMore states how it grows by one unit |
| CartPage.Subtotal | client/src/pages/CartPage.js:16-18 | the contributions summed from the left; SubtotalAppend, SubtotalSingle, SubtotalChangeAt and OneMoreAt state how it follows the cart |
| CartPage.Shipping | client/src/pages/CartPage.js:21-24 | free exactly when the subtotal is strictly over 5000 cents, otherwise 599 |
| CartPage.Total | client/src/pages/CartPage.js:26-30 | total minus subtotal is the shipping, and the total equals the subtotal exactly when shipping is free |
| CartPage.SubtotalAppend | client/src/pages/CartPage.js:16-18 | the subtotal of a concatenation is the sum of the subtotals |
| CartPage.SubtotalSingle | client/src/pages/CartPage.js:16-18 | a one-line cart's subtotal is that line's total, with a non-number line counting as 0 |
| CartPage.SubtotalChangeAt | client/src/pages/CartPage.js:16-18 | carts differing at one line differ in subtotal by the change of that line's contribution |
| CartPage.ContributionOneMore | client/src/pages/CartPage.js:12-18 | one more unit adds the line's unit price |
| CartPage.SubtotalAfterAdd | client/src/pages/CartPage.js:16-18 | adding a product raises the subtotal by one unit: the line's stored snapshot price for a product already in the cart, or the new product's price otherwise |
| CartPage.SubtotalAfterAddExisting | client/src/pages/CartPage.js:16-18 | adding a product already on line k raises the subtotal by that line's snapshot unit price |
| CartPage.OneMoreAt | client/src/pages/CartPage.js:16-18 | carts differing only by one more unit on one line differ in subtotal by that line's unit price |
| CartPage.FreeShippingHint | client/src/pages/CartPage.js:206-208 | the hint shows exactly below 5000 cents and names the difference to 5000 |
| CartPage.HintAmountStillPaysShipping | client/src/pages/CartPage.js:206-208 | adding the hinted amount reaches exactly 5000 cents, which still pays 599 |
| CartPage.QualifyingHint | client/src/pages/CartPage.js:21-24 | shown exactly when shipping is charged; names the least amount after which shipping is free |
| CartPage.MinusTarget | client/src/pages/CartPage.js:141 | the minus button asks for max(1, q - 1): one less above 1, and 1 for a quantity of 1 or less |
| CartPage.MinusKeepsLine | client/src/pages/CartPage.js:141 | the minus button never removes a line: length and product are kept, and the quantity becomes max(1, q - 1) |
| CartPage.PlusTarget | client/src/pages/CartPage.js:150 | the plus button asks for q + 1; PlusAddsOne states that the count then rises by one |
| CartPage.PlusAddsOne | client/src/pages/CartPage.js:150 | the plus button raises the item count by exactly one |
| CartPage.HandleCheckout | client/src/pages/CartPage.js:32-65 | posts the cart's own lines unless the payment library is missing; redirects on a session id, otherwise alerts; the cart is not in its frame, so it is unchanged |
| CartPage.ReturnFromCheckout | client/src/pages/SuccessPage.js:11-13 | the success page empties the cart; the cancel page leaves it as it was |
| ProductList.PageWindow | client/src/components/products/ProductList.js:170-181 | exactly min(5, totalPages) consecutive pages; within [1, totalPages]; the current page is among them when it is in range |
| ProductList.WindowStart | client/src/components/products/ProductList.js:172-181 | 1 with at most five pages; otherwise a start from which five buttons fit within the pages and include the current page when it is in range |
| ProductList.PageWindowIncreasing | client/src/components/products/ProductList.js:172-181 | the window is strictly increasing, so no button repeats |
| ProductList.Previous | client/src/components/products/ProductList.js:158 | never below 1; one page back when above 1 |
| ProductList.Next | client/src/components/products/ProductList.js:201 | never above totalPages; one page on when below it |
| ProductList.StepsStayInRange | client/src/components/products/ProductList.js:158-201 | from a page in range, both steps stay in range and move by at most one page |
| ProductList.ShowsPagination | client/src/components/products/ProductList.js:153 | the bar shows exactly when there is more than one page |
| ProductList.PreviousDisabled | client/src/components/products/ProductList.js:157 | Previous is disabled exactly on page 1; DisabledButtonsDoNotMove states that it would not move there |
| ProductList.NextDisabled | client/src/components/products/ProductList.js:200 | Next is disabled exactly on the last page; DisabledButtonsDoNotMove states that it would not move there |
| ProductList.DisabledButtonsDoNotMove | client/src/components/products/ProductList.js:157-200 | a disabled Previous or Next would not change the page |
| ProductList.ShownDescription | client/src/components/products/ProductList.js:129-131 | over 100 characters, the first 100 followed by "..."; otherwise verbatim |
| ProductList.AfterLast | client/src/components/products/ProductList.js:106 | a suffix of the string holding no separator, preceded by a separator unless it is the whole string |
| ProductList.ImageName | client/src/components/products/ProductList.js:106 | a suffix of the path holding neither `\` nor `/`, preceded by one of them unless it is the whole path |
| ProductList.ImageNameOfPlainName | client/src/components/products/ProductList.js:106 | a path without separators is its own name |
| ProductList.AfterLastAbsent | client/src/components/products/ProductList.js:106 | a string without the separator is returned whole |
| ProductController.PageParam | server/controllers/productController.js:63 | an absent, non-numeric or zero page gives 1, any other value is kept |
| ProductController.ValidPrice | server/controllers/productController.js:17-20 | a parsed price is accepted when it is a number and not negative (the same test as lines 128-130) |
| ProductController.ViewOf | server/controllers/productController.js:68-72 | the fields the `select` keeps: id, title, description, price, image path and creation time (also line 97) |
| ProductController.SavedOf | server/controllers/productController.js:31-39 | the create and update reply: the message and the five fields id, title, description, price and image path (also lines 155-163) |
| ProductController.LimitParam | server/controllers/productController.js:64 | an absent, non-numeric or zero limit gives 10, any other value is kept |
| ProductController.SkipIndex | server/controllers/productController.js:65 | (page - 1) * limit; PagesInRangeAreFilled and SecondPageOfTen state which items a page then holds |
| ProductController.CeilDiv | server/controllers/productController.js:80 | Math.ceil(total / limit) for a non-zero limit; CeilDivBounds and TotalPagesLeast state its bounds |
| ProductController.CeilDivBounds | server/controllers/productController.js:80 | totalPages pages of limit items hold every product, one page fewer does not, and there are no pages exactly when there are no products |
| ProductController.TotalPagesLeast | server/controllers/productController.js:80 | totalPages is the least page count that holds every product |
| ProductController.Window | server/controllers/productController.js:68-72 | at most `take` items, item i being the store's item skip + i |
| ProductController.ListProducts | server/controllers/productController.js:60-90 | fails with 500 "Server error fetching products" exactly when the store read fails or the skip index is negative; otherwise the window at (page - 1) * limit with currentPage, ceil(total / limit) and the total |
| ProductController.WindowNewestFirst | server/controllers/productController.js:68-71 | a window of a newest-first list is newest first |
| ProductController.ListingNewestFirst | server/controllers/productController.js:68-71 | a page keeps the newest-first order |
| ProductController.MulMonotone | server/controllers/productController.js:65 | a <= b and c >= 0 give a * c <= b * c; used to show that the skip index (page - 1) * limit grows with the page |
| ProductController.PagesInRangeAreFilled | server/controllers/productController.js:63-80 | with a positive page and limit, a page holds products exactly when it is at most totalPages |
| ProductController.SecondPageOfTen | server/controllers/productController.js:63-80 | ten products with limit 6 make two pages, and page 2 holds the 7th to the 10th |
| ProductController.GetProduct | server/controllers/productController.js:94-111 | a failed read gives 500 "Server error fetching product"; otherwise 404 exactly when the id is unknown, else the product's selected fields |
| ProductController.Catalog.Unlink | server/controllers/productController.js:45-49 | a best-effort removal: the file is gone unless the removal failed, and the records are untouched |
| ProductController.Catalog.Create | server/controllers/productController.js:7-56 | no upload gives 400 before the price is checked; a bad price gives 400 and keeps the upload; a failed write gives 500 and removes the upload unless that removal fails; otherwise exactly one record is added and 201 carries "Product created successfully" with its id, title, description, price and image path, and no creation time |
| ProductController.Catalog.Update | server/controllers/productController.js:115-180 | a failed lookup gives 500, keeps the records and removes the new upload unless that removal fails; unknown id gives 404 and a bad price 400, with nothing changed; otherwise the price changes only if supplied, title and description only if non-empty, and the image only if one was uploaded; the old image is removed first, and a failed save removes the new upload and keeps the record; success answers 200 with "Product updated successfully" and the five fields of the updated record |
| ProductController.Catalog.Delete | server/controllers/productController.js:184-213 | a failed lookup gives 500 with nothing changed; unknown id gives 404 with nothing changed; otherwise the image is removed best effort and the record is removed unless the delete fails |
| AuthController.Verify | server/controllers/authController.js:124-144 | a token yields an id exactly when it is a signed one |
| AuthController.Matches | server/controllers/authController.js:21 | the store queries: email or username (the `$or` of signup), email, id, Google id |
| AuthController.DataOf | server/controllers/authController.js:44-50 | the user fields of a reply: id, username, email, role, and the token when there is one (also lines 82-88 and 108-113) |
| AuthController.Sign | server/controllers/authController.js:6-10 | verifying the token for an id gives that id back |
| AuthController.CoerceRole | server/controllers/authController.js:29 | admin if and only if the requested role is exactly "admin", user otherwise |
| AuthController.FindFirst | server/controllers/authController.js:21 | the first account in insertion order that matches, or none exactly when no account matches |
| AuthController.PasswordMatches | server/controllers/authController.js:74 | the given password is the stored one, so an account without a password matches nothing; Login's contract states the outcomes |
| AuthController.FindByIdIsUnique | server/controllers/authController.js:102 | with distinct ids, looking an account's id up finds that account |
| AuthController.UserStore.Find | server/controllers/authController.js:102 | finds an account exactly when one has the id, and it has that id |
| AuthController.UserStore.Signup | server/controllers/authController.js:14-58 | a taken email or username gives 400 with no user added; otherwise one account with the coerced role is appended and 201 carries its id, fields and a token for that id; store failures give 500 with nothing added |
| AuthController.UserStore.Login | server/controllers/authController.js:62-96 | an unknown email and a wrong password give the same 401 "Invalid credentials"; success exactly when the password matches, returning that account's fields and its token |
| AuthController.UserStore.GetUserProfile | server/controllers/authController.js:100-120 | 404 when the caller's id is not stored, otherwise the caller's fields |
| AuthController.UserStore.GetUserByToken | server/controllers/authController.js:124-144 | 400 for no token, 401 when verification or the read fails, 404 for an unknown id, otherwise that user's fields |
| AuthController.SignedTokenFindsAccount | server/controllers/authController.js:6-10 | a token issued for a stored account leads back to that account |
| GoogleAuth.Dotted | server/middlewares/googleAuthMiddleware.js:51 | the result holds no white space and is no longer than the name; DottedJoin states the one-dot-per-run rule |
| GoogleAuth.DottedRun | server/middlewares/googleAuthMiddleware.js:51 | a white-space run at the start becomes exactly one dot |
| GoogleAuth.DottedCons | server/middlewares/googleAuthMiddleware.js:51 | a leading non-space character is kept |
| GoogleAuth.DottedAppend | server/middlewares/googleAuthMiddleware.js:51 | after a text ending in a non-space, the rest is dotted separately: no run crosses the boundary |
| GoogleAuth.DottedJoin | server/middlewares/googleAuthMiddleware.js:51 | every maximal white-space run, whatever its length, is replaced by exactly one dot, the text around it dotted separately |
| GoogleAuth.DottedKeepsPlainName | server/middlewares/googleAuthMiddleware.js:51 | a name without white space is unchanged |
| GoogleAuth.DottedIdempotent | server/middlewares/googleAuthMiddleware.js:51 | replacing the runs twice is replacing them once |
| GoogleAuth.Letters | server/middlewares/googleAuthMiddleware.js:51 | keeps the characters that are neither white space nor a dot |
| GoogleAuth.LettersOfBlank | server/middlewares/googleAuthMiddleware.js:51 | a white-space run has no such characters |
| GoogleAuth.LettersAppend | server/middlewares/googleAuthMiddleware.js:51 | Letters distributes over concatenation |
| GoogleAuth.DottedKeepsLetters | server/middlewares/googleAuthMiddleware.js:51 | every character other than white space and dots survives, in order |
| GoogleAuth.GeneratedUsername | server/middlewares/googleAuthMiddleware.js:51-52 | the lower-cased dotted name followed by the decimal suffix, holding no white space and no upper-case ASCII letter |
| GoogleAuth.Linked | server/middlewares/googleAuthMiddleware.js:42-45 | the Google id is set, the picture replaced only when the profile has photos, and no other field changes |
| GoogleAuth.Callback | server/middlewares/googleAuthMiddleware.js:27-66 | the callback's outcome and new store; CallbackOutcome, GoogleIdFirst, LinkByEmail, NewProfileCreatesOneUser, NoEmailOrPhotoNoAccount, FailuresWriteNothing and CallbackKeepsDistinct state its cases |
| GoogleAuth.CallbackOutcome | server/middlewares/googleAuthMiddleware.js:27-66 | an error leaves the store as it was; a user handed to `done` carries the profile's Google id and is in the store afterwards |
| GoogleAuth.GoogleIdFirst | server/middlewares/googleAuthMiddleware.js:30-35 | an account already linked to the profile's Google id is returned with no write, before any email lookup |
| GoogleAuth.LinkByEmail | server/middlewares/googleAuthMiddleware.js:37-48 | a profile no account is linked to, whose first email is on account k, links that account: `done` gets Linked(account k) and only that account changes; a failed save errors and writes nothing |
| GoogleAuth.NewProfileCreatesOneUser | server/middlewares/googleAuthMiddleware.js:50-62 | an unknown profile creates exactly one account, appended: user role, no password, the first email, the Google id and the generated username |
| GoogleAuth.NoEmailOrPhotoNoAccount | server/middlewares/googleAuthMiddleware.js:37-60 | an unlinked profile with no email, or with an unknown email and no photo, errors and writes nothing |
| GoogleAuth.FailuresWriteNothing | server/middlewares/googleAuthMiddleware.js:27-66 | a failed read errors with the store unchanged; a failed save leaves the store unchanged, and any user handed to `done` is an account already linked to the profile |
| GoogleAuth.RelinkKeepsDistinct | server/middlewares/googleAuthMiddleware.js:42-46 | rewriting an account without changing its id or email keeps ids and emails distinct |
| GoogleAuth.AppendKeepsDistinct | server/middlewares/googleAuthMiddleware.js:54-60 | appending an account with a fresh id and email keeps ids and emails distinct |
| GoogleAuth.CallbackKeepsDistinct | server/middlewares/googleAuthMiddleware.js:27-66 | the callback keeps ids and emails distinct, given a fresh id for a new account |
| GoogleAuth.VerifyProfile | server/middlewares/googleAuthMiddleware.js:27-66 | the step-by-step callback hands `done` exactly the outcome of `Callback` (by Google id, else link by the first email, else create; no emails, no photos for a new account or a store failure is an error) and leaves the store as `Callback` says, distinct |
| GoogleAuth.SerializeUser | server/middlewares/googleAuthMiddleware.js:71-73 | the session keeps the account's id; SerializedIdFindsAccount states that it finds the account again |
| GoogleAuth.SerializedIdFindsAccount | server/middlewares/googleAuthMiddleware.js:71-73 | the id the session keeps finds the same account |
| AuthContext.ClientSignupRequest | client/src/context/AuthContext.js:39-42 | the request carries the three fields and no role |
| AuthContext.ClientSignupIsUserRole | client/src/context/AuthContext.js:39-42 | an account created through the client gets the user role whatever was selected |
| AuthContext.Session.Mount | client/src/context/AuthContext.js:12-15 | no user, loading, no error, children hidden |
| AuthContext.Truthy | client/src/context/AuthContext.js:21 | a stored token counts when it is present and not empty |
| AuthContext.Session.RendersChildren | client/src/context/AuthContext.js:95 | the children are rendered exactly when loading is over |
| AuthContext.Session.RunInit | client/src/context/AuthContext.js:17-37 | loading ends; no token leaves the user unset; a failed lookup removes the token; a successful one sets the user |
| AuthContext.Session.Authenticate | client/src/context/AuthContext.js:39-63 | success stores the token and sets the user with the error cleared; failure sets the message or fallback, keeps user and token and rethrows |
| AuthContext.Session.Signup | client/src/context/AuthContext.js:39-50 | sends no role; outcomes as Authenticate with "Failed to register" |
| AuthContext.Session.Login | client/src/context/AuthContext.js:52-63 | outcomes as Authenticate with "Failed to login" |
| AuthContext.Session.Logout | client/src/context/AuthContext.js:65-68 | the token is removed and the user unset |
| AuthContext.Session.SetAuthToken | client/src/context/AuthContext.js:71-81 | success sets the user; failure sets the message or fallback; the stored token is not written |
| SignupPage.Find | client/src/pages/auth/SignupPage.js:39-40 | the first position of the character, or none exactly when it is absent |
| SignupPage.EmailTest | client/src/pages/auth/SignupPage.js:39-40 | the scan for the email pattern; EmailTestIsPattern states that it accepts exactly the pattern's strings |
| SignupPage.EmailTestSound | client/src/pages/auth/SignupPage.js:39-40 | whatever the scan accepts has the pattern's shape |
| SignupPage.EmailTestComplete | client/src/pages/auth/SignupPage.js:39-40 | every string of the pattern's shape is accepted by the scan |
| SignupPage.EmailTestIsPattern | client/src/pages/auth/SignupPage.js:39-40 | the scan accepts exactly the strings of the pattern: plain run, `@`, plain run, `.`, plain run |
| SignupPage.ValidateSignup | client/src/pages/auth/SignupPage.js:31-56 | passes exactly when all four checks hold; otherwise the first failing check names the message |
| SignupPage.SignupForm.constructor | client/src/pages/auth/SignupPage.js:6-12 | empty fields with the user role selected |
| SignupPage.SignupForm.Submit | client/src/pages/auth/SignupPage.js:58-74 | a failing form shows its message and leaves the session as it was; a passing one sends a role-less request; on success the session holds the user and the token with no error, on rejection it keeps user and token, records the message or "Failed to register", and the form shows the message or its own fallback; the session's loading flag is never touched |
| AddProductForm.MissingIsTrimmedEmpty | client/src/components/products/AddProductForm.js:30-43 | a field is missing exactly when it trims to the empty string |
| AddProductForm.Missing | client/src/components/products/AddProductForm.js:30 | `!s.trim()`: the field holds white space only; MissingIsTrimmedEmpty ties it to Trim |
| AddProductForm.ValidateProduct | client/src/components/products/AddProductForm.js:29-57 | passes exactly when title, description and price are not blank, the price is a number >= 0 and an image is chosen |
| AddProductForm.ValidateProductOrder | client/src/components/products/AddProductForm.js:29-57 | the first failing check, in source order, names the message |
| AddProductForm.FreeProductAccepted | client/src/components/products/AddProductForm.js:45-49 | a price of 0 passes |
| AddProductForm.ProductForm.constructor | client/src/components/products/AddProductForm.js:5-12 | empty fields, no image, no error, not loading, no success |
| AddProductForm.ProductForm.Submit | client/src/components/products/AddProductForm.js:59-107 | a failing form posts nothing and shows the message; a passing one posts its fields; success clears every field and sets the success flag; failure keeps the fields and shows the message or the fallback |
| Server.OriginsMatchExactly | server/server.js:21-43 | no or empty origin passes, every listed origin passes, and near misses (a trailing slash, another scheme, another port) do not |
| Server.OriginAllowed | server/server.js:21-43 | a missing or empty origin, or one of the eight listed origins; OriginsMatchExactly states which origins pass |
| Server.LineItems | server/server.js:100-109 | one usd item per cart line, in order, named by the title with the line's price and quantity |
| Server.ChargedIsSubtotal | server/server.js:100-109 | the line items add up to the cart page's subtotal |
| Server.ReturnUrls | server/server.js:115-120 | the production pair exactly when NODE_ENV is production, the localhost pair otherwise |
| Server.ReturnUrlsShareHost | server/server.js:115-120 | the success and cancel pages differ and share their host |
| Server.CreateCheckoutSession | server/server.js:96-128 | a missing cart or a provider error gives 500 with its message; otherwise the session id for the mapped items and chosen URLs |
| Server.CheckoutOmitsShipping | server/server.js:100-109 | whenever the cart page charges shipping, the session charges the page's total minus 599 |
| Server.LineItemsWithShipping | client/src/pages/CartPage.js:26-30 | line items that charge exactly the page's total, the fee being one extra item |
| Text.TrimStart | client/src/components/products/AddProductForm.js:30 | a suffix with only white space removed before it, and empty exactly for a blank string |
| Text.LeadingSpaces | client/src/components/products/AddProductForm.js:30 | the length of the white-space run the string starts with |
| Text.TrimEnd | client/src/components/products/AddProductForm.js:30 | a prefix with only white space removed after it, and empty exactly for a blank string |
| Text.Trim | client/src/components/products/AddProductForm.js:30-40 | a slice of the string with only white space before it (the run TrimStart removes) and only white space after it, neither starting nor ending with white space |
| Text.TrimCutsBothEnds | client/src/components/products/AddProductForm.js:30-40 | cutting the leading run and then the trailing run leaves such a slice |
| Text.TrimStartAfterBlank | client/src/components/products/AddProductForm.js:30 | a white-space run followed by a non-space or nothing trims to what follows it |
| Text.TrimStartAppend | client/src/components/products/AddProductForm.js:30 | a text that is not all white space trims the same with anything after it |
| Text.TrimEmptyIffBlank | client/src/components/products/AddProductForm.js:30 | trimming leaves nothing exactly when the string is white space only |
| Text.Decimal | server/middlewares/googleAuthMiddleware.js:52 | digits whose value is the number, with no leading zero and at most three digits below 1000 |
| Text.Lower | server/middlewares/googleAuthMiddleware.js:51 | same length, each character lower-cased on its own |
| Text.LowerChar | server/middlewares/googleAuthMiddleware.js:51 | an ASCII upper-case letter becomes its lower-case letter, every other character is kept; the result is never upper-case ASCII and is white space exactly when the input is |
| Text.IsSpace | server/middlewares/googleAuthMiddleware.js:51 | the characters `\s` matches: the ECMAScript WhiteSpace and LineTerminator code points |
| Text.MessageOr | client/src/context/AuthContext.js:47 | the server's message when it is non-empty, otherwise the fallback |

## Left out

- Money is integer cents. Floating point is not modelled: `toFixed(2)`, `Math.round(price * 100)` and the literal 5.99. A price the client holds that is not a number is `NotANumber`.
- `parseFloat` and `parseInt` are not modelled. Their results enter as inputs: `Option<int>` in cents, or a page number, with `None` standing for `NaN`.
- Date and number formatting is not modelled.
- The token library is the pair `Sign`/`Verify`. Token expiry and the secret are not modelled; an expired token is simply `Unverifiable`.
- Password hashing is not modelled because the user model is not shown. The check compares the given password with the stored one. An account created through Google has no password and never matches.
- A malformed id that makes the store throw a cast error is not modelled on its own: it takes the path of a failed read. Every store read and every write that can fail is a boolean input of its operation (for the catalogue: `readFails` for each lookup, `writeFails`, `saveFails` and `deleteFails` for the writes).
- `deserializeUser` is not modelled: it is a store read whose only outcome is the account or the store's error.
- The route middleware (`protect`, `adminOnly`, the upload middleware) is not shown. The catalogue's admin requirement is a precondition, and an upload is a path already in the file set.
- Fields of the product records that the controller never reads or writes are not modelled.
- HTTP transport, the axios interceptor, the payment library's loading and redirect, and the hard-coded API URLs are not modelled. Their outcomes are inputs such as `ServerAnswer`, `Answer` and `PostAnswer`.
- `CartPage`'s `isLoading` flag and the Header's copy of the subtotal are not modelled.
- A storage slot that parses to something other than a list of lines is not modelled. A slot that does not parse leaves the cart empty.
- React effect timing is not modelled: the load and save effects run in sequence inside `CartStore.Load`.
- SignupPage's effect that copies the session error into the form is not modelled.
- All navigation is not modelled.
- AddProductForm's three-second timer is not modelled, because it is a deferred callback. As written (client/src/components/products/AddProductForm.js:97-99) it tests the `success` value captured when the submit began. After a first successful submit that value is false, so the timer does not clear the flag. The model leaves `success` true after a successful submit, which is what the timer as written usually leaves.
- `ProductList.ShownDescription`: counts length in Unicode scalar values (Dafny characters), while `length` and `substring` count UTF-16 code units. For a description holding characters outside the Basic Multilingual Plane, such as emoji, the 100 limit and the cut point differ, and the source can cut a surrogate pair in half.
- `SignupPage.ValidateSignup`: the username and password length checks (client/src/pages/auth/SignupPage.js:34 and :45) count Unicode scalar values, not UTF-16 code units. A name or password holding characters outside the Basic Multilingual Plane can pass or fail differently.
- `Text.LowerChar`: lower-cases ASCII letters only, because `toLowerCase` on non-ASCII letters depends on Unicode tables not modelled here.
- `AuthContext.Session.Authenticate`: stores the reply's token as `Option`. It does not model `localStorage.setItem` writing the text "undefined" for a reply without a token. The server's signup and login replies always carry one.
- `Server.CreateCheckoutSession`: the provider's answer to a list with a non-numeric amount is whatever `create` returns. `Charged` counts such an amount as nothing.

## Findings

| source | as written | input that shows it | evidently intended | confidence | as-written member | corrected member |
|---|---|---|---|---|---|---|
| client/src/pages/CartPage.js:206-208 | the hint asks for `50 - subtotal` more, but shipping is free only strictly over 50 (lines 21-24) | subtotal 4000 cents: the hint says add 1000 cents; at 5000 the fee of 599 is still charged | the hint names an amount that makes shipping free | high, not executed | CartPage.HintAmountStillPaysShipping | CartPage.QualifyingHint |
| server/server.js:100-109 | the session's line items are the cart lines only; the page's total adds 599 shipping (CartPage.js:26-30) | one line priced 1000 cents, quantity 1: the page shows 1599, the session charges 1000 | the amount charged is the total the page shows | medium, not executed | Server.CheckoutOmitsShipping | Server.LineItemsWithShipping |
