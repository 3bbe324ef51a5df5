# Art storefront client logic, in Dafny

This project models the client-side rules of a React art storefront. Most of its screens forward calls to a REST backend. The model covers the parts that decide something on the client:

- the error translation in the API façade (`src/services/api.js`);
- the category and price filter of the two art listings;
- the cart: its quantity map, row saving and the total;
- the wishlist: removal, clearing, grouping by category and the scroll arrows;
- the account verification form, with its six-slot code and resend countdown;
- the outcome tables of the login and password-reset forms;
- the art detail page: its login guard and current image;
- the payloads of the forms that post multipart data: update art, add art, register and profile update.

Every network call is a parameter of the handler that makes it. For the axios façades that parameter is `Api.AxiosOutcome` (resolved data, or the caught error's shape). For the two `fetch` façades it is `Api.FetchOutcome`. The session cookie is an `Option<int>` input. Whatever a handler does besides updating its own state is appended to an effect log (`Effects.Effect`): requests sent, alerts, navigation, delayed navigation and session writes.

JavaScript values that matter to the rules are `Js.JsValue`. This covers truthiness, `||`, property reads that throw on null and undefined, and `?.`. An `Error` object is `Js.JsError`, which keeps the value it was built from.

Files:

- `base.dfy`: `Option`, `Result`, and sequence helpers. The helpers are a filter with its subsequence lemmas, string concatenation and substring search.
- `js.dfy`: JavaScript values, the effect log, the request datatype and the form-data entries.
- `api.dfy`: the API façade.
- One file per component:
  - `listing.dfy`
  - `cart.dfy`
  - `wishlist.dfy`
  - `verify.dfy`
  - `login.dfy`
  - `reset_password.dfy`
  - `user_view_art.dfy`
  - `update_art.dfy`
  - `add_art.dfy`
  - `register.dfy`
  - `profile_update.dfy`

The user listing (`src/components/UserViewArts.js`) and the admin listing (`src/components/ViewArts.jsx`) hold the same filter code, and `ArtListing` models both.

Components are classes. Their React state is held in fields, and each handler is a method that states the whole new state. Pure decisions are functions: a message table, a payload, a filter, a grouping. The lemmas beside the functions state the promised properties.

## Model

| member | source | states |
|---|---|---|
| Api.HandleApiError | src/services/api.js:16-24 | always yields an error to throw, with a truthy message. With a response: the body's `message` when truthy, else 'An error occurred'; a null or undefined body throws a TypeError. Without a response: 'Network error: ' plus the error's message |
| Api.Call | src/services/api.js:263-272 | every `try { return data } catch { handleApiError }` wrapper resolves exactly when the call resolves, with its data; otherwise it rejects with a truthy message and never resolves with undefined |
| Api.ResetPassword | src/services/api.js:27-47 | a non-ok response always gives 'Failed to reset password: ' plus the status text, whatever the body holds, because the inner throw is caught by its own catch; an ok object body gives exactly its `success` and `message`; success implies an ok response |
| Api.RegisterUser | src/services/api.js:72-88 | three failure kinds: a response gives the server message or 'Error registering user'; a request without a response gives 'No response from server. Please try again.'; anything else gives 'An unexpected error occurred. Please try again.'; every message is truthy |
| Api.RawRejection | src/services/api.js:106 | the thrown value is the raw response body when truthy, else the fallback string; it is truthy either way |
| Api.VerifyAccount | src/services/api.js:101-108 | rejects with the raw response body when truthy, else the string 'Error verifying account' (not an Error object) |
| Api.RegenerateOtp | src/services/api.js:111-120 | rejects with the raw response body when truthy, else the string 'Error regenerating OTP' |
| Api.AddToWishlist | src/services/api.js:210-230 | succeeds exactly on an ok response with a parsed body; a non-ok response throws 'Failed to add to wishlist'; a network failure is rethrown unchanged |
| Api.SessionGuarded | src/services/api.js:275-284 | without a session, no request is sent and the failure is 'Network error: User not logged in.'; with one, the request names the session user and the result follows the call |
| Api.GetUserWishlist | src/services/api.js:232-244 | the session guard for the wishlist fetch |
| Api.GetUserCart | src/services/api.js:275-284 | the session guard for the cart fetch |
| ArtListing.ChangeFilters | src/components/UserViewArts.js:52-71 | ticking appends the category. Unticking removes every occurrence of it and keeps every other entry, in order and as many times as before. Both leave the bounds alone. A price edit replaces only its own bound |
| ArtListing.Apply | src/components/UserViewArts.js:73-87 | the result is an order-preserving subsequence of the arts. An art is in it iff it is in the arts, no category is selected or its category is selected, and lower limit ≤ price ≤ upper limit, both inclusive |
| ArtListing.ApplyIdempotent | src/components/UserViewArts.js:80-86 | filtering an already filtered list with the same filters changes nothing |
| ArtListing.OpenBounds | src/components/UserViewArts.js:76-78 | empty or zero bounds mean 0 below and unbounded above; with no category ticked, every art with a non-negative price is kept |
| ArtListing.PriceRangeExample | src/components/UserViewArts.js:81-83 | bounds 10 and 50 over prices 5, 10, 25, 50, 75 keep exactly 10, 25 and 50 |
| ArtListing.ScreenOf | src/components/ViewArts.jsx:268-287 | the "No products available" notice shows iff loading is done, there is no error and the filtered list is empty; the product grid is never empty |
| ArtListing.ListingView.constructor | src/components/UserViewArts.js:11-22 | empty lists, loading, no error, no categories ticked and both price fields empty |
| ArtListing.ListingView.LoadArts | src/components/UserViewArts.js:27-37 | after a successful load, `arts` and `filteredArts` both equal the fetched list; a failure sets 'Error fetching art items'; loading ends on both paths |
| ArtListing.ListingView.LoadCategories | src/components/UserViewArts.js:39-46 | categories take the fetched list; a failure changes nothing |
| ArtListing.ListingView.HandleFilterChange | src/components/ViewArts.jsx:46-65 | the filters become `ChangeFilters` of the old filters; the lists are unchanged |
| ArtListing.ListingView.ApplyFilters | src/components/ViewArts.jsx:67-81 | the shown list is recomputed from the full `arts`, never from the previously shown list |
| CartView.QuantitiesOfKeys | src/components/Cart.js:18-22 | the quantity map's keys are exactly the fetched ids |
| CartView.QuantitiesOfLastWins | src/components/Cart.js:19-21 | an item whose id no later item repeats keeps its quantity in the map |
| CartView.QuantitiesOfUniqueIds | src/components/Cart.js:18-22 | with distinct ids, `quantities[item.id] = item.quantity` for every fetched item |
| CartView.InitialQuantities | src/components/Cart.js:18-22 | the `forEach` loop builds exactly `QuantitiesOf(items)` |
| CartView.TotalSplit | src/components/Cart.js:62-66 | the total is the total of the rows with id x plus the total of all other rows |
| CartView.TotalAfterEdit | src/components/Cart.js:62-66 | the total uses edited, unsaved quantities: editing id x to n moves it by (n − old edited quantity) × the prices of the rows with id x |
| CartView.TotalAfterRemove | src/components/Cart.js:46 | after removing id x, no row has id x and the others keep their order; the total drops by exactly the rows of x |
| CartView.ReplaceId | src/components/Cart.js:35-37 | rows with that id become the server's item; every other row is unchanged; the length is unchanged |
| CartView.Cart.constructor | src/components/Cart.js:8-10 | no items, an empty quantity map, and the session cookie as the cart's user |
| CartView.Cart.Load | src/components/Cart.js:12-28 | without a session: no request and nothing changes; with one, the fetched items and their quantity map are stored on success, and a failure changes nothing |
| CartView.Cart.SaveRow | src/components/Cart.js:30-41 | an edited quantity below 1 sends nothing and changes nothing. Otherwise one update request carries the edited quantity (undefined when missing). A success replaces only the rows with that id. The quantity map is unchanged |
| CartView.Cart.RemoveItem | src/components/Cart.js:43-50 | on success the rows become `WithoutId`; on failure nothing changes; quantities are untouched |
| CartView.Cart.ClearCart | src/components/Cart.js:52-60 | on success both the rows and the quantity map are emptied; on failure nothing changes |
| CartView.Cart.EditQuantity | src/components/Cart.js:115-120 | only a parsed value ≥ 0 is stored, and only under that item's id |
| WishlistView.CategoryKey | src/components/Wishlist.js:92 | the key is the art's category when present and non-empty, else 'Other'; it is never empty |
| WishlistView.CategoryKeysSound | src/components/Wishlist.js:91-96 | the bucket keys are distinct; a key exists iff some item falls into it |
| WishlistView.EmptyBucket | src/components/Wishlist.js:93-94 | a category without a key has an empty bucket |
| WishlistView.ExactlyOneBucket | src/components/Wishlist.js:91-96 | every item lies in the bucket of its own category and in no other |
| WishlistView.BucketsPartition | src/components/Wishlist.js:91-96 | the bucket sizes add up to the wishlist's length |
| WishlistView.GroupStep | src/components/Wishlist.js:93-94 | one reduce step keeps the grouping: the key is created on first sight and the item is pushed at the end of its bucket |
| WishlistView.GroupByCategory | src/components/Wishlist.js:91-96 | the intended grouping, for every wishlist: the reduce yields keys in first-occurrence order, one group per key, and each group is that category's items in wishlist order |
| WishlistView.GroupByCategoryAsWritten | src/components/Wishlist.js:91-96 | the reduce as written, starting from `{}`, throws 'acc[category].push is not a function' iff some item's category names a member inherited from `Object.prototype`; otherwise it builds the same grouping |
| WishlistView.InheritedCategoryThrows | src/components/Wishlist.js:93-94 | one item in category "constructor" makes the reduce as written throw, while the intended grouping has one bucket holding it |
| WishlistView.GroupingExample | src/components/Wishlist.js:91-96 | two paintings, a sculpture and an uncategorised item group as Painting (2), Sculpture (1), Other (1) |
| WishlistView.ArrowsFor | src/components/Wishlist.js:55-64 | `showLeft` iff `scrollLeft ≠ 0`; `showRight` iff `scrollLeft + clientWidth < scrollWidth` |
| WishlistView.Wishlist.constructor | src/components/Wishlist.js:12-18 | an empty list, loading, a null error and no arrows |
| WishlistView.Wishlist.Load | src/components/Wishlist.js:20-32 | without a session: no request and the error is 'Network error: User not logged in.'; otherwise the data or the translated error is stored; loading ends on every path |
| WishlistView.Without | src/components/Wishlist.js:37 | the filter removes every item with that id and keeps every other item, in order and as many times as before |
| WishlistView.Wishlist.RemoveItem | src/components/Wishlist.js:34-41 | on success the list becomes `Without` of the old list: no item with that id is left, and every other item stays, in order. On failure the list is unchanged and the error is the translated, truthy message |
| WishlistView.Wishlist.Clear | src/components/Wishlist.js:43-50 | on success the list is empty. On failure the list is unchanged and the error is set |
| WishlistView.Wishlist.OnScroll | src/components/Wishlist.js:52-66 | only that category's entry changes, to `ArrowsFor` of its container; an unmounted container changes nothing |
| WishlistView.Wishlist.ClearDisabled | src/components/Wishlist.js:179 | the clear button is disabled iff the wishlist is empty |
| VerifyFlow.Tick | src/components/Verify.js:25-34 | a running countdown goes down by one; at 0 the resend button is enabled; the bound of 60 is kept |
| VerifyFlow.Resend | src/components/Verify.js:56-69 | resend restarts the countdown at 30, not 60; the button is disabled again unless the request failed |
| VerifyFlow.TicksElapse | src/components/Verify.js:25-34 | after k seconds the timer is `max(timer − k, 0)`; the button stays as it was while time remains and is enabled once it runs out |
| VerifyFlow.MountCountdown | src/components/Verify.js:18-34 | from mount, the resend button stays disabled for 59 seconds and is enabled at the 60th |
| VerifyFlow.ResendCountdown | src/components/Verify.js:56-58 | after a successful resend, the button comes back after 30 seconds |
| VerifyFlow.EnabledCodeLength | src/components/Verify.js:188 | when Verify is enabled (email non-empty, no empty slot), the joined code has exactly 6 characters |
| VerifyFlow.AstralCharacterIgnored | src/components/Verify.js:73 | a character outside the Basic Multilingual Plane is two UTF-16 code units long, so the slot ignores it |
| VerifyFlow.VerifyForm.constructor | src/components/Verify.js:14-20 | six empty slots, timer 60, resend disabled, no message |
| VerifyFlow.VerifyForm.SetEmail | src/components/Verify.js:139 | only the email changes |
| VerifyFlow.VerifyForm.HandleOtpChange | src/components/Verify.js:72-77 | a value longer than one UTF-16 code unit (as `value.length` counts) is ignored; otherwise only slot `index` changes; there are always six slots of at most one code unit each |
| VerifyFlow.VerifyForm.TimerTick | src/components/Verify.js:25-34 | the countdown state becomes `Tick` of the old one |
| VerifyFlow.VerifyForm.HandleSubmit | src/components/Verify.js:36-54 | sends the email and the joined code. Success: `isSuccess`, the result or 'Verification successful!', and /login after 2 s. Failure: `error`, and the rejection value, which is always truthy, so 'Invalid OTP' never shows |
| VerifyFlow.VerifyForm.HandleResendOtp | src/components/Verify.js:56-70 | the countdown becomes `Resend(old, failed)`; one request; the message is the result or the default, or the truthy rejection value |
| LoginForm.SubmitEffects | src/components/Login.js:51-71 | the session (key 'userId', 30 days) is written iff the response has a truthy `success` and `userId`. userId 1 routes to /adminHome, any other to /userHome. Otherwise `response.message` or 'Invalid email or password.' is alerted. A thrown error, or a null response, alerts 'Login failed. Please try again later.' |
| LoginForm.NullResponse | src/components/Login.js:65-71 | a null body ends in the generic failure alert, not in the invalid-credentials one |
| LoginForm.AdminIsNumberOne | src/components/Login.js:58-64 | the admin test is strict: a userId of "1" routes to /userHome |
| LoginForm.LoginView.constructor | src/components/Login.js:9-13 | empty credentials, not submitting |
| LoginForm.LoginView.HandleChange | src/components/Login.js:16-21 | only the named credential changes |
| LoginForm.LoginView.BeginSubmit | src/components/Login.js:48-52 | `isSubmitting` is true while the login request is out |
| LoginForm.LoginView.CompleteSubmit | src/components/Login.js:53-74 | the outcome's effects are `SubmitEffects`; `isSubmitting` is false afterwards on every path |
| LoginForm.LoginView.HandleSubmit | src/components/Login.js:48-75 | one login request with the credentials, then `SubmitEffects`, ending with `isSubmitting` false |
| ResetPasswordForm.OutcomeMessage | src/components/ResetPassword.js:24-34 | a truthy `success` gives 'Password reset successful!' with type success. Otherwise the response message or its fallback shows. A thrown error shows its message or another fallback. The type is success iff the reset succeeded, and the message is always truthy |
| ResetPasswordForm.NonOkResponse | src/services/api.js:36-43 | whatever a non-ok body says, the form shows 'Failed to reset password: ' plus the status text, as an error |
| ResetPasswordForm.OkResponse | src/services/api.js:45-46 | an ok body with a truthy `success` shows the success text |
| ResetPasswordForm.ResetView.constructor | src/components/ResetPassword.js:6-11 | empty fields and message; the token is the URL parameter |
| ResetPasswordForm.ResetView.HandleSubmit | src/components/ResetPassword.js:13-36 | mismatched passwords show 'Passwords do not match.' as an error and send nothing. Otherwise exactly `{token, newPassword: password}` is sent and `OutcomeMessage` picks the message |
| ArtDetailView.Thumbnails | src/components/UserViewArt.jsx:167-178 | a thumbnail shows exactly for each truthy picture URL, in order |
| ArtDetailView.AddToCartEffects | src/components/UserViewArt.jsx:30-46 | without a session: an alert and /login, with no request. Before the art loads: only the failure alert. Otherwise one request for quantity 1 of the current art, then the alert and /cart on success, or the failure alert with no navigation |
| ArtDetailView.AddToWishlistEffects | src/components/UserViewArt.jsx:49-64 | the same guard. /wishlist follows iff there is a session, the art has loaded and the call succeeded |
| ArtDetailView.GuardSendsNothing | src/components/UserViewArt.jsx:32-36 | without a session neither handler sends a request |
| ArtDetailView.ArtPage.constructor | src/components/UserViewArt.jsx:10-14 | no art yet and an empty current image |
| ArtDetailView.ArtPage.Load | src/components/UserViewArt.jsx:16-28 | after a fetch, the art is stored and the current image is its first picture URL; a failure changes nothing |
| ArtDetailView.ArtPage.SelectThumbnail | src/components/UserViewArt.jsx:167-178 | clicking a shown thumbnail makes its (truthy) URL current |
| ArtDetailView.ArtPage.AddToCart | src/components/UserViewArt.jsx:30-46 | appends `AddToCartEffects` for the session, the art and the call's outcome |
| ArtDetailView.ArtPage.AddToWishlist | src/components/UserViewArt.jsx:49-64 | appends `AddToWishlistEffects` for the session, the art and the `fetch` outcome |
| UpdateArtForm.FromFetched | src/components/UpdateArt.jsx:23-29 | every fetched property is copied, and picture slot j becomes `picture{j}` when truthy, else null |
| UpdateArtForm.InputValue | src/components/UpdateArt.jsx:37-43 | a file input stores its first file (undefined if none); any other input stores its text |
| UpdateArtForm.TextEntries | src/components/UpdateArt.jsx:49-52 | the payload starts with `artTitle`, `description`, `category` and `price` |
| UpdateArtForm.PictureEntriesOrdered | src/components/UpdateArt.jsx:55-57 | picture keys come in slot order 1..4, each at most once |
| UpdateArtForm.PictureEntriesSent | src/components/UpdateArt.jsx:55-57 | `picture{j}` with slot j's file is sent iff `pictureFile{j}` is truthy |
| UpdateArtForm.PictureEntriesOnly | src/components/UpdateArt.jsx:55-57 | every picture entry is a truthy slot's file under that slot's key |
| UpdateArtForm.BuildPayload | src/components/UpdateArt.jsx:48-57 | the `forEach` loop builds the text fields followed by the truthy picture slots |
| UpdateArtForm.PayloadShape | src/components/UpdateArt.jsx:48-57 | 4 to 8 entries; the text keys come first; each picture is present iff its slot is set |
| UpdateArtForm.NoPicturesNoFiles | src/components/UpdateArt.jsx:25-28 | an art fetched without pictures sends only the four text fields |
| UpdateArtForm.UpdateArtView.constructor | src/components/UpdateArt.jsx:8-17 | empty texts and four null picture slots |
| UpdateArtForm.UpdateArtView.Load | src/components/UpdateArt.jsx:19-35 | a fetched object replaces the form with `FromFetched` of it; a null body or a failed call leaves the form as it was |
| UpdateArtForm.UpdateArtView.HandleInputChange | src/components/UpdateArt.jsx:37-43 | only the named field changes |
| UpdateArtForm.UpdateArtView.HandleUpdate | src/components/UpdateArt.jsx:45-66 | one update request with the built payload; success alerts and navigates to /art-gallery; failure does not navigate |
| AddArtForm.FirstFile | src/components/AddArt.js:38 | the first chosen file, or undefined |
| AddArtForm.ChosenName | src/components/AddArt.js:42 | the chosen file's name, or '' |
| AddArtForm.Payload | src/components/AddArt.js:55-63 | exactly 8 keys in fixed order: artTitle, description, category, price, file1..file4. Each carries the form's value, a null file included |
| AddArtForm.ResultMessage | src/components/AddArt.js:66-72 | 'Art item added successfully!' on success and 'Error adding art item' on failure |
| AddArtForm.MessageClass | src/components/AddArt.js:287 | an empty message is not rendered; otherwise the message has the error class iff it contains 'Error' |
| AddArtForm.ResultMessageClass | src/components/AddArt.js:287 | the failure text is styled as an error and the success text is not |
| AddArtForm.AddArtView.constructor | src/components/AddArt.js:6-23 | empty texts, null files, empty file names, no message |
| AddArtForm.AddArtView.HandleChange | src/components/AddArt.js:32-50 | a file input stores its first file and that file's name or ''; any other input stores its value; no other field changes |
| AddArtForm.AddArtView.HandleSubmit | src/components/AddArt.js:53-73 | posts the 8-field payload; the message and its style follow the outcome |
| RegisterForm.Payload | src/components/Register.js:31-37 | name, email and password always, in that order; `profilePic` only when one was chosen |
| RegisterForm.FailureMessage | src/components/Register.js:47 | `error.message` when truthy, else the fallback; always truthy |
| RegisterForm.FallbackNeverTaken | src/components/Register.js:47 | the message shown is always the API's own message, so the component's fallback is never reached |
| RegisterForm.RegisterView.constructor | src/components/Register.js:8-12 | empty fields, no picture, no messages, not loading |
| RegisterForm.RegisterView.HandleChange | src/components/Register.js:15-18 | only that field changes; `errorMessage` is cleared |
| RegisterForm.RegisterView.HandleFileChange | src/components/Register.js:20-23 | `profilePic` is the first chosen file; `errorMessage` is cleared |
| RegisterForm.RegisterView.BeginSubmit | src/components/Register.js:26-37 | loading, both messages cleared, the payload posted |
| RegisterForm.RegisterView.CompleteSubmit | src/components/Register.js:39-50 | success: the success text and /verify after 2 s. Failure: the API's message. Loading is false on every path |
| RegisterForm.RegisterView.HandleSubmit | src/components/Register.js:25-51 | one registration request, then the success or failure state above, ending with loading false |
| ProfileUpdateForm.Payload | src/components/ProfileUpdate.js:17-22 | name and email always; `file` only when a picture was chosen |
| ProfileUpdateForm.AsWrittenRequest | src/components/ProfileUpdate.js:25 | as written, the form data is bound to the user-id path parameter and no body is sent |
| ProfileUpdateForm.AsWrittenLosesProfile | src/components/ProfileUpdate.js:25 | as written, the path names no user and the typed name never reaches the server |
| ProfileUpdateForm.ProfileRequest | src/services/api.js:58-69 | the intended call puts the user's id in the path and the form data in the body |
| ProfileUpdateForm.ProfileReachesServer | src/components/ProfileUpdate.js:17-25 | with the intended call, the server receives the name and the email for the logged-in user, and the picture iff one was chosen |
| ProfileUpdateForm.SubmitEffects | src/components/ProfileUpdate.js:24-31 | success alerts and navigates to /; failure alerts and does not navigate |
| ProfileUpdateForm.ProfileView.constructor | src/components/ProfileUpdate.js:8-10 | empty name and email, no picture |
| ProfileUpdateForm.ProfileView.SetName | src/components/ProfileUpdate.js:43 | only the name changes |
| ProfileUpdateForm.ProfileView.SetEmail | src/components/ProfileUpdate.js:52 | only the email changes |
| ProfileUpdateForm.ProfileView.SetProfilePic | src/components/ProfileUpdate.js:60 | the first chosen file, or undefined |
| ProfileUpdateForm.ProfileView.HandleSubmit | src/components/ProfileUpdate.js:14-32 | as written: sends `AsWrittenRequest` of the payload, then `SubmitEffects` of the outcome |
| ProfileUpdateForm.ProfileView.HandleSubmitIntended | src/components/ProfileUpdate.js:14-32 | with the intended call: sends `ProfileRequest` for the logged-in user with the payload as the body, then `SubmitEffects` of the outcome |

## Left out

- HTTP transport, the base URL and console logging. Each call is a nondeterministic outcome parameter, and logging has no observable effect.
- The commented-out duplicate façade in `src/services/api.js` (lines 317-691). It is dead code.
- The cookie utility (`src/utils/cookieUtils`) is not part of this model. `getSession` is an `Option<int>` input; `setSession` is a recorded `SetSession` effect.
- JSX rendering, styling, widgets, `scrollBy` in the wishlist's arrow buttons, and the focus move to the next code slot (`src/components/Verify.js:79-82`). These are presentation only.
- `parseFloat`, `parseInt`, NaN, `Infinity` and `toFixed`. Price bounds and cart quantities arrive already parsed (`None` for NaN), and prices are exact reals.
- `setTimeout` and `setInterval` scheduling, and races between overlapping requests. A delayed navigation is a `NavigateLater` effect, the countdown is a sequence of discrete ticks, and each handler is one atomic step.
- `String()` conversion inside `new Error(...)`. `Js.JsError` keeps the original value, so a non-string server message is not turned into text.
- The integer-key ordering of `Object.entries`. Wishlist buckets come in first-occurrence order even when a category name is an integer literal.
- The carousel page (`src/components/shop.js`), the admin art page (`src/components/ViewArt.jsx`), the user list (`src/components/GetAllUsers.js`), the navigation bars, `src/components/ProtectedRoute.js`, `src/App.js` and the static home and dashboard pages. They hold no client-side rule beyond what is modelled here.
- Checkout in the cart (`src/components/Cart.js:68-70`). It is an alert only.
- Navigation on click to an art's page: the wishlist's `goToArtDetail` and the listings' `handleViewClick`. The listing's own add-to-wishlist button (`src/components/UserViewArts.js:94-108`) is also left out. These build a route from an id or repeat the guard modelled in `ArtDetailView`.
- Spreading a string body into the update-art form. `UpdateArtForm.Spread` copies the properties of an object only.
- The forgot-password form, and the façade calls that no modelled component makes.
- CartView.Cart.constructor: the session cookie is read once, when the component is created. The source reads it on every render (`src/components/Cart.js:9`), so a login or logout while the cart is shown is not modelled. `WishlistView.Wishlist` and `ArtDetailView.ArtPage` make the same simplification (`src/components/Wishlist.js:18`, `src/components/UserViewArt.jsx:14`).
- Form-data entries hold the value that was appended, before conversion. `FormData.append` turns a value that is not a file into a string (null becomes "null"). `AddArtForm.Payload`, `RegisterForm.Payload`, `UpdateArtForm.TextEntries` and `ProfileUpdateForm.Payload` keep the value itself.
- ArtDetailView.ArtDetail: the picture URLs are a sequence of any length. The page reads exactly the four fields `pictureUrl1` to `pictureUrl4`.
- ArtDetailView.ArtPage.Load: a fetched art is always an art record. A `null` body is not modelled; the page would store it and then throw while reading its pictures.

## Findings

| source | as written | input that shows it | evidently intended | confidence | as-written member | corrected member |
|---|---|---|---|---|---|---|
| src/components/ProfileUpdate.js:25 | `userProfileUpdate(formData)` passes one argument to a function taking `(userId, formData)` (src/services/api.js:58). The form data becomes the path segment and the body is undefined | any submission, e.g. name "Ann", email "a@b.c", no picture: the request is `PUT /users/update/[object FormData]` with no body, so neither field reaches the server | `userProfileUpdate(userId, formData)` with the logged-in user's id, sending the form data as the body | high (not executed) | ProfileUpdateForm.AsWrittenLosesProfile | ProfileUpdateForm.ProfileReachesServer |
| src/components/Wishlist.js:91-96 | the grouping reduce starts from `{}`, so `!acc[category]` is false for a category such as "constructor", "toString" or "__proto__" that `{}` inherits; no bucket is created and `acc[category].push(item)` throws a TypeError, which breaks the wishlist's render | a wishlist with one art whose category (free text on the add-art form) is "constructor" | every category gets its own bucket, as with `Object.create(null)`, an `Object.hasOwn` test or a `Map` | medium (not executed) | WishlistView.InheritedCategoryThrows | WishlistView.GroupByCategory |
