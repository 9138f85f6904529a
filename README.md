# Six Cities client: coordination logic in Dafny

This project models the decision logic of a property-rental listing client
(city-scoped offer browsing, an offer detail page with map, reviews and
favourites). It covers four pieces, one module each:

- `StoreActions` (`action.dfy`): the two store coordinators. `fetchOffersByCity`
  switches loading on, fetches `/offers`, and dispatches either the offers of
  the target city, the city and a cleared error, or the failure message. It then
  switches loading off. `login` turns the `/login` outcome into an
  authorisation action or an error. The store's reducers are not part of the
  model, so each coordinator is a method appending to a `Dispatcher`'s action
  log. The method is proved equal to a pure function of its inputs, and lemmas
  about that function state the ordering and the effect of a run. They read
  the effect off the log with `MostRecent`, the last value of a given kind of
  action.
- `CommentFormModel` (`comment_form.dfy`): the review form as a class with
  `comment`, `rating` and `isSubmitting`. `sent` stands for the calls made to
  the `onSubmit` callback. Each handler is proved against a pure transition on
  a `Form` value. A lemma over whole runs of user events shows that the
  button's guard alone keeps short comments and missing ratings from reaching
  `onSubmit`.
- `OfferPageModel` (`offer_page.dfy`): the offer page's held state (`offer`,
  `comments`, `nearbyOffers`, `points`, `loading`, `error`) as a class. Each
  request completion, the comment post, the favourite toggle and the id-change
  effect are methods proved against pure transitions on a `PageState` value.
  Lemmas compare the two arrival orders of the offer and nearby completions.
  The module also holds the pluralised texts and the three-way render decision.
- `MainPageModel` (`main_page.dfy`): the map coordinates of the offer list, the
  hovered marker lookup, the city object built for a city change, and the
  two state setters.

`Types` (`types.dfy`) holds the entities, `Wrappers` (`wrappers.dfy`) the
nullable type and the outcome of a request (`Settled`: `Fulfilled(value)` or
`Rejected`), and `NumberText` (`number_text.dfy`) how a count is written in a
template literal, with a reader proving the text loses nothing.

Requests are not performed. Each one is a parameter giving how it settled.

Behaviour of the code worth noting:

- The offers error is not cleared when a fetch starts. `src/store/action.ts`
  clears it only after a successful fetch (`setError(null)` after `setCity`).
- A `/login` response that does not throw and whose status is not 200
  dispatches nothing: neither an authorisation action nor an error.

## Model

| member | source | states |
|---|---|---|
| StoreActions.FilterByCity | src/store/action.ts:16 | the result is a subsequence of the fetched offers, every kept offer lies in the target city, and each offer of that city occurs as often as in the input |
| StoreActions.FilterByCityConcat | src/store/action.ts:16 | filtering two lists one after the other equals filtering each and concatenating, so relative order is kept |
| StoreActions.FilterByCityKeepsAll | src/store/action.ts:16 | the filter returns its input unchanged exactly when every offer lies in the target city |
| StoreActions.FetchOffersActions | src/store/action.ts:10-25 | a successful run dispatches five actions and a failed run three; the lemmas below fix which ones and in what order |
| StoreActions.FetchBracketedByLoading | src/store/action.ts:11-23 | the first action is `setLoading(true)`, the last `setLoading(false)`, and no other loading action is dispatched in between, on both paths |
| StoreActions.FetchSuccessActions | src/store/action.ts:16-19 | on success the actions between the loading switches are exactly the filtered offers, the city and the cleared error, in that order |
| StoreActions.FetchFailureActions | src/store/action.ts:20-21 | on failure exactly one error action is dispatched, carrying 'Failed to fetch offers.', and no offers or city action |
| StoreActions.FetchLoadingInside | src/store/action.ts:11-22 | after any earlier log, and when no other coordinator dispatches during the run, loading read from the log is true at every point strictly inside the run |
| StoreActions.FetchLoadingEnds | src/store/action.ts:22-23 | after any earlier log, loading read from the log is false once the run ends |
| StoreActions.FetchSuccessEffect | src/store/action.ts:16-19 | when no other coordinator dispatches during the run, after a successful run the log holds the filtered offers, the target city and a cleared error |
| StoreActions.FetchFailureEffect | src/store/action.ts:20-21 | when no other coordinator dispatches during the run, after a failed run the log holds the failure message, and the offers and city from before the run are still the latest |
| StoreActions.LoginActions | src/store/action.ts:27-40 | an answer whose status is not 200 dispatches nothing, every other outcome exactly one action (which one is fixed by LoginEffect) |
| StoreActions.LoginEffect | src/store/action.ts:29-38 | authorisation becomes true on a 200 answer and false on a thrown 401, and otherwise stays as before; only a thrown error other than 401 sets 'Failed to login.' |
| StoreActions.FetchOffersByCity | src/store/action.ts:10-25 | dispatching step by step through try, catch and finally appends exactly the run's action sequence to the store's log |
| StoreActions.Login | src/store/action.ts:27-40 | the login method appends exactly the login action sequence to the log |
| CommentFormModel.SubmitEnabled | src/components/comment-form/comment-form.tsx:75 | for any rating the radios can set, the button is enabled iff nothing is submitting and the held review is acceptable (at least 50 characters, rating 1 to 5), the converse of EnabledRunsSendAcceptable |
| CommentFormModel.CheckedScores | src/components/comment-form/comment-form.tsx:34-43 | the checked radios are exactly the one whose score equals the rating when the rating is one of 5, 4, 3, 2, 1, and none otherwise, so at most one is checked |
| CommentFormModel.Initial | src/components/comment-form/comment-form.tsx:8-10 | the mounted form has sent nothing and its submit button is disabled |
| CommentFormModel.CommentChanged | src/components/comment-form/comment-form.tsx:12-14 | the typed text replaces the comment; the rating, the submitting flag and the sent reviews are unchanged |
| CommentFormModel.RatingChanged | src/components/comment-form/comment-form.tsx:16-18 | choosing a radio makes it the only checked one and leaves the comment unchanged |
| CommentFormModel.Submitted | src/components/comment-form/comment-form.tsx:20-28 | submitting sends exactly one review, with the comment and rating held before the reset, keeps the earlier ones, and leaves the form cleared with the button disabled |
| CommentFormModel.EnabledRunsSendAcceptable | src/components/comment-form/comment-form.tsx:75 | in any run of typing, picking and pressing where submit is pressed only while enabled, every review sent has at least 50 characters and a rating from 1 to 5 |
| CommentFormModel.OneReviewPerPress | src/components/comment-form/comment-form.tsx:24 | a run sends exactly one review per press of submit |
| CommentFormModel.CommentForm.IsSubmitEnabled | src/components/comment-form/comment-form.tsx:75 | the component's button is enabled iff nothing is submitting and its held review is acceptable, for any rating the radios can set |
| CommentFormModel.CommentForm.constructor | src/components/comment-form/comment-form.tsx:8-10 | the component mounts in the initial form state |
| CommentFormModel.CommentForm.HandleCommentChange | src/components/comment-form/comment-form.tsx:12-14 | the handler performs the comment-change transition |
| CommentFormModel.CommentForm.HandleRatingChange | src/components/comment-form/comment-form.tsx:16-18 | the handler performs the rating-change transition |
| CommentFormModel.CommentForm.HandleSubmit | src/components/comment-form/comment-form.tsx:20-28 | setting the flag, calling `onSubmit` and resetting in sequence performs the submit transition |
| OfferPageModel.PluralizedTextReadsBack | src/pages/offer-page/offer-page.tsx:19 | the text before the first space reads back as the count, and the rest is the singular noun exactly when the count is 1 and the plural otherwise |
| OfferPageModel.CountText | src/pages/offer-page/offer-page.tsx:75-80 | the bedrooms and adults texts are empty iff there is no offer or the count is 0, and the pluralised count otherwise |
| OfferPageModel.PointsOf | src/pages/offer-page/offer-page.tsx:65-69 | one marker per nearby offer, in the same order |
| OfferPageModel.Nearest | src/pages/offer-page/offer-page.tsx:60 | the kept nearby offers are the first min(3, n) of the n fetched, in order |
| OfferPageModel.Mounted | src/pages/offer-page/offer-page.tsx:29-34 | the page mounts loading, holding no offer, comments or points, and well formed |
| OfferPageModel.IdChanged | src/pages/offer-page/offer-page.tsx:39-41 | a present, non-empty id sets loading and clears the error and nothing else; an absent or empty id changes nothing |
| OfferPageModel.OfferSettled | src/pages/offer-page/offer-page.tsx:43-55 | success holds the offer and replaces the points by its single marker; failure sets the fetch error; both end loading and leave comments and nearby offers alone |
| OfferPageModel.CommentsSettled | src/pages/offer-page/offer-page.tsx:57 | a fetched comment list replaces the comments and nothing else; a failure changes nothing |
| OfferPageModel.NearbySettled | src/pages/offer-page/offer-page.tsx:59-71 | success keeps at most three nearby offers and appends their markers after the existing points; offer, comments, loading and error are untouched; a failure changes nothing |
| OfferPageModel.CommentPosted | src/pages/offer-page/offer-page.tsx:21-25 | a successful post appends the returned comment, so the list grows by one and earlier comments are kept; only the comments change, and a failure changes nothing |
| OfferPageModel.FavoriteToggled | src/pages/offer-page/offer-page.tsx:111-115 | only the held offer's favourite flag changes, to the new status; with no offer held nothing changes |
| OfferPageModel.FavoriteToggleUndo | src/pages/offer-page/offer-page.tsx:111-115 | toggling back to the previous status restores the page exactly |
| OfferPageModel.RenderDecision | src/pages/offer-page/offer-page.tsx:82-88 | spinner iff loading; otherwise not-found iff an error or no offer is held; otherwise the content |
| OfferPageModel.TransitionsKeepWellFormed | src/pages/offer-page/offer-page.tsx:38-73 | every transition keeps the held error either absent or the offer-fetch message |
| OfferPageModel.OfferDecidesView | src/pages/offer-page/offer-page.tsx:38-88 | after an id change the spinner shows whatever the comments and nearby requests do; the offer completion then gives the content on success and the redirect on failure |
| OfferPageModel.OfferFailureKeepsPartialData | src/pages/offer-page/offer-page.tsx:54-55 | a failed offer request redirects while the independently fetched comments and nearby offers are kept |
| OfferPageModel.OfferThenNearby | src/pages/offer-page/offer-page.tsx:46-70 | offer first, then nearby: the points are the offer's marker followed by the nearby markers |
| OfferPageModel.NearbyThenOffer | src/pages/offer-page/offer-page.tsx:46-70 | nearby first, then offer: the points are only the offer's marker, so the nearby markers are lost |
| OfferPageModel.ArrivalOrdersAgreeButPoints | src/pages/offer-page/offer-page.tsx:43-71 | both arrival orders of the offer and nearby completions agree on everything except the points |
| OfferPageModel.CommentsCommute | src/pages/offer-page/offer-page.tsx:43-71 | the comments completion commutes with the offer completion and with the nearby completion |
| OfferPageModel.OfferPage.View | src/pages/offer-page/offer-page.tsx:82-88 | in a well-formed state the component shows the spinner iff loading, and the redirect iff not loading and an error or no offer is held |
| OfferPageModel.OfferPage.constructor | src/pages/offer-page/offer-page.tsx:29-34 | the component mounts in the mounted state |
| OfferPageModel.OfferPage.OnIdChange | src/pages/offer-page/offer-page.tsx:38-42 | the effect body performs the id-change transition |
| OfferPageModel.OfferPage.OnOfferSettled | src/pages/offer-page/offer-page.tsx:43-55 | the then, catch and finally callbacks perform the offer transition |
| OfferPageModel.OfferPage.OnCommentsSettled | src/pages/offer-page/offer-page.tsx:57 | the callback performs the comments transition |
| OfferPageModel.OfferPage.OnNearbySettled | src/pages/offer-page/offer-page.tsx:59-71 | the callback performs the nearby transition |
| OfferPageModel.OfferPage.OnCommentPosted | src/pages/offer-page/offer-page.tsx:21-25 | the post callback performs the comment-append transition |
| OfferPageModel.OfferPage.OnToggleFavorite | src/pages/offer-page/offer-page.tsx:111-115 | the toggle callback performs the favourite transition |
| MainPageModel.CoordinateVersusDetailMarker | src/pages/main/main-page.tsx:45-50 | the main-page coordinate of an offer carries its id and the same title as its detail-page marker, and sits at the same place iff the offer's location equals its city's centre |
| MainPageModel.SameCitySameSpot | src/pages/main/main-page.tsx:47-48 | offers of the same city get coordinates at the same position on the main map |
| MainPageModel.OfferCoordinates | src/pages/main/main-page.tsx:45-50 | one coordinate per offer, same length and order |
| MainPageModel.FirstHovered | src/pages/main/main-page.tsx:51 | the position found is the first whose id is the hovered id; none is found iff no coordinate matches |
| MainPageModel.SelectedPoint | src/pages/main/main-page.tsx:51 | the selected point is the first coordinate with the hovered id, absent iff none matches, and absent when nothing is hovered |
| MainPageModel.HoveringSelectsThatOffer | src/pages/main/main-page.tsx:45-51 | with distinct offer ids, hovering an offer selects exactly that offer's coordinate |
| MainPageModel.CityObjectIsFirstOfferCity | src/pages/main/main-page.tsx:34-41 | when the first offer lies in the active city and its city has zoom 12, the built city object is exactly that offer's city |
| MainPageModel.CityObjectDependsOnFirstCentre | src/pages/main/main-page.tsx:34-41 | the city object depends on the offers only through whether there is one and the centre of the first offer's city |
| MainPageModel.CityObjectWithoutOffers | src/pages/main/main-page.tsx:34-41 | with no offers, the city object is named after the active city and sits at the default centre with zoom 12 |
| MainPageModel.CityFetchKeepsActiveCity | src/pages/main/main-page.tsx:33-43 | after the city effect's fetch succeeds, the log holds the built city and only offers of the active city |
| MainPageModel.MainPage.constructor | src/pages/main/main-page.tsx:19-20 | the page mounts with the first listed city active and nothing hovered |
| MainPageModel.MainPage.Selected | src/pages/main/main-page.tsx:51 | the page's selected marker is the first of its coordinates carrying the hovered id, and absent iff none carries it |
| MainPageModel.MainPage.HandleCityClick | src/pages/main/main-page.tsx:22-24 | the clicked city becomes active and the hovered id is unchanged |
| MainPageModel.MainPage.HandleOfferHover | src/pages/main/main-page.tsx:26-28 | the hovered id is replaced and the active city is unchanged |
| MainPageModel.MainPage.OnActiveCityChange | src/pages/main/main-page.tsx:33-43 | the effect appends to the log exactly the fetch run for the city object built from the active city and the offers |

## Left out

- HTTP calls, promises and scheduling: each request is given as its outcome (`Settled`, or `LoginResponse` for `/login`). Interleavings on the offer page appear only as the orders in which completion transitions are applied. Cancellation and stale responses across id or city changes are not modelled.
- StoreActions.FetchLoadingInside: like FetchSuccessEffect and FetchFailureEffect, it treats a run's dispatches as one contiguous block of the log. In the code, the `await` lets other dispatches land inside a run; a second run started by a quick city change can put its own `setLoading(false)` inside the first, so loading can read false while a run is pending. Interleaved runs are not modelled.
- NumberText.IntText: writes every integer in decimal. JavaScript numbers are doubles, so `${n}` uses exponent form from 10^21 on and counts beyond 2^53 are not exact; the model covers counts only as unbounded integers.
- The request bodies are not modelled: the post of `{comment, rating}` for the offer id is represented only by the comment it returns.
- The reducers and the store wiring (`src/store/index.ts`, the reducer module) are not part of this model. The coordinators' effect is the action log they dispatch, read back with `MostRecent`.
- The route table (`src/components/app/app.tsx`) and the map component's Leaflet markers and layers (`src/components/map-component/map-component.tsx`) are not modelled. Both are rendering with no decision logic beyond a title comparison for the selected icon.
- JSX markup is not modelled. This includes the main page's spinner choice, which reads the store's loading flag, and the offer page's gate that shows the form only when authorised. Only the offer page's three-way render decision is kept.
- Offer fields the logic never reads (price, rating, type, goods, images, description, host, premium flag) are dropped. Coordinates are `real` values copied through; the floating-point representation of 48.8566 and 2.3522 is not modelled.
- CommentFormModel.SubmitEnabled: counts comment length in Unicode characters, while JavaScript's `length` counts UTF-16 code units. The two differ only for characters outside the Basic Multilingual Plane.
- CommentFormModel.CommentForm.HandleRatingChange: takes the score as a number and requires it to be one of the radio values. It does not model `Number(event.target.value)` parsing arbitrary text, because only the five radios call the handler.
- MainPageModel.MainPage.constructor: takes the city list as a parameter and requires it to be non-empty. The `CITIES` constant (`src/consts.ts`) is not part of this model. The `offers` prop is fixed for the page's lifetime; re-rendering with new props is not modelled.
- The failure of the comments or nearby requests is not caught in the source (an unhandled rejection). It is modelled as changing nothing.
