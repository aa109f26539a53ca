# Review sync and card rules of review-management2, in Dafny

This project models the review-sync core of the review-management back end, and the
small list and record rules around it.

- **Adapter factory.** `PlatformServiceFactory.createService` checks a platform's credential bundle and builds the matching adapter: Google, Yelp or Facebook.
- **Three adapters.** Each fetches the platform's reviews once, normalises every raw review into the unified `Review` record, and upserts the records one by one into the review collection. The lookup key is a platform-specific external id:
  - Google uses `time`;
  - Yelp uses the review `id`;
  - Facebook uses `recommendation_type`.
- **Platform controller.** The toggle validates its body and upserts the `PlatformIntegration` row. The sync then runs: gate on an existing, enabled row; factory; adapter; and `lastSync` is written only on success.
- **Review query.** Filters by platform (absent, empty or "All" means no filter) and sorts by date, newest first.
- **NFC/QR controller.** QR option merge and preview width, card creation with schema defaults and validation, listing newest first, and the 404 rules of update and delete.
- **Front end.**
  - The card-management page: create, update and delete cards; add, update and delete slots.
  - The reviews page: counters, tabs, star row and the submit rule.

Stateful parts are classes:
- the review collection: `ReviewStore.Store`;
- the integration collection: `PlatformController.IntegrationStore`;
- the card collection: `NfcQrController.CardStore`;
- the HTTP client with its request log: `Upstream.Client`;
- the card page's React state: `CardManagementPage.CardManager`.

Each state-changing method is proved equal to a specification function on sequences, for example:
- `ReviewStore.RunBatch`;
- `Google.Run`;
- `PlatformController.SyncPlatform`.

The properties are lemmas about those functions.

Inputs the program takes from outside become parameters:
- `respond`: the upstream HTTP answers;
- `accepts`: the database's verdict on a write;
- `parseDate`: `new Date(string)`;
- `now`: the clock;
- `render`: `QRCode.toDataURL`;
- ids: generated `_id`s and `Date.now()` strings.

Where the code and its design description disagree, the model follows the code:
- **Google credentials.** The Google adapter reads `GOOGLE_API_KEY` and `GOOGLE_PLACE_ID` from the process environment, not from the stored bundle. The factory still demands a truthy `apiKey` in the bundle.
- **Google key.** The key and the stored `googleReviewId` are the review's `time`, cast to its decimal string. They are not an upstream review id.
- **Lookup filter.** The lookup uses only the external-id field; the platform is not part of the filter.
- **Yelp token.** The Yelp adapter sends `Bearer <apiKey>`, although the factory checks `businessId` and `accessToken`.
- **Facebook page id.** The integration schema has no `pageId`, so a Facebook adapter built from a stored bundle has an undefined page id. Its URL then reads `.../undefined/ratings?...`.

## Model

| member | source | states |
|---|---|---|
| JsText.OrElseSpec | review-management-backend/src/services/googleService.ts:38 | `s \|\| fallback` is s when s is a non-empty string, the fallback otherwise, and never empty when the fallback is not |
| JsText.Lower | review-management-backend/src/services/PlatformServiceFactory.ts:13 | `toLowerCase` keeps the length and maps each character on its own (A-Z and the Kelvin sign go to lower-case ASCII) |
| JsText.LowerIdempotent | review-management-backend/src/services/PlatformServiceFactory.ts:13 | lower-casing twice is lower-casing once |
| JsText.NatDigits | review-management-backend/src/services/googleService.ts:34 | the decimal text of a number has at least one character, all digits, and one digit exactly for numbers below ten |
| JsText.NatDigitsInjective | review-management-backend/src/services/googleService.ts:34 | two naturals with the same decimal text are equal |
| JsText.DecimalStringInjective | review-management-backend/src/services/googleService.ts:43 | `String(time)` of two integers is the same text exactly when the integers are equal |
| JsText.TrimStart | review-management-frontend/app/reviews/page.tsx:227 | what is left after trimming the front is empty or starts with a non-whitespace character |
| JsText.TrimStartEmptyIff | review-management-frontend/app/reviews/page.tsx:227 | trimming the front leaves nothing exactly when the text is all whitespace |
| JsText.TrimEndOfNonBlank | review-management-frontend/app/reviews/page.tsx:227 | trimming the end of a text that starts with a non-whitespace character leaves something |
| JsText.TrimEmptyIff | review-management-frontend/app/reviews/page.tsx:227 | `s.trim()` is empty exactly when s holds only ECMAScript whitespace |
| Lists.Filter | review-management-frontend/app/reviews/page.tsx:141 | `filter` keeps a sub-multiset of the input, only elements that pass, and every element that passes |
| Lists.FilterConcat | review-management-frontend/app/nfc-qr-management/page.tsx:104 | filtering distributes over concatenation, so the order of what stays is kept |
| Lists.FilterAll | review-management-frontend/app/reviews/page.tsx:172 | a filter every element passes returns the sequence unchanged |
| Lists.FilterDisjointCounts | review-management-frontend/app/reviews/page.tsx:141-152 | two filters no element passes both select at most as many elements as there are |
| Lists.InsertDesc | review-management-backend/src/controllers/reviewController.ts:8 | inserting into a key-descending sequence keeps it descending and adds exactly that element |
| Lists.SortDesc | review-management-backend/src/controllers/reviewController.ts:8 | `sort({ key: -1 })` returns a key-descending permutation of its input |
| ReviewModel.Overwrite | review-management-backend/src/services/googleService.ts:33-47 | an upsert that finds a document sets exactly the adapter's fields; responses, sentiment and the responded flag survive |
| ReviewModel.OverwriteAbsorbs | review-management-backend/src/services/googleService.ts:33-47 | writing f1 then f2 is writing f2, and writing back a document's own fields changes nothing |
| ReviewModel.NewReview | review-management-backend/src/models/Review.ts:22-39 | a new document takes the given fields, `date` defaults to now and `isResponded` to false |
| ReviewModel.Inserted | review-management-backend/src/services/googleService.ts:33-47 | the document an upsert inserts carries exactly the adapter's fields |
| ReviewModel.InsertedDefaults | review-management-backend/src/models/Review.ts:29-38 | an inserted review has no responses, no sentiment and is not responded |
| ReviewStore.FirstMatch | review-management-backend/src/services/googleService.ts:33-34 | the lookup finds the first document whose external-id field holds the key, or reports that none does |
| ReviewStore.LastFor | review-management-backend/src/services/googleService.ts:32-49 | the fields that the last write of a batch gives a key, and None exactly when no write has that key |
| ReviewStore.FirstMatchStable | review-management-backend/src/services/googleService.ts:33-34 | a store that extends another and agrees on its keys finds the same document for a key |
| ReviewStore.UpsertedShape | review-management-backend/src/services/googleService.ts:33-47 | one upsert keeps every key, appends a document only when the key was absent, and afterwards the key is found holding the written fields |
| ReviewStore.SyncAllGrows | review-management-backend/src/services/googleService.ts:32-49 | a batch never removes a document or changes a document's key |
| ReviewStore.SyncAllUntouched | review-management-backend/src/services/googleService.ts:32-49 | a document whose key no write of the batch carries is left exactly as it was |
| ReviewStore.SyncAllLastWins | review-management-backend/src/services/yelpService.ts:36-53 | after a batch, the document found for a key holds the last write for that key |
| ReviewStore.SyncAllSettled | review-management-backend/src/services/googleService.ts:32-49 | a batch whose keys are all stored already appends nothing |
| ReviewStore.SyncAllIdempotent | review-management-backend/src/services/googleService.ts:32-49 | running the same batch again on its own result changes nothing |
| ReviewStore.SyncAllKeepsUnique | review-management-backend/src/services/googleService.ts:32-49 | upserts never create a second document with the same key |
| ReviewStore.SyncAllOnePerKey | review-management-backend/src/services/yelpService.ts:36-53 | from a store without duplicate keys, each key of the batch is held by exactly one document, which carries the last write for it |
| ReviewStore.LeadingWrites | review-management-backend/src/services/googleService.ts:32-55 | the writes that go through are the longest prefix of built and accepted items |
| ReviewStore.RunBatchKeepsEarlierWrites | review-management-backend/src/services/facebookService.ts:32-55 | the loop's store is the batch of the writes before the first failure, and the failure reported is that item's error |
| ReviewStore.LeadingWritesKeyed | review-management-backend/src/services/yelpService.ts:37-47 | every write that goes through carries its key in the looked-up field |
| ReviewStore.RunBatchSameVerdict | review-management-backend/src/services/googleService.ts:32-55 | two database verdicts that both take every built item run the loop alike; only a build failure can stop it, at the same item |
| ReviewStore.RunBatchIdempotent | review-management-backend/src/services/googleService.ts:32-55 | when the database takes every built item on both runs, re-running the loop over the same items on the store it left changes nothing and ends the same way |
| ReviewStore.TransientRefusalReverts | review-management-backend/src/services/facebookService.ts:32-55 | without that proviso re-running does change the store: two items with one key, both saved the first time, and a refusal of the second item the next time put the first item's fields back |
| ReviewStore.RunBatchOnePerKey | review-management-backend/src/services/facebookService.ts:32-49 | a loop that builds and saves every item leaves exactly one document per key of the batch, holding the last item for it |
| ReviewStore.Store.constructor | review-management-backend/src/models/Review.ts:41 | a collection starts from the given documents and database verdict, which stays fixed for its lifetime |
| ReviewStore.Store.Upsert | review-management-backend/src/services/googleService.ts:33-47 | `findOneAndUpdate` with upsert: an accepted write leaves the collection as `Upserted` says and returns the written document; a refused one changes nothing and fails |
| ReviewStore.Store.UpsertEach | review-management-backend/src/services/googleService.ts:32-49 | the adapter's `for` loop leaves the collection and the error as `RunBatch` says |
| IntegrationModel.NewIntegration | review-management-backend/src/models/PlatformIntegration.ts:17-27 | a new row keeps platform and bundle, `isEnabled` defaults to false and `lastSync` is unset |
| Lists.FindFirst | review-management-backend/src/controllers/platformController.ts:45 | a lookup by one field (`findOne({ platform })` here, `findById` for cards at nfcQrController.ts:63 and :77) finds the first element whose field equals the key, or reports that none has it |
| IntegrationModel.ToggledSpec | review-management-backend/src/controllers/platformController.ts:20-24 | after the toggle's upsert exactly one row has the platform; it holds the flag and bundle sent and its old `lastSync`; other rows are unchanged and platforms stay unique |
| IntegrationModel.WithLastSyncSpec | review-management-backend/src/controllers/platformController.ts:55-58 | writing `lastSync` changes only that field of that platform's row |
| Upstream.Client.constructor | review-management-backend/src/services/googleService.ts:16 | a client starts with no request sent |
| Upstream.Client.Send | review-management-backend/src/services/yelpService.ts:16-20 | a request is logged, and its answer is what the upstream gives for it |
| Google.NewGoogleService | review-management-backend/src/services/googleService.ts:8-11 | the key and place id come from the environment, "" when unset or empty |
| Google.ExtractReviews | review-management-backend/src/services/googleService.ts:18-25 | `result.reviews` when both are present, none otherwise; a failed request is rethrown |
| Google.FetchGoogleReviews | review-management-backend/src/services/googleService.ts:13-26 | sends exactly the Places request once and returns its extraction |
| Google.NormalizeSpec | review-management-backend/src/services/googleService.ts:34-46 | platform "Google", author, rating, text and profile URL mapped; placeholder avatar for a falsy photo; date = time * 1000 ms (time is recovered by dividing); the key is `String(time)` |
| Google.SameDocumentIffSameTime | review-management-backend/src/services/googleService.ts:34 | two Google reviews go to the same document exactly when their times are equal |
| Google.Items | review-management-backend/src/services/googleService.ts:32-47 | one upsert per raw review, each keyed in `googleReviewId` |
| Google.SyncReviews | review-management-backend/src/services/googleService.ts:28-56 | one request; the collection and the result are what `Run` says: success only after the whole loop, else the first error |
| Google.ResyncChangesNothing | review-management-backend/src/services/googleService.ts:28-56 | syncing the same answer twice ends the same as syncing it once, when the database takes every built review on both runs (the two verdicts may differ elsewhere) |
| Google.OneDocumentPerTime | review-management-backend/src/services/googleService.ts:32-51 | after a complete sync each time in the answer is held by exactly one document, which carries the last review with that time |
| Yelp.NewYelpService | review-management-backend/src/services/yelpService.ts:8-11 | the adapter keeps the bundle's `apiKey` and `businessId` |
| Yelp.RequestCarriesApiKey | review-management-backend/src/services/yelpService.ts:16-20 | the authorization header is `Bearer ` followed by the api key, or by "undefined" without one |
| Yelp.ExtractReviews | review-management-backend/src/services/yelpService.ts:22-29 | `data.reviews` when present, none otherwise; a failed request is rethrown |
| Yelp.FetchYelpReviews | review-management-backend/src/services/yelpService.ts:13-30 | sends exactly the Yelp request once and returns its extraction |
| Yelp.Normalize | review-management-backend/src/services/yelpService.ts:37-48 | a review without `user` throws; otherwise the write is keyed by the review id in `yelpReviewId` |
| Yelp.NormalizeSpec | review-management-backend/src/services/yelpService.ts:38-49 | platform "Yelp", author = user name, rating, text, profile URL and parsed date mapped; placeholder avatar for a falsy image |
| Yelp.Items | review-management-backend/src/services/yelpService.ts:36-48 | one item per raw review, each built one keyed in `yelpReviewId` |
| Yelp.SyncReviews | review-management-backend/src/services/yelpService.ts:32-60 | one request; the collection and the result are what `Run` says |
| Yelp.ResyncChangesNothing | review-management-backend/src/services/yelpService.ts:32-60 | syncing the same answer twice ends the same as syncing it once, when the database takes every built review on both runs (the two verdicts may differ elsewhere) |
| Yelp.OneDocumentPerId | review-management-backend/src/services/yelpService.ts:36-55 | after a complete sync each id is held by exactly one document, which carries the last review with that id |
| Facebook.NewFacebookService | review-management-backend/src/services/facebookService.ts:8-11 | the adapter keeps the access token; a stored bundle has no page id |
| Facebook.ExtractReviews | review-management-backend/src/services/facebookService.ts:18-25 | `data.data` when present, none otherwise; a failed request is rethrown |
| Facebook.FetchFacebookReviews | review-management-backend/src/services/facebookService.ts:13-26 | sends exactly the Graph request once and returns its extraction |
| Facebook.Normalize | review-management-backend/src/services/facebookService.ts:33-46 | a rating without reviewer, picture or picture data throws; otherwise the write is keyed by `recommendation_type` in `facebookReviewId` |
| Facebook.NormalizeSpec | review-management-backend/src/services/facebookService.ts:36-44 | platform "Facebook", author, rating, review text and parsed date mapped; placeholder avatar for a falsy picture URL; profile URL `https://facebook.com/<reviewer id>` |
| Facebook.SameDocumentIffSameRecommendation | review-management-backend/src/services/facebookService.ts:34 | two ratings go to the same document exactly when they share their recommendation type |
| Facebook.Items | review-management-backend/src/services/facebookService.ts:32-47 | one item per raw rating, each built one keyed in `facebookReviewId` |
| Facebook.SyncReviews | review-management-backend/src/services/facebookService.ts:28-56 | one request; the collection and the result are what `Run` says |
| Facebook.ResyncChangesNothing | review-management-backend/src/services/facebookService.ts:28-56 | syncing the same answer twice ends the same as syncing it once, when the database takes every built review on both runs (the two verdicts may differ elsewhere) |
| Facebook.OneDocumentPerRecommendation | review-management-backend/src/services/facebookService.ts:32-51 | after a complete sync all ratings with one recommendation type share one document, which carries the last of them |
| ServiceFactory.CreateService | review-management-backend/src/services/PlatformServiceFactory.ts:7-35 | null credentials fail first; after lower-casing, google needs `apiKey`, yelp `businessId` and `accessToken`, facebook `accessToken` (each an iff); other names are unsupported; success is the adapter of that name |
| ServiceFactory.CaseInsensitive | review-management-backend/src/services/PlatformServiceFactory.ts:13 | names that lower-case alike succeed or fail together, with the same adapter, and with the same error for a supported name |
| ServiceFactory.GoogleSpellings | review-management-backend/src/services/PlatformServiceFactory.ts:13-18 | "Google", "GOOGLE" and "google" give the same outcome |
| ServiceFactory.ResyncChangesNothing | review-management-backend/src/controllers/platformController.ts:52-53 | whichever adapter the factory builds, a second sync with the same answer changes nothing, when the database takes every built review on both runs |
| ServiceFactory.SyncReviews | review-management-backend/src/controllers/platformController.ts:53 | `service.syncReviews()` sends the adapter's one request and does what its `Run` says |
| PlatformController.ValidToggleSpec | review-management-backend/src/controllers/platformController.ts:14 | a toggle body is valid exactly when platform is a string, isEnabled a boolean and credentials an object or null |
| PlatformController.StoredCredentials | review-management-backend/src/controllers/platformController.ts:20-24 | null credentials are stored as null, an object as that bundle |
| PlatformController.IntegrationStore.constructor | review-management-backend/src/models/PlatformIntegration.ts:18 | a collection starts from rows with unique platforms |
| PlatformController.TogglePlatform | review-management-backend/src/controllers/platformController.ts:9-31 | a malformed body gives 400 and writes nothing; otherwise the rows are `Toggled` and the reply is 200 with the post-update row |
| PlatformController.ToggleReturnsTheRow | review-management-backend/src/controllers/platformController.ts:20-26 | the returned row is the platform's only row, with the flag and bundle sent and the earlier `lastSync` |
| PlatformController.SyncPlatformReviews | review-management-backend/src/controllers/platformController.ts:36-66 | the rows, the reviews, the requests sent and the reply are those of `SyncPlatform` |
| PlatformController.GateChangesNothing | review-management-backend/src/controllers/platformController.ts:45-50 | the reply is 400 "Platform not enabled" exactly when the row is missing or disabled, and then nothing is requested or written |
| PlatformController.FactoryBeforeFetch | review-management-backend/src/controllers/platformController.ts:52-53 | when the factory refuses the stored bundle the reply is 500 with its error, and nothing is requested or written |
| PlatformController.LastSyncOnlyOnSuccess | review-management-backend/src/controllers/platformController.ts:53-61 | rows change only on a 200; then only `lastSync` of that row is set to now, and the body is the adapter's result |
| ReviewController.Query | review-management-backend/src/controllers/reviewController.ts:7 | the query filters exactly when the platform is non-empty and not "All", and then on that platform |
| ReviewController.GetAllReviews | review-management-backend/src/controllers/reviewController.ts:4-13 | a store error gives 500; otherwise the list is date-descending and a permutation of the filtered reviews |
| ReviewController.UnfilteredListsAll | review-management-backend/src/controllers/reviewController.ts:7-8 | with no filter the list holds every stored review, as often as stored |
| ReviewController.AllMeansNoFilter | review-management-backend/src/controllers/reviewController.ts:7 | absent, "" and "All" give the same list |
| ReviewController.FilteredListsExactly | review-management-backend/src/controllers/reviewController.ts:7-8 | with a filter the list holds only that platform's reviews, each as often as stored |
| ReviewController.FilterCounts | review-management-backend/src/controllers/reviewController.ts:7 | a filter keeps every occurrence of each element it accepts |
| NfcQrCardModel.NewCard | review-management-backend/src/models/NfcQrCard.ts:19-33 | save fails exactly when a required string is absent or empty or the image type is not in the enum; a saved card carries the given required fields |
| NfcQrCardModel.NewCardDefaults | review-management-backend/src/models/NfcQrCard.ts:23-32 | defaults: custom link "", no clicks, never clicked, no slots, image type "qr", created now |
| NfcQrCardModel.NewCardKeepsGivenValues | review-management-backend/src/models/NfcQrCard.ts:23-32 | a given optional value overrides its default |
| NfcQrController.Merge | review-management-backend/src/controllers/nfcQrController.ts:7-24 | each option is the caller's when given, the default otherwise (H, image/png, 0.92, margin 1, black on white) |
| NfcQrController.ColourReplacedWhole | review-management-backend/src/controllers/nfcQrController.ts:23 | a caller colour replaces the whole pair, so a colour with only `dark` has no `light` |
| NfcQrController.EmptyOverridesAreDefaults | review-management-backend/src/controllers/nfcQrController.ts:7 | a missing `options` and an empty one merge alike |
| NfcQrController.Preview | review-management-backend/src/controllers/nfcQrController.ts:27 | the preview options are the merged ones with width 100 and nothing else changed |
| NfcQrController.GenerateQrCode | review-management-backend/src/controllers/nfcQrController.ts:5-39 | falsy data gives 400; otherwise success exactly when both renders succeed, echoing data and the merged options; a render failure gives 500 |
| NfcQrController.NoDataNoRender | review-management-backend/src/controllers/nfcQrController.ts:9-12 | without data the reply does not depend on the renderer |
| NfcQrController.PreviewWidthForced | review-management-backend/src/controllers/nfcQrController.ts:27-34 | the preview is rendered at width 100 whatever the caller sent, and the echoed options keep the caller's width |
| NfcQrController.Patched | review-management-backend/src/controllers/nfcQrController.ts:63 | for each of the nine fields an update may give, the card takes the given value, and keeps its own when the field is absent; `_id` and `createdAt` are kept |
| NfcQrController.PatchedIdempotent | review-management-backend/src/controllers/nfcQrController.ts:63 | the same update twice is the update once |
| NfcQrController.UpdateBypassesEnum | review-management-backend/src/controllers/nfcQrController.ts:63 | an update can store an image type outside the enum |
| NfcQrController.CardStore.constructor | review-management-backend/src/models/NfcQrCard.ts:35 | a collection starts empty |
| NfcQrController.CardStore.CreateCard | review-management-backend/src/controllers/nfcQrController.ts:41-49 | a valid body is appended and returned with 201; an invalid one gives 500 and changes nothing |
| NfcQrController.CardStore.AllCards | review-management-backend/src/controllers/nfcQrController.ts:53 | the listing is every card, newest first |
| NfcQrController.CardStore.UpdateCard | review-management-backend/src/controllers/nfcQrController.ts:60-72 | a malformed id gives 500, an unknown id 404, both with no change; otherwise only that card is patched and returned |
| NfcQrController.CardStore.DeleteCard | review-management-backend/src/controllers/nfcQrController.ts:74-86 | a malformed id gives 500, an unknown id 404, both with no change; otherwise only that card is removed |
| NfcQrController.DeleteRemovesOnlyThatCard | review-management-backend/src/controllers/nfcQrController.ts:77 | after a delete no card has that id and every other card is still there |
| CardManagementPage.Merge | review-management-frontend/app/nfc-qr-management/page.tsx:96 | `{ ...card, ...patch }`: for each of the eleven fields the card takes the patch's value when given and keeps its own otherwise |
| CardManagementPage.UpdateCards | review-management-frontend/app/nfc-qr-management/page.tsx:95-96 | length and order kept; cards with the id are merged, every other card is unchanged |
| CardManagementPage.RemoveCards | review-management-frontend/app/nfc-qr-management/page.tsx:103-104 | no card with the id is left and every other card stays |
| CardManagementPage.RemoveCardsKeepsOrder | review-management-frontend/app/nfc-qr-management/page.tsx:104 | removal distributes over concatenation, so the rest keep their order |
| CardManagementPage.DeleteAfterUpdate | review-management-frontend/app/nfc-qr-management/page.tsx:95-104 | deleting a card after an update that kept its id is deleting it straight away |
| CardManagementPage.UpdateCardsIdempotent | review-management-frontend/app/nfc-qr-management/page.tsx:95-96 | the same update twice is the update once |
| CardManagementPage.FindCard | review-management-frontend/app/nfc-qr-management/page.tsx:126 | `find` returns the first card with the id, or none exactly when no card has it |
| CardManagementPage.UpdateSlots | review-management-frontend/app/nfc-qr-management/page.tsx:128-130 | only slots with that id get the new name and value |
| CardManagementPage.RemoveSlots | review-management-frontend/app/nfc-qr-management/page.tsx:137 | no slot with that id is left and every other slot stays |
| CardManagementPage.NewCard | review-management-frontend/app/nfc-qr-management/page.tsx:71-83 | the new card has the form's name, redirect and type, no clicks, never clicked, no custom link, no slots, and the placeholder image when the field is empty |
| CardManagementPage.AddSlot | review-management-frontend/app/nfc-qr-management/page.tsx:111-123 | the slot goes at the end of the current slots of the card whose Customize dialog is open; other cards are unchanged |
| CardManagementPage.SecondAddDropsFirst | review-management-frontend/app/nfc-qr-management/page.tsx:118-120 | card x's image dialog opened and closed without Update Image, then two adds in x's Customize dialog: as written x ends with only the second slot; the corrected add keeps both |
| CardManagementPage.AddGoesToEditedCard | review-management-frontend/app/nfc-qr-management/page.tsx:111-120 | as written an add in card y's Customize dialog does nothing when no image dialog was left open, and goes to card x after x's image dialog was left open; the corrected add goes to y |
| CardManagementPage.AddSlotKeepsSlots | review-management-frontend/app/nfc-qr-management/page.tsx:111-123 | the corrected add never loses a slot |
| CardManagementPage.CardManager.constructor | review-management-frontend/app/nfc-qr-management/page.tsx:57-65 | the page starts with the given cards, empty form fields, type "qr" and no open card |
| CardManagementPage.CardManager.CreateCard | review-management-frontend/app/nfc-qr-management/page.tsx:69-93 | exactly the new card is appended; name, redirect and image fields are cleared and the type resets to "qr" |
| CardManagementPage.CardManager.UpdateCard | review-management-frontend/app/nfc-qr-management/page.tsx:95-101 | the list becomes `UpdateCards`; the form is untouched |
| CardManagementPage.CardManager.DeleteCard | review-management-frontend/app/nfc-qr-management/page.tsx:103-109 | the list becomes `RemoveCards`; the form is untouched |
| CardManagementPage.CardManager.OpenEditor | review-management-frontend/app/nfc-qr-management/page.tsx:233 | the trigger of a card's Update Image dialog makes that card the one being edited |
| CardManagementPage.CardManager.UpdateImage | review-management-frontend/app/nfc-qr-management/page.tsx:263-266 | the card takes the dialog's image type and image URL, and no card is being edited any more |
| CardManagementPage.CardManager.AddCustomizationSlotAsWritten | review-management-frontend/app/nfc-qr-management/page.tsx:111-123 | the add follows `editingCard` as `AddSlotAsWritten` says; the slot fields are cleared only when there is such a card |
| CardManagementPage.CardManager.AddCustomizationSlot | review-management-frontend/app/nfc-qr-management/page.tsx:111-123 | the Add Slot button of a card's Customize dialog appends to that card's current slots and clears the slot fields |
| CardManagementPage.CardManager.UpdateCustomizationSlot | review-management-frontend/app/nfc-qr-management/page.tsx:125-132 | nothing happens for an unknown card; otherwise the card's slots are rewritten with that slot renamed |
| CardManagementPage.CardManager.DeleteCustomizationSlot | review-management-frontend/app/nfc-qr-management/page.tsx:134-139 | nothing happens for an unknown card; otherwise the slot is dropped from that card's list |
| CardManagementPage.SlotUpdateIsLocal | review-management-frontend/app/nfc-qr-management/page.tsx:125-132 | for a card with a unique id, only that card's matching slot changes |
| CardManagementPage.SlotDeleteIsLocal | review-management-frontend/app/nfc-qr-management/page.tsx:134-139 | for a card with a unique id, only slots with that id leave, only from that card |
| ReviewsPage.CountersOf | review-management-frontend/app/reviews/page.tsx:120-152 | total = number of reviews, positive = rating >= 4, negative = rating <= 2, and positive + negative <= total |
| ReviewsPage.CountersOfAppend | review-management-frontend/app/reviews/page.tsx:141-152 | one more review adds one to the total and one to the counter its rating names |
| ReviewsPage.CountsAreDisjoint | review-management-frontend/app/reviews/page.tsx:141-152 | no review is counted as positive and as negative |
| ReviewsPage.OnTab | review-management-frontend/app/reviews/page.tsx:172 | a tab shows exactly the reviews of its platform, or all under "All" |
| ReviewsPage.AllTabShowsEverything | review-management-frontend/app/reviews/page.tsx:172 | the "All" tab shows the list unchanged |
| ReviewsPage.OnTabKeepsOrder | review-management-frontend/app/reviews/page.tsx:172 | a tab keeps the fetched order |
| ReviewsPage.Stars | review-management-frontend/app/reviews/page.tsx:186-187 | five stars; star i is lit exactly when i < rating |
| ReviewsPage.StarsSpec | review-management-frontend/app/reviews/page.tsx:186-187 | the lit stars form a prefix and number the rating clamped to 0..5 |
| ReviewsPage.SubmitEnabledIff | review-management-frontend/app/reviews/page.tsx:227 | submit is live exactly when nothing is being submitted and the reply has a non-whitespace character |

## Left out

- HTTP transport: URLs, headers and replies are values; timeouts, status codes of the upstream APIs and retries are not modelled beyond "the request failed".
- Date parsing: `new Date(string)` for Yelp and Facebook is the parameter `parseDate`; `new Date()` and `Date.now()` are the parameter `now`.
- Floating point: the average-rating card and its `toFixed(1)` are not modelled; ratings are integers; the QR `quality` is carried as its decimal text.
- Database internals: casting of values other than Google's `time`, strict-mode dropping, `$set` wrapping, and database failures other than a refused review write. The refused write is the oracle `accepts`. The integration and card collections do not fail, so the 500 branches of `togglePlatform`, of the `findOne` in `syncPlatformReviews` and of `getAllCards` are left out.
- The `typeof platform !== 'string'` check of `syncPlatformReviews`: a route parameter is always a string, so the model takes a string and that branch cannot occur.
- Concurrency: overlapping syncs of one platform, and React's batching of state updates; every request and handler runs to completion on its own.
- `googleController.ts` and `NfcQrData.ts` are not part of this model: the first is an auth client with a stub sync, the second a schema no shown code uses.
- The `setTimeout` simulations of the reviews page (AI reply, submit), toasts, the adapters' `console.error` logging (googleService.ts:23,53; yelpService.ts:27,57; facebookService.ts:23,53), and all rendering.
- JsText.DecimalString: `String(n)` switches to exponent notation from 10^21 on; the model always writes plain digits.
- JsText.Lower: only A-Z and the Kelvin sign are lower-cased; every other character is kept, which is enough to compare with the lower-case ASCII platform names.
- Credential bundles whose fields are not strings, request bodies whose option values are null or of another type than the field's, and `options` that is not an object.
- Query parameters given twice (`?platform=a&platform=b`, an array in Express).
- Raw upstream reviews with missing scalar fields: every raw scalar is present; only missing nested objects (Yelp `user`, Facebook `reviewer`, `picture`, `data`) are modelled, as the TypeError they throw.
- Review.ts `required`: upserts run no validators, so no required check applies to review writes; only the database verdict does.
- ReviewController.GetAllReviews: the database's order among reviews of equal date is unspecified. The contract promises order by date and a permutation, but no order among ties.
- NfcQrController.Patched: an update cannot set `lastClicked` back to null, nor change `_id` or `createdAt`.
- NfcQrController.Merge: only the six options the defaults name (errorCorrectionLevel, type, quality, margin, color, width) are modelled; any other key the caller sends (scale, version, maskPattern, toSJISFunc…) is passed by the spread to both renders and echoed in `options`, and the model drops it.
- ReviewStore.Store: the database's verdict is one function of the written fields for the collection's lifetime, so a refusal that differs between two syncs on one collection (a lost connection) is not expressible there; the functional model takes one verdict per run, and the resync lemmas hold only when both runs' verdicts take every built review (`TransientRefusalReverts` shows why).
- CardManagementPage.CardManager.AddCustomizationSlot: follows the corrected add, which takes the Customize dialog's card (see Findings). The as-written behaviour is `AddCustomizationSlotAsWritten` and `AddSlotAsWritten`.
- Generated ids (`Date.now().toString()`, ObjectIds) are parameters, so two slots or cards made in the same millisecond are not modelled as colliding.

## Findings

| source | as written | input that shows it | evidently intended | confidence | as-written member | corrected member |
|---|---|---|---|---|---|---|
| review-management-frontend/app/nfc-qr-management/page.tsx:118-120 | add-slot writes `[...editingCard.customizationSlots, newSlot]`. `editingCard` is the snapshot taken when a card's Update Image dialog was opened (line 233); it is never refreshed after an add, and only Update Image clears it (line 265). | Open card x's Update Image dialog and close it without Update Image, open x's Customize dialog, add slot a, then add slot b: x ends with [b]. | Append to the card's current slots, so x ends with [a, b]. | not executed | CardManagementPage.AddSlotAsWritten (shown by CardManagementPage.SecondAddDropsFirst) | CardManagementPage.AddSlot (with CardManagementPage.AddSlotKeepsSlots) |
| review-management-frontend/app/nfc-qr-management/page.tsx:111-112 | add-slot targets `editingCard`, which the Customize dialog (lines 271-307) never sets; the button does nothing unless some card's image dialog was left open, and then adds to that card. | With no image dialog opened, add slot a in card y's Customize dialog: nothing changes. After card x's image dialog was opened and closed without Update Image, the same add goes to x, and y is unchanged. | Add to the card whose Customize dialog holds the button (`card._id` is in scope there). | not executed | CardManagementPage.AddSlotAsWritten (shown by CardManagementPage.AddGoesToEditedCard) | CardManagementPage.AddSlot (used by CardManagementPage.CardManager.AddCustomizationSlot) |
