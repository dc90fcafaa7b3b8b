# Civic-Sense issue reporting, modelled in Dafny

Civic-Sense lets residents report civic problems (potholes, broken lights,
litter) with a title, a description, a category, a priority, an optional
photo and an optional map position. An Express backend keeps the reports in
a MongoDB collection and deletes a report's hosted image along with it. A
React front end has four parts:

- a report form;
- an issue list with search, filters and sorting;
- a community map;
- a small sign-in state.

This project models the logic of those parts and proves what each part
promises.

| module | models |
|---|---|
| `Js`, `JsStrings`, `Seqs` | the JavaScript semantics the code relies on: truthiness and `a \|\| b`, `trim` (with the exact ECMAScript white-space set), `toLowerCase` on ASCII letters, `includes`, `startsWith`, `join`, `Array.prototype.filter`, removal by index |
| `Sorting` | `Array.prototype.sort` with a comparator that subtracts two integer keys: the engine's stable sort, built as an insertion sort |
| `IssueModel` | the issue document of `backend/models/data.model.js` |
| `IssueStore` | the five issue handlers of `backend/controller/data.controller.js`, as a class over a map from id to document, an id counter, a clock for the timestamps, and the log of image-destroy calls |
| `IssuePage` | the filter, the stable comparator sort and the badge colours of `IssuePage.jsx`, plus the page state that fetching and deleting replace |
| `CommunityMap` | which issues get a marker, where the map is centred, and the map's fetch state |
| `ReportIssue` | the report form as a class with one field per `useState`, its handlers, and the pure payload, address-join and geocoder fall-back chains |
| `UserController` | `Signup` and `googleSignup` over a user map keyed by email |
| `AuthProvider` | the client session state and its three transitions |

External effects are parameters of the methods:

- the reply of a `fetch`;
- a Nominatim reverse-geocoding answer;
- whether a save, a logout request or a Cloudinary destroy fails;
- the profile a Google token verifies to.

## Model

| member | source | states |
|---|---|---|
| Js.OrElse | frontend/src/components/ReportIssue.jsx:265 | the expression `s \|\| fallback`: `s` when it is a non-empty string, otherwise the fallback; a definition, used by the error-message contracts of the fetch, delete and submit handlers |
| Js.FirstTruthy | frontend/src/components/ReportIssue.jsx:129-146 | a chain `a \|\| b \|\| … \|\| ''` yields the first truthy value, with every earlier one falsy, and yields '' exactly when none is truthy |
| JsStrings.Trim | frontend/src/components/ReportIssue.jsx:201-221 | `s.trim()` as the trailing cut of the leading cut; specified by TrimStartSpec, TrimEndSpec, TrimIsInnerSlice, TrimEmptyIffBlank and TrimIdempotent |
| JsStrings.TrimStartSpec | frontend/src/components/ReportIssue.jsx:211-221 | the leading-white-space cut keeps the longest suffix of its input that does not start with white space, and removes only white space |
| JsStrings.TrimEndSpec | frontend/src/components/ReportIssue.jsx:211-221 | the trailing-white-space cut keeps the longest prefix of its input that does not end with white space, and removes only white space |
| JsStrings.TrimIsInnerSlice | frontend/src/components/ReportIssue.jsx:211-221 | `trim` returns a slice of its input with only white space cut away on either side, and the slice neither starts nor ends with white space |
| JsStrings.TrimEmptyIffBlank | frontend/src/components/ReportIssue.jsx:201-204 | `s.trim()` is empty exactly when `s` consists of white space only |
| JsStrings.TrimIdempotent | frontend/src/components/ReportIssue.jsx:211-221 | trimming an already trimmed string changes nothing |
| JsStrings.Includes | frontend/src/components/IssuePage.jsx:64-65 | `s.includes(q)` as the engine's scan over start positions; specified by IncludesIffOccurs and IncludesEmpty |
| JsStrings.Lower | frontend/src/components/IssuePage.jsx:64-65 | `toLowerCase` on the ASCII letters (see Left out); a definition |
| JsStrings.IncludesIffOccurs | frontend/src/components/IssuePage.jsx:64-65 | `s.includes(q)` holds exactly when `q` occurs at some position of `s` |
| JsStrings.IncludesEmpty | frontend/src/components/IssuePage.jsx:64-65 | every string includes the empty query |
| Seqs.Filter | frontend/src/components/IssuePage.jsx:63-70 | `filter` returns an order-preserving subsequence whose elements all pass, and keeps each passing element exactly as often as it occurs |
| Seqs.RemoveAt | frontend/src/components/ReportIssue.jsx:183-189 | removing at a valid index drops exactly that position and keeps the rest in order; any other index changes nothing |
| IssueModel.RequiredPathsSet | backend/models/data.model.js:5-20 | the schema's four `required: true` paths hold non-empty strings; kept by Store.Valid and by PatchKeepsRequiredPaths |
| IssueStore.HasRequiredFields | backend/controller/data.controller.js:11-16 | the create guard: all five fields truthy; specified by BlanksPassRequiredCheck and Store.CreateIssue |
| IssueStore.NewIssue | backend/controller/data.controller.js:18-43 | the document `new Data({...})` builds; specified by CreateRoundTrip, BodyImageIgnored and ImageFollowsUpload |
| IssueStore.CreateRoundTrip | backend/controller/data.controller.js:7-43 | the saved document carries every field of the request body except `image` |
| IssueStore.BodyImageIgnored | backend/controller/data.controller.js:20-35 | the request body's `image` has no effect on the saved document |
| IssueStore.ImageFollowsUpload | backend/controller/data.controller.js:20-26 | without an upload the image is the placeholder and the public id is null; with one they are the file's path and filename |
| IssueStore.BlanksPassRequiredCheck | backend/controller/data.controller.js:11-16 | the required-field guard does not trim, so white-space values get past it |
| IssueStore.ApplyPatch | backend/controller/data.controller.js:124-128 | `findByIdAndUpdate(id, req.body, {new: true})`: every field the body names replaces the stored one, and `updatedAt` moves; specified by PatchIdempotent, PriorityUpdateRoundTrip and PatchKeepsRequiredPaths |
| IssueStore.PassesUpdateValidators | backend/models/data.model.js:5-20 | `runValidators: true` on an update: the body sets none of the four required paths to ''; specified by PatchKeepsRequiredPaths and Store.UpdateIssue |
| IssueStore.PatchIdempotent | backend/controller/data.controller.js:124-128 | applying the same update twice at the same instant gives the same document as applying it once |
| IssueStore.PriorityUpdateRoundTrip | backend/controller/data.controller.js:124-128 | an update naming only `priority` changes the priority and `updatedAt`, and nothing else |
| IssueStore.PatchKeepsRequiredPaths | backend/models/data.model.js:5-20 | an update the validators accept keeps the four required paths non-empty, and keeps the id and `createdAt` |
| IssueStore.NewestFirst | backend/controller/data.controller.js:69 | `Data.find().sort({ createdAt: -1 })`; specified by NewestFirstSnapshot and NewestFirstOrdered |
| IssueStore.NewestFirstSnapshot | backend/controller/data.controller.js:69 | the listing holds every stored document exactly as stored under its `_id`, and nothing else |
| IssueStore.NewestFirstOrdered | backend/controller/data.controller.js:69 | the listing is in strictly decreasing `createdAt`, so no document appears twice |
| IssueStore.Store.constructor | backend/models/data.model.js:4-60 | starts with an empty collection and no destroy calls |
| IssueStore.Store.CreateIssue | backend/controller/data.controller.js:5-53 | a missing field gives 400 and changes nothing; otherwise 201 and exactly one new document with a fresh id and the current time |
| IssueStore.Store.GetAllIssues | backend/controller/data.controller.js:66-75 | returns every document, newest first, with `count` equal to its length; every listed issue has a description |
| IssueStore.Store.GetIssueById | backend/controller/data.controller.js:88-103 | 200 with the stored document exactly when the id is present, 404 otherwise |
| IssueStore.Store.UpdateIssue | backend/controller/data.controller.js:121-151 | a body the validators refuse gives 500 and an absent id gives 404, both without change; otherwise the merged document is stored, stamped with the clock and returned, and the clock ticks, so two successive successful updates return different `updatedAt` |
| IssueStore.Store.DeleteIssue | backend/controller/data.controller.js:158-186 | an absent id gives 404 with no change and no destroy call; otherwise the document is removed and exactly one destroy call is made when its public id is truthy; a failing destroy gives 500, but the document stays deleted |
| IssueStore.CreateThenGet | backend/controller/data.controller.js:5-103 | a successful create followed by a get of the new id answers 200 with the created document |
| IssueStore.DeleteThenGet | backend/controller/data.controller.js:88-186 | a delete followed by a get of the same id answers 404, even when the image destroy failed |
| Sorting.SortBy | frontend/src/components/IssuePage.jsx:72 | `Array.prototype.sort` with a key-difference comparator; specified by SortByPermutes, SortBySorted, SortByStable and SortByEqualKeys |
| Sorting.SortByPermutes | frontend/src/components/IssuePage.jsx:72 | the stable sort returns a permutation of its input |
| Sorting.SortBySorted | frontend/src/components/IssuePage.jsx:72-87 | the stable sort's result is ordered by the key |
| Sorting.SortByStable | frontend/src/components/IssuePage.jsx:72-87 | the elements sharing any one key keep their relative order |
| Sorting.SortByEqualKeys | frontend/src/components/IssuePage.jsx:84-85 | when the comparator answers 0 for every pair the order is left as it was |
| IssuePage.DescribedIsSearchable | frontend/src/components/IssuePage.jsx:63-65 | a list in which every issue has a description, as Store.GetAllIssues returns, can be searched with any query without throwing |
| IssuePage.FilterIssues | frontend/src/components/IssuePage.jsx:63-70 | `filteredIssues`; specified by FilterIsExactSelection, KeptIssuesMatch and NoFilterKeepsAll |
| IssuePage.FilterIsExactSelection | frontend/src/components/IssuePage.jsx:63-70 | the filtered list is an order-preserving subsequence that keeps every matching issue as often as it occurs, and nothing else |
| IssuePage.KeptIssuesMatch | frontend/src/components/IssuePage.jsx:64-67 | a kept issue has the lower-cased query somewhere in its lower-cased title or description, and matches each category or priority selection that is not "All" |
| IssuePage.NoFilterKeepsAll | frontend/src/components/IssuePage.jsx:63-70 | for any list, with or without descriptions, an empty search with both "All" selections never throws and keeps the whole list, in order |
| IssuePage.Compare | frontend/src/components/IssuePage.jsx:72-87 | the comparator case by case on `sortBy`; specified by CompareIsRankDifference |
| IssuePage.Rank | frontend/src/components/IssuePage.jsx:72-87 | the key the comparator subtracts: `-createdAt`, `createdAt`, minus or plus the priority weight, or 0; specified by CompareIsRankDifference and SortOrderMeaning |
| IssuePage.SortIssues | frontend/src/components/IssuePage.jsx:72-87 | `sortedIssues` before the filter: the stable sort by Rank; specified by SortIssuesPermutes, SortIssuesSorted, SortIssuesStable and SortOrderMeaning |
| IssuePage.CompareIsRankDifference | frontend/src/components/IssuePage.jsx:72-86 | the comparator is the difference of the two issues' sort keys |
| IssuePage.SortIssuesPermutes | frontend/src/components/IssuePage.jsx:72 | the sorted copy is a permutation of the filtered list it was made from |
| IssuePage.SortIssuesSorted | frontend/src/components/IssuePage.jsx:72-87 | the sorted copy is ordered by the comparator's key |
| IssuePage.SortIssuesStable | frontend/src/components/IssuePage.jsx:72-87 | for every key, the issues with that key appear in the sorted copy in their earlier relative order |
| IssuePage.SortOrderMeaning | frontend/src/components/IssuePage.jsx:73-83 | 'Latest' gives non-increasing `createdAt` and 'Oldest' non-decreasing; 'High Priority First' gives non-increasing weight and 'Low Priority First' non-decreasing, with critical 4, high 3, medium 2 and low 1 |
| IssuePage.UnknownSortKeepsOrder | frontend/src/components/IssuePage.jsx:84-85 | an unknown sort option leaves the filtered order unchanged |
| IssuePage.HighPriorityExample | frontend/src/components/IssuePage.jsx:73-81 | 'High Priority First' puts low, critical, medium in the order critical, medium, low |
| IssuePage.VisibleIssues | frontend/src/components/IssuePage.jsx:63-87 | the displayed list is a permutation of the filtered list, ordered by the comparator's key; only the issues that pass the filter need a known priority |
| IssuePage.PriorityColor | frontend/src/components/IssuePage.jsx:94-102 | the grey badge is given exactly to priorities outside the weight table |
| IssuePage.PriorityColorsDistinct | frontend/src/components/IssuePage.jsx:94-102 | the four known priorities get four different badges |
| IssuePage.WithoutId | frontend/src/components/IssuePage.jsx:52 | `issues.filter(issue => issue._id !== id)`; specified by WithoutIdRemovesExactly |
| IssuePage.WithoutIdRemovesExactly | frontend/src/components/IssuePage.jsx:52 | after a delete the list is an order-preserving subsequence with no issue of that id, and every other issue keeps its count |
| IssuePage.Page.constructor | frontend/src/components/IssuePage.jsx:4-6 | starts with no issues, loading, and no error |
| IssuePage.Page.FetchIssues | frontend/src/components/IssuePage.jsx:22-40 | a successful reply replaces the list and clears the error; a refused reply keeps the list and sets the server's message or 'Failed to fetch issues'; no connection sets 'Unable to connect to server'; loading ends either way |
| IssuePage.Page.DeleteIssue | frontend/src/components/IssuePage.jsx:42-61 | without confirmation nothing happens; on success the issues with that id leave the list and the success alert is shown; otherwise the list stays and the matching alert is shown |
| CommunityMap.MapIssues | frontend/src/components/CommunityMap.jsx:60-62 | `issuesWithCoordinates`; specified by MapIssuesSelection, ZeroCoordinateDropped and CreatedWithoutCoordinatesNotMapped |
| CommunityMap.MapIssuesSelection | frontend/src/components/CommunityMap.jsx:60-62 | the markers are an order-preserving subsequence of the fetched issues, and an issue is kept exactly when it has coordinates with truthy lat and lng |
| CommunityMap.ZeroCoordinateDropped | frontend/src/components/CommunityMap.jsx:61 | an issue with latitude 0 or longitude 0 gets no marker |
| CommunityMap.CreatedWithoutCoordinatesNotMapped | frontend/src/components/CommunityMap.jsx:61 | an issue created without coordinates never appears on the map |
| CommunityMap.Center | frontend/src/components/CommunityMap.jsx:129-131 | the map's `center`; specified by CenterIsFirstLocated and CenterDefaultWhenNoneLocated |
| CommunityMap.CenterIsFirstLocated | frontend/src/components/CommunityMap.jsx:129-131 | the map is centred on the first fetched issue that gets a marker |
| CommunityMap.CenterDefaultWhenNoneLocated | frontend/src/components/CommunityMap.jsx:45 | with no marker, the map is centred on the fixed default position |
| CommunityMap.MapView.constructor | frontend/src/components/CommunityMap.jsx:41-43 | starts with no markers, loading, and no error |
| CommunityMap.MapView.CurrentCenter | frontend/src/components/CommunityMap.jsx:45 | the centre of the current marker list: its first issue's coordinates, else the fixed default |
| CommunityMap.MapView.FetchIssues | frontend/src/components/CommunityMap.jsx:52-74 | a successful reply keeps exactly the placeable issues; failures keep the markers and set the error; loading ends either way |
| ReportIssue.Images | frontend/src/components/ReportIssue.jsx:177 | the files whose type starts with `image/`; specified by UploadSortsMedia |
| ReportIssue.Videos | frontend/src/components/ReportIssue.jsx:178 | the files whose type starts with `video/`; specified by UploadSortsMedia |
| ReportIssue.UploadSortsMedia | frontend/src/components/ReportIssue.jsx:175-181 | uploaded images become photos and uploaded videos become videos, each in order; no file is both, and a file of any other type goes nowhere |
| ReportIssue.FullAddress | frontend/src/components/ReportIssue.jsx:639-642 | `[address, city].filter(Boolean).join(', ')`; specified by FullAddressCases |
| ReportIssue.FullAddressCases | frontend/src/components/ReportIssue.jsx:639-642 | the joined address is address + ', ' + city, or whichever of the two is non-empty, and it is empty exactly when both are |
| ReportIssue.CityOf | frontend/src/components/ReportIssue.jsx:129-136 | the city is the first truthy value of city, town, village, municipality and city_district, and '' only when none is truthy |
| ReportIssue.StateOf | frontend/src/components/ReportIssue.jsx:139-146 | the state is the first truthy value of state, province, state_district, county and region, and '' only when none is truthy |
| ReportIssue.Payload | frontend/src/components/ReportIssue.jsx:211-227 | `issueData`; specified by PayloadFieldsTrimmed, PayloadAccepted and SentPayloadAccepted |
| ReportIssue.FormComplete | frontend/src/components/ReportIssue.jsx:201 | submit's guard; specified by BlankFieldBlocksSubmit |
| ReportIssue.PayloadFieldsTrimmed | frontend/src/components/ReportIssue.jsx:211-221 | every text field of the payload is already trimmed |
| ReportIssue.BlankFieldBlocksSubmit | frontend/src/components/ReportIssue.jsx:201-204 | a title, description or location made only of white space blocks the submit |
| ReportIssue.PayloadAccepted | frontend/src/components/ReportIssue.jsx:209-236 | a payload with its required texts present passes the backend's guard and is saved with the placeholder image, since the request carries no file |
| ReportIssue.SentPayloadAccepted | frontend/src/components/ReportIssue.jsx:209-236 | any payload the form sends with a category and a priority chosen passes the backend's guard, and the photo name in it never becomes the stored image |
| ReportIssue.Form.constructor | frontend/src/components/ReportIssue.jsx:68-83 | starts empty, with category 'infrastructure', priority 'medium', no media and no position |
| ReportIssue.Form.HandlePhotoUpload | frontend/src/components/ReportIssue.jsx:175-181 | appends the image files to the photos and the video files to the videos |
| ReportIssue.Form.RemovePhoto | frontend/src/components/ReportIssue.jsx:183-185 | the photo at the index leaves the list |
| ReportIssue.Form.RemoveVideo | frontend/src/components/ReportIssue.jsx:187-189 | the video at the index leaves the list |
| ReportIssue.SubmitStatus | frontend/src/components/ReportIssue.jsx:243-270 | the status line after the request settles; specified by SubmitStatusSuccess |
| ReportIssue.SubmitStatusSuccess | frontend/src/components/ReportIssue.jsx:243-270 | the success line is shown exactly when the reply is ok and its body reports success; any other outcome shows a line starting with the cross mark |
| ReportIssue.Form.HandleSubmit | frontend/src/components/ReportIssue.jsx:197-270 | an incomplete form only gets the error message and sends nothing; a complete one sends the trimmed payload and shows the success message, the server's message or 'Failed to save issue', or the connection error |
| ReportIssue.Form.ResetAfterSave | frontend/src/components/ReportIssue.jsx:247-262 | the post-save timer returns every field except the proposed position to its initial value |
| ReportIssue.Form.ClearForm | frontend/src/components/ReportIssue.jsx:482 | Clear resets the text, the choices, the media and the message, and leaves the location panel alone |
| ReportIssue.Form.ConfirmAddress | frontend/src/components/ReportIssue.jsx:637-650 | Confirm sets the location to the joined address; if that is empty, it changes only the message |
| ReportIssue.Form.ClearLocation | frontend/src/components/ReportIssue.jsx:661-672 | Clear empties the position, the proposal, the location and the address fields |
| ReportIssue.Form.PickPosition | frontend/src/components/ReportIssue.jsx:41-45 | a double click proposes that position |
| ReportIssue.Form.CancelLocation | frontend/src/components/ReportIssue.jsx:163-166 | cancelling drops the proposal |
| ReportIssue.Form.ConfirmMapLocation | frontend/src/components/ReportIssue.jsx:108-161 | without a proposal nothing changes; with one it becomes the position and the location text; the address fields are taken from the geocoder's answer when there is one, else at most the display name, else left alone |
| UserController.Insert | backend/controller/user.controller.js:19-24 | `new User({...}).save()` under an unused email with the counter's id; specified by InsertWellFormed |
| UserController.InsertWellFormed | backend/controller/user.controller.js:17-24 | saving a user under a new email with the counter's id adds exactly one user and keeps emails and ids unique |
| UserController.SignupRefusal | backend/controller/user.controller.js:9-16 | Signup goes ahead exactly when all three fields are truthy and the email is new; 'All fields are required' is given exactly when a field is missing |
| UserController.FindOrCreate | backend/controller/user.controller.js:50-54 | the account on file for the profile's email, or a new one with the profile's name and an empty password; its result always holds that email |
| UserController.FindOrCreateIdempotent | backend/controller/user.controller.js:50-54 | a second Google sign-in with the same account creates nothing and finds the same user |
| UserController.FindOrCreateEffect | backend/controller/user.controller.js:50-54 | Google sign-in leaves every existing user as it is, and adds a user, with an empty password, only for a new email |
| UserController.Registry.constructor | backend/controller/user.controller.js:13 | starts with no users |
| UserController.Registry.Signup | backend/controller/user.controller.js:5-37 | a refused Signup gives 400 with its message and changes nothing; a failing save gives 500; otherwise 201, one new user holding the password's digest, and a reply without the password |
| UserController.Registry.GoogleSignup | backend/controller/user.controller.js:39-59 | an unverified token or a failing save gives 500 and changes nothing; otherwise 200 with the account found or created |
| UserController.GoogleSignupTwice | backend/controller/user.controller.js:39-59 | two Google sign-ins with one account give the same reply and leave the collection as one FindOrCreate leaves it |
| AuthProvider.Session.constructor | frontend/src/context/AuthProvider.jsx:7-9 | starts signed out and loading |
| AuthProvider.Session.CheckAuth | frontend/src/context/AuthProvider.jsx:15-26 | a verify reply is copied into the state; a failed request signs out; loading ends either way |
| AuthProvider.Session.Login | frontend/src/context/AuthProvider.jsx:28-31 | login stores the user and marks the session authenticated |
| AuthProvider.Session.Logout | frontend/src/context/AuthProvider.jsx:33-37 | a resolved logout signs out; a rejected one leaves the state as it was and passes the rejection on |
| AuthProvider.LoginLogoutRoundTrip | frontend/src/context/AuthProvider.jsx:15-37 | after a failed check, login then a resolving logout leaves the session signed out and not loading |

### Behaviour of the code worth noting

- Create tests JavaScript truthiness and never trims, so fields made only of white space pass its guard (`BlanksPassRequiredCheck`).
- Update passes `runValidators: true`, so an update that sets a required path to '' is refused inside the `try` and answered with 500 (`UpdateIssue`).
- Update merges the whole request body, so `image` and `imagePublicId` can be overwritten (`ApplyPatch`).
- A failing image destroy on delete is answered with 500 after the document is already deleted (`DeleteIssue`).
- The create handler is routed at `POST /create`, but the form posts to `/api/issues`. The model connects the form's payload to the create handler directly (`SentPayloadAccepted`). It does not claim that the two meet over HTTP.

## Left out

- Network I/O: every `fetch`/`axios` call, the Nominatim request and `getAddressFromCoords`. The replies are parameters, and `getAddressFromCoords` is never called by the form.
- MongoDB, Mongoose, Cloudinary and multer internals. The collection is a map, `_id`s come from a counter, and the timestamps come from a clock that ticks on each write.
- A failing `save` in `createIssue`, and any failing read (the 500 paths of the issue handlers other than the update validators and destroy), including the `CastError` for a malformed id. An id in this model is a number that is either present or absent.
- Schema casting of request values that are not strings (numbers, arrays, objects). Every text field of a body is a string or absent.
- Partial or malformed coordinates: `coordinates` is either absent or a complete pair of reals. An object with only `lat`, a `null` part or a non-numeric part cannot be represented, although the schema accepts it and the map's truthiness test would drop it.
- bcrypt's salt and cost factor. A digest is kept as a value recording its secret, so two digests of one password are equal here.
- The Google token check itself, which is reduced to the profile it yields. The profile is taken to carry an email and a name. `backend/models/user.model.js` is not part of this model, so its schema checks are not modelled.
- The `Login`, `Logout` and `verifyToken` handlers, which are imported by the user routes but are not part of this model, and the JWT middleware.
- JSX rendering, modals, spinners of the report form (`loadingAddress`, `showConfirmModal`), the marker popup, date formatting and particle effects.
- `toFixed(6)` formatting: `Form.ConfirmMapLocation` takes the formatted position text as a parameter.
- JavaScript numbers: coordinates are reals (no NaN or infinities) and timestamps are integers.
- `Array.prototype.sort`'s own algorithm: `Sorting.SortBy` gives its outcome, which a stable sort with a consistent comparator fixes, and not the steps the engine takes.
- IssuePage.SortIssues: an issue whose priority is outside the weight table under a priority sort is excluded by precondition, because the comparator then returns NaN and the engine's order is unspecified.
- IssuePage.FilterIssues: requires that every issue without a description matches the search by its title, because the search calls `toLowerCase` on the description whenever the title does not match, and that throws for an issue without one.
- JsStrings.Lower: lower-cases the ASCII letters only; Unicode case mapping is not modelled.
- Concurrency between overlapping requests, and React's batching of state updates: each handler is one atomic transition.
