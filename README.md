# Social map photo sharing: a Dafny model

This project models the logic of a small photo-sharing web app. Users take a
photo, the app tags it with where they are, and the photo goes on a map, a
distance-sorted feed and the user's dashboard. The model covers seven parts:

- **Photo store** (`server.dfy`, module `PhotoServer`). The edge function's
  `POST /photos/upload`, `GET /photos` and `DELETE /photos/:id` handlers, as
  methods of a class `PhotoStore`. The class holds the key-value store of
  photo records and the storage bucket. The clock readings, the base64
  decoder's verdict and the storage and signing outcomes are handler inputs.
- **Client helpers** (`client.dfy`, module `PhotosClient`). How an HTTP reply
  becomes a `Photo`, a photo list or a thrown message, and the row
  `markersAPI.add` inserts.
- **Feed** (`feed.dfy`, module `Feed`, with the stable sort in `sorting.dfy`).
  The order a load gives the photos: nearest first when the viewer's position
  is known, newest first otherwise. Also the current-post index driven by
  swipes and keys (class `FeedPage`).
- **Map markers** (`photomap.dfy`, module `PhotoMap`). The id-keyed marker
  table, cleared and rebuilt on every render, plus the right-click delete and
  the reload (class `MapView`).
- **Dashboard** (`dashboard.dfy`, module `Dashboard`). The "my photos"
  ownership filter, the header and count fallbacks, and the calls one load
  makes.
- **Profile editor** (`profile.dfy`, module `ProfileEditor`). Trim-or-null
  field normalisation with ECMAScript's `trim`, and the open-sync and submit
  handling of the modal (class `EditProfileModal`).
- **Camera** (`camera.dfy`, module `Camera`). The start, stop, capture and
  save flags and guards, and the drag-to-close gesture (class `CameraView`).

`common.dfy` holds what these share:

- optional values and call results;
- `Array.prototype.filter` and `map`;
- the decimal rendering of clock values and status codes, with its
  round trip.

`sorting.dfy` models `Array.prototype.sort` with a subtracting comparator. The
sort is stable since ECMAScript 2019, so its result is fully determined. The
model sorts by insertion. It proves the result sorted, a permutation of the
input and stable, and proves that any two sorted, stable arrangements are
equal (`Sorting.StableSortUnique`).

Three facts of the code that the model makes visible:

- The photo record the server stores has no owner field (`PhotoServer.PhotoRecord`).
  Listed photos therefore have no `userId`, and `Dashboard.MineOfUnowned` shows
  that the dashboard's "my photos" is then empty for every user.
- Photo ids come from the clock alone (`photo_<ms>`). Two uploads in the same
  millisecond both answer 200, but the second record replaces the first: the
  id now describes the second photo, and the first photo's blob stays in the
  bucket (`PhotoServer.UploadsInSameMillisecond`).
- `base64Data.split(",")[1]` is the text between the first and second comma,
  not everything after the first comma (`PhotoServer.StripDataUrlHeader`).

## Model

| member | source | states |
|---|---|---|
| Common.FilterMembership | app/dashboard/page.tsx:39-41 | `filter` keeps exactly the elements that satisfy the predicate |
| Common.FilterAppend | app/dashboard/page.tsx:39-41 | `filter` distributes over concatenation, so the kept elements stay in their original order |
| Common.ParseNatToString | supabase/functions/server/index.tsx:126 | reading back the decimal rendering of a clock value gives the value |
| Common.NatToStringInjective | supabase/functions/server/index.tsx:126 | different clock values render differently |
| Sorting.SortSorted | app/feed/page.tsx:128-132 | the sorted array is in non-decreasing key order |
| Sorting.SortPermutation | app/feed/page.tsx:128-132 | the sorted array holds the same elements, each as often as before |
| Sorting.SortStable | app/feed/page.tsx:128-132 | for every key, elements with that key keep their input order |
| Sorting.StableSortUnique | app/feed/page.tsx:128-132 | two arrangements that are both sorted and stable are equal, so the stable sort's result is determined |
| Sorting.SortMapPermutation | app/feed/page.tsx:117-140 | projecting the sorted elements gives a permutation of the projected input |
| PhotosClient.ErrorMessage | utils/supabase/client.ts:212-220 | the thrown message is the body's `error` when it is a non-empty string; otherwise, unparsable body included, it is the fallback; never empty when the fallback is not |
| PhotosClient.PhotoFromUpload | utils/supabase/client.ts:223-232 | `photoId` becomes `id`; `filePath` defaults to `""`; `userId` is the argument if given, else the reply's, else null; `created_at` is the reply's, else the current time |
| PhotosClient.UploadResult | utils/supabase/client.ts:212-232 | a non-OK reply throws the selected upload message; an unreadable OK body throws; otherwise the mapped photo |
| PhotosClient.ListErrorMessage | utils/supabase/client.ts:242-251 | the list failure message is the selected message followed by ` (status N)` |
| PhotosClient.ListErrorMessageShowsStatus | utils/supabase/client.ts:250 | for one body, different statuses give different messages |
| PhotosClient.ListResult | utils/supabase/client.ts:242-256 | a non-OK reply throws the status message; an OK reply whose body cannot be read throws; an OK reply yields `photos`, or `[]` when the field is missing |
| PhotosClient.DeleteResult | utils/supabase/client.ts:266-276 | the delete succeeds exactly on an OK reply; otherwise it throws the selected message with fallback "Failed to delete photo" |
| PhotosClient.NewMarkerRow | utils/supabase/client.ts:162-165 | the inserted label is null exactly when the label is absent or empty, else the label itself |
| PhotoServer.PhotoKey | supabase/functions/server/index.tsx:126 | a photo key is `photo_` followed by decimal digits that read back as the clock value |
| PhotoServer.PhotoKeyInjective | supabase/functions/server/index.tsx:126-137 | uploads at different milliseconds get different keys |
| PhotoServer.BlobPath | supabase/functions/server/index.tsx:98 | a blob path is the clock digits, a dash, then the file name |
| PhotoServer.BlobPathInjective | supabase/functions/server/index.tsx:98 | the blob path determines both the clock value and the file name |
| PhotoServer.StripDataUrlHeader | supabase/functions/server/index.tsx:93 | the payload is the input itself, or a non-empty comma-free text that starts right after the input's first comma |
| PhotoServer.StripDataUrlHeaderSegments | supabase/functions/server/index.tsx:93 | for `h,a` followed by nothing or by a comma and more text, the payload is `a`, the text between the first and second comma, or the whole input when `a` is empty |
| PhotoServer.StripDataUrlHeaderOfDataUrl | supabase/functions/server/index.tsx:92-93 | a data URL `header,payload` (RFC 2397, section 3) yields exactly its payload |
| PhotoServer.StripDataUrlHeaderOfPlain | supabase/functions/server/index.tsx:93 | comma-free base64 text is used unchanged |
| PhotoServer.PhotoStore.Upload | supabase/functions/server/index.tsx:83-151 | each failure's status and message, with the store and bucket untouched; a falsy `base64Data`/`filename` or an undefined coordinate gives 400, while a latitude of 0 or null is accepted; on a signing failure the blob stays but no record is written; success writes the record under `photo_<ms>`, replacing any record stored in the same millisecond, whose id is its key, with the six stored fields and the coordinates echoed; `userId` is never stored |
| PhotoServer.UploadsInSameMillisecond | supabase/functions/server/index.tsx:98-130 | two successful uploads with ids built in the same millisecond get the same id; the store gains one key, holding the second photo, and the first photo's blob stays in the bucket |
| PhotoServer.PhotoStore.List | supabase/functions/server/index.tsx:154-162 | the listing holds exactly the records under keys starting with `photo_`, each once |
| PhotoServer.PhotoStore.Delete | supabase/functions/server/index.tsx:165-192 | an unknown id gives 404 and changes nothing; a known id loses its record and gets 200 even when blob removal fails, and only a successful removal drops the blob |
| Feed.WithDistances | app/feed/page.tsx:119-126 | with a location, every fetched photo gets its distance attached, in fetched order |
| Feed.WithoutDistances | app/feed/page.tsx:133-135 | without a location, the photos are copied with no distance |
| Feed.ByDistanceOrder | app/feed/page.tsx:128-132 | the distance sort gives a permutation with ascending distances, missing distances after all present ones, and ties in fetched order |
| Feed.NewestFirstOrder | app/feed/page.tsx:133-140 | the fallback sort gives a permutation ordered newest first, ties in fetched order |
| Feed.ArrangeIsPermutation | app/feed/page.tsx:117-140 | a load shows exactly the fetched photos, each as often as fetched |
| Feed.SwipeNav | app/feed/page.tsx:176-185 | a null or zero start or end does nothing; otherwise a move of at least 50 px up goes to the next post and one of at least 50 px down to the previous one |
| Feed.KeyNav | app/feed/page.tsx:189-197 | ArrowUp/PageUp go back, ArrowDown/PageDown go forward, other keys do nothing |
| Feed.StepInRange | app/feed/page.tsx:56-64 | every move keeps the index on a post, or at 0 with no posts; next advances exactly below the last post, previous retreats exactly above 0 |
| Feed.RepeatNext | app/feed/page.tsx:56-60 | k steps forward reach post i+k or stop at the last post |
| Feed.RepeatPrev | app/feed/page.tsx:62-64 | k steps back reach post i-k or stop at 0 |
| Feed.FeedPage.GoNext | app/feed/page.tsx:56-60 | `goNext` keeps the index in range and moves it as `NextIndex` |
| Feed.FeedPage.GoPrev | app/feed/page.tsx:62-64 | `goPrev` keeps the index in range and moves it as `PrevIndex` |
| Feed.FeedPage.TouchStart | app/feed/page.tsx:165-169 | a touch start records its y and forgets the previous end |
| Feed.FeedPage.TouchMove | app/feed/page.tsx:171-174 | a touch move records the end y |
| Feed.FeedPage.TouchEnd | app/feed/page.tsx:176-185 | a touch end moves the index as `SwipeNav` decides |
| Feed.FeedPage.KeyDown | app/feed/page.tsx:189-197 | a key moves the index as `KeyNav` decides |
| Feed.FeedPage.Load | app/feed/page.tsx:70-154 | the location outcome sets the location and its message; a successful load shows the arranged photos from index 0; a failed load keeps the photos and sets `err.message`, or "Failed to load feed."; a cancelled load changes nothing after the fetch |
| PhotoMap.PlaceAllMarkers | components/Map.tsx:116-158 | adding markers puts one new marker per photo at its `[longitude, latitude]` and leaves existing markers alone |
| PhotoMap.PlaceAllTableKeys | components/Map.tsx:154-158 | after placing, the table holds the ids it held before plus every placed id, and no others |
| PhotoMap.PlaceAllTableLast | components/Map.tsx:154-158 | after placing, each placed id points at the marker of the last photo with that id |
| PhotoMap.RenderTable | components/Map.tsx:108-160 | a render keeps the marker state well formed, its table's ids are exactly the listed ids, and an empty list leaves an empty table |
| PhotoMap.RenderPositions | components/Map.tsx:116-158 | after a render, each listed id points at a marker on the map at the `[longitude, latitude]` of the last photo with that id |
| PhotoMap.RenderReplacesOldMarkers | components/Map.tsx:111-113 | a render takes every marker the old table held off the map, and leaves markers the table did not hold where they are |
| PhotoMap.RenderNoStrayMarkers | components/Map.tsx:111-158 | with distinct ids, every marker on the map after a render is in the table |
| PhotoMap.DuplicateIdLeaksMarker | components/Map.tsx:154-158 | a duplicated id puts two markers on the map, the table keeps only the second, and the next render cannot remove the first |
| PhotoMap.WithoutIdMembers | components/Map.tsx:147 | deleting by id drops every photo with that id and keeps every other photo |
| PhotoMap.WithoutIdKeepsOrder | components/Map.tsx:147 | deleting by id keeps the remaining photos in order |
| PhotoMap.MapView.Attach | components/Map.tsx:50-62 | after initialisation the map exists |
| PhotoMap.MapView.RenderMarkers | components/Map.tsx:108-160 | with no map nothing changes; otherwise the markers become `Render` of the old markers and the photos |
| PhotoMap.MapView.ContextDelete | components/Map.tsx:140-152 | a declined confirmation changes nothing; a successful delete filters the photos by id; a failed delete keeps them and alerts |
| PhotoMap.MapView.LoadPhotos | components/Map.tsx:36-43 | a fetched list replaces the photos; a failed fetch leaves them unchanged |
| Dashboard.MineMembers | app/dashboard/page.tsx:39-41 | my photos are exactly the photos whose owner is non-empty and equals the user id; an empty user id owns nothing |
| Dashboard.MineKeepsOrder | app/dashboard/page.tsx:39-41 | my photos keep the order of the full list |
| Dashboard.MineOfUnowned | app/dashboard/page.tsx:39-41 | a list whose photos carry no owner gives no photos for any user |
| Dashboard.UpperAscii | app/dashboard/page.tsx:82-83 | a lower-case ASCII letter becomes its upper-case form; other characters are kept |
| Dashboard.Initial | app/dashboard/page.tsx:82-83 | `s?.[0]?.toUpperCase()` is present exactly for a non-empty string, as its upper-cased first character |
| Dashboard.AvatarInitial | app/dashboard/page.tsx:82-84 | the avatar letter comes from the username, else the email, else it is "U" |
| Dashboard.Heading | app/dashboard/page.tsx:88 | the heading is the username, else the email, else "My Profile"; empty strings fall through and the heading is never empty |
| Dashboard.CountLabel | app/dashboard/page.tsx:101 | the count label starts with the count's digits |
| Dashboard.CountLabelSingular | app/dashboard/page.tsx:101 | the label is singular exactly when the count is 1, and different counts give different labels |
| Dashboard.ScreenOf | app/dashboard/page.tsx:58-76 | the loading screen shows exactly while loading; the profile shows exactly once loaded with a user |
| Dashboard.Load | app/dashboard/page.tsx:20-56 | the user is asked first; a mounted page stores the user it got back; the profile is fetched exactly when a signed-in user is found on a mounted page, and for that user's id; the photos are fetched exactly when, in addition, the profile call returned on a still-mounted page, whose profile is then stored; a page that stays mounted leaves the loading state whatever fails; an unmounted page keeps the initial state; on full success the state holds the profile and my photos |
| ProfileEditor.TrimStart | components/EditProfileModal.tsx:44-46 | dropping the leading white space leaves a suffix of the input |
| ProfileEditor.TrimStartCut | components/EditProfileModal.tsx:44-46 | everything dropped from the front is white space |
| ProfileEditor.TrimStartHead | components/EditProfileModal.tsx:44-46 | what is kept is empty or starts with a non-white-space character |
| ProfileEditor.TrimEnd | components/EditProfileModal.tsx:44-46 | dropping the trailing white space leaves a prefix of the input |
| ProfileEditor.TrimEndCut | components/EditProfileModal.tsx:44-46 | everything dropped from the back is white space |
| ProfileEditor.TrimEndLast | components/EditProfileModal.tsx:44-46 | what is kept is empty or ends with a non-white-space character |
| ProfileEditor.TrimIsSlice | components/EditProfileModal.tsx:44-46 | `trim` returns a slice of the input with only white space cut off either end |
| ProfileEditor.TrimEdges | components/EditProfileModal.tsx:44-46 | a non-empty trimmed string has no white space at either end |
| ProfileEditor.TrimIdempotent | components/EditProfileModal.tsx:44-46 | trimming twice is trimming once |
| ProfileEditor.TrimEmpty | components/EditProfileModal.tsx:44-46 | trimming leaves nothing exactly for an all-white-space string |
| ProfileEditor.NormalizeField | components/EditProfileModal.tsx:44-46 | a field is submitted as its trimmed value, or null when that is empty |
| ProfileEditor.NormalizeFieldSpec | components/EditProfileModal.tsx:44-46 | a field is null exactly when it is all white space; otherwise it is non-empty, has no edge white space and is already trimmed |
| ProfileEditor.FieldOrEmpty | components/EditProfileModal.tsx:30-32 | a missing profile or field loads as `""`, otherwise as the field's value |
| ProfileEditor.EditProfileModal.constructor | components/EditProfileModal.tsx:20-33 | a modal mounted open shows the profile's fields; one mounted closed shows empty fields |
| ProfileEditor.EditProfileModal.SetProps | components/EditProfileModal.tsx:27-33 | when `open` or the profile changes while open, the error is cleared and the fields reload; otherwise nothing syncs |
| ProfileEditor.EditProfileModal.EditUsername | components/EditProfileModal.tsx:83 | typing sets the username field |
| ProfileEditor.EditProfileModal.EditFullName | components/EditProfileModal.tsx:95 | typing sets the full-name field |
| ProfileEditor.EditProfileModal.EditBio | components/EditProfileModal.tsx:107 | typing sets the bio field |
| ProfileEditor.EditProfileModal.BeginSubmit | components/EditProfileModal.tsx:35-47 | a closed modal sends nothing; an open one sets `saving`, clears the error and sends the normalised fields |
| ProfileEditor.EditProfileModal.FinishSubmit | components/EditProfileModal.tsx:48-56 | on success `onSaved(profile)` then `onClose()`; on failure the error is the message or "Failed to update profile" and nothing is called; `saving` is false after either |
| Camera.SaveFileName | components/Camera.tsx:165 | the saved file is named `photo-`, then decimal digits that read back as the clock value, then `.jpg` |
| Camera.SaveFileNameInjective | components/Camera.tsx:165 | saves at different milliseconds use different file names |
| Camera.DragAfterMove | components/Camera.tsx:185-189 | a move counts only with a drag started and only below its start; the distance stays non-negative |
| Camera.CameraView.BeginStart | components/Camera.tsx:69-71 | `startCamera` goes on exactly when no start is in progress, and marks one in progress |
| Camera.CameraView.FinishStart | components/Camera.tsx:102-114 | a stream obtained replaces the stream and clears `isCaptured`; a failure alerts; either way no start is in progress afterwards |
| Camera.CameraView.StopCamera | components/Camera.tsx:117-126 | with no stream nothing changes; otherwise every track is stopped, the stream is dropped and `isCaptured` is cleared, so a second call is a no-op |
| Camera.CameraView.HandleCapture | components/Camera.tsx:129-143 | without video or canvas nothing changes; with both, the canvas takes the video size, and `isCaptured` is set when a 2D context exists |
| Camera.CameraView.HandleRetake | components/Camera.tsx:145 | retake clears `isCaptured` |
| Camera.CameraView.UserLoaded | components/Camera.tsx:38-41 | the user lookup sets the current user id |
| Camera.CameraView.LocationFound | components/Camera.tsx:59-65 | a position found sets the current location |
| Camera.CameraView.OnClose | components/Camera.tsx:46-54 | closing stops every track of the stream and drops it, clears `isCaptured` when there was a stream and otherwise leaves it, and forgets the user id |
| Camera.CameraView.BeginSave | components/Camera.tsx:147-169 | no signed-in user alerts and sends nothing, checked first; no canvas or location alerts and sends nothing; otherwise `isUploading` is set and the upload sends the data URL, `photo-<ms>.jpg`, the location and the user id |
| Camera.CameraView.FinishSave | components/Camera.tsx:170-178 | success calls `onPhotoSaved` then `onClose`; failure alerts and calls neither; `isUploading` is false after either |
| Camera.CameraView.DragStart | components/Camera.tsx:182-183 | a touch or mouse down starts a drag at its y |
| Camera.CameraView.DragMove | components/Camera.tsx:185-189 | a move updates the drag distance as `DragAfterMove` and keeps it non-negative |
| Camera.CameraView.EndDrag | components/Camera.tsx:191-195 | letting go closes exactly when the drag exceeded 100 px, and always resets the drag |

## Left out

- Haversine distance, the miles display and `new Date(...).getTime()` are floating point and date parsing. The feed takes them as the functions `distanceOf` and `timeOf`.
- Base64 decoding (`atob`, `Uint8Array.from`) is outside the model. Its only effect, a rejected payload, is the `decodeError` input. The bucket holds the stripped base64 text in place of the decoded bytes.
- Supabase services are inputs: auth, storage upload, signed URLs, removal, and the profiles table. The storage upload's refusal of an existing path (`upsert: false`) is part of the `uploadError` input.
- Key-value store failures, and the 500 answers of the list and delete routes that they would cause, are not modelled. The store is a map that does not fail.
- PhotoServer.PhotoStore.Upload: only string values of `base64Data` and `filename` are modelled. A truthy non-string `base64Data` has no `split`, so the handler throws and answers 500 through its `catch` (supabase/functions/server/index.tsx:147-149). A truthy non-string `filename` is converted to text inside the blob path template (supabase/functions/server/index.tsx:98) and the upload goes ahead. Neither case is modelled.
- PhotoServer.PhotoStore.List: the contract does not state the order of the listing. The order of the store's prefix scan is not specified.
- Mapbox is outside the model: map construction, controls, `flyTo`, the focus marker, marker styling and the click-to-view handler. So are the geolocation and `requestUserLocation` callbacks of the map.
- Device APIs are outside the model: `getUserMedia` and its facing-mode retry, canvas drawing, `toDataURL` and video playback. `onPhotoSaved` is treated as always supplied.
- React scheduling is simplified. Each handler or load runs as one step, or as two steps (begin and finish) around the one awaited call. The feed's cancellation is modelled only for unmounting during the fetch. Unmounting during geolocation is not modelled.
- ProfileEditor.EditProfileModal.SetProps compares the profile by value. React compares it by reference, so the model misses a re-sync when an equal but new profile object arrives.
- Dashboard.Initial: a Dafny `char` is a whole Unicode scalar value, while `s?.[0]` takes one UTF-16 code unit. For a string that starts outside the Basic Multilingual Plane (an emoji, say) the model's initial is the whole character, where the page shows a lone high surrogate. Dashboard.AvatarInitial inherits this through Initial.
- Dashboard.UpperAscii: `toUpperCase` is modelled for the ASCII letters only. Other characters, including those with multi-character upper-case forms, are kept as they are.
- Feed.NewestFirstOrder: timestamps are integers. An unparsable date, whose `getTime()` is `NaN`, is not modelled.
- Feed.FeedPage.Load: a load always attaches a distance, so the comparator's fallback to infinity for a missing distance never fires from a load. Feed.ByDistanceOrder still proves that rule for any list.
- The parts of the app outside these seven files are not part of this model: the auth, camera, profile and home pages, the layout, the search bar, the header, the footer, the photo viewer and the input component.
