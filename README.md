# PinPoint core in Dafny

PinPoint is a lost-and-found Android app. People post lost items with a photo, a place and a contact,
browse the feed by state and city, and manage their own posts; a map screen holds a list of pinned
markers. This project models the app's logic in Dafny and proves properties of that model:

- **The data layer.** `LostItemRepository` decodes store documents into lost-item records. It drops
  documents that fail to decode and sorts each snapshot by its `datePosted` string. It also builds the
  submit payload, and it updates a status or deletes an item in a collection.
  `LostItemStorageManager` runs the create, image-update, delete and list workflows. Each is a fixed
  order of steps: auth gate, ownership gate, blob step, document step.
- **The view models.** The feed and its city filter (`HomeViewModel`); the item page
  (`ItemPageViewModel`); the owner's list with optimistic removal (`ItemViewModel`); the upload form
  with its event counter (`UploadViewModel`); the map's mode machine over a duplicate-free marker
  list (`MapViewModel`), with the screen's tap dispatch (`MapScreen`).
- **The forms.** The sign-up and login pages' validation chains, failure-message mappings, the
  login button's enabled rule and the Google account-active decision.

## Layout

| file | contents |
|---|---|
| wrappers.dfy | `Option`, `Result`, `Outcome` |
| text.dfy | Kotlin string behaviour used by the core: `isWhitespace`, `isBlank`, `trim`, `equals(ignoreCase = true)`, `contains`, `compareTo`, decimal rendering |
| document_store.dfy | store values and documents, typed reads (`getString`, `getDouble`, `getBoolean`) that throw on a wrong type, `whereEqualTo`, the exception type and its `message` |
| lost_item.dfy | the lost-item record and its defaults; the signed-in user |
| lost_item_repository.dfy | decoding, the snapshot pipeline, the submit payload, point reads, and a collection class |
| lost_item_storage_manager.dfy | the four storage-manager workflows: spec functions over the stores plus a class whose methods are proved equal to them |
| home_view_model.dfy, item_page_view_model.dfy, item_view_model.dfy, upload_view_model.dfy, map_view_model.dfy | one class per view model, with the pure transitions beside it |
| map_screen.dfy | the map screen's callbacks |
| sign_up.dfy, login_page.dfy | the two pages' decisions and their remembered state |

Each coroutine is two events: its start, and its completion carrying a success or a failure. Where
a view model changes state, a class holds fields mirroring its `MutableStateFlow`s. Its methods are
proved to leave the state that a pure transition function gives. The properties are lemmas about
those functions.

## Where the code departs from the expected behaviour

- **No not-found error.** A missing document has no `ownerId`. So `updateItemImage` and
  `deleteItem` fail with "Unauthorized" for a missing id. `getItemById` of a missing id returns the
  all-defaults record, not null. Only the collection's `updateStatus` sees a store-level not-found
  failure.
- **Blob deletion is not best-effort.** A failed blob delete fails the whole `deleteItem` and the
  whole `updateItemImage`. Deleting a blob that is not there also fails.
- **Nothing is rolled back.** This covers a blob left behind by a failed create, a document naming a
  deleted blob, and an optimistic removal in `deletePost`.
- **Snapshots sort by the formatted date string**, compared character by character, not by timestamp.
- **`contactInfo` is written by `createLostItem` but never read back** by the repository. Every
  decoded record holds the record class's default, `"N/A"`. That default comes from the revision of
  the record class that has the field. The `domain/models/LostItem.kt` shown lacks `status`,
  `storagePath` and `contactInfo`. The model's record has the fields the repository builds plus
  `contactInfo`, with `""` and `0.0` as the other defaults.

## Model

| member | source | states |
|---|---|---|
| Text.TrimStart | app/src/main/java/com/cs407/pinpoint/ui/viewModels/HomeViewModel.kt:55 | drops exactly the leading whitespace: the result is a suffix of the input that is empty or starts with a non-whitespace character, and everything dropped is whitespace |
| Text.TrimEnd | app/src/main/java/com/cs407/pinpoint/ui/viewModels/HomeViewModel.kt:55 | drops exactly the trailing whitespace, symmetrically |
| Text.Trim | app/src/main/java/com/cs407/pinpoint/ui/viewModels/HomeViewModel.kt:55 | `trim()`: both ends trimmed; the result is a contiguous part of the input |
| Text.TrimIsInfix | app/src/main/java/com/cs407/pinpoint/ui/viewModels/HomeViewModel.kt:55 | the trimmed string occurs in the input with only whitespace around it |
| Text.BlankIffTrimEmpty | app/src/main/java/com/cs407/pinpoint/ui/viewModels/HomeViewModel.kt:53 | `isBlank()` holds exactly when trimming leaves nothing, so a blank city and an empty trimmed city agree |
| Text.ContainsIffOccurs | app/src/main/java/com/cs407/pinpoint/ui/screens/SignUp.kt:263 | `contains(sub)` holds exactly when `sub` occurs at some index of the string |
| Text.LexLeReflexive | app/src/main/java/com/cs407/pinpoint/data/repository/LostItemRepository.kt:99 | the `String.compareTo` order that `sortedByDescending` uses is reflexive |
| Text.LexLeTotal | app/src/main/java/com/cs407/pinpoint/data/repository/LostItemRepository.kt:99 | any two strings are comparable |
| Text.LexLeAntisymmetric | app/src/main/java/com/cs407/pinpoint/data/repository/LostItemRepository.kt:99 | two strings each not greater than the other are equal |
| Text.LexLeTransitive | app/src/main/java/com/cs407/pinpoint/data/repository/LostItemRepository.kt:99 | the order is transitive, so the sort key is a total order |
| Text.DecimalString | app/src/main/java/com/cs407/pinpoint/data/repository/LostItemStorageManager.kt:37-38 | the millisecond timestamp in the file name is the decimal rendering of the number: digits that denote it, with no leading zero |
| Text.DecimalStringInjective | app/src/main/java/com/cs407/pinpoint/data/repository/LostItemStorageManager.kt:37-38 | distinct timestamps render as distinct strings |
| DocumentStore.FieldsOf | app/src/main/java/com/cs407/pinpoint/data/repository/LostItemRepository.kt:147 | a point read of a missing document yields no fields; of an existing one, its fields |
| DocumentStore.GetString | app/src/main/java/com/cs407/pinpoint/data/repository/LostItemRepository.kt:79-90 | `getString` throws exactly on a present value that is neither a string nor null, and yields the text exactly when the value is a string |
| DocumentStore.GetDouble | app/src/main/java/com/cs407/pinpoint/data/repository/LostItemRepository.kt:91-92 | `getDouble` throws exactly on a present value that is neither a number nor null, and yields a number exactly when one is stored |
| DocumentStore.GetBoolean | app/src/main/java/com/cs407/pinpoint/ui/screens/LoginPage.kt:97 | `getBoolean` throws exactly on a present non-boolean, non-null value, and yields `true` exactly when the field holds `true` |
| DocumentStore.WhereEqualTo | app/src/main/java/com/cs407/pinpoint/data/repository/LostItemRepository.kt:106-108 | the filtered snapshot holds exactly the documents whose field holds that string |
| DocumentStore.WhereEqualToAppend | app/src/main/java/com/cs407/pinpoint/data/repository/LostItemRepository.kt:106-108 | the filter keeps snapshot order: the filter of a concatenation is the concatenation of the filtered parts |
| DocumentStore.WhereEqualToCount | app/src/main/java/com/cs407/pinpoint/data/repository/LostItemRepository.kt:106-108 | each matching document is kept as often as it occurs, and every other document is dropped |
| LostItemRepository.FormatDate | app/src/main/java/com/cs407/pinpoint/data/repository/LostItemRepository.kt:24-33 | a timestamp is formatted, a string passes through unchanged, anything else (including absent) becomes "" |
| LostItemRepository.DecodeSucceedsIffWellTyped | app/src/main/java/com/cs407/pinpoint/data/repository/LostItemRepository.kt:75-97 | the per-document decode fails (the document is dropped, or `getItemById` returns null) exactly when a typed read meets a value of the wrong type |
| LostItemRepository.DecodeDefaults | app/src/main/java/com/cs407/pinpoint/data/repository/LostItemRepository.kt:77-93 | unset fields read "" (status "Lost", coordinates 0.0); the record id is the document id |
| LostItemRepository.DecodeCopiesValues | app/src/main/java/com/cs407/pinpoint/data/repository/LostItemRepository.kt:77-93 | every stored string and number is copied into the record unchanged |
| LostItemRepository.ReadsAgree | app/src/main/java/com/cs407/pinpoint/data/repository/LostItemRepository.kt:79-92 | a typed read depends only on the raw value of its own field |
| LostItemRepository.DecodeFrame | app/src/main/java/com/cs407/pinpoint/data/repository/LostItemRepository.kt:77-93 | the decode depends on the document id and the fourteen fields it reads, and on nothing else |
| LostItemRepository.DecodeIgnoresContactInfo | app/src/main/java/com/cs407/pinpoint/data/repository/LostItemRepository.kt:77-93 | whatever `contactInfo` holds, the decoded record has the default: the repository never reads it |
| LostItemRepository.DecodeEmptyDocument | app/src/main/java/com/cs407/pinpoint/data/repository/LostItemRepository.kt:146-165 | a document with no fields decodes to the all-defaults record |
| LostItemRepository.DecodeAllAppend | app/src/main/java/com/cs407/pinpoint/data/repository/LostItemRepository.kt:75-97 | `mapNotNull` over a concatenation is the concatenation of the parts, so snapshot order is kept |
| LostItemRepository.DecodeAllSingleton | app/src/main/java/com/cs407/pinpoint/data/repository/LostItemRepository.kt:75-97 | one document contributes its record or nothing |
| LostItemRepository.DecodeAllDropsUndecodable | app/src/main/java/com/cs407/pinpoint/data/repository/LostItemRepository.kt:94-96 | a document whose decode throws is dropped and its neighbours stay, in order |
| LostItemRepository.DecodeAllMembers | app/src/main/java/com/cs407/pinpoint/data/repository/LostItemRepository.kt:75-97 | a record is emitted exactly when some document of the snapshot decodes to it |
| LostItemRepository.InsertByDateCount | app/src/main/java/com/cs407/pinpoint/data/repository/LostItemRepository.kt:99 | inserting into the sorted list adds exactly that item |
| LostItemRepository.InsertByDateSorted | app/src/main/java/com/cs407/pinpoint/data/repository/LostItemRepository.kt:99 | inserting keeps the list sorted by date descending |
| LostItemRepository.InsertByDateWithDate | app/src/main/java/com/cs407/pinpoint/data/repository/LostItemRepository.kt:99 | the item is placed before every item of the list that has the same date, which is what keeps the sort stable when the snapshot's head is inserted last |
| LostItemRepository.SortByDatePostedSorted | app/src/main/java/com/cs407/pinpoint/data/repository/LostItemRepository.kt:99 | `sortedByDescending { datePosted }` yields a list non-increasing in the date string |
| LostItemRepository.SortByDatePostedPermutes | app/src/main/java/com/cs407/pinpoint/data/repository/LostItemRepository.kt:99 | the sort is a permutation: nothing is added or lost |
| LostItemRepository.SortByDatePostedStable | app/src/main/java/com/cs407/pinpoint/data/repository/LostItemRepository.kt:99 | the sort is stable: items with equal dates keep their snapshot order |
| LostItemRepository.SnapshotItemsSpec | app/src/main/java/com/cs407/pinpoint/data/repository/LostItemRepository.kt:75-100 | one emission is the decodable records of the snapshot, sorted, stable and a permutation of them |
| LostItemRepository.QueryItemsFrom | app/src/main/java/com/cs407/pinpoint/data/repository/LostItemRepository.kt:106-141 | every record a filtered stream emits comes from a document whose filtered field holds the value |
| LostItemRepository.ItemsByStateMatch | app/src/main/java/com/cs407/pinpoint/data/repository/LostItemRepository.kt:106-144 | every record of `getItemsByState(state)` has that state; a listener error closes the stream with it |
| LostItemRepository.ItemsByOwnerMatch | app/src/main/java/com/cs407/pinpoint/data/repository/LostItemRepository.kt:174-212 | every record of `getItemsByOwnerId(ownerId)` has that owner; a listener error closes the stream with it |
| LostItemRepository.SubmitPayloadShape | app/src/main/java/com/cs407/pinpoint/data/repository/LostItemRepository.kt:35-57 | the submitted map has exactly thirteen keys (no `storagePath`, `contactInfo` or `id`); a blank status becomes "Lost"; the date is today's; the name falls back to "Anonymous"; no user gives a null owner |
| LostItemRepository.SubmitRoundTrip | app/src/main/java/com/cs407/pinpoint/data/repository/LostItemRepository.kt:35-97 | a submitted item read back is the item with the document id, the caller as owner, the defaulted status, today's date, no storage path and the default contact info |
| LostItemRepository.SubmitPayloadReads | app/src/main/java/com/cs407/pinpoint/data/repository/LostItemRepository.kt:43-57 | the raw value each decode read finds in a submitted map |
| LostItemRepository.GetItemByIdMissing | app/src/main/java/com/cs407/pinpoint/data/repository/LostItemRepository.kt:146-169 | a missing id is not reported as missing: it reads as the all-defaults record |
| LostItemRepository.GetItemByIdNullIff | app/src/main/java/com/cs407/pinpoint/data/repository/LostItemRepository.kt:146-169 | `getItemById` returns null exactly when the document exists and one of its fields has the wrong type; a failed read ends in that failure |
| LostItemRepository.WithStatusDecodes | app/src/main/java/com/cs407/pinpoint/data/repository/LostItemRepository.kt:228-233 | a status update changes the decoded record's status and nothing else |
| LostItemRepository.LostItemCollection.UpdateStatus | app/src/main/java/com/cs407/pinpoint/data/repository/LostItemRepository.kt:222-238 | `updateStatus` fails with the store's error, or with not-found on a missing document, leaving the collection alone; otherwise only that document's status changes |
| LostItemRepository.LostItemCollection.DeleteItem | app/src/main/java/com/cs407/pinpoint/data/repository/LostItemRepository.kt:215-220 | `deleteItem` removes exactly that id (deleting a missing document succeeds) or reports the store's failure and changes nothing |
| LostItemStorageManager.ImagePathUnderOwner | app/src/main/java/com/cs407/pinpoint/data/repository/LostItemStorageManager.kt:36-42 | the uploaded image lives in the caller's folder, under the item's id, as `image_<millis>.jpg` |
| LostItemStorageManager.ImagePathInjective | app/src/main/java/com/cs407/pinpoint/data/repository/LostItemStorageManager.kt:36-42 | two uploads for the same owner and item at different milliseconds get different paths |
| LostItemStorageManager.DeleteBlob | app/src/main/java/com/cs407/pinpoint/data/repository/LostItemStorageManager.kt:99-103 | a blob delete succeeds exactly when no failure is injected and an object is at the path, and then removes that path only |
| LostItemStorageManager.OwnedIds | app/src/main/java/com/cs407/pinpoint/data/repository/LostItemStorageManager.kt:176-179 | the query holds exactly the documents whose `ownerId` is the caller's uid |
| LostItemStorageManager.NoUserChangesNothing | app/src/main/java/com/cs407/pinpoint/data/repository/LostItemStorageManager.kt:33-34 | with no one signed in, each of the three workflows fails "User not authenticated" and changes no store |
| LostItemStorageManager.CreateSucceeds | app/src/main/java/com/cs407/pinpoint/data/repository/LostItemStorageManager.kt:21-75 | `createLostItem` succeeds exactly when every step does; it returns the new id, keeps the uploaded blob and writes one document owned by the caller, with storage path, status "Lost" and empty additional info; other documents are unchanged |
| LostItemStorageManager.CreateFailureWritesNoDocument | app/src/main/java/com/cs407/pinpoint/data/repository/LostItemStorageManager.kt:44-73 | a failed step writes no document; after a successful upload the blob stays behind |
| LostItemStorageManager.CreatedItemDecodes | app/src/main/java/com/cs407/pinpoint/data/repository/LostItemStorageManager.kt:48-69 | a created document read back by the repository yields the request's record, with the caller's name or "Unknown", the formatted creation time and the default contact info |
| LostItemStorageManager.CreatePayloadReads | app/src/main/java/com/cs407/pinpoint/data/repository/LostItemStorageManager.kt:48-64 | the raw value each decode read finds in a created document |
| LostItemStorageManager.NonOwnerChangesNothing | app/src/main/java/com/cs407/pinpoint/data/repository/LostItemStorageManager.kt:88-97 | a caller who is not the document's string `ownerId` gets "Unauthorized" from both image update and delete, and no store changes |
| LostItemStorageManager.MissingDocumentUnauthorized | app/src/main/java/com/cs407/pinpoint/data/repository/LostItemStorageManager.kt:89-97 | a missing document is reported as "Unauthorized", never as missing |
| LostItemStorageManager.OnlyOwnerChangesStores | app/src/main/java/com/cs407/pinpoint/data/repository/LostItemStorageManager.kt:85-166 | any change to either store by image update or delete was made for the signed-in owner of that document |
| LostItemStorageManager.UpdateItemImageOutcome | app/src/main/java/com/cs407/pinpoint/data/repository/LostItemStorageManager.kt:80-129 | on success the new URL is returned, only `imageUrl` and `storagePath` of that document change, and the blobs are the old set without the old path (when the document named one) plus the new path, every other blob kept; on failure no document changes |
| LostItemStorageManager.UpdateItemImageDangling | app/src/main/java/com/cs407/pinpoint/data/repository/LostItemStorageManager.kt:99-111 | no rollback: once the old blob is deleted, a failed upload leaves the document naming a path that holds nothing |
| LostItemStorageManager.DeleteItemOutcome | app/src/main/java/com/cs407/pinpoint/data/repository/LostItemStorageManager.kt:134-166 | on success the blob and then the document are gone and nothing else changed; on any failure, a failed blob delete included, the documents are unchanged |
| LostItemStorageManager.DeleteTwice | app/src/main/java/com/cs407/pinpoint/data/repository/LostItemStorageManager.kt:134-166 | a second delete of a deleted id fails "Unauthorized" and changes nothing |
| LostItemStorageManager.StorageManager.CreateLostItem | app/src/main/java/com/cs407/pinpoint/data/repository/LostItemStorageManager.kt:21-75 | the step-by-step workflow ends in exactly the result and stores `CreateLostItemSpec` gives |
| LostItemStorageManager.StorageManager.ReadOwned | app/src/main/java/com/cs407/pinpoint/data/repository/LostItemStorageManager.kt:85-97 | the read and ownership gate return the document's fields exactly when the caller is its signed-in owner, and the gate's failure otherwise |
| LostItemStorageManager.StorageManager.DeleteBlobAt | app/src/main/java/com/cs407/pinpoint/data/repository/LostItemStorageManager.kt:101-103 | the blob delete step changes the blobs as `DeleteBlob` says and nothing else |
| LostItemStorageManager.StorageManager.UpdateItemImage | app/src/main/java/com/cs407/pinpoint/data/repository/LostItemStorageManager.kt:80-129 | the workflow ends in exactly the result and stores `UpdateItemImageSpec` gives |
| LostItemStorageManager.StorageManager.DeleteItem | app/src/main/java/com/cs407/pinpoint/data/repository/LostItemStorageManager.kt:134-166 | the workflow ends in exactly the result and stores `DeleteItemSpec` gives |
| LostItemStorageManager.StorageManager.GetUserItems | app/src/main/java/com/cs407/pinpoint/data/repository/LostItemStorageManager.kt:171-189 | with a signed-in caller and no failure, one map per owned document, each with its id added, every owned document once; otherwise the auth or query failure |
| HomeViewModel.KeepCityAppend | app/src/main/java/com/cs407/pinpoint/ui/viewModels/HomeViewModel.kt:54-56 | the city filter of a concatenation filters each part, in order |
| HomeViewModel.KeepCityCount | app/src/main/java/com/cs407/pinpoint/ui/viewModels/HomeViewModel.kt:54-56 | the filter keeps each matching item as often as it occurs and drops all others |
| HomeViewModel.FilterByCitySpec | app/src/main/java/com/cs407/pinpoint/ui/viewModels/HomeViewModel.kt:53-59 | a blank city passes the list through; otherwise exactly the items whose trimmed city equals the trimmed query, ignoring case, as often as in the input and in order |
| HomeViewModel.FilterByCityTrims | app/src/main/java/com/cs407/pinpoint/ui/viewModels/HomeViewModel.kt:53-56 | surrounding whitespace in the query does not change the result |
| HomeViewModel.KeepCityTrims | app/src/main/java/com/cs407/pinpoint/ui/viewModels/HomeViewModel.kt:55 | the filter sees only the trimmed query |
| HomeViewModel.FilteredItemsMatch | app/src/main/java/com/cs407/pinpoint/ui/viewModels/HomeViewModel.kt:46-62 | every item shown after filtering is in the chosen state and, for a non-blank city, in that city |
| HomeViewModel.HomeViewModel.constructor | app/src/main/java/com/cs407/pinpoint/ui/viewModels/HomeViewModel.kt:25-32 | construction starts the load: loading, no error, no items |
| HomeViewModel.HomeViewModel.LoadAllItems | app/src/main/java/com/cs407/pinpoint/ui/viewModels/HomeViewModel.kt:29-32 | the load's start: loading and no error, the items kept |
| HomeViewModel.HomeViewModel.Refresh | app/src/main/java/com/cs407/pinpoint/ui/viewModels/HomeViewModel.kt:70-72 | refresh starts the same load |
| HomeViewModel.HomeViewModel.OnAllItems | app/src/main/java/com/cs407/pinpoint/ui/viewModels/HomeViewModel.kt:35-42 | an emission shows that list; a stream failure shows its message or "Failed to load items"; loading ends either way |
| HomeViewModel.HomeViewModel.FilterByLocation | app/src/main/java/com/cs407/pinpoint/ui/viewModels/HomeViewModel.kt:46-49 | the filter's start: loading and no error |
| HomeViewModel.HomeViewModel.OnStateItems | app/src/main/java/com/cs407/pinpoint/ui/viewModels/HomeViewModel.kt:52-66 | an emission shows its city-filtered list; a failure shows its message or "Failed to filter items"; loading ends |
| ItemPageViewModel.LoadedItem | app/src/main/java/com/cs407/pinpoint/ui/viewModels/ItemPageViewModel.kt:31-34 | a loaded record replaces the shown item; null or a throw keeps it |
| ItemPageViewModel.LoadError | app/src/main/java/com/cs407/pinpoint/ui/viewModels/ItemPageViewModel.kt:31-39 | null gives "Item not found"; a throw gives its message or "Failed to load item"; a record keeps the error |
| ItemPageViewModel.ItemNotFoundIff | app/src/main/java/com/cs407/pinpoint/ui/viewModels/ItemPageViewModel.kt:31-36 | against the point read: a missing id shows the all-defaults record with no error, and "Item not found" appears exactly when the document exists with a wrongly typed field |
| ItemPageViewModel.ItemPageViewModel.LoadItem | app/src/main/java/com/cs407/pinpoint/ui/viewModels/ItemPageViewModel.kt:25-28 | the load's start: loading and no error |
| ItemPageViewModel.ItemPageViewModel.OnItemLoaded | app/src/main/java/com/cs407/pinpoint/ui/viewModels/ItemPageViewModel.kt:30-41 | the item and error become `LoadedItem` and `LoadError` of the result, and loading ends on every path |
| ItemViewModel.Project | app/src/main/java/com/cs407/pinpoint/ui/viewModels/ItemViewModel.kt:60-74 | the projection keeps length and order, element by element |
| ItemViewModel.ProjectFields | app/src/main/java/com/cs407/pinpoint/ui/viewModels/ItemViewModel.kt:60-74 | each shown entry copies id, name, location, date, image, city, state and coordinates, takes `user` from `userName`, and has type "Lost" |
| ItemViewModel.WithoutIdCount | app/src/main/java/com/cs407/pinpoint/ui/viewModels/ItemViewModel.kt:89 | removal drops every entry with that id and keeps every other entry as often as it occurs |
| ItemViewModel.WithoutIdAppend | app/src/main/java/com/cs407/pinpoint/ui/viewModels/ItemViewModel.kt:89 | removal from a concatenation removes from each part, keeping order |
| ItemViewModel.WithoutIdIdempotent | app/src/main/java/com/cs407/pinpoint/ui/viewModels/ItemViewModel.kt:101 | removing the same id twice is removing it once |
| ItemViewModel.RemovalCommutesWithProjection | app/src/main/java/com/cs407/pinpoint/ui/viewModels/ItemViewModel.kt:60-101 | removing from the shown list equals projecting the records without that id |
| ItemViewModel.ItemViewModel.LoadItemsForUser | app/src/main/java/com/cs407/pinpoint/ui/viewModels/ItemViewModel.kt:49-54 | a null owner changes nothing; otherwise loading starts with no error |
| ItemViewModel.ItemViewModel.OnOwnerItems | app/src/main/java/com/cs407/pinpoint/ui/viewModels/ItemViewModel.kt:57-81 | an emission shows its projection; a failure shows its message or "Failed to load items"; loading ends |
| ItemViewModel.ItemViewModel.MarkAsFound | app/src/main/java/com/cs407/pinpoint/ui/viewModels/ItemViewModel.kt:86-94 | the entry leaves the list and nothing else changes: there is no store call |
| ItemViewModel.ItemViewModel.DeletePost | app/src/main/java/com/cs407/pinpoint/ui/viewModels/ItemViewModel.kt:99-101 | the entry leaves the list before the store answers |
| ItemViewModel.ItemViewModel.OnDeleteCompleted | app/src/main/java/com/cs407/pinpoint/ui/viewModels/ItemViewModel.kt:104-115 | success clears the error; failure shows its message or "Failed to delete item"; the removed entry is not restored |
| MapViewModel.WithMode | app/src/main/java/com/cs407/pinpoint/ui/viewModels/MapViewModel.kt:96-106 | a mode change changes the mode and nothing else |
| MapViewModel.IndexOf | app/src/main/java/com/cs407/pinpoint/ui/viewModels/MapViewModel.kt:121 | the first occurrence of a marker |
| MapViewModel.RemoveFirstSpec | app/src/main/java/com/cs407/pinpoint/ui/viewModels/MapViewModel.kt:119-123 | `remove` takes out exactly the first occurrence, or nothing when absent, and keeps the rest in order |
| MapViewModel.AddMarkerKeepsNoDuplicates | app/src/main/java/com/cs407/pinpoint/ui/viewModels/MapViewModel.kt:108-117 | adding keeps the markers duplicate-free, appends only a new position, and leaves normal mode |
| MapViewModel.RemoveMarkerKeepsNoDuplicates | app/src/main/java/com/cs407/pinpoint/ui/viewModels/MapViewModel.kt:119-123 | removal keeps the list duplicate-free, leaves no copy of the marker, shortens it by one exactly when present, and leaves normal mode |
| MapViewModel.EditsKeepNoDuplicates | app/src/main/java/com/cs407/pinpoint/ui/viewModels/MapViewModel.kt:108-123 | any sequence of adds and removes keeps a duplicate-free list duplicate-free |
| MapViewModel.FromEmptyNoDuplicates | app/src/main/java/com/cs407/pinpoint/ui/viewModels/MapViewModel.kt:22-32 | from the initial state no sequence of edits produces a duplicate marker |
| MapViewModel.FinalLocation | app/src/main/java/com/cs407/pinpoint/ui/viewModels/MapViewModel.kt:64-70 | a received location is kept unless missing or the emulator default, in which case the Madison fallback |
| MapViewModel.LocationGate | app/src/main/java/com/cs407/pinpoint/ui/viewModels/MapViewModel.kt:53-90 | without permission only the error is set and no fetch starts; with it a fetch starts, and its end stops loading and sets either the location or an error, never touching markers or mode |
| MapViewModel.MapViewModel.constructor | app/src/main/java/com/cs407/pinpoint/ui/viewModels/MapViewModel.kt:32-38 | the default state, no selection |
| MapViewModel.MapViewModel.GetCurrentLocation | app/src/main/java/com/cs407/pinpoint/ui/viewModels/MapViewModel.kt:53-60 | the synchronous part follows `RequestLocation` |
| MapViewModel.MapViewModel.OnLocationResult | app/src/main/java/com/cs407/pinpoint/ui/viewModels/MapViewModel.kt:63-88 | the listener follows `LocationDone` |
| MapViewModel.MapViewModel.UpdateLocationPermission | app/src/main/java/com/cs407/pinpoint/ui/viewModels/MapViewModel.kt:92-94 | only the permission flag changes |
| MapViewModel.MapViewModel.EnterAddMarkerMode | app/src/main/java/com/cs407/pinpoint/ui/viewModels/MapViewModel.kt:96-98 | only the mode changes, to add |
| MapViewModel.MapViewModel.EnterDeleteMarkerMode | app/src/main/java/com/cs407/pinpoint/ui/viewModels/MapViewModel.kt:100-102 | only the mode changes, to delete |
| MapViewModel.MapViewModel.ExitMode | app/src/main/java/com/cs407/pinpoint/ui/viewModels/MapViewModel.kt:104-106 | only the mode changes, to normal |
| MapViewModel.MapViewModel.AddMarker | app/src/main/java/com/cs407/pinpoint/ui/viewModels/MapViewModel.kt:108-117 | `addMarker` follows `AddMarkerTo` and keeps the markers duplicate-free |
| MapViewModel.MapViewModel.RemoveMarker | app/src/main/java/com/cs407/pinpoint/ui/viewModels/MapViewModel.kt:119-123 | `removeMarker` follows `RemoveMarkerFrom`, keeps the list duplicate-free and leaves no copy of the marker |
| MapViewModel.MapViewModel.SelectMarker | app/src/main/java/com/cs407/pinpoint/ui/viewModels/MapViewModel.kt:125-127 | only the selection changes |
| MapViewModel.MapViewModel.ClearSelection | app/src/main/java/com/cs407/pinpoint/ui/viewModels/MapViewModel.kt:129-131 | only the selection is cleared |
| MapScreen.PermissionGranted | app/src/main/java/com/cs407/pinpoint/ui/screens/MapScreen.kt:44-47 | granted exactly when fine or coarse location was granted, a missing answer counting as denied |
| MapScreen.MapClickByMode | app/src/main/java/com/cs407/pinpoint/ui/screens/MapScreen.kt:101-109 | a map tap adds the position in add mode, leaves delete mode with the markers unchanged, and clears the selection in normal mode |
| MapScreen.MarkerClickByMode | app/src/main/java/com/cs407/pinpoint/ui/screens/MapScreen.kt:133-149 | a marker tap removes the marker in delete mode and otherwise selects it with the map state unchanged |
| MapScreen.RecenterSpec | app/src/main/java/com/cs407/pinpoint/ui/screens/MapScreen.kt:168-179 | recenter clears the selection and returns to normal mode, changing nothing else |
| MapScreen.PermissionResultSpec | app/src/main/java/com/cs407/pinpoint/ui/screens/MapScreen.kt:43-53 | the stored flag is whether fine or coarse location was granted, and a fetch is requested exactly then |
| MapScreen.OnMapClick | app/src/main/java/com/cs407/pinpoint/ui/screens/MapScreen.kt:101-109 | the map-tap callback acts on the view model as `MapClick` says and keeps it valid |
| MapScreen.OnMarkerClick | app/src/main/java/com/cs407/pinpoint/ui/screens/MapScreen.kt:133-150 | the marker callback acts as `MarkerClick` says and consumes the click |
| MapScreen.OnAddMarkerButton | app/src/main/java/com/cs407/pinpoint/ui/screens/MapScreen.kt:162 | the add button enters add mode |
| MapScreen.OnDeleteMarkerButton | app/src/main/java/com/cs407/pinpoint/ui/screens/MapScreen.kt:165 | the delete button enters delete mode |
| MapScreen.OnRecenter | app/src/main/java/com/cs407/pinpoint/ui/screens/MapScreen.kt:168-179 | the recenter button acts as `Recenter` says |
| MapScreen.OnPermissionResult | app/src/main/java/com/cs407/pinpoint/ui/screens/MapScreen.kt:43-53 | the permission callback acts as `PermissionResult` says |
| UploadViewModel.Increment | app/src/main/java/com/cs407/pinpoint/ui/viewModels/UploadViewModel.kt:55 | `eventId + 1` on a 32-bit `Int`, which wraps from the largest value to the smallest |
| UploadViewModel.IncrementChanges | app/src/main/java/com/cs407/pinpoint/ui/viewModels/UploadViewModel.kt:55 | the counter always changes, and distinct counters stay distinct |
| UploadViewModel.ValidationSpec | app/src/main/java/com/cs407/pinpoint/ui/viewModels/UploadViewModel.kt:44-69 | a submission passes exactly when the five fields are non-blank and there is a photo; a blank field is reported first; contact info and coordinates are never checked |
| UploadViewModel.OneEventPerSubmission | app/src/main/java/com/cs407/pinpoint/ui/viewModels/UploadViewModel.kt:51-116 | every submission bumps `eventId` exactly once, at its end, and stops uploading; the start step keeps the counter; at the end exactly one of error and success message is set |
| UploadViewModel.UploadMessages | app/src/main/java/com/cs407/pinpoint/ui/viewModels/UploadViewModel.kt:80-109 | against `createLostItem`: with no one signed in the error shown is "User not authenticated"; when every step succeeds the success message shows |
| UploadViewModel.UploadViewModel.constructor | app/src/main/java/com/cs407/pinpoint/ui/viewModels/UploadViewModel.kt:23-27 | the default state, no location picked |
| UploadViewModel.UploadViewModel.SubmitLostItem | app/src/main/java/com/cs407/pinpoint/ui/viewModels/UploadViewModel.kt:33-76 | a failed validation ends the submission; a passed one starts the upload and hands on the request |
| UploadViewModel.UploadViewModel.OnCreateCompleted | app/src/main/java/com/cs407/pinpoint/ui/viewModels/UploadViewModel.kt:92-117 | the completion follows `Completed`: success, a returned failure or a thrown exception |
| UploadViewModel.UploadViewModel.OnMapClick | app/src/main/java/com/cs407/pinpoint/ui/viewModels/UploadViewModel.kt:121-123 | only the picked location changes |
| SignUp.SignUpValidationOrder | app/src/main/java/com/cs407/pinpoint/ui/screens/SignUp.kt:230-236 | each message appears exactly when the earlier rules pass and its own fails: email, username, password blank, length below 6, mismatch; the sign-up starts exactly when all pass |
| SignUp.WhitespacePasswordIsEmpty | app/src/main/java/com/cs407/pinpoint/ui/screens/SignUp.kt:233-234 | a whitespace-only password of any length is reported as empty, not as too short; an accepted password has at least 6 characters and one non-whitespace character |
| SignUp.SignUpFailureMessageSpec | app/src/main/java/com/cs407/pinpoint/ui/screens/SignUp.kt:262-268 | a taken address and then a malformed address get their own messages; any other failure shows its message, or "Sign up failed" without one |
| SignUp.ProfileFailureMessage | app/src/main/java/com/cs407/pinpoint/ui/screens/SignUp.kt:254-257 | "Failed to set username: " followed by the message, or by "null" when it has none |
| SignUp.GoogleSignUpSpec | app/src/main/java/com/cs407/pinpoint/ui/screens/SignUp.kt:97-119 | only a completed credential sign-in moves on; only a cancelled picker leaves loading on; only the two failures change the error |
| SignUp.SignUpForm.constructor | app/src/main/java/com/cs407/pinpoint/ui/screens/SignUp.kt:75-80 | empty fields, no error, not loading |
| SignUp.SignUpForm.OnEmailChange | app/src/main/java/com/cs407/pinpoint/ui/screens/SignUp.kt:183 | only the email changes |
| SignUp.SignUpForm.OnUsernameChange | app/src/main/java/com/cs407/pinpoint/ui/screens/SignUp.kt:194 | only the username changes |
| SignUp.SignUpForm.OnPasswordChange | app/src/main/java/com/cs407/pinpoint/ui/screens/SignUp.kt:205 | only the password changes |
| SignUp.SignUpForm.OnConfirmPasswordChange | app/src/main/java/com/cs407/pinpoint/ui/screens/SignUp.kt:217 | only the confirmation changes |
| SignUp.SignUpForm.OnSignUpClick | app/src/main/java/com/cs407/pinpoint/ui/screens/SignUp.kt:228-241 | a failed rule shows its message and nothing else changes; otherwise loading starts, the error clears and the account is created with the email and password |
| SignUp.SignUpForm.OnCreateFailed | app/src/main/java/com/cs407/pinpoint/ui/screens/SignUp.kt:259-268 | loading stops and the mapped message shows |
| SignUp.SignUpForm.OnCreateSucceeded | app/src/main/java/com/cs407/pinpoint/ui/screens/SignUp.kt:242-248 | the profile update is sent with the username exactly when the result has a user |
| SignUp.SignUpForm.OnProfileUpdated | app/src/main/java/com/cs407/pinpoint/ui/screens/SignUp.kt:249-257 | loading stops; success moves on; failure shows the profile message |
| SignUp.SignUpForm.OnGoogleResult | app/src/main/java/com/cs407/pinpoint/ui/screens/SignUp.kt:97-119 | the Google callback follows `GoogleSignUpEnd` |
| LoginPage.LoginValidationOrder | app/src/main/java/com/cs407/pinpoint/ui/screens/LoginPage.kt:234-238 | each message appears exactly when the earlier rules pass and its own fails: email blank, email not valid, password blank; the sign-in starts exactly when all pass |
| LoginPage.LoginFailureMessageSpec | app/src/main/java/com/cs407/pinpoint/ui/screens/LoginPage.kt:251-261 | an unknown user, a rejected credential or a wrong password gives "Invalid email or password", ahead of the network and rate messages; otherwise the message, or "Login failed" |
| LoginPage.ValidInputEnablesButton | app/src/main/java/com/cs407/pinpoint/ui/screens/LoginPage.kt:234-270 | input that passes validation enables the button when nothing loads; the converse fails: a whitespace-only email enables it and is then rejected as empty |
| LoginPage.GoogleAccountActive | app/src/main/java/com/cs407/pinpoint/ui/screens/LoginPage.kt:96-97 | the account check passes exactly when the user document exists and `isActive` is `true` |
| LoginPage.GoogleLoginSpec | app/src/main/java/com/cs407/pinpoint/ui/screens/LoginPage.kt:78-132 | the Google login goes through exactly when the user document exists with `isActive` true; a missing or inactive document shows "Account not found. Please sign up first." and removes the account; only a finished check removes it |
| LoginPage.LoginForm.constructor | app/src/main/java/com/cs407/pinpoint/ui/screens/LoginPage.kt:50-53 | empty fields, no error, not loading |
| LoginPage.LoginForm.OnEmailChange | app/src/main/java/com/cs407/pinpoint/ui/screens/LoginPage.kt:199-202 | the new email, and the error cleared |
| LoginPage.LoginForm.OnPasswordChange | app/src/main/java/com/cs407/pinpoint/ui/screens/LoginPage.kt:219-222 | the new password, and the error cleared |
| LoginPage.LoginForm.OnLoginClick | app/src/main/java/com/cs407/pinpoint/ui/screens/LoginPage.kt:233-243 | a failed rule shows its message and nothing else changes; otherwise loading starts, the error clears and the sign-in is made |
| LoginPage.LoginForm.OnSignInCompleted | app/src/main/java/com/cs407/pinpoint/ui/screens/LoginPage.kt:244-261 | loading stops; success moves on; failure shows the mapped message |
| LoginPage.LoginForm.OnGoogleResult | app/src/main/java/com/cs407/pinpoint/ui/screens/LoginPage.kt:78-132 | the Google callback ends as `GoogleLoginEnd` says, not loading wherever it finishes |
| ItemPageViewModel.ItemPageViewModel.constructor | app/src/main/java/com/cs407/pinpoint/ui/viewModels/ItemPageViewModel.kt:15-23 | no item, not loading, no error |
| ItemViewModel.ItemViewModel.constructor | app/src/main/java/com/cs407/pinpoint/ui/viewModels/ItemViewModel.kt:35-45 | an empty list, not loading, no error |
| LostItemRepository.LostItemCollection.constructor | app/src/main/java/com/cs407/pinpoint/data/repository/LostItemRepository.kt:18 | the collection starts with the documents it is given |
| LostItemStorageManager.StorageManager.constructor | app/src/main/java/com/cs407/pinpoint/data/repository/LostItemStorageManager.kt:14-16 | the manager starts over the given documents, blobs and current user |

## Left out

- Firebase plumbing: snapshot listeners, `callbackFlow`, Task listeners and `await`. The stores are in-memory maps and sets. Each step's failure is an explicit input, and each listener callback is one synchronous event.
- Concurrency: overlapping collectors, cancellation and interleavings. For example, `filterByLocation` and `refresh` start a new collect beside the old one. Events are modelled one at a time, in sequence.
- Date formatting (`SimpleDateFormat`), `Timestamp.now()`, `UUID.randomUUID()` and `System.currentTimeMillis()` are inputs: a format function, a timestamp, an item id and a millisecond count.
- Image contents and URIs: the blob store is the set of occupied paths. The download URL is an input of the URL step.
- `StorageReference.path` is modelled without its leading `/`. The stored `storagePath` and the deleted path are the same value either way.
- LostItemRepository.SubmitPayloadShape: the return value of `submitLostItem` is not modelled. The write's listener runs after the function returns, so the result cannot depend on it. Only the payload is modelled.
- The floating-point test `isGoogleDefault` is an input flag, and the Madison fallback's coordinates are constants. Coordinates are `real` values compared by equality. NaN and -0.0 are not modelled. Marker titles and ItemPage's coordinate fallback are presentation.
- `Patterns.EMAIL_ADDRESS` is an input flag of the login validation.
- Text.EqualsIgnoreCase: case folding covers ASCII letters only, not the full Unicode folding Kotlin applies. `char` is a Unicode scalar value, not a UTF-16 unit, so lengths and `compareTo` differ from Kotlin's for characters outside the Basic Multilingual Plane.
- `user.delete()` and `signOut()` after a failed account check are recorded only as the `accountRemoved` flag of the Google login's end. Google Sign-In's own steps are the outcomes of the flow.
- LoginPage.LoginForm.OnGoogleResult: a `getBoolean` throw inside the document listener is modelled as an `Uncaught` end that leaves the page loading. What the platform does with the exception is not modelled.
- UploadViewModel.UploadViewModel.OnCreateCompleted: the `catch` branch is reachable only through an exception that `createLostItem` throws instead of returning a failure. Such exceptions are an input here.
- LostItemStorageManager.StorageManager.GetUserItems: the order of the returned maps is not stated. Without an `orderBy` the store returns documents in document-id order, but the model's store is a map, so it does not give one. No caller depends on that order. The branch where `doc.data` is null is not modelled, as a query result always has data.
- `getCurrentLocation`'s client setup (`initializeLocationClient`) and the map camera, snackbars and other Compose layout are presentation.
- Document ids are taken to be valid single path segments: non-empty and free of `/`. The model reads any string as a document id. For `""` or an id containing `/`, `document(itemId)` throws. In `getItemById` and in the callback-style `deleteItem` and `updateItemStatus` the throw happens outside any `try`, and this is not modelled. The model instead reads such an id as a missing document. In the storage manager and `updateStatus` the throw falls inside the `try`, so it is covered only by the injected read or store failure. Ids that come from snapshots always have the valid form.
- The messages of `DocumentNotFound` and `ObjectNotFound` are simplified. The store's not-found message names the full document path, not the bare id. No part of the core reads these messages.
- A `storagePath` holding `""` makes `storage.reference.child("")` throw before any delete. The model instead fails the delete with `ObjectNotFound("")`. Either way the call fails and no store changes, since `""` is never an occupied blob path.
- The superseded submit path (`LostItemsViewModel.kt`, `UploadPage.kt`), the navigation graph, the settings and user pages and the theme files are not part of this model.
- The sign-up and login pages keep their state in Compose `remember` variables. These are modelled as the fields of a class, one class per page.
