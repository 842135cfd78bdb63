# bandshare client rules, modelled in Dafny

bandshare is a small invite-only file and link sharing client for a band. It runs on a hosted
document store, file storage and authentication. This project models the rules the client
applies on top of those services and proves properties about them:

- **Feed synchronizer** (`FileList`). The state is the feed `uploads`, `lastDoc`, `hasMore` and
  `loading`. A first page of 20 items is followed by cursor pagination. A tail listener
  front-inserts newly added documents whose id is not yet listed. The type/date filter is a
  derived view.
- **Profile name cache** (`UserProfileHook`). It is a process-wide map from uid to
  (displayName, timestamp) with a five-minute time-to-live. It serves:
  - the signed-in user's hook (single resolve with `forceRefresh` and a one-second
    duplicate-fetch guard, overwrite, delete);
  - the batch resolver;
  - the per-card name hook.
- **File card** (`FileCard`).
  - The reaction toggle: five counters plus one active emoji per user, with switch, toggle-off
    and add.
  - Who may delete a card: the delete button, its confirm dialog, and the delete steps with
    best-effort storage cleanup.
  - The type-config fallback and the displayed counter.
- **Upload form** (`UploadForm`).
  - Extension-based type classification and the per-type size limits.
  - The records a file or a link upload adds.
  - The link-preview trigger and state.
- **Access gate** (`AccessGate`). This covers invite redemption, the allowlist decision on
  every auth-state change, and the choice of screen.
- **Profile editor** (`UserProfile`). This covers nickname trimming and validation, the save
  with its write and read-back, and the five-second local cache of the loaded nickname.
- **Link preview** (`UrlPreview`).
  - The metadata precedence for title, description, image and siteName.
  - The YouTube, Spotify and SoundCloud special cases and the error fallbacks.
  - The `extractYouTubeId` regular expression, modelled in full. The preview uses it as
    written; a corrected extractor and the preview built on it sit beside them.
  - The `isImageUrl`/`isVideoUrl` patterns.

How services are represented:

- **Store reads are inputs.** A fetched page is a `Fetch`, and a profile read is a `Lookup`.
  The allowlist read is an ok-flag. A parsed web page is its meta-tag map plus the `<title>`
  text. `new URL(...)` becomes an optional hostname.
- **Store writes are effects on model state.** Examples are the invite and allowlist maps, the
  stored files and added records of the form, and the editor's profile document.
- **Failures.** A handler whose store calls run in sequence inside one `try` gets
  `failAt: Option<nat>`. This is the index of the first call that throws: earlier calls took
  effect and later ones never ran.
- **Clock.** Wall-clock time is an integer millisecond `now`.
- **Text.** Strings are `seq<char>`. JavaScript's `.length` is modelled as UTF-16 code units
  (`Common.Utf16Length`). `toLowerCase` is ASCII case mapping.

Where the source keeps mutable state, the model is a class with those fields:

- `FileList.Feed`
- `UserProfileHook.ProfileCache`, `ProfileHook`, `DisplayNameHook`
- `FileCard.ReactionButtons`, `DeleteControls`
- `UploadForm.Form`
- `AccessGate.Gate`
- `UserProfile.ProfileEditor`

Each method is proved against a pure function of the old state. The lemmas are stated about
those functions.

Behaviour modelled as the code does it, which a reader may not expect:

- `loadDisplayName`'s successful read returns before `setLoading(false)`, so `loading` stays
  true (`ProfileHook.LoadDisplayName`).
- A failed allowlist write after the invite was marked leaves the invite used up
  (`AccessGate.FailedAllowlistWriteBurnsToken`).
- A denial signs the user out. The sign-out's own null event then resets `isAllowed`, so after
  both events the login screen shows, not the denied one
  (`AccessGate.DenialThenSignOutShowsLogin`).
- Toggling a reaction off never deletes the per-user reaction document. The card's active
  emoji starts empty on every mount.
- `handleLinkUpload` copies whatever preview is currently shown, even one fetched for an
  earlier input.

## Model

| member | source | states |
|---|---|---|
| Common.OrElse | src/services/urlPreview.js:27-30 | JavaScript `a \|\| b` is non-empty exactly when either operand is (a missing one counts as empty), and is one of the two |
| Common.Lower | src/components/UploadForm.js:52 | same length as the input, every character ASCII-lower-cased at its own position |
| Common.LastIndexOf | src/components/UploadForm.js:52 | -1 or a position holding the character, with no later position holding it |
| Common.Utf16Length | src/components/UserProfile.js:63 | `.length` counts between one and two code units per character |
| FileList.FindById | src/components/FileListOptimized.js:80 | finds an item exactly when some listed item has the id, and the item found has that id |
| FileList.AppendPage | src/components/FileListOptimized.js:110 | the old list stays intact as the prefix and the page follows it |
| FileList.InsertIfAbsent | src/components/FileListOptimized.js:79-82 | the tail insert; the `Insert*` lemmas below state it |
| FileList.InsertPresentUnchanged | src/components/FileListOptimized.js:79-80 | a document whose id is already listed leaves the list unchanged |
| FileList.InsertAbsentAtFront | src/components/FileListOptimized.js:81 | a new id becomes element 0 and the old list follows, shifted by one |
| FileList.InsertKeepsDistinct | src/components/FileListOptimized.js:79-82 | the tail insert preserves "no two items share an id" |
| FileList.InsertTwiceIsInsertOnce | src/components/FileListOptimized.js:79-82 | delivering the same added document twice is the same as delivering it once |
| FileList.ApplyChanges | src/components/FileListOptimized.js:71-84 | a snapshot's changes in order; the `Changes*` lemmas and `OnlyAdditionsMatter` state it |
| FileList.ChangesKeepDistinct | src/components/FileListOptimized.js:71-84 | a whole snapshot's changes preserve distinct ids |
| FileList.ChangesKeepOldSuffix | src/components/FileListOptimized.js:71-84 | the items held before a snapshot remain, in order, as the list's tail |
| FileList.ChangesOnlyAddAdded | src/components/FileListOptimized.js:71-83 | every listed item after a snapshot was listed before or is one of its added documents |
| FileList.OnlyAdditionsMatter | src/components/FileListOptimized.js:72 | a snapshot of only modifications and removals leaves the list unchanged |
| FileList.TailUpdate | src/components/FileListOptimized.js:69-86 | the snapshot callback; `TailGuard`, `StaleGuardIgnoresTail` and `TailInsertsNewUpload` state it |
| FileList.TailGuard | src/components/FileListOptimized.js:70 | the handler applies the changes exactly when the guard flag is false and no write is pending |
| FileList.StaleGuardIgnoresTail | src/components/FileListOptimized.js:69-70 | as written, the closure reads the first render's `true`, so a new upload never enters the list |
| FileList.TailInsertsNewUpload | src/components/FileListOptimized.js:70-82 | with the current flag (false after the first page), a new upload is front-inserted |
| FileList.TailKeepsNewestFirst | src/components/FileListOptimized.js:79-82 | inserting a document no older than any listed keeps the list newest-first |
| FileList.AppendKeepsDistinct | src/components/FileListOptimized.js:97-112 | a page of fresh ids after the cursor keeps ids distinct |
| FileList.AppendKeepsNewestFirst | src/components/FileListOptimized.js:97-112 | an older newest-first page appended to a newest-first list keeps it newest-first |
| FileList.ApplyFilter | src/components/FileListOptimized.js:119-137 | the filter pipeline; `FilterIsKeepMatching` and `FilterSpec` state it |
| FileList.KeepMatching | src/components/FileListOptimized.js:119-136 | the one-pass reference filter; `KeepMatchingMembers` and `KeepMatchingIsSubsequence` state it |
| FileList.ByTypeThenDate | src/components/FileListOptimized.js:122-134 | the type-then-date pipeline equals the one-pass reference filter |
| FileList.ByTypeIsKeepMatching | src/components/FileListOptimized.js:123-125 | the type stage alone equals the reference filter when the date range is 'all' |
| FileList.ByDateIsKeepMatching | src/components/FileListOptimized.js:128-134 | the date stage alone equals the reference filter when the type is 'all' |
| FileList.KeepMatchingAll | src/components/FileListOptimized.js:120 | with type and date range both 'all', the view is the whole list |
| FileList.FilterIsKeepMatching | src/components/FileListOptimized.js:119-136 | the effect's filter is the one-pass reference filter in every case |
| FileList.KeepMatchingMembers | src/components/FileListOptimized.js:119-136 | the reference filter keeps an item exactly when it is listed and matches |
| FileList.KeepMatchingIsSubsequence | src/components/FileListOptimized.js:119-136 | the reference filter's result is a subsequence of its input |
| FileList.FilterSpec | src/components/FileListOptimized.js:119-137 | the view is a subsequence of `uploads` holding exactly the matching items: the right type unless 'all', a timestamp strictly after the cutoff unless 'all', pending ones dropped |
| FileList.Feed.constructor | src/components/FileListOptimized.js:19-24 | the initial state: empty lists, no cursor, not loading, `hasMore`, initial load pending |
| FileList.Feed.BeginInitialLoad | src/components/FileListOptimized.js:34 | loading is set and the feed stays valid |
| FileList.Feed.FinishInitialLoad | src/components/FileListOptimized.js:42-58 | after a read, `uploads` is the page, the cursor its last document, and `hasMore` iff it has 20 items; a failed read changes only `loading` |
| FileList.Feed.BeginLoadMore | src/components/FileListOptimized.js:93-95 | no fetch without a cursor, once exhausted or while loading; otherwise it fetches after the cursor |
| FileList.Feed.FinishLoadMore | src/components/FileListOptimized.js:104-116 | the page goes after all prior items, and the cursor and `hasMore` follow the new page; a failed read changes only `loading` |
| FileList.Feed.OnTailSnapshot | src/components/FileListOptimized.js:69-86 | the list becomes the snapshot update of the old list, and nothing changes before subscription |
| FileList.Feed.RefreshFilter | src/components/FileListOptimized.js:119-137 | the view is recomputed from `uploads`, which is left alone |
| UserProfileHook.CachedName | src/hooks/useUserProfileOptimized.js:24-30 | the cache read; `OverwriteIsReadBack`, `EntryExpires` and `OtherUidsUnaffected` state what it serves |
| UserProfileHook.ProfileName | src/hooks/useUserProfileOptimized.js:43-48 | the name shown is the profile's own nickname or the fallback, and is never empty when the fallback is not |
| UserProfileHook.BatchName | src/hooks/useUserProfileOptimized.js:119-132 | the batch resolver's name for one lookup; `BatchResultSpec` states it: the nickname, else 'Unknown User', also on a failed read |
| UserProfileHook.Unique | src/hooks/useUserProfileOptimized.js:97 | the same uids as the input, each once |
| UserProfileHook.Uncached | src/hooks/useUserProfileOptimized.js:103-110 | exactly the uids whose entry is stale or absent |
| UserProfileHook.UncachedKeepsDistinct | src/hooks/useUserProfileOptimized.js:97-110 | each uid is looked up at most once |
| UserProfileHook.BatchResultSpec | src/hooks/useUserProfileOptimized.js:96-140 | one result per distinct uid: the cached name when fresh, else the looked-up name or 'Unknown User' |
| UserProfileHook.OverwriteIsReadBack | src/hooks/useUserProfileOptimized.js:69-77 | an overwritten name is read back until the time-to-live runs out |
| UserProfileHook.EntryExpires | src/hooks/useUserProfileOptimized.js:26 | an entry of age five minutes or more is never served |
| UserProfileHook.OtherUidsUnaffected | src/hooks/useUserProfileOptimized.js:69-84 | an overwrite or a delete of one uid leaves every other uid's read unchanged, and a deleted uid is not served |
| UserProfileHook.ProfileCache.constructor | src/hooks/useUserProfileOptimized.js:6 | the cache starts empty |
| UserProfileHook.ProfileCache.ServeFromCache | src/hooks/useUserProfileOptimized.js:103-110 | the results are exactly the fresh cached names, and the queue is exactly the stale or absent uids, in order; the cache is not touched |
| UserProfileHook.ProfileCache.FetchUncached | src/hooks/useUserProfileOptimized.js:113-137 | each queued uid gets its looked-up name or 'Unknown User'; only successful reads are written, stamped with `now` |
| UserProfileHook.ProfileCache.BatchFetchUserProfiles | src/hooks/useUserProfileOptimized.js:96-140 | one result per distinct uid; fresh entries are served; exactly the stale or absent uids are looked up, each once; only successful reads are cached, stamped with the batch's `now` |
| UserProfileHook.ProfileHook.constructor | src/hooks/useUserProfileOptimized.js:10-13 | an empty name, loading, and no previous fetch |
| UserProfileHook.ProfileHook.LoadDisplayName | src/hooks/useUserProfileOptimized.js:15-63 | no user clears the name; a fresh entry is served unless forced; a retry within 1000 ms does nothing; a read caches (name, now); a failed read shows the account name without caching |
| UserProfileHook.ProfileHook.UpdateDisplayName | src/hooks/useUserProfileOptimized.js:69-78 | shows the new name and overwrites only this uid's entry, and only when there is a uid |
| UserProfileHook.ProfileHook.ClearCache | src/hooks/useUserProfileOptimized.js:80-84 | removes only this uid's entry, and only when there is a uid |
| UserProfileHook.DisplayNameHook.constructor | src/hooks/useUserProfileOptimized.js:144-145 | starts with the fallback name, loading |
| UserProfileHook.DisplayNameHook.Load | src/hooks/useUserProfileOptimized.js:147-191 | no uid shows the fallback; a fresh entry is served with no read; otherwise the read's nickname or the fallback is shown and cached; a failed read shows the fallback uncached |
| FileCard.Bump | src/components/FileCard.js:43-44 | `increment(d)` adds d to one counter (a missing counter counts as 0) and leaves every other counter alone |
| FileCard.SwitchReaction | src/components/FileCard.js:42-65 | switching from A to B takes A down once and B up once, makes B active and writes its reaction document; the other counters are unchanged |
| FileCard.ToggleOff | src/components/FileCard.js:49-54 | clicking the active emoji takes it down once and leaves nothing active; the reaction document is neither written nor deleted |
| FileCard.AddReaction | src/components/FileCard.js:55-66 | with nothing active, a click adds one, makes the emoji active and writes the reaction document |
| FileCard.ClickTwiceRestores | src/components/FileCard.js:49-66 | from nothing active, two clicks on the same emoji restore every counter and leave nothing active |
| FileCard.OtherCountersUnchanged | src/components/FileCard.js:42-66 | whatever fails, a click touches only the clicked emoji's and the previously active emoji's counters |
| FileCard.FailureKeepsActiveEmoji | src/components/FileCard.js:40-69 | if any store call throws, the local active emoji is unchanged |
| FileCard.LateFaultIsNoFault | src/components/FileCard.js:40-69 | a failure index past the calls actually made is the fault-free run |
| FileCard.FirstCallFailsNoEffect | src/components/FileCard.js:40-69 | if the first call throws, nothing changes |
| FileCard.React | src/components/FileCard.js:36-70 | the reaction transition; `SwitchReaction`, `ToggleOff`, `AddReaction`, `OtherCountersUnchanged` and the failure lemmas state it |
| FileCard.ReactionButtons.constructor | src/components/FileCard.js:21 | no active emoji at mount |
| FileCard.ReactionButtons.HandleReaction | src/components/FileCard.js:36-70 | without a user nothing changes; otherwise the new state is the transition function of the old one |
| FileCard.CanDelete | src/components/FileCard.js:34 | `canDelete`; `NonOwnerNeverDeletes` and `OwnerDeletes` state what it guards |
| FileCard.HandleDelete | src/components/FileCard.js:72-97 | the success message is shown exactly when the record went; storage cleanup only follows a deleted record and never touches a link; a file counts as deleted only after an attempt that succeeded |
| FileCard.StorageFailureIsSwallowed | src/components/FileCard.js:79-91 | a storage failure does not change the reported outcome |
| FileCard.DeleteOrder | src/components/FileCard.js:75-85 | the record goes exactly when its delete succeeds; a non-link with a file URL then always has its file delete attempted, and an attempt that succeeds deletes it |
| FileCard.OnPressDelete | src/components/FileCard.js:117-125 | the button, shown only when `canDelete`, opens the dialog; `NonOwnerNeverDeletes` states its guard |
| FileCard.OnConfirm | src/components/FileCard.js:187-192 | `handleDelete` runs only from a shown dialog, which then closes exactly on success; `OwnerDeletes` states it |
| FileCard.RunDelete | src/components/FileCard.js:34-97 | the delete controls after a sequence of presses, cancels and confirms; the two lemmas below are about it |
| FileCard.NonOwnerNeverDeletes | src/components/FileCard.js:34-125 | when no viewer who may delete presses the button, nothing changes: the dialog stays closed and the record is never deleted |
| FileCard.OwnerDeletes | src/components/FileCard.js:72-125 | the owner's press and a successful confirm delete the record and close the dialog; a failed delete keeps the record and the dialog open |
| FileCard.DeleteControls.constructor | src/components/FileCard.js:22 | the dialog starts closed with the record present |
| FileCard.DeleteControls.PressDelete | src/components/FileCard.js:117-125 | the new state is the press function's for this viewer |
| FileCard.DeleteControls.Cancel | src/components/FileCard.js:190 | only the dialog changes, to closed |
| FileCard.DeleteControls.Confirm | src/components/FileCard.js:187-192 | the new state and the outcome are the confirm function's |
| FileCard.TypeConfigFor | src/components/FileCard.js:24 | the badge config is always one of the six, and it reads 'Other' exactly for an unknown type or 'other' itself |
| FileCard.DisplayedCount | src/components/FileCard.js:181 | a missing counters map or a missing counter shows 0, otherwise the counter |
| UploadForm.Extension | src/components/UploadForm.js:52 | the lower-cased suffix from the last '.'; `FileTypeIsFirstMatch` and `NoDotIsOther` state its use |
| UploadForm.FileTypeOf | src/components/UploadForm.js:51-57 | the classification; `FileTypeIsFirstMatch`, `FileTypeNeverLink` and `FileTypeExample` state it |
| UploadForm.GetFileType | src/components/UploadForm.js:51-57 | the loop with early return computes the classification function |
| UploadForm.FileTypeIsFirstMatch | src/components/UploadForm.js:51-57 | the type found lists the lower-cased suffix from the last '.' (or is 'other'), and no earlier type lists it |
| UploadForm.FileTypeNeverLink | src/components/UploadForm.js:17-21 | a file is never classified as 'link' |
| UploadForm.NoDotIsOther | src/components/UploadForm.js:52-56 | a name without '.' is 'other' |
| UploadForm.FileTypeExample | src/components/UploadForm.js:52 | "a.b.MP3" is audio: case is ignored and only the last suffix counts |
| UploadForm.SizeLimits | src/components/UploadForm.js:15-47 | audio may be 20 MiB and every other file type 10 MiB; only 'link' has no limit |
| UploadForm.ZeroReactionsAllZero | src/components/UploadForm.js:95 | a new record has all five counters present and at 0 |
| UploadForm.SizeBoundary | src/components/UploadForm.js:70-76 | every file has a limit; a size up to and including it goes through, and one over it stores nothing, adds no record and alerts |
| UploadForm.FileUpload | src/components/UploadForm.js:66-103 | `handleFileUpload`'s outcome; `SizeBoundary`, `FileRecordShape` and `FailedRecordLeavesStoredFile` state it |
| UploadForm.TooLargeAlert | src/components/UploadForm.js:73-75 | the size alert names the limit in MiB (20 for audio, 10 otherwise) and the type |
| UploadForm.FileRecordShape | src/components/UploadForm.js:80-96 | an added file record carries the uploader, the classified type (never 'link'), the name, URL and size, and zeroed counters; the file was stored first |
| UploadForm.FailedRecordLeavesStoredFile | src/components/UploadForm.js:83-101 | a failure after the upload leaves the stored file without a record, with an alert |
| UploadForm.EmptyLinkIsNoOp | src/components/UploadForm.js:138 | an empty link does nothing |
| UploadForm.LinkUpload | src/components/UploadForm.js:135-169 | `handleLinkUpload`'s outcome; `EmptyLinkIsNoOp`, `LinkRecordFromPreview` and `LinkRecordWithoutPreview` state it |
| UploadForm.LinkRecordFromPreview | src/components/UploadForm.js:142-157 | with a preview shown, the record copies its title, description, image, domain and type, and has zeroed counters; the preview is cleared |
| UploadForm.LinkRecordWithoutPreview | src/components/UploadForm.js:158-167 | without a preview the title is the hostname; a URL that does not parse adds nothing and alerts |
| UploadForm.PreviewTriggerBounds | src/components/UploadForm.js:124 | over ten characters with a '.' always schedules a preview; ten code units or fewer never does |
| UploadForm.PreviewTrigger | src/components/UploadForm.js:124 | the preview condition; `PreviewTriggerBounds` states it |
| UploadForm.Form.constructor | src/components/UploadForm.js:60-63 | not uploading, no preview, not fetching |
| UploadForm.Form.HandleFileUpload | src/components/UploadForm.js:66-103 | stored files, records and alerts each grow by exactly what the file-upload outcome says |
| UploadForm.Form.HandleLinkInputChange | src/components/UploadForm.js:122-133 | schedules exactly under the trigger condition, and otherwise clears the preview |
| UploadForm.Form.HandleLinkPreview | src/components/UploadForm.js:105-120 | an empty URL clears the preview; otherwise the preview becomes the fetch result |
| UploadForm.Form.HandleLinkUpload | src/components/UploadForm.js:135-169 | records and alerts grow by the link-upload outcome, and the preview is cleared only on success |
| AccessGate.Redeem | src/App.js:25-64 | the redemption; the `Redeem*`, `ProcessedMeansListed` and `FailedAllowlistWriteBurnsToken` lemmas state it |
| AccessGate.RedeemRequiresUnusedInvite | src/App.js:29-63 | without an existing unused invite named in the URL, nothing is written and false is returned |
| AccessGate.RedeemSuccess | src/App.js:35-56 | success marks only that invite used by this user and writes the allowlist entry under the e-mail, naming the inviter and the token; the URL parameter is cleared |
| AccessGate.ProcessedMeansListed | src/App.js:46-56 | a reported redemption means the e-mail is on the allowlist |
| AccessGate.FailedAllowlistWriteBurnsToken | src/App.js:37-51 | a failing allowlist write leaves the invite used and the user unlisted, and the invite can never be redeemed again |
| AccessGate.RedeemIdempotent | src/App.js:35-43 | once a redemption has written, running it again changes nothing and reports false |
| AccessGate.OnAuth | src/App.js:67-93 | one auth event; `OnAuthKeepsInvariant`, `AllowedIff`, `FailClosed` and `UsedInviteGrantsNothing` state it |
| AccessGate.OnAuthKeepsInvariant | src/App.js:67-92 | every auth event keeps "allowed implies a user, a user implies a verdict", and clears `loading` |
| AccessGate.AllowedIff | src/App.js:68-87 | allowed iff the allowlist read succeeds and finds the e-mail or an invite was just redeemed; otherwise denied and signed out |
| AccessGate.FailClosed | src/App.js:83-87 | a failed allowlist read denies and signs out, even after a redemption |
| AccessGate.UsedInviteGrantsNothing | src/App.js:35-82 | a used invite writes nothing and does not let an unlisted user in |
| AccessGate.ScreenFor | src/App.js:100-136 | loading first, then denied when `isAllowed` is false, then login when there is no user, else the app |
| AccessGate.AppOnlyWhenAllowed | src/App.js:100-136 | under the invariant, the app screen is shown only to an allowed user |
| AccessGate.DenialThenSignOutShowsLogin | src/App.js:79-91 | a denial shows the denied screen, and the sign-out's null event then shows login |
| AccessGate.Gate.constructor | src/App.js:15-17 | no user, no verdict, loading |
| AccessGate.Gate.CheckInviteToken | src/App.js:25-64 | the invites, allowlist and URL parameter become the redemption's, and the result is its report |
| AccessGate.Gate.OnAuthStateChanged | src/App.js:67-93 | the new state and the sign-out are those of the auth-event function |
| UserProfile.TrimStart | src/components/UserProfile.js:58 | no longer than the input, cut only at whitespace, not starting with whitespace |
| UserProfile.TrimStartIsSuffix | src/components/UserProfile.js:58 | what is left after the leading cut is a suffix of the input |
| UserProfile.TrimEnd | src/components/UserProfile.js:58 | no longer than the input, cut only at whitespace, not ending with whitespace |
| UserProfile.TrimEndIsPrefix | src/components/UserProfile.js:58 | what is left after the trailing cut is a prefix of the input |
| UserProfile.Trim | src/components/UserProfile.js:58 | `trim`; the `Trim*` lemmas below state it |
| UserProfile.TrimIsTrimmed | src/components/UserProfile.js:58 | `trim` leaves whitespace at neither end |
| UserProfile.TrimIsSlice | src/components/UserProfile.js:58 | `trim` keeps one contiguous slice of its input |
| UserProfile.TrimCutsOnlyWhitespace | src/components/UserProfile.js:58 | everything `trim` removes is whitespace |
| UserProfile.TrimRemovesPadding | src/components/UserProfile.js:58 | whitespace around a trimmed string is exactly what `trim` removes |
| UserProfile.TrimIdempotent | src/components/UserProfile.js:58 | trimming twice equals trimming once |
| UserProfile.ValidateNickname | src/components/UserProfile.js:58-66 | empty iff the trimmed input is empty; too long iff it is non-empty and over 30 code units; otherwise accepted as the trimmed value |
| UserProfile.ValidationIgnoresPadding | src/components/UserProfile.js:58-66 | surrounding whitespace never makes a nickname empty-checked, too long or stored |
| UserProfile.LengthBoundary | src/components/UserProfile.js:63-66 | 30 code units are accepted and 31 are rejected |
| UserProfile.Save | src/components/UserProfile.js:57-105 | the save; `RejectedSaveWritesNothing`, `SaveStoresTrimmed` and `FailedSaveKeepsLocalState` state it |
| UserProfile.SaveDisabled | src/components/UserProfile.js:159 | the save button's `disabled`; `SavedNicknameDisablesSave` states it |
| UserProfile.RejectedSaveWritesNothing | src/components/UserProfile.js:57-66 | a rejected nickname changes only the message, to the matching one |
| UserProfile.SaveStoresTrimmed | src/components/UserProfile.js:71-99 | a successful save stores, shows, caches and reports the trimmed value |
| UserProfile.SavedNicknameDisablesSave | src/components/UserProfile.js:159 | after a successful save the button is disabled until the input changes |
| UserProfile.FailedSaveKeepsLocalState | src/components/UserProfile.js:82-103 | a failed write or read-back changes neither the shown nickname, nor the cache, nor the callback |
| UserProfile.Load | src/components/UserProfile.js:15-51 | the load; `FreshCacheIgnoresStore`, `LoadErrorNotCached` and `SaveThenLoad` state it |
| UserProfile.FreshCacheIgnoresStore | src/components/UserProfile.js:19-25 | within 5000 ms the cached nickname is shown whatever the store holds |
| UserProfile.LoadErrorNotCached | src/components/UserProfile.js:46-50 | a failed read shows the account name and leaves the cache alone |
| UserProfile.SaveThenLoad | src/components/UserProfile.js:15-99 | after a save, a load shows the saved trimmed nickname: from the cache while fresh, and from the document otherwise |
| UserProfile.ProfileEditor.constructor | src/components/UserProfile.js:7-13 | empty input and nickname, no message, no cache |
| UserProfile.ProfileEditor.SetInput | src/components/UserProfile.js:138 | only the input changes |
| UserProfile.ProfileEditor.ResetToOriginal | src/components/UserProfile.js:107-109 | only the input changes, to the account name |
| UserProfile.ProfileEditor.LoadUserProfile | src/components/UserProfile.js:15-51 | the new state is the load function's, and the store is read exactly when there is a uid and the cache is not fresh |
| UserProfile.ProfileEditor.SaveNickname | src/components/UserProfile.js:57-105 | the new state is the save function's |
| UrlPreview.Title | src/services/urlPreview.js:27-30 | `TitlePrecedence` states it |
| UrlPreview.Description | src/services/urlPreview.js:32-35 | `DescriptionAndImagePrecedence` states it |
| UrlPreview.Image | src/services/urlPreview.js:37-39 | `DescriptionAndImagePrecedence` states it |
| UrlPreview.SiteName | src/services/urlPreview.js:41 | `SiteNamePrecedence` states it |
| UrlPreview.PagePreview | src/services/urlPreview.js:43-92 | the preview of a fetched page; `YouTubeFirst` and `PlatformKinds` state it |
| UrlPreview.FetchUrlPreview | src/services/urlPreview.js:2-113 | `fetchUrlPreview` with the extractor as written; `ErrorFallbacks`, `ValidUrlAlwaysPreviews`, `YouTubeFirst` and `PlatformKinds` state it |
| UrlPreview.FetchUrlPreviewCorrected | src/services/urlPreview.js:43-57 | the same with the corrected extractor; `ShortLinkPreviews` states where the two differ |
| UrlPreview.ErrorFallbacks | src/services/urlPreview.js:94-111 | an invalid URL gives null; a failed fetch of a valid URL gives the hostname-only preview |
| UrlPreview.TitlePrecedence | src/services/urlPreview.js:27-30 | title is og:title, then twitter:title, then `<title>`, then the hostname |
| UrlPreview.DescriptionAndImagePrecedence | src/services/urlPreview.js:32-39 | description is og, then twitter, then description, else empty; image is og, then twitter, else empty |
| UrlPreview.SiteNamePrecedence | src/services/urlPreview.js:41 | siteName is og:site_name, else the hostname |
| UrlPreview.ValidUrlAlwaysPreviews | src/services/urlPreview.js:2-113 | a URL that parses always gets a preview carrying the URL and its hostname |
| UrlPreview.YouTubeFirst | src/services/urlPreview.js:43-57 | a YouTube link for which the extractor as written finds an id is a video, with siteName 'YouTube' and that id's thumbnail, before any music rule |
| UrlPreview.PlatformKinds | src/services/urlPreview.js:59-92 | when the extractor as written finds no id (or the link is not YouTube), Spotify, then SoundCloud, are music; anything else is a link with a non-empty title, the page's image and the page's siteName |
| UrlPreview.FirstLineEnd | src/services/urlPreview.js:117 | `^.*` stops at the first line terminator |
| UrlPreview.RightmostMarker | src/services/urlPreview.js:117 | the greedy prefix settles on the rightmost position where an alternative matches |
| UrlPreview.MarkerEnd | src/services/urlPreview.js:117 | where group 1 ends, when the pattern matches, lies within the URL |
| UrlPreview.ShortLinkMatch | src/services/urlPreview.js:117 | in a single-line link ending in `youtu.be/` and an id, group 1 is that `youtu.be/` and ends right before the id |
| UrlPreview.WatchLinkMatch | src/services/urlPreview.js:117 | in a single-line link ending in `watch?v=` and an id, group 1 is that `watch?` and ends right before `v=` |
| UrlPreview.IdRun | src/services/urlPreview.js:117 | group 7 is the longest run free of '#', '&' and '?' |
| UrlPreview.ExtractYouTubeId | src/services/urlPreview.js:116-120 | as written: an id, when returned, is 11 UTF-16 code units of id characters and is the match's group 7 |
| UrlPreview.ExtractYouTubeIdCorrected | src/services/urlPreview.js:116-120 | corrected pattern: an id, when returned, is 11 code units of id characters |
| UrlPreview.ShortLinkIdStartingWithV | src/services/urlPreview.js:117-119 | as written, a `youtu.be/` link whose id starts with 'v' yields no id |
| UrlPreview.ShortLinkExample | src/services/urlPreview.js:117-119 | `https://youtu.be/v1234567890` yields null as written and its id when corrected |
| UrlPreview.ShortLinkIdCorrected | src/services/urlPreview.js:117-119 | corrected, every single-line `youtu.be/` link yields its 11-character id, whatever its first character |
| UrlPreview.WatchLinkId | src/services/urlPreview.js:117-119 | as written, a `watch?v=` link yields its id |
| UrlPreview.WatchLinkIdCorrected | src/services/urlPreview.js:117-119 | the correction keeps `watch?v=` links yielding their id |
| UrlPreview.ShortLinkPreviews | src/services/urlPreview.js:43-92 | the corrected preview of every single-line `youtu.be/` link is the video with its id's thumbnail; as written, an id starting with 'v' gives no video but the page's image, and a plain link with the page's siteName |
| UrlPreview.IsImageUrl | src/services/urlPreview.js:123-125 | `ImageSuffix`, `ImageSuffixWithQuery` and `NoDotNoImage` state it |
| UrlPreview.IsVideoUrl | src/services/urlPreview.js:128-133 | `YouTubeLinkIsVideo` states it |
| UrlPreview.ImageSuffix | src/services/urlPreview.js:123-125 | a URL ending in '.' and an image extension is an image URL |
| UrlPreview.ImageSuffixWithQuery | src/services/urlPreview.js:123-125 | so is one followed by a single-line query string |
| UrlPreview.NoDotNoImage | src/services/urlPreview.js:123-125 | a URL without '.' is never an image URL |
| UrlPreview.YouTubeLinkIsVideo | src/services/urlPreview.js:128-133 | every URL the preview takes for a YouTube link is a video URL |

## Left out

- src/firebase.js, src/components/InviteSystem.js, src/components/LanguageSwitcher.js and
  src/components/DeleteConfirmDialog.js are not part of this model. They hold service setup,
  token generation from random numbers and the clock, and UI only.
- Store, storage and auth services are not modelled as services. Reads are inputs; writes are
  effects on modelled state or recorded outcomes; a failure is a flag or the failing call's
  index.
- Async interleavings, listener lifetime and the unsubscribe handle, React re-render timing,
  `Promise.all` concurrency and the preview debounce timer are not modelled. The batch
  resolver's lookups run one after the other; they write distinct keys, so the final cache and
  results are the same.
- `Date`/`Date.now()` become an integer millisecond `now`. The filter's calendar `setDate` is
  taken as exactly `days * 86400000` ms, so daylight-saving shifts are not modelled.
- `formatFileSize` uses floating-point division and `toFixed`, so it is left out.
- `fetch`, the CORS relay, `DOMParser` and `new URL` are foreign. The page is a meta-tag map
  (first match by name or property, document order abstracted to one value per key) plus the
  `<title>` text. URL parsing is an optional hostname.
- Common.Lower: `toLowerCase` and the `i` flag are modelled for ASCII letters only. Other Unicode
  case mappings are not modelled.
- Server timestamps, `usedAt`, `updatedAt`, the reaction's `timestamp` and the storage
  snapshot are not recorded.
- The success message's five-second clearing timer, `signOut` failures, the file input reset,
  console logging, `alert` wording, translations and JSX are left out.
- UploadForm.Form.HandleLinkPreview: the `catch` that sets the preview to null is not modelled,
  because `fetchUrlPreview` never throws.
- FileList.Feed.FinishInitialLoad: the listener subscription is a flag, and `lastDoc` is
  modelled as the last item rather than the store's snapshot handle.
- UserProfileHook.ProfileHook.LoadDisplayName: `user.displayName \|\| ''` is the account name,
  because a `User` here always has a string name.
- FileCard.OnConfirm: src/components/DeleteConfirmDialog.js is not part of this model; the
  dialog is taken to call `onConfirm` only while `isOpen`. `handleDelete` runs as one step, so
  the `deleting` flag and the button's `disabled` while it is set are not modelled.
- UserProfileHook.Unique: the result's order (first occurrence) is not stated, because every
  use of it is keyed by uid.
- The profile editor's merge write (`setDoc` with `merge`) is modelled as a replacement, because
  the modelled document holds only the fields this component writes.

## Findings

| source | as written | input that shows it | evidently intended | confidence | as-written member | corrected member |
|---|---|---|---|---|---|---|
| src/components/FileListOptimized.js:70 | the listener closure, created during the first render, reads `isInitialLoad` as `true` forever, so no snapshot is ever applied | any new upload arriving after the first page | new uploads appear at the front of the feed | not executed | FileList.StaleGuardIgnoresTail | FileList.TailInsertsNewUpload |
| src/services/urlPreview.js:117 | in `\??v?=?`, the optional `v?` swallows a leading 'v' of a short-link id, so group 7 is 10 characters and null is returned | `https://youtu.be/v1234567890` | every 11-character id after `youtu.be/` is found (only a `v=` pair is skipped) | not executed | UrlPreview.ShortLinkIdStartingWithV | UrlPreview.ExtractYouTubeIdCorrected |

`UrlPreview.FetchUrlPreview`, and through it `UploadForm.Form.HandleLinkPreview`, keep the
extractor as written, as the source does; `UrlPreview.FetchUrlPreviewCorrected` is the preview
with the corrected extractor, and `UrlPreview.ShortLinkPreviews` shows where the two differ.
`FileList.Feed.OnTailSnapshot`
takes the value its guard reads as a parameter, which covers both the as-written and the
corrected behaviour.
