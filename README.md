# Wallpaper registry, reply headers and message drafts of TDLib, in Dafny

This project models three pieces of the Telegram client library TDLib.

- **The background manager** (`td/telegram/BackgroundManager.cpp`). It keeps the wallpapers the client knows about and the two selected wallpapers, one each for the light and the dark theme.
  - It merges every wallpaper it learns of into one registry (`add_background`) and allocates ids for locally made fill wallpapers.
  - It resolves wallpaper slugs and lets concurrent callers share one request.
  - It tracks uploads and installs, removes and resets wallpapers.
  - At start-up it restores the selection persisted in the binlog.

  `BackgroundManagerModel.BackgroundManager` is a class with the manager's fields. Its methods are proved against pure specification functions over a `Registry` value:
  - `Merge` is the specification of `add_background`;
  - `Select` is the specification of `set_background_id`;
  - `StartUpState` is the specification of `start_up`;
  - `FileSourceFor` is the specification of `get_background_file_source_id`.

  Background records and their log events are stored as sequences of tokens (`BackgroundStorage`). `BackgroundOrder` holds the ordering used by `get_backgrounds_object`.
- **The reply header of a message** (`td/telegram/RepliedMessageInfo.cpp`). The constructor keeps or clears the replied message id, its chat and the origin date. There are two accessors and an equality.
- **The draft serialiser** (`td/telegram/DraftMessage.hpp`). `store` writes three presence flags, then the date and the fields that are present. `parse` reads them back. For data older than `SupportRepliesInOtherChats`, it reads a date, a bare reply message id and the text.

Collaborators whose code is not part of this model are parameters:
- the key-value stores (binlog, sqlite) are maps;
- the file manager's canonical file id, `BackgroundId::is_local`, `BackgroundType::get_link` and `has_equal_type`, and fill parsing are uninterpreted functions in `BackgroundTypes.Env`;
- file-source creation takes the next token of a counter;
- every request to the network, the file manager or the sqlite database (a read, `DatabaseGet`, or a write, `DatabaseSet`) is appended to an `outbox`, while binlog writes change the binlog map;
- every promise resolution is appended to `resolved`;
- every update sent for a theme is appended to `updates`.

A `CHECK` of the source is a precondition: a failed `CHECK` aborts the program.

## Model

| member | source | states |
|---|---|---|
| TlFlags.Unpack | td/telegram/BackgroundManager.cpp:285-291 | the parsed flags exist exactly when no bit at or above k is set (END_PARSE_FLAGS), and flag i is bit i |
| TlFlags.PackBit | td/telegram/BackgroundManager.cpp:266-272 | bit i of the stored flag word is the i-th flag |
| TlFlags.UnpackPack | td/telegram/BackgroundManager.cpp:266-291 | parsing a stored flag word gives back exactly the stored flags |
| TlFlags.PackUnpack | td/telegram/BackgroundManager.cpp:285-291 | a word the parser accepts is the packing of the flags it reads |
| BackgroundTypes.Slug | td/telegram/BackgroundManager.cpp:429-430 | the slug is the prefix of the name before its first '?', and it holds no '?' |
| BackgroundTypes.NameLocalIff | td/telegram/BackgroundManager.cpp:423-425 | a name is local exactly when it has at most 13 characters, or a '?' at position 13 or earlier, or a non-base64url character before its first '?' |
| BackgroundTypes.LongBase64SlugIsNotLocal | td/telegram/BackgroundManager.cpp:423-425 | a base64url slug longer than 13 characters is not local, with or without link parameters after a '?' |
| BackgroundTypes.ShortNameIsLocal | td/telegram/BackgroundManager.cpp:423-425 | every name of at most 13 characters is local |
| BackgroundTypes.SelectionKey | td/telegram/BackgroundManager.cpp:688-690 | the light theme is kept under "bg" and the dark theme under "bgd" |
| BackgroundTypes.NameDatabaseKey | td/telegram/BackgroundManager.cpp:953-955 | the key is "bgn" followed by the slug |
| BackgroundTypes.NameDatabaseKeyInjective | td/telegram/BackgroundManager.cpp:953-955 | different slugs have different database keys |
| BackgroundTypes.BackgroundUrl | td/telegram/BackgroundManager.cpp:390-405 | an invalid type fails with its own error; a valid type always yields a link |
| BackgroundTypes.UrlSlugIsName | td/telegram/BackgroundManager.cpp:393-400 | for a file-backed type, what follows "bg/" in the link has the wallpaper's name as its slug |
| BackgroundTypes.TransientUploadErrorKeepsPartial | td/telegram/BackgroundManager.cpp:164-172 | a 429 error, an error of 500 or more, shutdown or a FILE_PART_..._MISSING error keeps the partial upload |
| BackgroundTypes.UploadFailure | td/telegram/BackgroundManager.cpp:757-758 | the error reported for a failed upload always has a positive code and keeps the message; an error that already has one is passed on unchanged |
| BackgroundTypes.CheckSetType | td/telegram/BackgroundManager.cpp:645-650 | as written: a fill request takes the stored type; a file request fails exactly when has_equal_type holds, and otherwise keeps the requested type |
| BackgroundTypes.CheckSetTypeIntended | td/telegram/BackgroundManager.cpp:645-650 | corrected: a file request passes exactly when its type matches the stored one |
| BackgroundTypes.SetTypeCheckIsInverted | td/telegram/BackgroundManager.cpp:647-649 | for a file request, the check as written fails exactly when the corrected check passes |
| BackgroundStorage.StoreBackground | td/telegram/BackgroundManager.cpp:264-280 | a record takes six tokens when it has a file and five without: the document token is written only with a file |
| BackgroundStorage.ParseBackground | td/telegram/BackgroundManager.cpp:283-301 | a parsed record has no file source and reads five or six tokens, six whenever it has a file; a document that did not load is read as file 0 |
| BackgroundStorage.ParseLosesDocument | td/telegram/BackgroundManager.cpp:294-296 | a record whose has-file flag is set but whose document is file 0 is still read, all six tokens of it, and stores back as five |
| BackgroundStorage.ParseStoreBackground | td/telegram/BackgroundManager.cpp:263-301 | parsing what store wrote, followed by anything, gives back the record without its file source, and reads exactly the written tokens |
| BackgroundStorage.StoreParseBackground | td/telegram/BackgroundManager.cpp:263-301 | the tokens a successful parse reads are exactly what store writes for the parsed record, whenever the record did not lose its document |
| BackgroundStorage.StoreLogEvent | td/telegram/BackgroundManager.cpp:308-312 | a selection log event is the background's tokens plus one token for the selected type |
| BackgroundStorage.ParseLogEvent | td/telegram/BackgroundManager.cpp:314-318 | the background of a parsed log event has no file source |
| BackgroundStorage.LogEventRoundTrip | td/telegram/BackgroundManager.cpp:303-319 | a stored selection reads back as the same background, without its file source, and the same type |
| BackgroundStorage.ParseStoredBackground | td/telegram/BackgroundManager.cpp:495 | a record parsed from a slug's database entry has no file source |
| BackgroundStorage.StoredBackgroundRoundTrip | td/telegram/BackgroundManager.cpp:1042-1043 | the record on_get_background writes under a slug's key reads back as the same record |
| BackgroundStorage.StoredMaxLocalId | td/telegram/BackgroundManager.cpp:322 | a missing "max_bg_id" key reads as the mark 0 |
| BackgroundStorage.StoredMaxLocalIdRoundTrip | td/telegram/BackgroundManager.cpp:544 | writing the mark and reading it back gives the mark |
| BackgroundRegistry.AddFileSources | td/telegram/BackgroundManager.cpp:922-924 | one add_file_source request per file of the document, in order |
| BackgroundRegistry.Merge | td/telegram/BackgroundManager.cpp:860-933 | the keys grow by the candidate's id; every other record is unchanged; the id's reservation is consumed |
| BackgroundRegistry.MergeFromParts | td/telegram/BackgroundManager.cpp:860-933 | a registry assembled field by field from the merge's parts is the merge, and it is well formed |
| BackgroundRegistry.MergeRecord | td/telegram/BackgroundManager.cpp:874-915 | the merged record has the candidate's id; it copies the access hash, the three flags and the type; it adopts the name and the file |
| BackgroundRegistry.MergeNames | td/telegram/BackgroundManager.cpp:885-899 | an old binding is never erased or rebound; a binding is added only for a changed non-local name that is not bound yet |
| BackgroundRegistry.MergeFileSource | td/telegram/BackgroundManager.cpp:866-932 | a reserved token is adopted only by a new record; a record with a file ends up with a token; an unchanged file means no file-source or index work |
| BackgroundRegistry.MergePreservesOk | td/telegram/BackgroundManager.cpp:860-933 | merging keeps the registry well formed: records sit under their own valid id, local names are never indexed, indices point at known records, a record with a file has a file source |
| BackgroundRegistry.MergeKeepsRecordsOk | td/telegram/BackgroundManager.cpp:864-883 | the records stay under their own valid ids |
| BackgroundRegistry.MergeKeepsReservationsOk | td/telegram/BackgroundManager.cpp:866-872 | reservations remain only for ids that are not yet known |
| BackgroundRegistry.MergeKeepsNamesOk | td/telegram/BackgroundManager.cpp:885-899 | the name index keeps pointing at known records and holds no local names |
| BackgroundRegistry.MergeKeepsFilesOk | td/telegram/BackgroundManager.cpp:901-932 | the file index keeps pointing at known records, and a record with a file keeps a file source |
| BackgroundRegistry.MergeIdempotent | td/telegram/BackgroundManager.cpp:860-933 | merging the same record a second time changes nothing and sends nothing |
| BackgroundRegistry.MergeNewRecordTakesDefaultMarker | td/telegram/BackgroundManager.cpp:874-883 | add_background does not copy has_new_local_id: a record new to the registry carries the assumed declared default (`env.markerDefault`, see Left out), whatever the candidate says, and a known record keeps its own marker |
| BackgroundRegistry.MergeIntended | td/telegram/BackgroundManager.cpp:874-883 | corrected merge: the merge that also copies has_new_local_id; it keeps the registry well formed |
| BackgroundRegistry.MergedIds | td/telegram/BackgroundManager.cpp:1075-1080 | one id per accepted record (`AcceptedCount`), exactly the ids of the accepted records (`Accepted`), and the last record's id last when it is accepted |
| BackgroundRegistry.MergeAll | td/telegram/BackgroundManager.cpp:1075-1080 | merging a list record by record (each followed by its database write, SaveReceived) keeps the registry well formed, forgets no record, only consumes reservations, and every accepted id is known afterwards |
| BackgroundRegistry.MergeAllStep | td/telegram/BackgroundManager.cpp:1075-1080 | one more record extends MergeAll by that record's merge and database write, and MergedIds by its id |
| BackgroundRegistry.FileSourceFor | td/telegram/BackgroundManager.cpp:1136-1154 | a known record gets its own token, created on first use; an unknown id gets a reserved token that remembers the first access hash it was asked with |
| BackgroundRegistry.FileSourceStable | td/telegram/BackgroundManager.cpp:1136-1154 | asking again gives the same token, sends nothing and leaves the records alone |
| BackgroundRegistry.ReservationAdopted | td/telegram/BackgroundManager.cpp:866-920 | a token handed out before a wallpaper was known is the token its record adopts when it arrives with a file |
| BackgroundOrder.WithKeyKeys | td/telegram/BackgroundManager.cpp:1118-1132 | every object kept for a key has that key |
| BackgroundOrder.StableOrderSorted | td/telegram/BackgroundManager.cpp:1118-1132 | the ordered list is sorted by key |
| BackgroundOrder.WithKeyPartition | td/telegram/BackgroundManager.cpp:1118-1132 | splitting by key loses nothing and duplicates nothing |
| BackgroundOrder.StableOrderPermutes | td/telegram/BackgroundManager.cpp:1118-1132 | the ordered list is a permutation of its input |
| BackgroundOrder.StableOrderIsStable | td/telegram/BackgroundManager.cpp:1118-1132 | within one key, the ordered list keeps the input's relative order |
| BackgroundOrder.SelectedComesFirst | td/telegram/BackgroundManager.cpp:1121-1125 | a listed selected wallpaper comes first |
| BackgroundManagerModel.ResolveAll | td/telegram/BackgroundManager.cpp:508-510 | every promise of a list is resolved with the same outcome, in order |
| BackgroundManagerModel.FillBackground | td/telegram/BackgroundManager.cpp:556-564 | the fill record has the given id, is creator-owned, has a type without a file and has no file; its has_new_local_id is not set, so it is the assumed declared default `env.markerDefault` |
| BackgroundManagerModel.SavedBinlog | td/telegram/BackgroundManager.cpp:692-703 | an unset slot erases the theme's key; a set slot stores its log event under the key; no other key changes |
| BackgroundManagerModel.SelectEffect | td/telegram/BackgroundManager.cpp:688-715 | selecting what the theme already has writes nothing and sends no update; otherwise only that slot changes, one update is sent, a valid selection reads back from its key, an unset one erases it, and no other key changes |
| BackgroundManagerModel.SelectIdempotent | td/telegram/BackgroundManager.cpp:705-715 | selecting the same wallpaper and type twice is the same as selecting it once |
| BackgroundManagerModel.Without | td/telegram/BackgroundManager.cpp:831 | every occurrence of the id is dropped and the rest keep their order |
| BackgroundManagerModel.ClearSelectedEffect | td/telegram/BackgroundManager.cpp:832-837 | after a removal neither theme shows the removed wallpaper, and a theme that did not show it is untouched |
| BackgroundManagerModel.ClearAllEffect | td/telegram/BackgroundManager.cpp:854-856 | after a reset both themes show nothing, and their keys are erased unless both were already unset |
| BackgroundManagerModel.ObjectOf | td/telegram/BackgroundManager.cpp:1090-1107 | the object shows the record's id, default and dark flags and name (the type it shows is stated by ListedSelectedType) |
| BackgroundManagerModel.ObjectsOf | td/telegram/BackgroundManager.cpp:1111-1113 | one object per listed id, in order, each under its own id |
| BackgroundManagerModel.BackgroundsObjectPermutes | td/telegram/BackgroundManager.cpp:1110-1134 | the list holds the installed wallpapers, plus the selected one when it is not installed, reordered without loss and sorted by OrderKey |
| BackgroundManagerModel.BackgroundsObjectInstalled | td/telegram/BackgroundManager.cpp:1111-1113 | every installed wallpaper is in the list, under its own id |
| BackgroundManagerModel.ListedSelectedType | td/telegram/BackgroundManager.cpp:1097-1102 | a listed object with the selected id shows the type the theme selected it with |
| BackgroundManagerModel.BackgroundsObjectSelectedFirst | td/telegram/BackgroundManager.cpp:1114-1132 | a selected wallpaper comes first, shown with the type the theme selected it with |
| BackgroundManagerModel.SearchRouteByName | td/telegram/BackgroundManager.cpp:427-476 | in a well-formed registry the local branch depends on the name alone; an indexed slug is never local; only a non-local slug can wait for the database or the server |
| BackgroundManagerModel.LoadFromDatabase | td/telegram/BackgroundManager.cpp:489-506 | the registry stays well formed |
| BackgroundManagerModel.AdoptLoaded | td/telegram/BackgroundManager.cpp:500-504 | merging the loaded record, and indexing it under the slug, keeps the registry well formed |
| BackgroundManagerModel.LoadFromDatabaseEffect | td/telegram/BackgroundManager.cpp:489-506 | a value that fails the checks only marks the slug; one that passes adds exactly its record and, when the record's name differs, indexes the slug too; either way the slug is never looked up again |
| BackgroundManagerModel.RaisedMark | td/telegram/BackgroundManager.cpp:330-337 | the mark never falls, and it ends at or above the id of a marked local fill record |
| BackgroundManagerModel.RaiseMark | td/telegram/BackgroundManager.cpp:334-337 | the first pass changes only the mark, never the registry or the requests |
| BackgroundManagerModel.WithSlot | td/telegram/BackgroundManager.cpp:359-360 | only the given theme's slot changes |
| BackgroundManagerModel.AddStored | td/telegram/BackgroundManager.cpp:362 | the merge keeps the registry well formed, adds the record's id and consumes its reservation; as written it is Merge |
| BackgroundManagerModel.Renumber | td/telegram/BackgroundManager.cpp:347-352 | a record needing a new id takes the id one above the mark, and the raised mark is persisted |
| BackgroundManagerModel.KeepMatching | td/telegram/BackgroundManager.cpp:359-366 | the record becomes the theme's selection and is added; the theme's key is saved again only when the record was renumbered; the other key and slot are untouched |
| BackgroundManagerModel.KeepOrDrop | td/telegram/BackgroundManager.cpp:354-366 | a record whose file disagrees with its type is not added, and the theme's key is rewritten from its slot; any other record is kept; the other key and slot are untouched |
| BackgroundManagerModel.RestoreTheme | td/telegram/BackgroundManager.cpp:342-371 | the registry stays well formed without reservations and forgets no record; the mark rises by one exactly when the record needs a new id; one update is sent for the theme; the other theme's slot is untouched |
| BackgroundManagerModel.RestoreThemeKeepsOtherKey | td/telegram/BackgroundManager.cpp:342-371 | restoring one theme leaves the other theme's stored log event alone |
| BackgroundManagerModel.RestoreThemeResavesDefaultMarker | td/telegram/BackgroundManager.cpp:347-366 | as written: line 349 sets has_new_local_id on the renumbered fill record, add_background (line 359) stores a copy with the assumed default instead, and line 362 saves that copy under the theme's key with the new id; the saved event needs a new id again exactly when the default is false, and carries the marker of a local fill when it is true |
| BackgroundManagerModel.RestoreThemeIntendedKeepsMarker | td/telegram/BackgroundManager.cpp:347-366 | corrected: with the marker kept, the saved event carries the new id and the marker |
| BackgroundManagerModel.RestoreThemeSelects | td/telegram/BackgroundManager.cpp:354-363 | a kept record is selected for the theme, under its new id when it was renumbered, and is in the registry |
| BackgroundManagerModel.StartUpSelects | td/telegram/BackgroundManager.cpp:321-372 | each theme's record whose file agrees with its type is selected under its final id and added; one update is sent per theme, light first |
| BackgroundManagerModel.StartUpRenumbersAboveMarked | td/telegram/BackgroundManager.cpp:321-372 | a renumbered record gets an id above the stored mark and above every marked local fill id of either theme; the mark ends at or above it; two renumbered themes get different ids |
| BackgroundManagerModel.StartUpSavesDefaultMarker | td/telegram/BackgroundManager.cpp:321-372 | as written, for the light theme with an empty registry: start_up saves the renumbered fill record under the next id above the first pass's mark, with the assumed default in place of the marker; the next start_up renumbers it again exactly when the default is false |
| BackgroundManagerModel.StartUpIntendedKeepsMarker | td/telegram/BackgroundManager.cpp:321-372 | corrected: a renumbered record of either theme is stored with its new id and the marker |
| BackgroundManagerModel.SetDecisionCases | td/telegram/BackgroundManager.cpp:640-662 | an unknown id fails with 400; a fill request takes the stored type and passes the type check; a file request is installed exactly when it passes the check as written and is not already selected |
| BackgroundManagerModel.BackgroundManager.constructor | td/telegram/BackgroundManager.cpp:259-261 | a new manager over a persisted binlog knows no wallpapers, has selected nothing and is valid |
| BackgroundManagerModel.BackgroundManager.SetMaxLocalBackgroundId | td/telegram/BackgroundManager.cpp:540-545 | requires a local id above the mark; sets the mark to it and writes it under "max_bg_id" |
| BackgroundManagerModel.BackgroundManager.GetNextLocalBackgroundId | td/telegram/BackgroundManager.cpp:547-550 | returns the old mark plus one, which is now the mark and is persisted |
| BackgroundManagerModel.BackgroundManager.AddBackground | td/telegram/BackgroundManager.cpp:860-933 | the new registry and requests are exactly Merge of the old registry |
| BackgroundManagerModel.BackgroundManager.TakeReservation | td/telegram/BackgroundManager.cpp:866-872 | a reservation for the id is taken over and removed |
| BackgroundManagerModel.BackgroundManager.AdoptName | td/telegram/BackgroundManager.cpp:885-899 | a changed non-local name is indexed unless it is taken, and it no longer counts as looked up |
| BackgroundManagerModel.BackgroundManager.AddBackgroundFile | td/telegram/BackgroundManager.cpp:901-932 | the file half ends as MergeFile specifies |
| BackgroundManagerModel.BackgroundManager.DropChangedFile | td/telegram/BackgroundManager.cpp:902-912 | a file whose canonical file changed is unindexed and its token forgotten; a reserved token takes precedence |
| BackgroundManagerModel.BackgroundManager.AttachFile | td/telegram/BackgroundManager.cpp:917-925 | a record without a token gets a fresh file source, then every file of the document is added to it |
| BackgroundManagerModel.BackgroundManager.AddFileSourcesOf | td/telegram/BackgroundManager.cpp:922-924 | appends AddFileSources to the outbox |
| BackgroundManagerModel.BackgroundManager.AddFillBackground | td/telegram/BackgroundManager.cpp:556-567 | the fill record is merged under the next local id, which is returned and persisted |
| BackgroundManagerModel.BackgroundManager.AddFill | td/telegram/BackgroundManager.cpp:552-554 | a non-default fill, dark when the fill is, keeping the manager valid |
| BackgroundManagerModel.BackgroundManager.SaveBackgroundId | td/telegram/BackgroundManager.cpp:692-703 | the binlog becomes SavedBinlog of the theme's slot |
| BackgroundManagerModel.BackgroundManager.SetBackgroundId | td/telegram/BackgroundManager.cpp:705-715 | slots, binlog and updates become Select of the old ones |
| BackgroundManagerModel.BackgroundManager.ResolveEach | td/telegram/BackgroundManager.cpp:1058-1084 | appends ResolveAll of the list to the resolutions |
| BackgroundManagerModel.BackgroundManager.GetBackgrounds | td/telegram/BackgroundManager.cpp:378-388 | the caller is queued; only the first waiter sends the query |
| BackgroundManagerModel.BackgroundManager.OnGetBackgrounds | td/telegram/BackgroundManager.cpp:1049-1085 | the waiting list is emptied and every waiter gets the same outcome; an error or "not modified" leaves the installed list alone; a full list replaces it with MergedIds and merges MergeAll, including the database write of each received wallpaper with a document |
| BackgroundManagerModel.BackgroundManager.InstallAll | td/telegram/BackgroundManager.cpp:1073-1080 | the installed list becomes MergedIds of the received records and the registry becomes MergeAll |
| BackgroundManagerModel.BackgroundManager.MergeEach | td/telegram/BackgroundManager.cpp:1075-1080 | the loop over the records ends at MergeAll and MergedIds |
| BackgroundManagerModel.BackgroundManager.InstallOne | td/telegram/BackgroundManager.cpp:1076-1079 | an accepted record is merged and saved and its id appended; a rejected one changes nothing |
| BackgroundManagerModel.BackgroundManager.MergeAndSave | td/telegram/BackgroundManager.cpp:1032-1044 | the registry becomes Merge of the record and the outbox gains Merge's requests, then SaveReceived |
| BackgroundManagerModel.BackgroundManager.SearchBackground | td/telegram/BackgroundManager.cpp:427-476 | an indexed slug succeeds with its id and the type with the link's parameters; an empty slug fails with 400; other slugs are handled by SearchUnindexed; only a local slug touches the registry |
| BackgroundManagerModel.BackgroundManager.SearchUnindexed | td/telegram/BackgroundManager.cpp:448-475 | a local slug becomes a fill under a fresh local id with no request; a slug not yet looked up waits, and only its first waiter reads the database; any other slug is asked of the server |
| BackgroundManagerModel.LocalFillSendsNothing | td/telegram/BackgroundManager.cpp:448-457 | the fill created for a local slug under an unknown id asks nothing of the file reference manager or the file manager, so that branch sends no request |
| BackgroundManagerModel.BackgroundManager.OnGetBackground | td/telegram/BackgroundManager.cpp:60-75 | an error fails the promise and changes nothing else; a rejected wallpaper changes nothing; an accepted one is received as ReceiveReply says; a reply always resolves the promise with success |
| BackgroundManagerModel.BackgroundManager.ReceiveExpected | td/telegram/BackgroundManager.cpp:1032-1044 | the registry and the outbox become ReceiveReply of the record and the expected slug; the manager stays valid |
| BackgroundManagerModel.BackgroundManager.BindExpectedSlug | td/telegram/BackgroundManager.cpp:1034-1037 | the names become BindExpectedName, and the manager stays valid |
| BackgroundManagerModel.ReceiveReply | td/telegram/BackgroundManager.cpp:1032-1044 | receiving a record keeps the registry well formed and adds exactly its id |
| BackgroundManagerModel.ReceivedSlugIndexed | td/telegram/BackgroundManager.cpp:1032-1037 | after a reply to a slug lookup the slug is indexed exactly when it was, or the wallpaper has a document and another name, or the record newly carries that name; a newly indexed slug names the received record; no binding changes |
| BackgroundManagerModel.SavedRecordLoads | td/telegram/BackgroundManager.cpp:1039-1044 | the value saved for a wallpaper with a document and a file parses back as the record and is adopted by on_load_background_from_database (LoadsRecord) while its slug is unindexed |
| BackgroundManagerModel.BackgroundManager.SearchLocalBackground | td/telegram/BackgroundManager.cpp:448-457 | a fill that does not parse fails with its error; one that parses is added under the next local id and returned with its type |
| BackgroundManagerModel.BackgroundManager.QueueDatabaseLoad | td/telegram/BackgroundManager.cpp:459-470 | the caller is queued under the slug; only the first waiter issues the database read of the slug's key |
| BackgroundManagerModel.BackgroundManager.ReloadBackgroundFromServer | td/telegram/BackgroundManager.cpp:407-415 | fails with 500 while closing; otherwise sends account.getWallPaper |
| BackgroundManagerModel.BackgroundManager.OnLoadBackgroundFromDatabase | td/telegram/BackgroundManager.cpp:478-511 | nothing happens while closing; otherwise the slug's waiters leave the pending map, the registry becomes LoadFromDatabase and every waiter succeeds |
| BackgroundManagerModel.BackgroundManager.TakeWaiters | td/telegram/BackgroundManager.cpp:483-487 | returns the slug's waiters and removes the slug from the pending map, keeping the manager valid |
| BackgroundManagerModel.BackgroundManager.LoadKnownRecord | td/telegram/BackgroundManager.cpp:489-506 | registry and requests become LoadFromDatabase and the manager stays valid |
| BackgroundManagerModel.BackgroundManager.LoadRecord | td/telegram/BackgroundManager.cpp:489-506 | registry and requests become LoadFromDatabase |
| BackgroundManagerModel.BackgroundManager.AdoptLoadedRecord | td/telegram/BackgroundManager.cpp:500-504 | registry and requests become AdoptLoaded |
| BackgroundManagerModel.BackgroundManager.SetBackground | td/telegram/BackgroundManager.cpp:637-673 | as written, does what SetDecisionOf decides: fail, keep the selection, select a fill at once, or send the install request |
| BackgroundManagerModel.BackgroundManager.OnInstalledBackground | td/telegram/BackgroundManager.cpp:675-686 | a failure fails the promise and changes nothing; a success puts the id at the head of the installed list unless it is there, selects it and resolves the promise |
| BackgroundManagerModel.BackgroundManager.UploadBackgroundFile | td/telegram/BackgroundManager.cpp:717-724 | the upload is recorded with its type, theme and promise, and is started |
| BackgroundManagerModel.BackgroundManager.OnUploadBackgroundFile | td/telegram/BackgroundManager.cpp:726-739 | the upload leaves the ledger and is handed on with what was recorded for it |
| BackgroundManagerModel.BackgroundManager.DoUploadBackgroundFile | td/telegram/BackgroundManager.cpp:761-777 | with no input file, a wallpaper known for the canonical file is set by id, and otherwise the promise fails with 500; with an input file the wallpaper is uploaded |
| BackgroundManagerModel.BackgroundManager.OnUploadBackgroundFileError | td/telegram/BackgroundManager.cpp:741-759 | nothing happens while closing; otherwise the upload leaves the ledger and its promise fails with UploadFailure of the error |
| BackgroundManagerModel.BackgroundManager.OnUploadedBackgroundFile | td/telegram/BackgroundManager.cpp:779-799 | a rejected answer, or a record without a file, cancels the upload and fails with 500; otherwise the record is merged and saved to the database as on_get_background does, the files are merged, the wallpaper is selected and the promise succeeds |
| BackgroundManagerModel.BackgroundManager.StoreUploadedBackground | td/telegram/BackgroundManager.cpp:784-799 | the accepted answer is merged and saved, then the upload finishes as UploadedFinished says |
| BackgroundManagerModel.BackgroundManager.ReceiveBackground | td/telegram/BackgroundManager.cpp:1032-1044 | the registry becomes Merge of the received record, the outbox gains Merge's requests and then SaveReceived, and the manager stays valid |
| BackgroundManagerModel.BackgroundManager.SaveReceivedBackground | td/telegram/BackgroundManager.cpp:1039-1044 | with the file database in use, a wallpaper with a document is written under its slug's key; nothing else is sent |
| BackgroundManagerModel.BackgroundManager.AddReceivedBackground | td/telegram/BackgroundManager.cpp:1032 | the registry becomes Merge of the received record and the manager stays valid |
| BackgroundManagerModel.BackgroundManager.FinishUploadedBackground | td/telegram/BackgroundManager.cpp:790-799 | a stored record without a file cancels and fails; one with a file is merged with the upload and selected |
| BackgroundManagerModel.BackgroundManager.RemoveBackground | td/telegram/BackgroundManager.cpp:801-824 | an unknown wallpaper fails with 400; a server fill is unsaved by id; a local fill completes at once; a file-backed wallpaper is unsaved by id and access hash |
| BackgroundManagerModel.BackgroundManager.OnRemovedBackground | td/telegram/BackgroundManager.cpp:826-839 | a failure fails the promise; otherwise the id leaves the installed list and a theme showing it is reset |
| BackgroundManagerModel.BackgroundManager.Uninstall | td/telegram/BackgroundManager.cpp:831 | every occurrence of the id leaves the installed list and the manager stays valid |
| BackgroundManagerModel.BackgroundManager.ClearSelectedSlots | td/telegram/BackgroundManager.cpp:832-837 | slots, binlog and updates become ClearSelected |
| BackgroundManagerModel.BackgroundManager.ResetBackgrounds | td/telegram/BackgroundManager.cpp:841-848 | sends the reset request and nothing else |
| BackgroundManagerModel.BackgroundManager.OnResetBackground | td/telegram/BackgroundManager.cpp:850-858 | a failure fails the promise; otherwise the installed list is emptied and both themes are reset, light first |
| BackgroundManagerModel.BackgroundManager.ClearBothSlots | td/telegram/BackgroundManager.cpp:855-856 | both slots end as ClearAll: the light theme is reset first, then the dark one |
| BackgroundManagerModel.BackgroundManager.SetBackgroundFromInput | td/telegram/BackgroundManager.cpp:569-635 | an invalid type fails with its error; otherwise the call does what InputDid describes for the kind of input |
| BackgroundManagerModel.BackgroundManager.SetTypedBackground | td/telegram/BackgroundManager.cpp:584-634 | with a known type, does what InputDid describes |
| BackgroundManagerModel.BackgroundManager.SetWithoutInput | td/telegram/BackgroundManager.cpp:584-599 | no type resets the theme; a file type without a file fails with 400; a fill becomes a new local fill that is selected |
| BackgroundManagerModel.BackgroundManager.SetFillBackground | td/telegram/BackgroundManager.cpp:595-598 | the fill is stored under the next local id, which is persisted, then selected and returned |
| BackgroundManagerModel.BackgroundManager.SelectAndResolve | td/telegram/BackgroundManager.cpp:596-597 | the selection becomes Select for the id and type, and the promise succeeds |
| BackgroundManagerModel.BackgroundManager.SetGivenInput | td/telegram/BackgroundManager.cpp:602-634 | a local file does what LocalInputDid describes; a remote background leaves the registry alone and does what SetBackgroundDid describes |
| BackgroundManagerModel.BackgroundManager.SetLocalInput | td/telegram/BackgroundManager.cpp:602-625 | a fill type with a file fails with 400; an unprepared file fails with its error; otherwise SetLocalFile |
| BackgroundManagerModel.BackgroundManager.SetLocalFile | td/telegram/BackgroundManager.cpp:617-623 | a file some wallpaper already uses selects it by id; any other file is uploaded |
| BackgroundManagerModel.BackgroundManager.GetBackgroundFileSourceId | td/telegram/BackgroundManager.cpp:1136-1154 | the token, the registry and the requests become FileSourceFor |
| BackgroundManagerModel.BackgroundManager.StartUp | td/telegram/BackgroundManager.cpp:321-372 | the new state is StartUpState of the old one, as written; the manager stays valid and the mark equals the persisted one |
| BackgroundManagerModel.BackgroundManager.FirstPass | td/telegram/BackgroundManager.cpp:322-339 | the mark is read from "max_bg_id" and raised as RaiseMark says for the light theme and then the dark one; the manager stays valid and the mark is persisted |
| BackgroundManagerModel.StartUpPasses | td/telegram/BackgroundManager.cpp:341-371 | after the first pass each theme's CHECKs hold when its turn comes (the mark is MarkBefore), and restoring light then dark ends in StartUpState |
| BackgroundManagerModel.BackgroundManager.RaiseMarkFor | td/telegram/BackgroundManager.cpp:330-337 | the state becomes RaiseMark |
| BackgroundManagerModel.BackgroundManager.RestoreSelection | td/telegram/BackgroundManager.cpp:343-370 | the state becomes RestoreTheme |
| BackgroundManagerModel.BackgroundManager.RestoreRecord | td/telegram/BackgroundManager.cpp:345-367 | the state becomes KeepOrDrop of Renumber |
| BackgroundManagerModel.BackgroundManager.RenumberRecord | td/telegram/BackgroundManager.cpp:347-352 | the state becomes Renumber, and the record returned is Renumbered |
| BackgroundManagerModel.BackgroundManager.KeepRecord | td/telegram/BackgroundManager.cpp:354-367 | the state becomes KeepOrDrop |
| BackgroundManagerModel.BackgroundManager.KeepMatchingRecord | td/telegram/BackgroundManager.cpp:359-366 | the state becomes KeepMatching |
| BackgroundManagerModel.BackgroundManager.SelectRecord | td/telegram/BackgroundManager.cpp:359-362 | the slot is set (WithSlot) and the registry becomes Merge of the record |
| RepliedMessages.Construct | td/telegram/RepliedMessageInfo.cpp:19-77 | the fields the constructor leaves are Normalised |
| RepliedMessages.OtherChatReplyIsValid | td/telegram/RepliedMessageInfo.cpp:43-61 | a kept chat is valid and differs from the message's own, and comes with a valid message id |
| RepliedMessages.ScheduledReplyNeedsScheduledMessage | td/telegram/RepliedMessageInfo.cpp:22-36 | a scheduled reply inside a non-scheduled message keeps no message id |
| RepliedMessages.ScheduledReplyShape | td/telegram/RepliedMessageInfo.cpp:22-41 | a scheduled reply keeps the scheduled id exactly when the message is scheduled and no chat is named; it never keeps a chat or an origin date |
| RepliedMessages.InvalidReplyIsCleared | td/telegram/RepliedMessageInfo.cpp:47-61 | an invalid named chat or an invalid message id clears both the message id and the chat |
| RepliedMessages.ZeroReplyIdKeepsNothing | td/telegram/RepliedMessageInfo.cpp:43-64 | a reply id of 0 keeps neither message id nor chat, even when a chat is named |
| RepliedMessages.ValidReplyIsKept | td/telegram/RepliedMessageInfo.cpp:43-61 | a valid reply keeps its server message id, and keeps a chat exactly when a valid chat other than the message's own is named |
| RepliedMessages.OriginDateRule | td/telegram/RepliedMessageInfo.cpp:65-75 | the origin date is reply_from_'s date in a non-scheduled reply, kept for a channel post and otherwise only when the origin parses; 0 otherwise; so a non-zero origin date comes only from a non-scheduled reply with reply_from_ whose origin is a channel post or parses |
| RepliedMessages.GetSameChatReplyToMessageId | td/telegram/RepliedMessageInfo.cpp:79-81 | the message id for a same-chat reply, the empty id otherwise |
| RepliedMessages.GetReplyMessageFullId | td/telegram/RepliedMessageInfo.cpp:83-85 | exactly the kept chat and message id |
| RepliedMessages.ConstructedFullId | td/telegram/RepliedMessageInfo.cpp:19-85 | the full id of a constructed reply names another chat only together with a valid message |
| RepliedMessages.Equals | td/telegram/RepliedMessageInfo.cpp:87-90 | true exactly when all four fields agree |
| RepliedMessages.NotEquals | td/telegram/RepliedMessageInfo.cpp:92-94 | the exact negation of Equals |
| RepliedMessages.EqualsIsEquivalence | td/telegram/RepliedMessageInfo.cpp:87-90 | equality is reflexive, symmetric and transitive |
| DraftMessages.DraftFlags | td/telegram/DraftMessage.hpp:21-23 | three flags: text non-empty, reply non-empty, content present |
| DraftMessages.LegacyReplyTo | td/telegram/DraftMessage.hpp:58-62 | a legacy reply id becomes a reply with no chat, an empty quote and quote position 0 |
| DraftMessages.Step | td/telegram/DraftMessage.hpp:57-71 | a read advances the cursor by one token when its field is present, and by none otherwise |
| DraftMessages.StoredFlags | td/telegram/DraftMessage.hpp:20-28 | the stored word reads back as the three flags: bit 0 iff the text is non-empty, bit 1 iff the reply is non-empty, bit 2 iff there is content |
| DraftMessages.StoredLayout | td/telegram/DraftMessage.hpp:29-38 | flags, then date, then text, reply and content, each written exactly when its flag is set |
| DraftMessages.RoundTrip | td/telegram/DraftMessage.hpp:19-72 | at a current version, parsing what store wrote into a fresh draft gives back the draft and reads exactly the written tokens |
| DraftMessages.LegacyParse | td/telegram/DraftMessage.hpp:43-71 | below the version, parse reads exactly a date, a legacy reply id and the text, reads no flags, and keeps the draft's own content |
| DraftMessages.AbsentFieldsAreNotRead | td/telegram/DraftMessage.hpp:63-71 | at a current version, a field whose flag is clear keeps the draft's own value |
| DraftMessages.Storer.Store | td/telegram/DraftMessage.hpp:29 | appends one token |
| DraftMessages.Parser.ParseFlags | td/telegram/DraftMessage.hpp:49-53 | an accepted flag word yields its flags and advances by one; anything else fails the parser |
| DraftMessages.Parser.ParseField | td/telegram/DraftMessage.hpp:57-70 | a token of the field's kind is assigned and consumed; anything else fails the parser |
| DraftMessages.Draft.constructor | td/telegram/DraftMessage.hpp:41-46 | a fresh draft holds the default values |
| DraftMessages.Draft.Store | td/telegram/DraftMessage.hpp:19-39 | appends exactly DraftTokens of the draft |
| DraftMessages.Draft.Parse | td/telegram/DraftMessage.hpp:41-72 | on success the draft is what DecodeDraft reads from the unread tokens, and exactly those tokens are consumed; otherwise the parser is failed |
| DraftMessages.Draft.ParsePresence | td/telegram/DraftMessage.hpp:43-56 | the flags are read only at a current version; before it the text is present and the reply id is legacy |
| DraftMessages.Draft.ParseInto | td/telegram/DraftMessage.hpp:57-71 | one read of parse moves the draft and the cursor as Step does |

## Left out

- The query handler classes (`GetBackgroundQuery` through `ResetBackgroundsQuery`, BackgroundManager.cpp:43-236) are network I/O. Each request is appended to the outbox, and its completion is a call of the matching `On…` method: `OnGetBackground`, `OnGetBackgrounds`, `OnInstalledBackground`, `OnUploadedBackgroundFile`, `OnRemovedBackground` and `OnResetBackground`. Only the error rule of `UploadBackgroundQuery::on_error` is modelled, as `DiscardsPartialUpload`.
- `UploadBackgroundFileCallback` and actor messaging (`send_closure`) are concurrency plumbing. The model is single-threaded, and each callback is a method call.
- The decoding half of `on_get_background` (957-1031) is not modelled: turning a `wallPaper` or `wallPaperNoFile` object into a record, and the checks that reject one. The callers take its result as the `decoded` parameter, a record or None. A `wallPaper` always decodes to a type with a file and a `wallPaperNoFile` to one without, which is how `SaveReceived` and `BindExpectedName` tell them apart. The rest of it (1032-1044) is `ReceiveReply`. The `CHECK` at line 1041 is not restated, because line 996 already rejects a wallpaper whose slug is local. `prepare_input_file` (523-538) is not modelled either. Its result is the `preparedFile` of a local input.
- `reload_background` (417-421) only builds an input wallpaper and calls `reload_background_from_server`, which is modelled.
- `tear_down`, `get_current_state` and the construction of `td_api` objects are left out. `get_background_object` is modelled only for which type it shows (`ObjectOf`), and a sent update is recorded as the theme it was sent for.
- `G()->close_flag()`, `use_file_db`, the `t_me_url` option and the file manager's `dup_file_id` are parameters of the methods or the constructor.
- `BackgroundType`, `BackgroundFill`, `BackgroundId::is_local`, `Document::get_file_ids` and the file manager's canonical file id are uninterpreted functions (`Env`), because their code is not part of this model. `EnvOk` assumes only that local ids are positive.
- Documents inside `Background::store` and `Background::parse` are one opaque token. The same holds for `InputMessageText`, `MessageInputReplyTo` and the draft content in `DraftMessage`. `InputMessageText::is_empty` and `MessageInputReplyTo::is_empty` are the `Emptiness` parameter.
- `DraftMessages.RoundTrip`: proved only for drafts whose empty text and empty reply are the default values (`Canonical`). A part that is not written is restored as the default value, so no other draft can read back equal.
- `DraftMessages.Draft.Parse`: when parsing fails, nothing is stated about the draft's fields. A failed read marks the parser failed and leaves nothing more to read, much as `set_error` does.
- `Version::SupportRepliesInOtherChats` (Version.h) is the parameter `repliesInOtherChats`. `RepliedMessageInfo::is_same_chat_reply` (RepliedMessageInfo.h) is the parameter `sameChat`. Neither file is part of this model.
- `MessageId::is_valid`, `MessageId::is_scheduled`, `DialogId::is_valid` and `MessageOrigin::get_message_origin` are the `IdRules` parameter and the `originParses` field. `origin_` is never assigned by the constructor, so it keeps its default value.
- The reply header's `reply_media_` and quote fields only feed a log line (RepliedMessageInfo.cpp:37-41), so they are left out. All `LOG(...)` lines are left out.
- `BackgroundManagerModel.BackgroundManager.SelectRecord` adds the record before it sets the slot, which is the reverse of lines 359-362. The two steps write different fields.
- `BackgroundManagerModel.BackgroundManager.LoadRecord` indexes the slug after the merge rather than before it (lines 500-504). The merge never binds that slug, so the result is the same.
- `BackgroundManagerModel.BackgroundManager.StartUp` unrolls the two loops over the themes at lines 327 and 342 into two calls each, light theme first.
- `BackgroundManagerModel.BackgroundManager.SetBackground` keeps the check of line 647 as written, and so do `SetDecisionOf` and `StartUp`, which keeps add_background as written. The corrected members are proved beside them (see Findings).
- `BackgroundStorage.ParseBackground` does not promise that a record read with its document has a file. The document parser may return an invalid file id (lines 294-296), and `start_up` then drops the record and rewrites the theme's key (lines 353-356, `KeepOrDrop`).
- `BackgroundStorage.StoreParseBackground` is stated only for records that did not lose their document. Such a record reads six tokens but stores five, as `ParseLosesDocument` shows.
- `Background::has_new_local_id`'s declared default (BackgroundManager.h, not part of this model) is the parameter `env.markerDefault`. Every record the source builds without setting the field carries it: a fill record (`FillBackground`) and a record new to the registry (`Merge`, through `DefaultBackground`). Lines 334 and 349 suggest the default is true, but the model does not fix it. `StartUpSavesDefaultMarker` and `RestoreThemeResavesDefaultMarker` state both outcomes.
- Ids and flag words are unbounded integers, so the int32/int64 widths and a mark overflowing at the top of int64 are not modelled.
- `BackgroundTypes.TransientUploadErrorKeepsPartial` states one direction of the rule. The other direction is the definition of `DiscardsPartialUpload`.

## Findings

| source | as written | input that shows it | evidently intended | confidence | as-written member | corrected member |
|---|---|---|---|---|---|---|
| td/telegram/BackgroundManager.cpp:647 | `set_background` fails with "Background type mismatch" when the stored type `has_equal_type` the requested one | reinstalling a known file-backed wallpaper with a type equal to its own is refused, and any type that does not match is accepted | fail when the types do NOT match | high; not executed | BackgroundTypes.SetTypeCheckIsInverted | BackgroundTypes.CheckSetTypeIntended |
| td/telegram/BackgroundManager.cpp:348-366 and 874-883 | `start_up` gives an old fill record (no file, no `has_new_local_id`) the next local id and the marker. It then calls `add_background`, which never copies `has_new_local_id`, and saves the selection from the registry's copy. A new registry record carries the field's declared default, which is in BackgroundManager.h | only if that default is false: a light-theme log event holding a fill record without the marker and an empty registry. The event saved under "bg" has the new id and still no marker, so every later `start_up` renumbers it again. With a true default, which lines 334 and 349 suggest, the saved event keeps the marker and there is no bug | the saved event keeps the marker whatever the default, so the next `start_up` keeps the id and raises the mark over it | low: depends on a default that is not part of this model; not executed | BackgroundManagerModel.StartUpSavesDefaultMarker | BackgroundManagerModel.StartUpIntendedKeepsMarker |
