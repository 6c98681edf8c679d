/**
 * BackgroundManager (td/telegram/BackgroundManager.cpp) as a class whose
 * fields are the manager's member maps and vectors. Remote calls, database
 * reads and file-manager calls are appended to `outbox`; what a caller's
 * promise is resolved with is appended to `resolved`; every
 * updateSelectedBackground sent is appended to `updates`. Completions of
 * requests are methods the environment calls with the result.
 */
module BackgroundManagerModel {
  import opened Wrappers
  import opened BackgroundTypes
  import opened BackgroundStorage
  import opened BackgroundRegistry
  import opened BackgroundOrder

  /** A theme's selection: set_background_id_[i] and set_background_type_[i]. */
  datatype Slot = Slot(id: BackgroundId, setType: BackgroundType)

  /** The unset selection: BackgroundId() with BackgroundType(). */
  const NoSlot: Slot := Slot(0, DefaultType)

  /** An entry of being_uploaded_files_. */
  datatype UploadRequest = UploadRequest(uploadType: BackgroundType, forDarkTheme: bool, promise: PromiseId)

  /**
   * The reply to account.getWallPapers as the manager sees it: an error,
   * "not modified", or the list of wallpapers, each given as the record
   * on_get_background decodes from it (None when it rejects the wallpaper).
   */
  datatype WallPapersResult =
    | WallPapersError(error: Error)
    | WallPapersNotModified
    | WallPapers(items: seq<Option<Background>>)

  /** The InputBackground of set_background: a local file (after prepare_input_file) or a remote id. */
  datatype InputBackground = LocalInput(preparedFile: Result<FileId, Error>) | RemoteInput(remoteId: BackgroundId)

  /** Resolving every promise of a list with the same outcome, in order. */
  function ResolveAll(promises: seq<PromiseId>, outcome: Outcome): (rs: seq<Resolution>)
    ensures |rs| == |promises|
    ensures forall i :: 0 <= i < |promises| ==> rs[i] == Resolution(promises[i], outcome)
  {
    if promises == [] then [] else ResolveAll(promises[..|promises| - 1], outcome) + [Resolution(promises[|promises| - 1], outcome)]
  }

  /**
   * The record add_fill_background builds. It does not set has_new_local_id,
   * so the record carries the declared default.
   */
  function FillBackground(env: Env, id: BackgroundId, fill: BackgroundFill, isDefault: bool, isDark: bool): (b: Background)
    ensures b.id == id && b.isCreator && b.fileId == 0 && !HasFile(b.backgroundType) && b.hasNewLocalId == env.markerDefault
  {
    Background(id, 0, true, isDefault, isDark, env.markerDefault, env.link(FillType(fill)), FillType(fill), 0, 0)
  }

  /** The background a selection slot stores in the binlog, or None when the slot is unset. */
  function SlotRecord(backgrounds: map<BackgroundId, Background>, slot: Slot): Option<LogEvent>
  {
    if slot.id != 0 && slot.id in backgrounds then Some(LogEvent(backgrounds[slot.id], slot.setType)) else None
  }

  /** save_background_id on a binlog: the selection's log event, or the key erased. */
  function SavedBinlog(binlog: map<string, seq<Token>>, forDarkTheme: bool, saved: Option<LogEvent>): (b: map<string, seq<Token>>)
    ensures saved.Some? ==> SelectionKey(forDarkTheme) in b && ParseLogEvent(b[SelectionKey(forDarkTheme)]) == Some(LogEvent(Restored(saved.value.background), saved.value.setType))
    ensures saved.None? ==> SelectionKey(forDarkTheme) !in b
    ensures forall k :: k != SelectionKey(forDarkTheme) ==> (k in b <==> k in binlog) && (k in b ==> b[k] == binlog[k])
  {
    match saved
    case Some(e) =>
      LogEventRoundTrip(e);
      binlog[SelectionKey(forDarkTheme) := StoreLogEvent(e)]
    case None => binlog - {SelectionKey(forDarkTheme)}
  }

  /** What set_background_id changes: both slots, the binlog and the updates sent. */
  datatype Selection = Selection(light: Slot, dark: Slot, binlog: map<string, seq<Token>>, updates: seq<bool>)

  function SlotIn(s: Selection, forDarkTheme: bool): Slot
  {
    if forDarkTheme then s.dark else s.light
  }

  /**
   * set_background_id (lines 705-715) on values: selecting what the theme
   * already has changes nothing; otherwise the theme's slot is replaced, it
   * is saved (save_background_id) and an update is sent for that theme.
   */
  function Select(backgrounds: map<BackgroundId, Background>, s: Selection, id: BackgroundId, t: BackgroundType, forDarkTheme: bool): Selection
  {
    var slot := Slot(id, t);
    if SlotIn(s, forDarkTheme) == slot then s
    else Selection(if forDarkTheme then s.light else slot, if forDarkTheme then slot else s.dark,
                   SavedBinlog(s.binlog, forDarkTheme, SlotRecord(backgrounds, slot)), s.updates + [forDarkTheme])
  }

  /**
   * The promises of set_background_id: no store write and no update when
   * nothing changes; otherwise only that theme's slot changes, exactly one
   * update is sent, a valid selection reads back from its key as the same
   * background and type, an unset one erases the key, and no other key
   * (the "max_bg_id" mark included) is touched.
   */
  lemma SelectEffect(backgrounds: map<BackgroundId, Background>, s: Selection, id: BackgroundId, t: BackgroundType, forDarkTheme: bool)
    ensures var out := Select(backgrounds, s, id, t, forDarkTheme);
      && (SlotIn(s, forDarkTheme) == Slot(id, t) <==> out == s)
      && SlotIn(out, forDarkTheme) == Slot(id, t) && SlotIn(out, !forDarkTheme) == SlotIn(s, !forDarkTheme)
      && (out != s ==> out.updates == s.updates + [forDarkTheme])
      && (out != s && id != 0 && id in backgrounds ==>
            SelectionKey(forDarkTheme) in out.binlog
            && ParseLogEvent(out.binlog[SelectionKey(forDarkTheme)]) == Some(LogEvent(Restored(backgrounds[id]), t)))
      && (out != s && id == 0 ==> SelectionKey(forDarkTheme) !in out.binlog)
      && (forall k :: k != SelectionKey(forDarkTheme) ==> (k in out.binlog <==> k in s.binlog) && (k in out.binlog ==> out.binlog[k] == s.binlog[k]))
  {
  }

  /** Selecting the same background and type twice is the same as selecting it once. */
  lemma SelectIdempotent(backgrounds: map<BackgroundId, Background>, s: Selection, id: BackgroundId, t: BackgroundType, forDarkTheme: bool)
    ensures var once := Select(backgrounds, s, id, t, forDarkTheme);
      Select(backgrounds, once, id, t, forDarkTheme) == once
  {
  }

  /** td::remove: every occurrence of `id` dropped, the rest kept in order. */
  function Without(ids: seq<BackgroundId>, id: BackgroundId): (r: seq<BackgroundId>)
    ensures forall x :: x in r <==> x in ids && x != id
    ensures |r| <= |ids| && (id !in ids ==> r == ids)
  {
    if ids == [] then []
    else (if ids[0] == id then [] else [ids[0]]) + Without(ids[1..], id)
  }

  /**
   * on_removed_background's effect on the selection: a theme showing the
   * removed background is reset to no background, the light theme first.
   */
  function ClearSelected(backgrounds: map<BackgroundId, Background>, s: Selection, id: BackgroundId): Selection
  {
    var s1 := if s.light.id == id then Select(backgrounds, s, 0, DefaultType, false) else s;
    if s1.dark.id == id then Select(backgrounds, s1, 0, DefaultType, true) else s1
  }

  /** After a removal neither theme shows the removed background, and a theme that did not show it is untouched. */
  lemma ClearSelectedEffect(backgrounds: map<BackgroundId, Background>, s: Selection, id: BackgroundId)
    requires id != 0
    ensures var out := ClearSelected(backgrounds, s, id);
      && out.light.id != id && out.dark.id != id
      && (s.light.id != id ==> out.light == s.light)
      && (s.dark.id != id ==> out.dark == s.dark)
      && (s.light.id != id && s.dark.id != id ==> out == s)
  {
    var s1 := if s.light.id == id then Select(backgrounds, s, 0, DefaultType, false) else s;
    SelectEffect(backgrounds, s, 0, DefaultType, false);
    SelectEffect(backgrounds, s1, 0, DefaultType, true);
  }

  /** on_reset_background's effect on the selection: both themes reset to no background, light first. */
  function ClearAll(backgrounds: map<BackgroundId, Background>, s: Selection): Selection
  {
    Select(backgrounds, Select(backgrounds, s, 0, DefaultType, false), 0, DefaultType, true)
  }

  /** After a reset both themes show nothing, and their store keys are gone unless both were already unset. */
  lemma ClearAllEffect(backgrounds: map<BackgroundId, Background>, s: Selection)
    ensures var out := ClearAll(backgrounds, s);
      && out.light == NoSlot && out.dark == NoSlot
      && (s.light != NoSlot ==> SelectionKey(false) !in out.binlog)
      && (s.dark != NoSlot ==> SelectionKey(true) !in out.binlog)
      && (forall k :: k != SelectionKey(false) && k != SelectionKey(true) ==>
            (k in out.binlog <==> k in s.binlog) && (k in out.binlog ==> out.binlog[k] == s.binlog[k]))
  {
    var s1 := Select(backgrounds, s, 0, DefaultType, false);
    SelectEffect(backgrounds, s, 0, DefaultType, false);
    SelectEffect(backgrounds, s1, 0, DefaultType, true);
  }

  predicate RefsWithin(installed: seq<BackgroundId>, light: Slot, dark: Slot, known: set<BackgroundId>)
  {
    && (forall i :: 0 <= i < |installed| ==> installed[i] in known)
    && (light.id != 0 ==> light.id in known)
    && (dark.id != 0 ==> dark.id in known)
  }

  lemma RefsWithinGrow(installed: seq<BackgroundId>, light: Slot, dark: Slot, known: set<BackgroundId>, more: set<BackgroundId>)
    requires RefsWithin(installed, light, dark, known) && known <= more
    ensures RefsWithin(installed, light, dark, more)
  {
  }

  lemma RefsWithinWithout(installed: seq<BackgroundId>, light: Slot, dark: Slot, known: set<BackgroundId>, id: BackgroundId)
    requires RefsWithin(installed, light, dark, known)
    ensures RefsWithin(Without(installed, id), light, dark, known)
  {
    var rest := Without(installed, id);
    forall i | 0 <= i < |rest|
      ensures rest[i] in known
    {
      assert rest[i] in rest;
    }
  }

  /**
   * get_background_object (lines 1088-1108) for a known background: the
   * type shown is the one the requested theme selected it with, else the
   * one the other theme selected it with, else the stored one.
   */
  function ObjectOf(id: BackgroundId, b: Background, light: Slot, dark: Slot, forDarkTheme: bool): (o: BackgroundObject)
    ensures o.id == b.id && o.isDefault == b.isDefault && o.isDark == b.isDark && o.name == b.name
  {
    var mine := if forDarkTheme then dark else light;
    var other := if forDarkTheme then light else dark;
    var t := if id == mine.id then mine.setType else if id == other.id then other.setType else b.backgroundType;
    BackgroundObject(b.id, b.isDefault, b.isDark, b.name, t)
  }

  /** The ids get_backgrounds_object lists: the installed ones, then the selected one when it is valid and not installed. */
  function ListedIds(installed: seq<BackgroundId>, selected: BackgroundId): seq<BackgroundId>
  {
    if selected != 0 && selected !in installed then installed + [selected] else installed
  }

  function ObjectsOf(backgrounds: map<BackgroundId, Background>, ids: seq<BackgroundId>, light: Slot, dark: Slot, forDarkTheme: bool): (os: seq<BackgroundObject>)
    requires forall i :: 0 <= i < |ids| ==> ids[i] in backgrounds
    ensures |os| == |ids|
    ensures forall i :: 0 <= i < |ids| ==> os[i] == ObjectOf(ids[i], backgrounds[ids[i]], light, dark, forDarkTheme)
  {
    seq(|ids|, i requires 0 <= i < |ids| => ObjectOf(ids[i], backgrounds[ids[i]], light, dark, forDarkTheme))
  }

  /** get_backgrounds_object (lines 1110-1134): the listed objects, stably ordered by OrderKey. */
  function BackgroundsObject(backgrounds: map<BackgroundId, Background>, installed: seq<BackgroundId>, light: Slot, dark: Slot,
                             forDarkTheme: bool): seq<BackgroundObject>
    requires RefsWithin(installed, light, dark, backgrounds.Keys)
  {
    var selected := (if forDarkTheme then dark else light).id;
    StableOrder(ObjectsOf(backgrounds, ListedIds(installed, selected), light, dark, forDarkTheme), selected, forDarkTheme)
  }

  /** The objects get_backgrounds_object builds before sorting. */
  function ListedObjects(backgrounds: map<BackgroundId, Background>, installed: seq<BackgroundId>, light: Slot, dark: Slot,
                         forDarkTheme: bool): seq<BackgroundObject>
    requires RefsWithin(installed, light, dark, backgrounds.Keys)
  {
    ObjectsOf(backgrounds, ListedIds(installed, (if forDarkTheme then dark else light).id), light, dark, forDarkTheme)
  }

  /**
   * The list is the listed objects reordered without loss (one per
   * installed background, plus the selected one when it is not installed)
   * and sorted by OrderKey.
   */
  lemma BackgroundsObjectPermutes(backgrounds: map<BackgroundId, Background>, installed: seq<BackgroundId>, light: Slot, dark: Slot,
                                  forDarkTheme: bool)
    requires RefsWithin(installed, light, dark, backgrounds.Keys)
    ensures var slot := if forDarkTheme then dark else light;
      var r := BackgroundsObject(backgrounds, installed, light, dark, forDarkTheme);
      && multiset(r) == multiset(ListedObjects(backgrounds, installed, light, dark, forDarkTheme))
      && |r| == |installed| + (if slot.id != 0 && slot.id !in installed then 1 else 0)
      && SortedByKey(r, slot.id, forDarkTheme)
  {
    var slot := if forDarkTheme then dark else light;
    var objects := ListedObjects(backgrounds, installed, light, dark, forDarkTheme);
    StableOrderPermutes(objects, slot.id, forDarkTheme);
    StableOrderSorted(objects, slot.id, forDarkTheme);
    assert |multiset(objects)| == |objects|;
  }

  /** Every installed background is in the list, shown under its own id. */
  lemma BackgroundsObjectInstalled(backgrounds: map<BackgroundId, Background>, installed: seq<BackgroundId>, light: Slot, dark: Slot,
                                   forDarkTheme: bool, i: nat)
    requires RefsWithin(installed, light, dark, backgrounds.Keys)
    requires forall id {:trigger backgrounds[id]} :: id in backgrounds ==> backgrounds[id].id == id
    requires i < |installed|
    ensures exists o :: o in BackgroundsObject(backgrounds, installed, light, dark, forDarkTheme) && o.id == installed[i]
  {
    var slot := if forDarkTheme then dark else light;
    var objects := ListedObjects(backgrounds, installed, light, dark, forDarkTheme);
    StableOrderPermutes(objects, slot.id, forDarkTheme);
    assert objects[i] in multiset(objects);
    assert objects[i].id == installed[i];
  }

  /** A listed object carrying the selected id is shown with the type the theme selected it with. */
  lemma ListedSelectedType(backgrounds: map<BackgroundId, Background>, installed: seq<BackgroundId>, light: Slot, dark: Slot,
                           forDarkTheme: bool, o: BackgroundObject)
    requires RefsWithin(installed, light, dark, backgrounds.Keys)
    requires forall id {:trigger backgrounds[id]} :: id in backgrounds ==> backgrounds[id].id == id
    requires o in ListedObjects(backgrounds, installed, light, dark, forDarkTheme)
    requires o.id == (if forDarkTheme then dark else light).id
    ensures o.objectType == (if forDarkTheme then dark else light).setType
  {
    var objects := ListedObjects(backgrounds, installed, light, dark, forDarkTheme);
    var ids := ListedIds(installed, (if forDarkTheme then dark else light).id);
    var j :| 0 <= j < |objects| && objects[j] == o;
    assert backgrounds[ids[j]].id == ids[j];
  }

  /** A selected background comes first, shown with the type the theme selected it with. */
  lemma BackgroundsObjectSelectedFirst(backgrounds: map<BackgroundId, Background>, installed: seq<BackgroundId>, light: Slot, dark: Slot,
                                       forDarkTheme: bool)
    requires RefsWithin(installed, light, dark, backgrounds.Keys)
    requires forall id {:trigger backgrounds[id]} :: id in backgrounds ==> backgrounds[id].id == id
    ensures var slot := if forDarkTheme then dark else light;
      var r := BackgroundsObject(backgrounds, installed, light, dark, forDarkTheme);
      slot.id != 0 ==> |r| > 0 && r[0].id == slot.id && r[0].objectType == slot.setType
  {
    var slot := if forDarkTheme then dark else light;
    if slot.id != 0 {
      var ids := ListedIds(installed, slot.id);
      var objects := ListedObjects(backgrounds, installed, light, dark, forDarkTheme);
      var r := StableOrder(objects, slot.id, forDarkTheme);
      var k := if slot.id in installed then FirstIndexOf(installed, slot.id) else |installed|;
      assert backgrounds[ids[k]].id == slot.id;
      SelectedComesFirst(objects, slot.id, forDarkTheme, k);
      StableOrderPermutes(objects, slot.id, forDarkTheme);
      assert r[0] in multiset(r);
      ListedSelectedType(backgrounds, installed, light, dark, forDarkTheme, r[0]);
    }
  }

  /** The first position of a value in a sequence that holds it. */
  function FirstIndexOf(s: seq<BackgroundId>, x: BackgroundId): (i: nat)
    requires x in s
    ensures i < |s| && s[i] == x && x !in s[..i]
  {
    if s[0] == x then 0 else 1 + FirstIndexOf(s[1..], x)
  }

  /** The waiters of a slug in being_loaded_from_database_backgrounds_ (operator[] default-constructs an empty list). */
  function Waiters(pending: map<string, seq<PromiseId>>, slug: string): seq<PromiseId>
  {
    if slug in pending then pending[slug] else []
  }

  /** The branch search_background takes for a name, in the order it tests them. */
  datatype SearchRoute = Indexed | EmptySlug | LocalFill | DatabaseLoad | ServerLoad

  function SearchRouteOf(r: Registry, useFileDb: bool, name: string): SearchRoute
  {
    var slug := Slug(name);
    if slug in r.nameToId then Indexed
    else if slug == [] then EmptySlug
    else if IsBackgroundNameLocal(slug) then LocalFill
    else if useFileDb && slug !in r.loadedFromDatabase then DatabaseLoad
    else ServerLoad
  }

  /**
   * In a well-formed registry the local branch is chosen by the name alone:
   * an indexed slug is never local (the CHECK at line 433), and only a
   * non-local slug can wait for the database or the server.
   */
  lemma SearchRouteByName(r: Registry, useFileDb: bool, name: string)
    requires RegistryOk(r)
    ensures SearchRouteOf(r, useFileDb, name) == LocalFill <==> Slug(name) != [] && IsBackgroundNameLocal(Slug(name))
    ensures SearchRouteOf(r, useFileDb, name) == EmptySlug <==> Slug(name) == []
    ensures SearchRouteOf(r, useFileDb, name) in {Indexed, DatabaseLoad, ServerLoad} ==> !IsBackgroundNameLocal(Slug(name))
  {
    var slug := Slug(name);
    if slug in r.nameToId {
      assert !IsBackgroundNameLocal(slug);
    }
    if slug == [] {
      assert IsBackgroundNameLocal(slug);
    }
  }

  /**
   * When on_load_background_from_database adds a record: the slug is not
   * indexed yet, the stored value is non-empty and parses as a Background
   * that has a file, a valid file id and a valid id.
   */
  predicate LoadsRecord(r: Registry, name: string, value: seq<Token>)
  {
    && name !in r.nameToId && value != [] && ParseStoredBackground(value).Some?
    && var b := ParseStoredBackground(value).value;
       HasFile(b.backgroundType) && b.fileId != 0 && b.id != 0
  }

  /**
   * The registry half of on_load_background_from_database (lines 489-506):
   * the slug is marked as looked up, and a record that passes LoadsRecord is
   * merged and, when its own name differs, also indexed under the slug.
   */
  function LoadFromDatabase(env: Env, r: Registry, name: string, value: seq<Token>): (out: (Registry, seq<Request>))
    requires RegistryOk(r) && !IsBackgroundNameLocal(name)
    ensures RegistryOk(out.0)
  {
    var marked := r.(loadedFromDatabase := r.loadedFromDatabase + {name});
    MarkLoadedKeepsOk(r, name);
    if !LoadsRecord(r, name, value) then (marked, [])
    else AdoptLoaded(env, marked, name, ParseStoredBackground(value).value)
  }

  /** Lines 500-504: the loaded record is merged and, when its own name differs, also indexed under the slug. */
  function AdoptLoaded(env: Env, r: Registry, name: string, b: Background): (out: (Registry, seq<Request>))
    requires RegistryOk(r) && !IsBackgroundNameLocal(name) && MergeAllowed(r, b)
    ensures RegistryOk(out.0)
  {
    MergePreservesOk(env, r, b);
    var (r1, requests) := Merge(env, r, b);
    if b.name != name then
      IndexSlugKeepsOk(r1, name, b.id);
      (r1.(nameToId := r1.nameToId[name := b.id]), requests)
    else (r1, requests)
  }

  lemma MarkLoadedKeepsOk(r: Registry, name: string)
    requires RegistryOk(r)
    ensures RegistryOk(r.(loadedFromDatabase := r.loadedFromDatabase + {name}))
  {
  }

  lemma IndexSlugKeepsOk(r: Registry, name: string, id: BackgroundId)
    requires RegistryOk(r) && !IsBackgroundNameLocal(name) && id in r.backgrounds
    ensures RegistryOk(r.(nameToId := r.nameToId[name := id]))
  {
  }

  /**
   * on_load_background_from_database afterwards: a value that fails
   * LoadsRecord only marks the slug; one that passes adds exactly its record
   * (and indexes the slug when the record's own name differs); either way the
   * slug is never looked up in the database again, because it is marked or
   * indexed.
   */
  lemma LoadFromDatabaseEffect(env: Env, r: Registry, name: string, value: seq<Token>)
    requires RegistryOk(r) && !IsBackgroundNameLocal(name)
    ensures var out := LoadFromDatabase(env, r, name, value);
      && (!LoadsRecord(r, name, value) ==> out == (r.(loadedFromDatabase := r.loadedFromDatabase + {name}), []))
      && (LoadsRecord(r, name, value) ==>
            var b := ParseStoredBackground(value).value;
            && out.0.backgrounds.Keys == r.backgrounds.Keys + {b.id}
            && (b.name != name ==> name in out.0.nameToId && out.0.nameToId[name] == b.id))
      && (name in out.0.loadedFromDatabase || name in out.0.nameToId)
  {
    if LoadsRecord(r, name, value) {
      var marked := r.(loadedFromDatabase := r.loadedFromDatabase + {name});
      var b := ParseStoredBackground(value).value;
      MergeNames(env, marked, b);
      var r1 := Merge(env, marked, b).0;
      if b.name == name && name !in r1.nameToId {
        assert name in r1.loadedFromDatabase;
      }
    }
  }

  /**
   * The reply to account.getWallPaper: an error, or the record
   * on_get_background decodes from the wallpaper (None when it rejects it).
   */
  datatype WallPaperResult = WallPaperError(error: Error) | WallPaperReceived(decoded: Option<Background>)

  /**
   * A fill background created for a local slug under an id not yet known
   * brings no file, so its add_background asks nothing of the file
   * reference manager or the file manager: search_background's local branch
   * sends no request at all.
   */
  lemma LocalFillSendsNothing(env: Env, r: Registry, id: BackgroundId, fill: BackgroundFill)
    requires RegistryOk(r) && id != 0 && id !in r.backgrounds && id !in r.reservations
    ensures MergeAllowed(r, FillBackground(env, id, fill, false, env.fillIsDark(fill)))
    ensures Merge(env, r, FillBackground(env, id, fill, false, env.fillIsDark(fill))).1 == []
  {
    MergeFileSource(env, r, FillBackground(env, id, fill, false, env.fillIsDark(fill)));
  }

  /** The slug a GetBackgroundQuery expects: the one it asked for, or none for a lookup by id. */
  function ExpectedName(input: InputWallPaper): string
  {
    if input.InputWallPaperSlug? then input.slug else []
  }

  /**
   * Lines 1034-1037 of on_get_background: a wallpaper with a document whose
   * own slug differs from the expected one is also indexed under the
   * expected slug, unless that slug is bound already (emplace).
   */
  function BindExpectedName(names: map<string, BackgroundId>, expectedName: string, b: Background): map<string, BackgroundId>
  {
    if HasFile(b.backgroundType) && expectedName != [] && b.name != expectedName && expectedName !in names
    then names[expectedName := b.id]
    else names
  }

  /** on_get_background for a record it accepted: add_background, the expected slug, the database write. */
  function ReceiveReply(env: Env, useFileDb: bool, r: Registry, expectedName: string, b: Background): (out: (Registry, seq<Request>))
    requires RegistryOk(r) && MergeAllowed(r, b) && (expectedName == [] || !IsBackgroundNameLocal(expectedName))
    ensures RegistryOk(out.0) && out.0.backgrounds.Keys == r.backgrounds.Keys + {b.id}
  {
    MergePreservesOk(env, r, b);
    var (r1, requests) := Merge(env, r, b);
    var r2 := r1.(nameToId := BindExpectedName(r1.nameToId, expectedName, b));
    assert RegistryOk(r2) by {
      if r2.nameToId != r1.nameToId {
        IndexSlugKeepsOk(r1, expectedName, b.id);
      }
    }
    (r2, requests + SaveReceived(useFileDb, b))
  }

  /**
   * After a reply to a slug lookup the slug is indexed exactly when it was
   * already, or the record is a wallpaper with a document named otherwise,
   * or the record carries that slug as a new name; a slug newly indexed
   * points at the received record, and no earlier binding changes.
   */
  lemma {:induction false} ReceivedSlugIndexed(env: Env, useFileDb: bool, r: Registry, slug: string, b: Background)
    requires RegistryOk(r) && MergeAllowed(r, b) && slug != [] && !IsBackgroundNameLocal(slug)
    ensures var names := ReceiveReply(env, useFileDb, r, slug, b).0.nameToId;
      && (slug in names <==>
            slug in r.nameToId || (HasFile(b.backgroundType) && b.name != slug) || (b.name == slug && Current(env, r, b.id).name != slug))
      && (slug in names && slug !in r.nameToId ==> names[slug] == b.id)
      && (forall n {:trigger r.nameToId[n]} :: n in r.nameToId ==> n in names && names[n] == r.nameToId[n])
  {
    MergeNames(env, r, b);
  }

  /** What on_get_background writes under a slug's key is what on_load_background_from_database later adopts. */
  lemma SavedRecordLoads(r: Registry, b: Background)
    requires HasFile(b.backgroundType) && b.fileId != 0 && b.id != 0 && b.name !in r.nameToId
    ensures LoadsRecord(r, b.name, StoreBackground(b)) && ParseStoredBackground(StoreBackground(b)) == Some(Restored(b))
  {
    StoredBackgroundRoundTrip(b);
  }

  /** What set_background decides for an id and a requested type, before it acts. */
  datatype SetDecision = SetFails(error: Error) | AlreadySet | SetLocally(t: BackgroundType) | InstallRemotely(t: BackgroundType)

  /**
   * Lines 640-662 of set_background: an unknown id fails; the type check of
   * CheckSetType (as written) may fail; the current selection is kept; a
   * type without a file is selected locally and one with a file is installed
   * on the server.
   */
  function SetDecisionOf(env: Env, backgrounds: map<BackgroundId, Background>, slot: Slot, id: BackgroundId, requested: BackgroundType): SetDecision
  {
    if id !in backgrounds then SetFails(Error(400, "Background to set not found"))
    else match CheckSetType(env, backgrounds[id].backgroundType, requested)
      case Failure(e) => SetFails(e)
      case Success(t) =>
        if slot == Slot(id, t) then AlreadySet
        else if !HasFile(t) then SetLocally(t)
        else InstallRemotely(t)
  }

  /** What start_up changes: the registry, the requests sent, the selection and the local-id mark. */
  datatype Boot = Boot(r: Registry, outbox: seq<Request>, s: Selection, mark: BackgroundId)

  /** The selection log event start_up finds under a theme's key: None when the key holds nothing. */
  function StoredSelection(binlog: map<string, seq<Token>>, forDarkTheme: bool): Option<LogEvent>
  {
    var key := SelectionKey(forDarkTheme);
    if key in binlog && binlog[key] != [] then ParseLogEvent(binlog[key]) else None
  }

  /** A non-empty selection log event parses (log_event_parse(...).ensure()). */
  predicate SelectionParses(binlog: map<string, seq<Token>>, forDarkTheme: bool)
  {
    var key := SelectionKey(forDarkTheme);
    key in binlog && binlog[key] != [] ==> ParseLogEvent(binlog[key]).Some?
  }

  /** A record that already carries a new-style local id of a fill background. */
  predicate MarksLocalFill(env: Env, b: Background)
  {
    b.hasNewLocalId && env.isLocalId(b.id) && !HasFile(b.backgroundType)
  }

  /** A fill record from before local ids were renumbered: start_up gives it the next local id. */
  predicate NeedsNewId(b: Background)
  {
    !b.hasNewLocalId && !HasFile(b.backgroundType)
  }

  /** A record whose file agrees with its type; start_up drops the others. */
  predicate FileMatchesType(b: Background)
  {
    (b.fileId != 0) == HasFile(b.backgroundType)
  }

  /** Two stores that hold the same value under every key but `key`. */
  ghost predicate AgreeExcept(a: map<string, seq<Token>>, b: map<string, seq<Token>>, key: string)
  {
    forall k :: k != key ==> (k in a <==> k in b) && (k in a ==> a[k] == b[k])
  }

  /** The first pass of start_up for one theme: the mark rises to a marked local fill id above it. */
  function RaisedMark(env: Env, mark: BackgroundId, e: Option<LogEvent>): (m: BackgroundId)
    ensures m >= mark
    ensures e.Some? && MarksLocalFill(env, e.value.background) ==> m >= e.value.background.id
  {
    if e.Some? && MarksLocalFill(env, e.value.background) && e.value.background.id > mark then e.value.background.id else mark
  }

  /** The first pass on the state: a raised mark is persisted under "max_bg_id". */
  function RaiseMark(env: Env, st: Boot, e: Option<LogEvent>): (out: Boot)
    ensures out.r == st.r && out.outbox == st.outbox && out.mark == RaisedMark(env, st.mark, e)
  {
    var m := RaisedMark(env, st.mark, e);
    if m != st.mark then st.(mark := m, s := st.s.(binlog := st.s.binlog[MaxLocalIdKey := [IntToken(m)]])) else st
  }

  /** The mark after the first pass over both themes. */
  function PassOneMark(env: Env, binlog: map<string, seq<Token>>): BackgroundId
  {
    RaisedMark(env, RaisedMark(env, StoredMaxLocalId(binlog), StoredSelection(binlog, false)), StoredSelection(binlog, true))
  }

  /** The CHECKs of the second pass for one theme: the next local id is local, a kept id is valid. */
  predicate Restorable(env: Env, mark: BackgroundId, e: Option<LogEvent>)
  {
    e.Some? ==> (NeedsNewId(e.value.background) ==> env.isLocalId(mark + 1)) && (!NeedsNewId(e.value.background) ==> e.value.background.id != 0)
  }

  /** The record the second pass adds for a theme: a record needing a new id gets the marker and the id one above the mark. */
  function Renumbered(b: Background, mark: BackgroundId): Background
  {
    if NeedsNewId(b) then b.(hasNewLocalId := true, id := mark + 1) else b
  }

  /** A selection with one theme's slot replaced. */
  function WithSlot(s: Selection, slot: Slot, forDarkTheme: bool): (out: Selection)
    ensures SlotIn(out, forDarkTheme) == slot && SlotIn(out, !forDarkTheme) == SlotIn(s, !forDarkTheme)
    ensures out.binlog == s.binlog && out.updates == s.updates
  {
    if forDarkTheme then s.(dark := slot) else s.(light := slot)
  }

  /** add_background as written, or with the marker kept when `intended`. */
  function AddStored(env: Env, r: Registry, b: Background, intended: bool): (out: (Registry, seq<Request>))
    requires RegistryOk(r) && MergeAllowed(r, b)
    ensures RegistryOk(out.0) && out.0.backgrounds.Keys == r.backgrounds.Keys + {b.id}
    ensures out.0.reservations == r.reservations - {b.id}
    ensures !intended ==> out == Merge(env, r, b)
  {
    MergePreservesOk(env, r, b);
    if intended then MergeIntended(env, r, b) else Merge(env, r, b)
  }

  /** Lines 348-352: a record needing a new id takes the next local id, and the raised mark is persisted. */
  function Renumber(st: Boot, b: Background): (out: Boot)
    ensures out.r == st.r && out.outbox == st.outbox && SlotIn(out.s, false) == SlotIn(st.s, false)
    ensures SlotIn(out.s, true) == SlotIn(st.s, true) && out.s.updates == st.s.updates
  {
    if NeedsNewId(b) then st.(mark := st.mark + 1, s := st.s.(binlog := st.s.binlog[MaxLocalIdKey := [IntToken(st.mark + 1)]]))
    else st
  }

  /** Lines 359-366: the record becomes the theme's selection and is added, and is saved again when it was renumbered. */
  function KeepMatching(env: Env, st: Boot, b: Background, setType: BackgroundType, forDarkTheme: bool, resave: bool,
                        intended: bool): (out: Boot)
    requires EnvOk(env) && RegistryOk(st.r) && st.r.reservations == map[] && b.id != 0
    ensures RegistryOk(out.r) && out.r.reservations == map[] && st.r.backgrounds.Keys <= out.r.backgrounds.Keys
    ensures AgreeExcept(out.s.binlog, st.s.binlog, SelectionKey(forDarkTheme))
    ensures out.mark == st.mark && out.s.updates == st.s.updates
    ensures SlotIn(out.s, !forDarkTheme) == SlotIn(st.s, !forDarkTheme)
  {
    var added := AddStored(env, st.r, b, intended);
    var slot := Slot(b.id, setType);
    var s1 := WithSlot(st.s, slot, forDarkTheme);
    Boot(added.0, st.outbox + added.1,
         if resave then s1.(binlog := SavedBinlog(s1.binlog, forDarkTheme, SlotRecord(added.0.backgrounds, slot))) else s1, st.mark)
  }

  /**
   * Lines 354-366: a record whose file disagrees with its type is dropped
   * and the theme's key rewritten from its current slot; any other record
   * is kept.
   */
  function KeepOrDrop(env: Env, st: Boot, b: Background, setType: BackgroundType, forDarkTheme: bool, resave: bool,
                      intended: bool): (out: Boot)
    requires EnvOk(env) && RegistryOk(st.r) && st.r.reservations == map[] && b.id != 0
    ensures RegistryOk(out.r) && out.r.reservations == map[] && st.r.backgrounds.Keys <= out.r.backgrounds.Keys
    ensures AgreeExcept(out.s.binlog, st.s.binlog, SelectionKey(forDarkTheme))
    ensures out.mark == st.mark && out.s.updates == st.s.updates
    ensures SlotIn(out.s, !forDarkTheme) == SlotIn(st.s, !forDarkTheme)
  {
    if !FileMatchesType(b) then
      st.(s := st.s.(binlog := SavedBinlog(st.s.binlog, forDarkTheme, SlotRecord(st.r.backgrounds, SlotIn(st.s, forDarkTheme)))))
    else KeepMatching(env, st, b, setType, forDarkTheme, resave, intended)
  }

  /**
   * The second pass of start_up for one theme (lines 341-370): a record
   * needing a new id is renumbered, then kept or dropped; an update is
   * sent for the theme whatever happened.
   */
  function RestoreTheme(env: Env, st: Boot, e: Option<LogEvent>, forDarkTheme: bool, intended: bool): (out: Boot)
    requires EnvOk(env) && RegistryOk(st.r) && st.r.reservations == map[] && Restorable(env, st.mark, e)
    ensures RegistryOk(out.r) && out.r.reservations == map[] && st.r.backgrounds.Keys <= out.r.backgrounds.Keys
    ensures out.mark == if e.Some? && NeedsNewId(e.value.background) then st.mark + 1 else st.mark
    ensures out.s.updates == st.s.updates + [forDarkTheme]
    ensures SlotIn(out.s, !forDarkTheme) == SlotIn(st.s, !forDarkTheme)
  {
    match e
    case None => st.(s := st.s.(updates := st.s.updates + [forDarkTheme]))
    case Some(ev) =>
      var kept := KeepOrDrop(env, Renumber(st, ev.background), Renumbered(ev.background, st.mark), ev.setType, forDarkTheme,
                             NeedsNewId(ev.background), intended);
      kept.(s := kept.s.(updates := st.s.updates + [forDarkTheme]))
  }

  /** The mark when the second pass reaches a theme: the light theme comes first and may have taken one id. */
  function MarkBefore(env: Env, binlog: map<string, seq<Token>>, forDarkTheme: bool): BackgroundId
  {
    var light := StoredSelection(binlog, false);
    var mark := PassOneMark(env, binlog);
    if forDarkTheme && light.Some? && NeedsNewId(light.value.background) then mark + 1 else mark
  }

  /** The CHECKs start_up makes of a persisted store: both log events parse and both themes can be restored. */
  predicate StartUpAllowed(env: Env, binlog: map<string, seq<Token>>)
  {
    && SelectionParses(binlog, false) && SelectionParses(binlog, true)
    && Restorable(env, MarkBefore(env, binlog, false), StoredSelection(binlog, false))
    && Restorable(env, MarkBefore(env, binlog, true), StoredSelection(binlog, true))
  }

  /** start_up (lines 321-372) on the state a new manager has, as written or with the marker kept. */
  function StartUpState(env: Env, r: Registry, outbox: seq<Request>, s: Selection, intended: bool): (out: Boot)
    requires EnvOk(env) && RegistryOk(r) && r.reservations == map[] && StartUpAllowed(env, s.binlog)
  {
    var light := StoredSelection(s.binlog, false);
    var dark := StoredSelection(s.binlog, true);
    var st1 := RaiseMark(env, RaiseMark(env, Boot(r, outbox, s, StoredMaxLocalId(s.binlog)), light), dark);
    RestoreTheme(env, RestoreTheme(env, st1, light, false, intended), dark, true, intended)
  }

  /**
   * The two passes of start_up in sequence from the mark st1 the first pass
   * leaves: each theme's CHECKs hold when its turn comes, and restoring
   * the light theme and then the dark one ends in StartUpState.
   */
  lemma StartUpPasses(env: Env, r: Registry, outbox: seq<Request>, s: Selection, intended: bool, st1: Boot)
    requires EnvOk(env) && RegistryOk(r) && r.reservations == map[] && StartUpAllowed(env, s.binlog)
    requires st1 == RaiseMark(env, RaiseMark(env, Boot(r, outbox, s, StoredMaxLocalId(s.binlog)), StoredSelection(s.binlog, false)),
                              StoredSelection(s.binlog, true))
    ensures st1.mark == MarkBefore(env, s.binlog, false) && Restorable(env, st1.mark, StoredSelection(s.binlog, false))
    ensures var st2 := RestoreTheme(env, st1, StoredSelection(s.binlog, false), false, intended);
      && st2.mark == MarkBefore(env, s.binlog, true) && Restorable(env, st2.mark, StoredSelection(s.binlog, true))
      && StartUpState(env, r, outbox, s, intended) == RestoreTheme(env, st2, StoredSelection(s.binlog, true), true, intended)
  {
  }

  /** Restoring one theme leaves the other theme's stored log event alone. */
  lemma RestoreThemeKeepsOtherKey(env: Env, st: Boot, e: Option<LogEvent>, forDarkTheme: bool, intended: bool)
    requires EnvOk(env) && RegistryOk(st.r) && st.r.reservations == map[] && Restorable(env, st.mark, e)
    ensures StoredSelection(RestoreTheme(env, st, e, forDarkTheme, intended).s.binlog, !forDarkTheme) == StoredSelection(st.s.binlog, !forDarkTheme)
  {
    var key := SelectionKey(!forDarkTheme);
    assert key != SelectionKey(forDarkTheme) && key != MaxLocalIdKey;
    if e.Some? {
      var st1 := Renumber(st, e.value.background);
      assert AgreeExcept(st1.s.binlog, st.s.binlog, MaxLocalIdKey);
    }
  }

  /**
   * As written: a renumbered fill record is saved again as the record the
   * registry now holds, and a record new to the registry carries the
   * declared default of has_new_local_id, not the marker the renumbering
   * set. So the event saved under the theme's key keeps the marker exactly
   * when that default is true; with a false default it is once more one
   * that needs a new id.
   */
  lemma RestoreThemeResavesDefaultMarker(env: Env, st: Boot, ev: LogEvent, forDarkTheme: bool)
    requires EnvOk(env) && RegistryOk(st.r) && st.r.reservations == map[] && Restorable(env, st.mark, Some(ev))
    requires NeedsNewId(ev.background) && ev.background.fileId == 0 && st.mark + 1 !in st.r.backgrounds
    ensures var saved := StoredSelection(RestoreTheme(env, st, Some(ev), forDarkTheme, false).s.binlog, forDarkTheme);
      && saved.Some? && saved.value.background.id == st.mark + 1
      && saved.value.background.hasNewLocalId == env.markerDefault
      && (NeedsNewId(saved.value.background) <==> !env.markerDefault)
      && (env.markerDefault ==> MarksLocalFill(env, saved.value.background))
  {
    var b := Renumbered(ev.background, st.mark);
    var rec := Merge(env, st.r, b).0.backgrounds[b.id];
    MergeRecord(env, st.r, b);
    assert rec.hasNewLocalId == env.markerDefault;
  }

  /**
   * With the marker kept by add_background, the event saved under the
   * theme's key carries the new id and the marker: a later start_up keeps
   * the id and lifts the mark over it.
   */
  lemma RestoreThemeIntendedKeepsMarker(env: Env, st: Boot, ev: LogEvent, forDarkTheme: bool)
    requires EnvOk(env) && RegistryOk(st.r) && st.r.reservations == map[] && Restorable(env, st.mark, Some(ev))
    requires NeedsNewId(ev.background) && ev.background.fileId == 0
    ensures var saved := StoredSelection(RestoreTheme(env, st, Some(ev), forDarkTheme, true).s.binlog, forDarkTheme);
      saved.Some? && saved.value.background.id == st.mark + 1 && !NeedsNewId(saved.value.background)
      && MarksLocalFill(env, saved.value.background)
  {
    var b := Renumbered(ev.background, st.mark);
    MergeRecord(env, st.r, b);
  }

  /** Restoring a theme whose record is kept selects that record, under its new id when it was renumbered. */
  lemma RestoreThemeSelects(env: Env, st: Boot, ev: LogEvent, forDarkTheme: bool, intended: bool)
    requires EnvOk(env) && RegistryOk(st.r) && st.r.reservations == map[] && Restorable(env, st.mark, Some(ev))
    requires FileMatchesType(Renumbered(ev.background, st.mark))
    ensures var out := RestoreTheme(env, st, Some(ev), forDarkTheme, intended);
      SlotIn(out.s, forDarkTheme) == Slot(Renumbered(ev.background, st.mark).id, ev.setType)
      && SlotIn(out.s, forDarkTheme).id in out.r.backgrounds
  {
    var b := Renumbered(ev.background, st.mark);
    var st1 := Renumber(st, ev.background);
    assert KeepOrDrop(env, st1, b, ev.setType, forDarkTheme, NeedsNewId(ev.background), intended)
        == KeepMatching(env, st1, b, ev.setType, forDarkTheme, NeedsNewId(ev.background), intended);
  }

  /**
   * start_up selects each theme's record whose file agrees with its type,
   * under the id it has after renumbering, and adds it; it sends one update
   * per theme, the light theme first.
   */
  lemma StartUpSelects(env: Env, r: Registry, outbox: seq<Request>, s: Selection, forDarkTheme: bool)
    requires EnvOk(env) && RegistryOk(r) && r.reservations == map[] && StartUpAllowed(env, s.binlog)
    ensures StartUpState(env, r, outbox, s, false).s.updates == s.updates + [false, true]
    ensures var e := StoredSelection(s.binlog, forDarkTheme);
      var out := StartUpState(env, r, outbox, s, false);
      e.Some? && FileMatchesType(Renumbered(e.value.background, MarkBefore(env, s.binlog, forDarkTheme))) ==>
        SlotIn(out.s, forDarkTheme) == Slot(Renumbered(e.value.background, MarkBefore(env, s.binlog, forDarkTheme)).id, e.value.setType)
        && SlotIn(out.s, forDarkTheme).id in out.r.backgrounds
  {
    var light := StoredSelection(s.binlog, false);
    var dark := StoredSelection(s.binlog, true);
    var st1 := RaiseMark(env, RaiseMark(env, Boot(r, outbox, s, StoredMaxLocalId(s.binlog)), light), dark);
    StartUpPasses(env, r, outbox, s, false, st1);
    var st2 := RestoreTheme(env, st1, light, false, false);
    var e := StoredSelection(s.binlog, forDarkTheme);
    if e.Some? && FileMatchesType(Renumbered(e.value.background, MarkBefore(env, s.binlog, forDarkTheme))) {
      if forDarkTheme {
        RestoreThemeSelects(env, st2, e.value, true, false);
      } else {
        RestoreThemeSelects(env, st1, e.value, false, false);
      }
    }
  }

  /**
   * A renumbered record gets an id above the mark read from the store and
   * above every marked local fill id of either theme, so it never takes the
   * id of a record start_up keeps; the mark ends at or above it; and two
   * renumbered themes get different ids.
   */
  lemma StartUpRenumbersAboveMarked(env: Env, r: Registry, outbox: seq<Request>, s: Selection, forDarkTheme: bool)
    requires EnvOk(env) && RegistryOk(r) && r.reservations == map[] && StartUpAllowed(env, s.binlog)
    requires StoredSelection(s.binlog, forDarkTheme).Some? && NeedsNewId(StoredSelection(s.binlog, forDarkTheme).value.background)
    ensures var id := Renumbered(StoredSelection(s.binlog, forDarkTheme).value.background, MarkBefore(env, s.binlog, forDarkTheme)).id;
      && id > StoredMaxLocalId(s.binlog)
      && id <= StartUpState(env, r, outbox, s, false).mark
      && (forall d :: StoredSelection(s.binlog, d).Some? && MarksLocalFill(env, StoredSelection(s.binlog, d).value.background) ==>
            id > StoredSelection(s.binlog, d).value.background.id)
      && (StoredSelection(s.binlog, !forDarkTheme).Some? && NeedsNewId(StoredSelection(s.binlog, !forDarkTheme).value.background) ==>
            id != Renumbered(StoredSelection(s.binlog, !forDarkTheme).value.background, MarkBefore(env, s.binlog, !forDarkTheme)).id)
  {
    var light := StoredSelection(s.binlog, false);
    var dark := StoredSelection(s.binlog, true);
    var m0 := StoredMaxLocalId(s.binlog);
    assert PassOneMark(env, s.binlog) >= RaisedMark(env, m0, light) >= m0;
  }

  /**
   * As written, a light-theme fill record from before the renumbering is
   * stored again under its new id with the declared default of
   * has_new_local_id in place of the marker: with a true default the next
   * start_up keeps the id, with a false one it renumbers the record again.
   */
  lemma StartUpSavesDefaultMarker(env: Env, r: Registry, outbox: seq<Request>, s: Selection)
    requires EnvOk(env) && RegistryOk(r) && r.reservations == map[] && StartUpAllowed(env, s.binlog) && r.backgrounds == map[]
    requires StoredSelection(s.binlog, false).Some? && NeedsNewId(StoredSelection(s.binlog, false).value.background)
    requires StoredSelection(s.binlog, false).value.background.fileId == 0
    ensures var saved := StoredSelection(StartUpState(env, r, outbox, s, false).s.binlog, false);
      && saved.Some? && saved.value.background.id == PassOneMark(env, s.binlog) + 1
      && saved.value.background.hasNewLocalId == env.markerDefault
      && (NeedsNewId(saved.value.background) <==> !env.markerDefault)
      && (env.markerDefault ==> MarksLocalFill(env, saved.value.background))
  {
    var light := StoredSelection(s.binlog, false);
    var dark := StoredSelection(s.binlog, true);
    var st1 := RaiseMark(env, RaiseMark(env, Boot(r, outbox, s, StoredMaxLocalId(s.binlog)), light), dark);
    StartUpPasses(env, r, outbox, s, false, st1);
    var st2 := RestoreTheme(env, st1, light, false, false);
    RestoreThemeResavesDefaultMarker(env, st1, light.value, false);
    RestoreThemeKeepsOtherKey(env, st2, dark, true, false);
  }

  /**
   * With add_background keeping the marker, a renumbered record of either
   * theme is stored with its new id and the marker, so the next start_up
   * keeps that id and lifts the mark over it.
   */
  lemma StartUpIntendedKeepsMarker(env: Env, r: Registry, outbox: seq<Request>, s: Selection, forDarkTheme: bool)
    requires EnvOk(env) && RegistryOk(r) && r.reservations == map[] && StartUpAllowed(env, s.binlog)
    requires StoredSelection(s.binlog, forDarkTheme).Some? && NeedsNewId(StoredSelection(s.binlog, forDarkTheme).value.background)
    requires StoredSelection(s.binlog, forDarkTheme).value.background.fileId == 0
    ensures var saved := StoredSelection(StartUpState(env, r, outbox, s, true).s.binlog, forDarkTheme);
      saved.Some? && saved.value.background.id == MarkBefore(env, s.binlog, forDarkTheme) + 1
      && !NeedsNewId(saved.value.background) && MarksLocalFill(env, saved.value.background)
  {
    var light := StoredSelection(s.binlog, false);
    var dark := StoredSelection(s.binlog, true);
    var st1 := RaiseMark(env, RaiseMark(env, Boot(r, outbox, s, StoredMaxLocalId(s.binlog)), light), dark);
    StartUpPasses(env, r, outbox, s, true, st1);
    var st2 := RestoreTheme(env, st1, light, false, true);
    if forDarkTheme {
      RestoreThemeIntendedKeepsMarker(env, st2, dark.value, true);
    } else {
      IntendedKeepsLightMarker(env, st1, light, dark);
    }
  }

  /** The light half of StartUpIntendedKeepsMarker: the dark theme's restore leaves the light key alone. */
  lemma IntendedKeepsLightMarker(env: Env, st1: Boot, light: Option<LogEvent>, dark: Option<LogEvent>)
    requires EnvOk(env) && RegistryOk(st1.r) && st1.r.reservations == map[] && Restorable(env, st1.mark, light)
    requires light.Some? && NeedsNewId(light.value.background) && light.value.background.fileId == 0
    requires Restorable(env, RestoreTheme(env, st1, light, false, true).mark, dark)
    ensures var saved := StoredSelection(RestoreTheme(env, RestoreTheme(env, st1, light, false, true), dark, true, true).s.binlog, false);
      saved.Some? && saved.value.background.id == st1.mark + 1
      && !NeedsNewId(saved.value.background) && MarksLocalFill(env, saved.value.background)
  {
    RestoreThemeIntendedKeepsMarker(env, st1, light.value, false);
    RestoreThemeKeepsOtherKey(env, RestoreTheme(env, st1, light, false, true), dark, true, true);
  }

  /**
   * How set_background decides, stated on the inputs: unknown ids fail with
   * 400; a fill request selects the stored type and never fails the type
   * check; a file request is sent to the server exactly when it passes the
   * check (its type does not has_equal_type the stored one) and is not
   * already selected.
   */
  lemma SetDecisionCases(env: Env, backgrounds: map<BackgroundId, Background>, slot: Slot, id: BackgroundId, requested: BackgroundType)
    ensures var d := SetDecisionOf(env, backgrounds, slot, id, requested);
      && (id !in backgrounds ==> d == SetFails(Error(400, "Background to set not found")))
      && (id in backgrounds && !HasFile(requested) ==>
            d == (if slot == Slot(id, backgrounds[id].backgroundType) then AlreadySet
                  else if HasFile(backgrounds[id].backgroundType) then InstallRemotely(backgrounds[id].backgroundType)
                  else SetLocally(backgrounds[id].backgroundType)))
      && (id in backgrounds && HasFile(requested) ==>
            (d == InstallRemotely(requested) <==>
               !env.hasEqualType(backgrounds[id].backgroundType, requested) && slot != Slot(id, requested)))
      && (d.SetLocally? ==> !HasFile(d.t)) && (d.InstallRemotely? ==> HasFile(d.t))
  {
  }

  class BackgroundManager {
    const env: Env
    /** G()->parameters().use_file_db */
    const useFileDb: bool

    var backgrounds: map<BackgroundId, Background>
    var nameToId: map<string, BackgroundId>
    var fileToId: map<FileId, BackgroundId>
    var reservations: map<BackgroundId, Reservation>
    var loadedFromDatabase: set<string>
    /** The next token the file reference manager hands out. */
    var nextFileSource: FileSourceId

    var beingLoadedFromDatabase: map<string, seq<PromiseId>>
    var pendingGetBackgrounds: seq<PromiseId>
    var installedIds: seq<BackgroundId>
    var beingUploaded: map<FileId, UploadRequest>
    var lightSlot: Slot
    var darkSlot: Slot
    var maxLocalId: BackgroundId

    /** The binlog key-value store. */
    var binlog: map<string, seq<Token>>
    var outbox: seq<Request>
    var resolved: seq<Resolution>
    var updates: seq<bool>

    function Reg(): Registry
      reads this`backgrounds, this`nameToId, this`fileToId, this`reservations, this`loadedFromDatabase, this`nextFileSource
    {
      Registry(backgrounds, nameToId, fileToId, reservations, loadedFromDatabase, nextFileSource)
    }

    function Sel(): Selection
      reads this`lightSlot, this`darkSlot, this`binlog, this`updates
    {
      Selection(lightSlot, darkSlot, binlog, updates)
    }

    function SlotOf(forDarkTheme: bool): Slot
      reads this
    {
      if forDarkTheme then darkSlot else lightSlot
    }

    /**
     * The manager's invariant: the registry is well formed, only non-local
     * slugs wait for the database and each has a waiter, the installed list
     * and the selections name known backgrounds.
     */
    ghost predicate Valid()
      reads this`backgrounds, this`nameToId, this`fileToId, this`reservations, this`loadedFromDatabase, this`nextFileSource
      reads this`beingLoadedFromDatabase, this`installedIds, this`lightSlot, this`darkSlot
    {
      && EnvOk(env)
      && RegistryOk(Reg())
      && PendingOk()
      && RefsIn(backgrounds.Keys)
    }

    /** Only non-local slugs wait for the database, each with at least one waiter. */
    predicate PendingOk()
      reads this`beingLoadedFromDatabase
    {
      forall n :: n in beingLoadedFromDatabase ==> !IsBackgroundNameLocal(n) && beingLoadedFromDatabase[n] != []
    }

    /** The installed list and the selections name backgrounds among `known`. */
    predicate RefsIn(known: set<BackgroundId>)
      reads this`installedIds, this`lightSlot, this`darkSlot
    {
      RefsWithin(installedIds, lightSlot, darkSlot, known)
    }

    /** The high-water mark equals what the binlog holds under "max_bg_id". */
    predicate MarkPersisted()
      reads this`maxLocalId, this`binlog
    {
      maxLocalId == StoredMaxLocalId(binlog)
    }

    /** A freshly constructed manager over a persisted binlog; start_up has not run yet. */
    constructor(env: Env, useFileDb: bool, binlog: map<string, seq<Token>>)
      requires EnvOk(env)
      ensures Valid()
      ensures this.env == env && this.useFileDb == useFileDb && this.binlog == binlog
      ensures backgrounds == map[] && nameToId == map[] && fileToId == map[] && reservations == map[]
      ensures loadedFromDatabase == {} && nextFileSource == 1
      ensures beingLoadedFromDatabase == map[] && pendingGetBackgrounds == [] && installedIds == []
      ensures beingUploaded == map[] && lightSlot == NoSlot && darkSlot == NoSlot && maxLocalId == 0
      ensures outbox == [] && resolved == [] && updates == []
    {
      this.env := env;
      this.useFileDb := useFileDb;
      this.binlog := binlog;
      backgrounds, nameToId, fileToId, reservations := map[], map[], map[], map[];
      loadedFromDatabase, nextFileSource := {}, 1;
      beingLoadedFromDatabase, pendingGetBackgrounds, installedIds := map[], [], [];
      beingUploaded, lightSlot, darkSlot, maxLocalId := map[], NoSlot, NoSlot, 0;
      outbox, resolved, updates := [], [], [];
    }

    // ------------------------------------------------------ local ids

    /** set_max_local_background_id: raise the mark and persist it. */
    method SetMaxLocalBackgroundId(id: BackgroundId)
      requires env.isLocalId(id) && id > maxLocalId
      modifies this`maxLocalId, this`binlog
      ensures maxLocalId == id && maxLocalId > old(maxLocalId)
      ensures binlog == old(binlog)[MaxLocalIdKey := [IntToken(id)]]
      ensures MarkPersisted()
    {
      maxLocalId := id;
      binlog := binlog[MaxLocalIdKey := [IntToken(maxLocalId)]];
    }

    /** get_next_local_background_id: the id one above the mark, persisted before it is returned. */
    method GetNextLocalBackgroundId() returns (id: BackgroundId)
      requires env.isLocalId(maxLocalId + 1)
      modifies this`maxLocalId, this`binlog
      ensures id == old(maxLocalId) + 1 && maxLocalId == id
      ensures binlog == old(binlog)[MaxLocalIdKey := [IntToken(id)]]
      ensures MarkPersisted()
    {
      SetMaxLocalBackgroundId(maxLocalId + 1);
      id := maxLocalId;
    }

    // ---------------------------------------------------------- merge

    /** add_background, step by step; it does exactly what Merge specifies. */
    method AddBackground(b: Background)
      requires RegistryOk(Reg()) && MergeAllowed(Reg(), b)
      modifies this`backgrounds, this`nameToId, this`fileToId, this`reservations, this`loadedFromDatabase,
               this`nextFileSource, this`outbox
      ensures Reg() == Merge(env, old(Reg()), b).0
      ensures outbox == old(outbox) + Merge(env, old(Reg()), b).1
      ensures RegistryOk(Reg()) && backgrounds.Keys == old(backgrounds.Keys) + {b.id}
    {
      ghost var r := Reg();
      var cur := if b.id in backgrounds then backgrounds[b.id] else DefaultBackground(env);
      var reserved := TakeReservation(b.id);
      var named := cur.(id := b.id, accessHash := b.accessHash, isCreator := b.isCreator, isDefault := b.isDefault,
                        isDark := b.isDark, backgroundType := b.backgroundType, name := b.name);
      AdoptName(cur.name, b);
      ghost var m := MergeFile(env, r.fileToId, r.nextFileSource, cur, named, reserved, b);
      var merged := AddBackgroundFile(cur, named, reserved, b);
      backgrounds := backgrounds[b.id := merged];
      MergeFromParts(env, r, b, cur, reserved, named, Reg(), m.3);
    }

    /** Lines 866-872 of add_background: take over a file source reserved for the id. */
    method TakeReservation(id: BackgroundId) returns (reserved: FileSourceId)
      modifies this`reservations
      ensures reservations == old(reservations) - {id}
      ensures reserved == if id in old(reservations) then old(reservations)[id].fileSourceId else 0
    {
      reserved := 0;
      if id in reservations {
        reserved := reservations[id].fileSourceId;
        reservations := reservations - {id};
      } else {
        assert reservations - {id} == reservations;
      }
    }

    /** Lines 885-899 of add_background: a changed non-local name is indexed unless taken, and no longer awaits the database. */
    method AdoptName(oldName: string, b: Background)
      modifies this`nameToId, this`loadedFromDatabase
      ensures var indexName := oldName != b.name && !IsBackgroundNameLocal(b.name);
        && nameToId == (if indexName && b.name !in old(nameToId) then old(nameToId)[b.name := b.id] else old(nameToId))
        && loadedFromDatabase == (if indexName then old(loadedFromDatabase) - {b.name} else old(loadedFromDatabase))
    {
      if oldName != b.name && !IsBackgroundNameLocal(b.name) {
        if b.name !in nameToId {
          nameToId := nameToId[b.name := b.id];
        }
        loadedFromDatabase := loadedFromDatabase - {b.name};
      }
    }

    /** Lines 901-932 of add_background: the file half, as MergeFile specifies. */
    method AddBackgroundFile(cur: Background, named: Background, reserved: FileSourceId, b: Background) returns (result: Background)
      modifies this`fileToId, this`nextFileSource, this`outbox
      ensures result == MergeFile(env, old(fileToId), old(nextFileSource), cur, named, reserved, b).0
      ensures fileToId == MergeFile(env, old(fileToId), old(nextFileSource), cur, named, reserved, b).1
      ensures nextFileSource == MergeFile(env, old(fileToId), old(nextFileSource), cur, named, reserved, b).2
      ensures outbox == old(outbox) + MergeFile(env, old(fileToId), old(nextFileSource), cur, named, reserved, b).3
    {
      result := named;
      if cur.fileId != b.fileId {
        var source := DropChangedFile(cur, reserved, b);
        if b.fileId != 0 {
          source := AttachFile(b, source);
        }
        result := named.(fileId := b.fileId, fileSourceId := source);
        if b.fileId !in fileToId {
          fileToId := fileToId[b.fileId := b.id];
        }
      }
    }

    /**
     * Lines 902-912: a file whose canonical file changed is unindexed and its
     * file source forgotten; a reserved file source then takes precedence.
     */
    method DropChangedFile(cur: Background, reserved: FileSourceId, b: Background) returns (source: FileSourceId)
      modifies this`fileToId
      ensures var fileMoved := cur.fileId != 0 && env.canonicalFile(cur.fileId) != env.canonicalFile(b.fileId);
        && fileToId == (if fileMoved then old(fileToId) - {cur.fileId} else old(fileToId))
        && source == (if reserved != 0 then reserved else if fileMoved then 0 else cur.fileSourceId)
    {
      source := cur.fileSourceId;
      if cur.fileId != 0 && env.canonicalFile(cur.fileId) != env.canonicalFile(b.fileId) {
        fileToId := fileToId - {cur.fileId};
        source := 0;
      }
      if reserved != 0 {
        source := reserved;
      }
    }

    /** The file half's last step: a fresh file source when none is known, then add_file_source for each file of the document. */
    method AttachFile(b: Background, source: FileSourceId) returns (attached: FileSourceId)
      modifies this`nextFileSource, this`outbox
      ensures attached == (if source == 0 then old(nextFileSource) else source)
      ensures nextFileSource == (if source == 0 then old(nextFileSource) + 1 else old(nextFileSource))
      ensures outbox == old(outbox) + ((if source == 0 then [CreateFileSource(old(nextFileSource), b.id, b.accessHash)] else [])
                                       + AddFileSources(env.documentFileIds(b.fileId), attached))
    {
      attached := source;
      var created: seq<Request> := [];
      if source == 0 {
        created := [CreateFileSource(nextFileSource, b.id, b.accessHash)];
        outbox := outbox + created;
        attached := nextFileSource;
        nextFileSource := nextFileSource + 1;
      }
      AddFileSourcesOf(b.fileId, attached);
      AppendAssociates(old(outbox), created, AddFileSources(env.documentFileIds(b.fileId), attached));
    }

    /** The loop of add_background over the document's files: add_file_source for each, in order. */
    method AddFileSourcesOf(file: FileId, source: FileSourceId)
      modifies this`outbox
      ensures outbox == old(outbox) + AddFileSources(env.documentFileIds(file), source)
    {
      var files := env.documentFileIds(file);
      var i := 0;
      while i < |files|
        invariant 0 <= i <= |files|
        invariant outbox == old(outbox) + AddFileSources(files[..i], source)
      {
        assert files[..i + 1][..i] == files[..i];
        outbox := outbox + [AddFileSource(files[i], source)];
        i := i + 1;
      }
      assert files[..|files|] == files;
    }

    /** What add_fill_background CHECKs of the next local id (through set_max_local_background_id and add_background). */
    predicate CanAllocateLocalId()
      reads this`maxLocalId, this`reservations
    {
      env.isLocalId(maxLocalId + 1) && maxLocalId + 1 !in reservations
    }

    /** add_fill_background: a creator-owned fill background under a fresh local id. */
    method AddFillBackground(fill: BackgroundFill, isDefault: bool, isDark: bool) returns (id: BackgroundId)
      requires EnvOk(env) && RegistryOk(Reg()) && CanAllocateLocalId()
      modifies this`backgrounds, this`nameToId, this`fileToId, this`reservations, this`loadedFromDatabase,
               this`nextFileSource, this`outbox, this`maxLocalId, this`binlog
      ensures id == old(maxLocalId) + 1 && maxLocalId == id
      ensures binlog == old(binlog)[MaxLocalIdKey := [IntToken(id)]]
      ensures Reg() == Merge(env, old(Reg()), FillBackground(env, id, fill, isDefault, isDark)).0
      ensures outbox == old(outbox) + Merge(env, old(Reg()), FillBackground(env, id, fill, isDefault, isDark)).1
      ensures RegistryOk(Reg()) && backgrounds.Keys == old(backgrounds.Keys) + {id} && MarkPersisted()
    {
      id := GetNextLocalBackgroundId();
      AddBackground(FillBackground(env, id, fill, isDefault, isDark));
    }

    /** add_fill_background(fill): a non-default fill, dark when the fill is, keeping the manager valid. */
    method AddFill(fill: BackgroundFill) returns (id: BackgroundId)
      requires Valid() && CanAllocateLocalId()
      modifies this`backgrounds, this`nameToId, this`fileToId, this`reservations, this`loadedFromDatabase,
               this`nextFileSource, this`outbox, this`maxLocalId, this`binlog
      ensures id == old(maxLocalId) + 1 && maxLocalId == id
      ensures binlog == old(binlog)[MaxLocalIdKey := [IntToken(id)]]
      ensures MergeAllowed(old(Reg()), FillBackground(env, id, fill, false, env.fillIsDark(fill)))
      ensures Reg() == Merge(env, old(Reg()), FillBackground(env, id, fill, false, env.fillIsDark(fill))).0
      ensures outbox == old(outbox) + Merge(env, old(Reg()), FillBackground(env, id, fill, false, env.fillIsDark(fill))).1
      ensures Valid() && id in backgrounds
    {
      assert EnvOk(env) && PendingOk();
      RefsWithinGrow(installedIds, lightSlot, darkSlot, backgrounds.Keys, backgrounds.Keys + {maxLocalId + 1});
      ghost var r := Reg();
      assert MergeAllowed(r, FillBackground(env, maxLocalId + 1, fill, false, env.fillIsDark(fill)));
      id := AddFillBackground(fill, false, env.fillIsDark(fill));
    }

    // ------------------------------------------------------ selection

    /** save_background_id: persist a theme's selection, or erase its key when the slot is unset. */
    method SaveBackgroundId(forDarkTheme: bool)
      requires SlotOf(forDarkTheme).id != 0 ==> SlotOf(forDarkTheme).id in backgrounds
      modifies this`binlog
      ensures binlog == SavedBinlog(old(binlog), forDarkTheme, SlotRecord(backgrounds, SlotOf(forDarkTheme)))
      ensures old(MarkPersisted()) ==> MarkPersisted()
    {
      var key := SelectionKey(forDarkTheme);
      var slot := if forDarkTheme then darkSlot else lightSlot;
      if slot.id != 0 {
        var background := backgrounds[slot.id];
        binlog := binlog[key := StoreLogEvent(LogEvent(background, slot.setType))];
      } else {
        binlog := binlog - {key};
      }
      assert MaxLocalIdKey != key;
    }

    /**
     * set_background_id: selecting what is already selected changes nothing;
     * otherwise only that theme's slot changes, it is saved and an update is
     * sent for that theme.
     */
    method SetBackgroundId(id: BackgroundId, backgroundType: BackgroundType, forDarkTheme: bool)
      requires Valid() && (id != 0 ==> id in backgrounds)
      modifies this`lightSlot, this`darkSlot, this`binlog, this`updates
      ensures Sel() == Select(backgrounds, old(Sel()), id, backgroundType, forDarkTheme)
      ensures Valid()
      ensures old(MarkPersisted()) ==> MarkPersisted()
    {
      if Slot(id, backgroundType) == SlotOf(forDarkTheme) {
        return;
      }
      ghost var r := Reg();
      if forDarkTheme {
        darkSlot := Slot(id, backgroundType);
      } else {
        lightSlot := Slot(id, backgroundType);
      }
      assert Reg() == r && RefsIn(backgrounds.Keys);
      SaveBackgroundId(forDarkTheme);
      updates := updates + [forDarkTheme];
    }

    // -------------------------------------------------- promise lists

    /** Resolve every promise of a list with the same outcome, in order (the loops over promise lists). */
    method ResolveEach(promises: seq<PromiseId>, outcome: Outcome)
      modifies this`resolved
      ensures resolved == old(resolved) + ResolveAll(promises, outcome)
    {
      var i := 0;
      while i < |promises|
        invariant 0 <= i <= |promises|
        invariant resolved == old(resolved) + ResolveAll(promises[..i], outcome)
      {
        assert promises[..i + 1][..i] == promises[..i];
        resolved := resolved + [Resolution(promises[i], outcome)];
        i := i + 1;
      }
      assert promises[..|promises|] == promises;
    }

    // ----------------------------------------------------- bulk listing

    /** get_backgrounds: queue the caller; only the first waiter sends account.getWallPapers. */
    method GetBackgrounds(promise: PromiseId)
      modifies this`pendingGetBackgrounds, this`outbox
      ensures pendingGetBackgrounds == old(pendingGetBackgrounds) + [promise]
      ensures outbox == old(outbox) + (if old(pendingGetBackgrounds) == [] then [GetWallPapers] else [])
    {
      pendingGetBackgrounds := pendingGetBackgrounds + [promise];
      if |pendingGetBackgrounds| == 1 {
        outbox := outbox + [GetWallPapers];
      }
    }

    /**
     * on_get_backgrounds: the waiting list is emptied before anyone is
     * answered, every waiter gets the same outcome, and only a full list
     * replaces installed_background_ids_ (with the ids of the records it
     * merged, in order).
     */
    method OnGetBackgrounds(result: WallPapersResult)
      requires Valid() && pendingGetBackgrounds != []
      requires result.WallPapers? ==> AllAllowed(Reg(), result.items)
      modifies this`backgrounds, this`nameToId, this`fileToId, this`reservations, this`loadedFromDatabase,
               this`nextFileSource, this`outbox, this`pendingGetBackgrounds, this`installedIds, this`resolved
      ensures pendingGetBackgrounds == []
      ensures resolved == old(resolved) + ResolveAll(old(pendingGetBackgrounds),
                                                     if result.WallPapersError? then Failed(result.error) else Ok)
      ensures !result.WallPapers? ==> installedIds == old(installedIds) && Reg() == old(Reg()) && outbox == old(outbox)
      ensures result.WallPapers? ==>
        && installedIds == MergedIds(result.items)
        && Reg() == MergeAll(env, useFileDb, old(Reg()), result.items).0
        && outbox == old(outbox) + MergeAll(env, useFileDb, old(Reg()), result.items).1
      ensures Valid()
    {
      var promises := pendingGetBackgrounds;
      pendingGetBackgrounds := [];
      match result {
        case WallPapersError(error) =>
          ResolveEach(promises, Failed(error));
        case WallPapersNotModified =>
          ResolveEach(promises, Ok);
        case WallPapers(items) =>
          InstallAll(items);
          ResolveEach(promises, Ok);
      }
    }

    /** The loop of on_get_backgrounds over the received wallpapers. */
    method InstallAll(items: seq<Option<Background>>)
      requires Valid() && AllAllowed(Reg(), items)
      modifies this`backgrounds, this`nameToId, this`fileToId, this`reservations, this`loadedFromDatabase,
               this`nextFileSource, this`outbox, this`installedIds
      ensures installedIds == MergedIds(items)
      ensures Reg() == MergeAll(env, useFileDb, old(Reg()), items).0
      ensures outbox == old(outbox) + MergeAll(env, useFileDb, old(Reg()), items).1
      ensures Valid()
    {
      assert EnvOk(env) && PendingOk();
      ghost var known := backgrounds.Keys;
      assert lightSlot.id != 0 ==> lightSlot.id in known;
      assert darkSlot.id != 0 ==> darkSlot.id in known;
      installedIds := [];
      MergeEach(items);
    }

    /** The loop itself: merge each record that was not rejected and list its id. */
    method MergeEach(items: seq<Option<Background>>)
      requires RegistryOk(Reg()) && AllAllowed(Reg(), items) && installedIds == []
      modifies this`backgrounds, this`nameToId, this`fileToId, this`reservations, this`loadedFromDatabase,
               this`nextFileSource, this`outbox, this`installedIds
      ensures installedIds == MergedIds(items)
      ensures Reg() == MergeAll(env, useFileDb, old(Reg()), items).0
      ensures outbox == old(outbox) + MergeAll(env, useFileDb, old(Reg()), items).1
    {
      ghost var r0 := Reg();
      var i := 0;
      while i < |items|
        invariant 0 <= i <= |items|
        invariant RegistryOk(r0) && AllAllowed(r0, items)
        invariant Reg() == MergeAll(env, useFileDb, r0, items[..i]).0
        invariant outbox == old(outbox) + MergeAll(env, useFileDb, r0, items[..i]).1
        invariant installedIds == MergedIds(items[..i])
      {
        InstallOne(r0, old(outbox), items, i);
        i := i + 1;
      }
      assert items[..|items|] == items;
    }

    /** One iteration of that loop: merge the i-th record if it was not rejected and list its id. */
    method InstallOne(ghost r0: Registry, ghost base: seq<Request>, items: seq<Option<Background>>, i: nat)
      requires RegistryOk(r0) && AllAllowed(r0, items) && i < |items|
      requires Reg() == MergeAll(env, useFileDb, r0, items[..i]).0 && outbox == base + MergeAll(env, useFileDb, r0, items[..i]).1
      requires installedIds == MergedIds(items[..i])
      modifies this`backgrounds, this`nameToId, this`fileToId, this`reservations, this`loadedFromDatabase,
               this`nextFileSource, this`outbox, this`installedIds
      ensures Reg() == MergeAll(env, useFileDb, r0, items[..i + 1]).0 && outbox == base + MergeAll(env, useFileDb, r0, items[..i + 1]).1
      ensures installedIds == MergedIds(items[..i + 1])
    {
      MergeAllStep(env, useFileDb, r0, items, i);
      if items[i].Some? {
        ghost var (r1, q1) := MergeAll(env, useFileDb, r0, items[..i]);
        var b := items[i].value;
        MergeAndSave(b);
        installedIds := installedIds + [b.id];
        AppendAssociates(base, q1, Merge(env, r1, b).1 + SaveReceived(useFileDb, b));
      }
    }

    // ---------------------------------------------------- slug search

    /**
     * search_background: an indexed slug succeeds at once with its id; an
     * empty slug fails with 400; a local slug becomes a fill background under
     * a fresh local id, with no database or network request; a slug not yet
     * looked up in the database waits for that lookup; any other slug is
     * asked of the server. Only the first two branches and a created fill
     * return an id.
     */
    method SearchBackground(name: string, promise: PromiseId, closing: bool) returns (id: BackgroundId, t: BackgroundType)
      requires Valid()
      requires SearchRouteOf(Reg(), useFileDb, name) == LocalFill && env.parseFill(name).Success? ==> CanAllocateLocalId()
      modifies this`backgrounds, this`nameToId, this`fileToId, this`reservations, this`loadedFromDatabase,
               this`nextFileSource, this`outbox, this`maxLocalId, this`binlog, this`beingLoadedFromDatabase, this`resolved
      ensures Valid()
      ensures SearchRouteOf(old(Reg()), useFileDb, name) != LocalFill ==>
        Reg() == old(Reg()) && maxLocalId == old(maxLocalId) && binlog == old(binlog)
      ensures SearchRouteOf(old(Reg()), useFileDb, name) != DatabaseLoad ==> beingLoadedFromDatabase == old(beingLoadedFromDatabase)
      ensures SearchRouteOf(old(Reg()), useFileDb, name) == Indexed ==>
        && id == old(nameToId[Slug(name)])
        && t == env.applyParameters(old(backgrounds[nameToId[Slug(name)]]).backgroundType, name)
        && resolved == old(resolved) + [Resolution(promise, Ok)] && outbox == old(outbox)
      ensures SearchRouteOf(old(Reg()), useFileDb, name) == EmptySlug ==>
        && id == 0 && t == DefaultType && outbox == old(outbox)
        && resolved == old(resolved) + [Resolution(promise, Failed(Error(400, "Background name must be non-empty")))]
      ensures SearchRouteOf(old(Reg()), useFileDb, name) in {LocalFill, DatabaseLoad, ServerLoad} ==>
        SearchedUnindexed(old(Reg()), old(outbox), old(resolved), old(maxLocalId), old(binlog), old(beingLoadedFromDatabase),
                          name, promise, closing, id, t)
    {
      SearchRouteByName(Reg(), useFileDb, name);
      var slug := Slug(name);
      if slug in nameToId {
        id := nameToId[slug];
        t := env.applyParameters(backgrounds[id].backgroundType, name);
        resolved := resolved + [Resolution(promise, Ok)];
      } else if slug == [] {
        id, t := 0, DefaultType;
        resolved := resolved + [Resolution(promise, Failed(Error(400, "Background name must be non-empty")))];
      } else {
        id, t := SearchUnindexed(name, promise, closing);
      }
    }

    /**
     * What search_background does with a non-empty slug that is not indexed
     * (lines 448-475), as a relation between the state before (the
     * arguments) and after (the fields).
     */
    twostate predicate SearchedUnindexed(r: Registry, outbox0: seq<Request>, resolved0: seq<Resolution>, maxLocalId0: BackgroundId,
                                         binlog0: map<string, seq<Token>>, pending0: map<string, seq<PromiseId>>,
                                         name: string, promise: PromiseId, closing: bool, id: BackgroundId, t: BackgroundType)
      reads this
    {
      var slug := Slug(name);
      if IsBackgroundNameLocal(slug) then
        match env.parseFill(name)
        case Failure(error) =>
          && id == 0 && t == DefaultType && Reg() == r && outbox == outbox0 && maxLocalId == maxLocalId0 && binlog == binlog0
          && beingLoadedFromDatabase == pending0 && resolved == resolved0 + [Resolution(promise, Failed(error))]
        case Success(fill) =>
          && MergeAllowed(r, FillBackground(env, maxLocalId0 + 1, fill, false, env.fillIsDark(fill)))
          && id == maxLocalId0 + 1 && t == FillType(fill) && maxLocalId == id
          && binlog == binlog0[MaxLocalIdKey := [IntToken(id)]]
          && Reg() == Merge(env, r, FillBackground(env, id, fill, false, env.fillIsDark(fill))).0
          && outbox == outbox0 + Merge(env, r, FillBackground(env, id, fill, false, env.fillIsDark(fill))).1
          && beingLoadedFromDatabase == pending0 && resolved == resolved0 + [Resolution(promise, Ok)]
      else
        && id == 0 && t == DefaultType && Reg() == r && maxLocalId == maxLocalId0 && binlog == binlog0
        && if useFileDb && slug !in r.loadedFromDatabase then
             && beingLoadedFromDatabase == pending0[slug := Waiters(pending0, slug) + [promise]]
             && outbox == outbox0 + (if slug in pending0 then [] else [DatabaseGet(NameDatabaseKey(slug))])
             && resolved == resolved0
           else
             && beingLoadedFromDatabase == pending0
             && (closing ==> outbox == outbox0 && resolved == resolved0 + [Resolution(promise, Failed(Error(500, "Request aborted")))])
             && (!closing ==> outbox == outbox0 + [GetWallPaper(InputWallPaperSlug(slug), promise)] && resolved == resolved0)
    }

    method SearchUnindexed(name: string, promise: PromiseId, closing: bool) returns (id: BackgroundId, t: BackgroundType)
      requires Valid() && Slug(name) !in nameToId && Slug(name) != []
      requires IsBackgroundNameLocal(Slug(name)) && env.parseFill(name).Success? ==> CanAllocateLocalId()
      modifies this`backgrounds, this`nameToId, this`fileToId, this`reservations, this`loadedFromDatabase,
               this`nextFileSource, this`outbox, this`maxLocalId, this`binlog, this`beingLoadedFromDatabase, this`resolved
      ensures Valid()
      ensures SearchedUnindexed(old(Reg()), old(outbox), old(resolved), old(maxLocalId), old(binlog), old(beingLoadedFromDatabase),
                                name, promise, closing, id, t)
    {
      var slug := Slug(name);
      if IsBackgroundNameLocal(slug) {
        id, t := SearchLocalBackground(name, promise, closing);
        return;
      }
      id, t := 0, DefaultType;
      if useFileDb && slug !in loadedFromDatabase {
        QueueDatabaseLoad(slug, promise);
        return;
      }
      ReloadBackgroundFromServer(InputWallPaperSlug(slug), promise, closing);
    }

    /** Lines 448-457 of search_background: a local slug names a fill, added under a fresh local id. */
    method SearchLocalBackground(name: string, promise: PromiseId, closing: bool) returns (id: BackgroundId, t: BackgroundType)
      requires Valid() && IsBackgroundNameLocal(Slug(name))
      requires env.parseFill(name).Success? ==> CanAllocateLocalId()
      modifies this`backgrounds, this`nameToId, this`fileToId, this`reservations, this`loadedFromDatabase,
               this`nextFileSource, this`outbox, this`maxLocalId, this`binlog, this`resolved
      ensures Valid()
      ensures SearchedUnindexed(old(Reg()), old(outbox), old(resolved), old(maxLocalId), old(binlog), old(beingLoadedFromDatabase),
                                name, promise, closing, id, t)
    {
      match env.parseFill(name)
      case Failure(error) =>
        id, t := 0, DefaultType;
        resolved := resolved + [Resolution(promise, Failed(error))];
      case Success(fill) =>
        id := AddFill(fill);
        t := FillType(fill);
        resolved := resolved + [Resolution(promise, Ok)];
    }

    /** Lines 459-470 of search_background: queue the caller; only the first waiter for a slug reads the database. */
    method QueueDatabaseLoad(slug: string, promise: PromiseId)
      requires PendingOk() && !IsBackgroundNameLocal(slug)
      modifies this`beingLoadedFromDatabase, this`outbox
      ensures beingLoadedFromDatabase == old(beingLoadedFromDatabase)[slug := Waiters(old(beingLoadedFromDatabase), slug) + [promise]]
      ensures outbox == old(outbox) + (if slug in old(beingLoadedFromDatabase) then [] else [DatabaseGet(NameDatabaseKey(slug))])
      ensures PendingOk()
    {
      var queries := Waiters(beingLoadedFromDatabase, slug) + [promise];
      beingLoadedFromDatabase := beingLoadedFromDatabase[slug := queries];
      if |queries| == 1 {
        outbox := outbox + [DatabaseGet(NameDatabaseKey(slug))];
      }
    }

    /** reload_background_from_server: fail with 500 while closing, otherwise send account.getWallPaper. */
    method ReloadBackgroundFromServer(input: InputWallPaper, promise: PromiseId, closing: bool)
      modifies this`outbox, this`resolved
      ensures closing ==> outbox == old(outbox) && resolved == old(resolved) + [Resolution(promise, Failed(Error(500, "Request aborted")))]
      ensures !closing ==> outbox == old(outbox) + [GetWallPaper(input, promise)] && resolved == old(resolved)
    {
      if closing {
        resolved := resolved + [Resolution(promise, Failed(Error(500, "Request aborted")))];
      } else {
        outbox := outbox + [GetWallPaper(input, promise)];
      }
    }

    /**
     * GetBackgroundQuery's completion (lines 60-75) for GetWallPaper(input,
     * promise): an error fails the promise and changes nothing else; a reply
     * runs on_get_background, which leaves a rejected wallpaper out and
     * receives an accepted one as ReceiveReply says, and the promise then
     * succeeds whatever on_get_background returned.
     */
    method OnGetBackground(input: InputWallPaper, result: WallPaperResult, promise: PromiseId)
      requires Valid() && (input.InputWallPaperSlug? ==> !IsBackgroundNameLocal(input.slug))
      requires result.WallPaperReceived? && result.decoded.Some? ==> MergeAllowed(Reg(), result.decoded.value)
      modifies this`backgrounds, this`nameToId, this`fileToId, this`reservations, this`loadedFromDatabase,
               this`nextFileSource, this`outbox, this`resolved
      ensures Valid()
      ensures resolved == old(resolved) + [Resolution(promise, if result.WallPaperError? then Failed(result.error) else Ok)]
      ensures result.WallPaperError? || result.decoded.None? ==> Reg() == old(Reg()) && outbox == old(outbox)
      ensures result.WallPaperReceived? && result.decoded.Some? ==>
        var reply := ReceiveReply(env, useFileDb, old(Reg()), ExpectedName(input), result.decoded.value);
        Reg() == reply.0 && outbox == old(outbox) + reply.1
    {
      match result
      case WallPaperError(error) =>
        resolved := resolved + [Resolution(promise, Failed(error))];
      case WallPaperReceived(decoded) =>
        if decoded.Some? {
          ReceiveExpected(ExpectedName(input), decoded.value);
        }
        resolved := resolved + [Resolution(promise, Ok)];
    }

    /** on_get_background (lines 1032-1044) for an accepted record and the slug it was expected under. */
    method ReceiveExpected(expectedName: string, b: Background)
      requires Valid() && MergeAllowed(Reg(), b) && (expectedName == [] || !IsBackgroundNameLocal(expectedName))
      modifies this`backgrounds, this`nameToId, this`fileToId, this`reservations, this`loadedFromDatabase,
               this`nextFileSource, this`outbox
      ensures Valid()
      ensures Reg() == ReceiveReply(env, useFileDb, old(Reg()), expectedName, b).0
      ensures outbox == old(outbox) + ReceiveReply(env, useFileDb, old(Reg()), expectedName, b).1
    {
      ReceiveBackground(b);
      BindExpectedSlug(expectedName, b);
    }

    /** Lines 1034-1037: the expected slug is bound to the received record as BindExpectedName says. */
    method BindExpectedSlug(expectedName: string, b: Background)
      requires Valid() && b.id in backgrounds && (expectedName == [] || !IsBackgroundNameLocal(expectedName))
      modifies this`nameToId
      ensures Valid() && nameToId == BindExpectedName(old(nameToId), expectedName, b)
    {
      if HasFile(b.backgroundType) && expectedName != [] && b.name != expectedName && expectedName !in nameToId {
        IndexSlugKeepsOk(Reg(), expectedName, b.id);
        nameToId := nameToId[expectedName := b.id];
      }
    }

    // ------------------------------------------------ database lookups

    /**
     * on_load_background_from_database: nothing happens while closing;
     * otherwise the slug's waiters are taken off the pending map, the registry
     * changes as LoadFromDatabase says, and every waiter succeeds, whatever
     * the stored value was.
     */
    method OnLoadBackgroundFromDatabase(name: string, value: seq<Token>, closing: bool)
      requires Valid() && (!closing ==> name in beingLoadedFromDatabase)
      modifies this`backgrounds, this`nameToId, this`fileToId, this`reservations, this`loadedFromDatabase,
               this`nextFileSource, this`outbox, this`beingLoadedFromDatabase, this`resolved
      ensures Valid()
      ensures closing ==> Reg() == old(Reg()) && outbox == old(outbox) && beingLoadedFromDatabase == old(beingLoadedFromDatabase)
                          && resolved == old(resolved)
      ensures !closing ==>
        && beingLoadedFromDatabase == old(beingLoadedFromDatabase) - {name}
        && Reg() == LoadFromDatabase(env, old(Reg()), name, value).0
        && outbox == old(outbox) + LoadFromDatabase(env, old(Reg()), name, value).1
        && resolved == old(resolved) + ResolveAll(old(beingLoadedFromDatabase[name]), Ok)
    {
      if closing {
        return;
      }
      var promises := TakeWaiters(name);
      LoadKnownRecord(name, value);
      ResolveEach(promises, Ok);
    }

    /** Lines 483-487 of on_load_background_from_database: the slug's waiters leave the pending map. */
    method TakeWaiters(name: string) returns (promises: seq<PromiseId>)
      requires Valid() && name in beingLoadedFromDatabase
      modifies this`beingLoadedFromDatabase
      ensures Valid() && !IsBackgroundNameLocal(name)
      ensures promises == old(beingLoadedFromDatabase[name]) && beingLoadedFromDatabase == old(beingLoadedFromDatabase) - {name}
    {
      promises := beingLoadedFromDatabase[name];
      beingLoadedFromDatabase := beingLoadedFromDatabase - {name};
    }

    /** LoadRecord on a valid manager: the installed list and the selections still name known backgrounds. */
    method LoadKnownRecord(name: string, value: seq<Token>)
      requires Valid() && !IsBackgroundNameLocal(name)
      modifies this`backgrounds, this`nameToId, this`fileToId, this`reservations, this`loadedFromDatabase,
               this`nextFileSource, this`outbox
      ensures Valid()
      ensures Reg() == LoadFromDatabase(env, old(Reg()), name, value).0
      ensures outbox == old(outbox) + LoadFromDatabase(env, old(Reg()), name, value).1
    {
      assert EnvOk(env);
      ghost var known := backgrounds.Keys;
      LoadRecord(name, value);
      RefsWithinGrow(installedIds, lightSlot, darkSlot, known, backgrounds.Keys);
    }

    /** Lines 489-506 of on_load_background_from_database: the registry half, as LoadFromDatabase specifies. */
    method LoadRecord(name: string, value: seq<Token>)
      requires RegistryOk(Reg()) && !IsBackgroundNameLocal(name)
      modifies this`backgrounds, this`nameToId, this`fileToId, this`reservations, this`loadedFromDatabase,
               this`nextFileSource, this`outbox
      ensures Reg() == LoadFromDatabase(env, old(Reg()), name, value).0
      ensures outbox == old(outbox) + LoadFromDatabase(env, old(Reg()), name, value).1
      ensures old(backgrounds.Keys) <= backgrounds.Keys
    {
      ghost var r := Reg();
      loadedFromDatabase := loadedFromDatabase + {name};
      MarkLoadedKeepsOk(r, name);
      if name !in nameToId && value != [] {
        match ParseStoredBackground(value)
        case Some(b) =>
          if HasFile(b.backgroundType) && b.fileId != 0 && b.id != 0 {
            AdoptLoadedRecord(name, b);
          }
        case None =>
      }
    }

    /** Lines 500-504 of on_load_background_from_database, as AdoptLoaded specifies. */
    method AdoptLoadedRecord(name: string, b: Background)
      requires RegistryOk(Reg()) && !IsBackgroundNameLocal(name) && MergeAllowed(Reg(), b)
      modifies this`backgrounds, this`nameToId, this`fileToId, this`reservations, this`loadedFromDatabase,
               this`nextFileSource, this`outbox
      ensures Reg() == AdoptLoaded(env, old(Reg()), name, b).0
      ensures outbox == old(outbox) + AdoptLoaded(env, old(Reg()), name, b).1
      ensures old(backgrounds.Keys) <= backgrounds.Keys
    {
      AddBackground(b);
      if b.name != name {
        nameToId := nameToId[name := b.id];
      }
    }

    // ------------------------------------------------------- selecting

    /**
     * What set_background by id did between the pre-state and now: exactly
     * what SetDecisionOf decides for the background table and the theme's
     * slot as they were.
     */
    twostate predicate SetBackgroundDid(id: BackgroundId, requested: BackgroundType, forDarkTheme: bool, promise: PromiseId, result: BackgroundId)
      reads this
    {
      var d := SetDecisionOf(env, old(backgrounds), old(SlotOf(forDarkTheme)), id, requested);
      && (!d.SetLocally? ==> Sel() == old(Sel()))
      && (d.SetFails? ==> result == 0 && outbox == old(outbox) && resolved == old(resolved) + [Resolution(promise, Failed(d.error))])
      && (d.AlreadySet? ==> result == id && outbox == old(outbox) && resolved == old(resolved) + [Resolution(promise, Ok)])
      && (d.SetLocally? ==>
            && result == id && outbox == old(outbox) && resolved == old(resolved) + [Resolution(promise, Ok)]
            && Sel() == Select(backgrounds, old(Sel()), id, d.t, forDarkTheme))
      && (d.InstallRemotely? ==>
            && result == 0 && resolved == old(resolved)
            && outbox == old(outbox) + [InstallWallPaper(id, old(backgrounds[id].accessHash), d.t, forDarkTheme, promise)])
    }

    /**
     * set_background by id, as written (lines 637-673): it does what
     * SetDecisionOf decides. Only a fill is selected at once; a file-backed
     * wallpaper is first installed on the server.
     */
    method SetBackground(id: BackgroundId, requested: BackgroundType, forDarkTheme: bool, promise: PromiseId) returns (result: BackgroundId)
      requires Valid()
      modifies this`lightSlot, this`darkSlot, this`binlog, this`updates, this`outbox, this`resolved
      ensures Valid() && (old(MarkPersisted()) ==> MarkPersisted())
      ensures SetBackgroundDid(id, requested, forDarkTheme, promise, result)
    {
      if id !in backgrounds {
        resolved := resolved + [Resolution(promise, Failed(Error(400, "Background to set not found")))];
        return 0;
      }
      var background := backgrounds[id];
      var t := requested;
      if !HasFile(t) {
        t := background.backgroundType;
      } else if env.hasEqualType(background.backgroundType, t) {
        resolved := resolved + [Resolution(promise, Failed(Error(400, "Background type mismatch")))];
        return 0;
      }
      if SlotOf(forDarkTheme) == Slot(id, t) {
        resolved := resolved + [Resolution(promise, Ok)];
        return id;
      }
      if !HasFile(t) {
        SetBackgroundId(id, t, forDarkTheme);
        resolved := resolved + [Resolution(promise, Ok)];
        return id;
      }
      outbox := outbox + [InstallWallPaper(id, background.accessHash, t, forDarkTheme, promise)];
      return 0;
    }

    /**
     * on_installed_background: a failed install fails the promise and
     * changes nothing; a successful one puts the background at the head of
     * the installed list (unless it is there already), selects it for the
     * theme and resolves the promise.
     */
    method OnInstalledBackground(id: BackgroundId, t: BackgroundType, forDarkTheme: bool, result: Outcome, promise: PromiseId)
      requires Valid() && (result.Ok? ==> id in backgrounds)
      modifies this`installedIds, this`lightSlot, this`darkSlot, this`binlog, this`updates, this`resolved
      ensures Valid() && (old(MarkPersisted()) ==> MarkPersisted())
      ensures result.Failed? ==>
        && installedIds == old(installedIds) && Sel() == old(Sel())
        && resolved == old(resolved) + [Resolution(promise, result)]
      ensures result.Ok? ==>
        && installedIds == (if id in old(installedIds) then old(installedIds) else [id] + old(installedIds))
        && Sel() == Select(backgrounds, old(Sel()), id, t, forDarkTheme)
        && resolved == old(resolved) + [Resolution(promise, Ok)]
    {
      if result.Failed? {
        resolved := resolved + [Resolution(promise, result)];
        return;
      }
      if id !in installedIds {
        installedIds := [id] + installedIds;
      }
      SetBackgroundId(id, t, forDarkTheme);
      resolved := resolved + [Resolution(promise, Ok)];
    }

    // ------------------------------------------------------- uploading

    /**
     * upload_background_file: the duplicated file id `uploadFileId` (the file
     * manager's dup_file_id, which is not part of this model) is recorded with
     * the type, theme and promise, and its upload is started.
     */
    method UploadBackgroundFile(uploadFileId: FileId, t: BackgroundType, forDarkTheme: bool, promise: PromiseId)
      modifies this`beingUploaded, this`outbox
      ensures beingUploaded == old(beingUploaded)[uploadFileId := UploadRequest(t, forDarkTheme, promise)]
      ensures outbox == old(outbox) + [UploadFile(uploadFileId)]
    {
      beingUploaded := beingUploaded[uploadFileId := UploadRequest(t, forDarkTheme, promise)];
      outbox := outbox + [UploadFile(uploadFileId)];
    }

    /**
     * on_upload_background_file: the upload leaves the ledger and is handed
     * to do_upload_background_file with what was recorded for it.
     */
    method OnUploadBackgroundFile(file: FileId, inputFile: Option<nat>) returns (result: BackgroundId)
      requires Valid() && file in beingUploaded
      modifies this`beingUploaded, this`lightSlot, this`darkSlot, this`binlog, this`updates, this`outbox, this`resolved
      ensures beingUploaded == old(beingUploaded) - {file}
      ensures Valid() && (old(MarkPersisted()) ==> MarkPersisted())
      ensures var req := old(beingUploaded[file]);
        UploadDone(file, req.uploadType, req.forDarkTheme, inputFile, req.promise, result)
    {
      var req := beingUploaded[file];
      beingUploaded := beingUploaded - {file};
      result := DoUploadBackgroundFile(file, req.uploadType, req.forDarkTheme, inputFile, req.promise);
    }

    /**
     * What do_upload_background_file did: with no input file (the file was
     * already on the server) a background already known for the file's
     * canonical id is set by id, and otherwise the promise fails with 500;
     * with an input file the wallpaper is uploaded.
     */
    twostate predicate UploadDone(file: FileId, t: BackgroundType, forDarkTheme: bool, inputFile: Option<nat>, promise: PromiseId, result: BackgroundId)
      reads this
    {
      var canonical := env.canonicalFile(file);
      && (inputFile.None? && canonical in old(fileToId) ==>
            SetBackgroundDid(old(fileToId)[canonical], t, forDarkTheme, promise, result))
      && (inputFile.None? && canonical !in old(fileToId) ==>
            && result == 0 && Sel() == old(Sel()) && outbox == old(outbox)
            && resolved == old(resolved) + [Resolution(promise, Failed(Error(500, "Failed to reupload background")))])
      && (inputFile.Some? ==>
            && result == 0 && Sel() == old(Sel()) && resolved == old(resolved)
            && outbox == old(outbox) + [UploadWallPaper(file, inputFile.value, t, forDarkTheme, promise)])
    }

    /** do_upload_background_file (lines 761-777). */
    method DoUploadBackgroundFile(file: FileId, t: BackgroundType, forDarkTheme: bool, inputFile: Option<nat>, promise: PromiseId)
      returns (result: BackgroundId)
      requires Valid()
      modifies this`lightSlot, this`darkSlot, this`binlog, this`updates, this`outbox, this`resolved
      ensures Valid() && (old(MarkPersisted()) ==> MarkPersisted())
      ensures UploadDone(file, t, forDarkTheme, inputFile, promise, result)
    {
      match inputFile
      case None =>
        var canonical := env.canonicalFile(file);
        if canonical in fileToId {
          result := SetBackground(fileToId[canonical], t, forDarkTheme, promise);
        } else {
          result := 0;
          resolved := resolved + [Resolution(promise, Failed(Error(500, "Failed to reupload background")))];
        }
      case Some(input) =>
        result := 0;
        outbox := outbox + [UploadWallPaper(file, input, t, forDarkTheme, promise)];
    }

    /**
     * on_upload_background_file_error: while closing nothing happens;
     * otherwise the upload leaves the ledger and its promise fails with the
     * upload's error, given code 500 when it has none.
     */
    method OnUploadBackgroundFileError(file: FileId, error: Error, closing: bool)
      requires !closing ==> file in beingUploaded
      modifies this`beingUploaded, this`resolved
      ensures closing ==> beingUploaded == old(beingUploaded) && resolved == old(resolved)
      ensures !closing ==>
        && beingUploaded == old(beingUploaded) - {file}
        && resolved == old(resolved) + [Resolution(old(beingUploaded[file]).promise, Failed(UploadFailure(error)))]
    {
      if closing {
        return;
      }
      var promise := beingUploaded[file].promise;
      beingUploaded := beingUploaded - {file};
      resolved := resolved + [Resolution(promise, Failed(UploadFailure(error)))];
    }

    /**
     * on_uploaded_background_file: `decoded` is what on_get_background made
     * of the server's answer (None when it rejected it). A rejected answer or
     * a record without a file cancels the upload and fails the promise with
     * 500; otherwise the uploaded file is merged into the record's file, the
     * background is selected for the theme and the promise resolves.
     */
    method OnUploadedBackgroundFile(file: FileId, t: BackgroundType, forDarkTheme: bool, decoded: Option<Background>, promise: PromiseId)
      requires Valid() && (decoded.Some? ==> MergeAllowed(Reg(), decoded.value))
      modifies this`backgrounds, this`nameToId, this`fileToId, this`reservations, this`loadedFromDatabase,
               this`nextFileSource, this`lightSlot, this`darkSlot, this`binlog, this`updates, this`outbox, this`resolved
      ensures Valid()
      ensures decoded.None? ==>
        && Reg() == old(Reg()) && Sel() == old(Sel())
        && outbox == old(outbox) + [CancelUpload(file)]
        && resolved == old(resolved) + [Resolution(promise, Failed(Error(500, "Receive wrong uploaded background")))]
      ensures decoded.Some? ==>
        && Reg() == Merge(env, old(Reg()), decoded.value).0 && decoded.value.id in backgrounds
        && UploadedFinished(old(Sel()), old(outbox) + Merge(env, old(Reg()), decoded.value).1 + SaveReceived(useFileDb, decoded.value),
                            old(resolved),
                            file, backgrounds[decoded.value.id], t, forDarkTheme, promise)
    {
      match decoded
      case None =>
        outbox := outbox + [CancelUpload(file)];
        resolved := resolved + [Resolution(promise, Failed(Error(500, "Receive wrong uploaded background")))];
      case Some(b) =>
        StoreUploadedBackground(file, b, t, forDarkTheme, promise);
    }

    /** Lines 783-799 of on_uploaded_background_file, for an answer on_get_background accepted as `b`. */
    method StoreUploadedBackground(file: FileId, b: Background, t: BackgroundType, forDarkTheme: bool, promise: PromiseId)
      requires Valid() && MergeAllowed(Reg(), b)
      modifies this`backgrounds, this`nameToId, this`fileToId, this`reservations, this`loadedFromDatabase,
               this`nextFileSource, this`lightSlot, this`darkSlot, this`binlog, this`updates, this`outbox, this`resolved
      ensures Valid()
      ensures Reg() == Merge(env, old(Reg()), b).0 && b.id in backgrounds
      ensures UploadedFinished(old(Sel()), old(outbox) + Merge(env, old(Reg()), b).1 + SaveReceived(useFileDb, b), old(resolved),
                               file, backgrounds[b.id], t, forDarkTheme, promise)
    {
      ReceiveBackground(b);
      FinishUploadedBackground(file, b.id, t, forDarkTheme, promise);
    }

    /** on_get_background for a record it accepted: add_background, then the database write. */
    method ReceiveBackground(b: Background)
      requires Valid() && MergeAllowed(Reg(), b)
      modifies this`backgrounds, this`nameToId, this`fileToId, this`reservations, this`loadedFromDatabase,
               this`nextFileSource, this`outbox
      ensures Reg() == Merge(env, old(Reg()), b).0
      ensures outbox == old(outbox) + Merge(env, old(Reg()), b).1 + SaveReceived(useFileDb, b)
      ensures Valid() && b.id in backgrounds && backgrounds[b.id].id == b.id
    {
      AddReceivedBackground(b);
      SaveReceivedBackground(b);
    }

    /** add_background and the database write of on_get_background, for a record of a received list. */
    method MergeAndSave(b: Background)
      requires RegistryOk(Reg()) && MergeAllowed(Reg(), b)
      modifies this`backgrounds, this`nameToId, this`fileToId, this`reservations, this`loadedFromDatabase,
               this`nextFileSource, this`outbox
      ensures Reg() == Merge(env, old(Reg()), b).0
      ensures outbox == old(outbox) + (Merge(env, old(Reg()), b).1 + SaveReceived(useFileDb, b))
    {
      AddBackground(b);
      SaveReceivedBackground(b);
      AppendAssociates(old(outbox), Merge(env, old(Reg()), b).1, SaveReceived(useFileDb, b));
    }

    /** Lines 1039-1044 of on_get_background: the database write for a received record. */
    method SaveReceivedBackground(b: Background)
      modifies this`outbox
      ensures outbox == old(outbox) + SaveReceived(useFileDb, b)
    {
      if useFileDb && HasFile(b.backgroundType) {
        outbox := outbox + [DatabaseSet(NameDatabaseKey(b.name), b)];
      }
    }

    /** add_background for a record received from the server, keeping the manager valid. */
    method AddReceivedBackground(b: Background)
      requires Valid() && MergeAllowed(Reg(), b)
      modifies this`backgrounds, this`nameToId, this`fileToId, this`reservations, this`loadedFromDatabase,
               this`nextFileSource, this`outbox
      ensures Reg() == Merge(env, old(Reg()), b).0 && outbox == old(outbox) + Merge(env, old(Reg()), b).1
      ensures Valid() && b.id in backgrounds && backgrounds[b.id].id == b.id
    {
      assert EnvOk(env) && PendingOk();
      RefsWithinGrow(installedIds, lightSlot, darkSlot, backgrounds.Keys, backgrounds.Keys + {b.id});
      AddBackground(b);
    }

    /**
     * The end of on_uploaded_background_file for the stored record `record`,
     * from the selection `sel0`, outbox `base` and resolutions `resolved0`.
     */
    predicate UploadedFinished(sel0: Selection, base: seq<Request>, resolved0: seq<Resolution>,
                               file: FileId, record: Background, t: BackgroundType, forDarkTheme: bool, promise: PromiseId)
      reads this`backgrounds, this`lightSlot, this`darkSlot, this`binlog, this`updates, this`outbox, this`resolved
    {
      && (record.fileId == 0 ==>
            && Sel() == sel0 && outbox == base + [CancelUpload(file)]
            && resolved == resolved0 + [Resolution(promise, Failed(Error(500, "Receive wrong uploaded background without file")))])
      && (record.fileId != 0 ==>
            && Sel() == Select(backgrounds, sel0, record.id, t, forDarkTheme)
            && outbox == base + [MergeFiles(record.fileId, file)]
            && resolved == resolved0 + [Resolution(promise, Ok)])
    }

    /** Lines 790-799 of on_uploaded_background_file, once the answer is stored under `id`. */
    method FinishUploadedBackground(file: FileId, id: BackgroundId, t: BackgroundType, forDarkTheme: bool, promise: PromiseId)
      requires Valid() && id in backgrounds && backgrounds[id].id == id
      modifies this`lightSlot, this`darkSlot, this`binlog, this`updates, this`outbox, this`resolved
      ensures Valid()
      ensures UploadedFinished(old(Sel()), old(outbox), old(resolved), file, backgrounds[id], t, forDarkTheme, promise)
    {
      var record := backgrounds[id];
      if record.fileId == 0 {
        outbox := outbox + [CancelUpload(file)];
        resolved := resolved + [Resolution(promise, Failed(Error(500, "Receive wrong uploaded background without file")))];
        return;
      }
      outbox := outbox + [MergeFiles(record.fileId, file)];
      SetBackgroundId(id, t, forDarkTheme);
      resolved := resolved + [Resolution(promise, Ok)];
    }

    // ------------------------------------------------ removing, resetting

    /**
     * remove_background: an unknown background fails with 400. A fill that
     * came from the server is unsaved by id alone; a local fill never reached
     * the server, so its removal completes at once; a file-backed wallpaper
     * is unsaved by id and access hash.
     */
    method RemoveBackground(id: BackgroundId, promise: PromiseId)
      requires Valid()
      modifies this`installedIds, this`lightSlot, this`darkSlot, this`binlog, this`updates, this`outbox, this`resolved
      ensures Valid()
      ensures id !in backgrounds ==>
        && installedIds == old(installedIds) && Sel() == old(Sel()) && outbox == old(outbox)
        && resolved == old(resolved) + [Resolution(promise, Failed(Error(400, "Background not found")))]
      ensures id in backgrounds && !HasFile(backgrounds[id].backgroundType) && !env.isLocalId(id) ==>
        && installedIds == old(installedIds) && Sel() == old(Sel()) && resolved == old(resolved)
        && outbox == old(outbox) + [UnsaveWallPaper(InputWallPaperNoFile(id), promise)]
      ensures id in backgrounds && !HasFile(backgrounds[id].backgroundType) && env.isLocalId(id) ==>
        && installedIds == Without(old(installedIds), id) && Sel() == ClearSelected(backgrounds, old(Sel()), id)
        && outbox == old(outbox) && resolved == old(resolved) + [Resolution(promise, Ok)]
      ensures id in backgrounds && HasFile(backgrounds[id].backgroundType) ==>
        && installedIds == old(installedIds) && Sel() == old(Sel()) && resolved == old(resolved)
        && outbox == old(outbox) + [UnsaveWallPaper(InputWallPaper(id, backgrounds[id].accessHash), promise)]
    {
      if id !in backgrounds {
        resolved := resolved + [Resolution(promise, Failed(Error(400, "Background not found")))];
        return;
      }
      var background := backgrounds[id];
      if !HasFile(background.backgroundType) {
        if !env.isLocalId(id) {
          outbox := outbox + [UnsaveWallPaper(InputWallPaperNoFile(id), promise)];
        } else {
          OnRemovedBackground(id, Ok, promise);
        }
        return;
      }
      outbox := outbox + [UnsaveWallPaper(InputWallPaper(id, background.accessHash), promise)];
    }

    /**
     * on_removed_background: a failed unsave fails the promise; otherwise the
     * background leaves the installed list and any theme showing it is reset
     * to no background.
     */
    method OnRemovedBackground(id: BackgroundId, result: Outcome, promise: PromiseId)
      requires Valid()
      modifies this`installedIds, this`lightSlot, this`darkSlot, this`binlog, this`updates, this`resolved
      ensures Valid()
      ensures result.Failed? ==>
        && installedIds == old(installedIds) && Sel() == old(Sel()) && resolved == old(resolved) + [Resolution(promise, result)]
      ensures result.Ok? ==>
        && installedIds == Without(old(installedIds), id) && Sel() == ClearSelected(backgrounds, old(Sel()), id)
        && resolved == old(resolved) + [Resolution(promise, Ok)]
    {
      if result.Failed? {
        resolved := resolved + [Resolution(promise, result)];
        return;
      }
      Uninstall(id);
      ClearSelectedSlots(id);
      resolved := resolved + [Resolution(promise, Ok)];
    }

    /** Line 831 of on_removed_background: td::remove drops every occurrence of the id from the installed list. */
    method Uninstall(id: BackgroundId)
      requires Valid()
      modifies this`installedIds
      ensures Valid() && installedIds == Without(old(installedIds), id)
    {
      RefsWithinWithout(installedIds, lightSlot, darkSlot, backgrounds.Keys, id);
      installedIds := Without(installedIds, id);
    }

    /** Lines 832-837 of on_removed_background: reset each theme that shows `id`, light first. */
    method ClearSelectedSlots(id: BackgroundId)
      requires Valid()
      modifies this`lightSlot, this`darkSlot, this`binlog, this`updates
      ensures Valid() && Sel() == ClearSelected(backgrounds, old(Sel()), id)
    {
      if id == lightSlot.id {
        SetBackgroundId(0, DefaultType, false);
      }
      if id == darkSlot.id {
        SetBackgroundId(0, DefaultType, true);
      }
    }

    /** reset_backgrounds: ask the server to reset the wallpaper list. */
    method ResetBackgrounds(promise: PromiseId)
      modifies this`outbox
      ensures outbox == old(outbox) + [ResetWallPapers(promise)]
    {
      outbox := outbox + [ResetWallPapers(promise)];
    }

    /**
     * on_reset_background: a failed reset fails the promise; otherwise the
     * installed list is emptied and both themes are reset to no background.
     */
    method OnResetBackground(result: Outcome, promise: PromiseId)
      requires Valid()
      modifies this`installedIds, this`lightSlot, this`darkSlot, this`binlog, this`updates, this`resolved
      ensures Valid()
      ensures result.Failed? ==>
        && installedIds == old(installedIds) && Sel() == old(Sel()) && resolved == old(resolved) + [Resolution(promise, result)]
      ensures result.Ok? ==>
        && installedIds == [] && Sel() == ClearAll(backgrounds, old(Sel()))
        && resolved == old(resolved) + [Resolution(promise, Ok)]
    {
      if result.Failed? {
        resolved := resolved + [Resolution(promise, result)];
        return;
      }
      installedIds := [];
      ClearBothSlots();
      resolved := resolved + [Resolution(promise, Ok)];
    }

    /** Lines 855-856 of on_reset_background: both themes are set to no background, light first. */
    method ClearBothSlots()
      requires Valid()
      modifies this`lightSlot, this`darkSlot, this`binlog, this`updates
      ensures Valid() && Sel() == ClearAll(backgrounds, old(Sel()))
    {
      SetBackgroundId(0, DefaultType, false);
      SetBackgroundId(0, DefaultType, true);
    }

    // ------------------------------------------- selecting from input

    /**
     * set_background from an input background and a background type (lines
     * 569-635): `requestedType` is None when no type is given and holds the
     * result of get_background_type otherwise; `uploadFileId` is the
     * duplicate the file manager would hand out for a local file.
     */
    method SetBackgroundFromInput(input: Option<InputBackground>, requestedType: Option<Result<BackgroundType, Error>>,
                                  forDarkTheme: bool, promise: PromiseId, uploadFileId: FileId) returns (result: BackgroundId)
      requires Valid()
      requires input.None? && requestedType.Some? && requestedType.value.Success? && !HasFile(requestedType.value.value) ==>
        CanAllocateLocalId()
      modifies this`backgrounds, this`nameToId, this`fileToId, this`reservations, this`loadedFromDatabase,
               this`nextFileSource, this`outbox, this`maxLocalId, this`binlog, this`lightSlot, this`darkSlot,
               this`updates, this`resolved, this`beingUploaded
      ensures Valid()
      ensures requestedType.Some? && requestedType.value.Failure? ==>
        && result == 0 && Reg() == old(Reg()) && Sel() == old(Sel()) && outbox == old(outbox)
        && beingUploaded == old(beingUploaded) && resolved == old(resolved) + [Resolution(promise, Failed(requestedType.value.error))]
      ensures requestedType.None? || requestedType.value.Success? ==>
        InputDid(input, requestedType.Some?, if requestedType.None? then DefaultType else requestedType.value.value,
                 forDarkTheme, promise, uploadFileId, result)
    {
      var t := DefaultType;
      if requestedType.Some? {
        match requestedType.value
        case Failure(error) =>
          resolved := resolved + [Resolution(promise, Failed(error))];
          return 0;
        case Success(requested) =>
          t := requested;
      }
      result := SetTypedBackground(input, requestedType.Some?, t, forDarkTheme, promise, uploadFileId);
    }

    /** What set_background does once the type is known (`typed` says whether one was given), by kind of input. */
    twostate predicate InputDid(input: Option<InputBackground>, typed: bool, t: BackgroundType, forDarkTheme: bool,
                                promise: PromiseId, uploadFileId: FileId, result: BackgroundId)
      reads this
    {
      match input
      case None => beingUploaded == old(beingUploaded) && NoInputDid(typed, t, forDarkTheme, promise, result)
      case Some(given) => GivenInputDid(given, t, forDarkTheme, promise, uploadFileId, result)
    }

    /** What set_background does with an input background, by kind: a local file or a remote background. */
    twostate predicate GivenInputDid(given: InputBackground, t: BackgroundType, forDarkTheme: bool,
                                     promise: PromiseId, uploadFileId: FileId, result: BackgroundId)
      reads this
    {
      match given
      case LocalInput(prepared) => LocalInputDid(prepared, t, forDarkTheme, promise, uploadFileId, result)
      case RemoteInput(remoteId) =>
        && Reg() == old(Reg()) && beingUploaded == old(beingUploaded)
        && SetBackgroundDid(remoteId, t, forDarkTheme, promise, result)
    }

    method SetTypedBackground(input: Option<InputBackground>, typed: bool, t: BackgroundType, forDarkTheme: bool,
                              promise: PromiseId, uploadFileId: FileId) returns (result: BackgroundId)
      requires Valid() && (input.None? && typed && !HasFile(t) ==> CanAllocateLocalId())
      modifies this`backgrounds, this`nameToId, this`fileToId, this`reservations, this`loadedFromDatabase,
               this`nextFileSource, this`outbox, this`maxLocalId, this`binlog, this`lightSlot, this`darkSlot,
               this`updates, this`resolved, this`beingUploaded
      ensures Valid() && InputDid(input, typed, t, forDarkTheme, promise, uploadFileId, result)
    {
      match input
      case None =>
        result := SetWithoutInput(typed, t, forDarkTheme, promise);
      case Some(given) =>
        result := SetGivenInput(given, t, forDarkTheme, promise, uploadFileId);
    }

    method SetGivenInput(given: InputBackground, t: BackgroundType, forDarkTheme: bool, promise: PromiseId, uploadFileId: FileId)
      returns (result: BackgroundId)
      requires Valid()
      modifies this`outbox, this`binlog, this`lightSlot, this`darkSlot, this`updates, this`resolved, this`beingUploaded
      ensures Valid() && GivenInputDid(given, t, forDarkTheme, promise, uploadFileId, result)
    {
      match given
      case LocalInput(prepared) =>
        result := SetLocalInput(prepared, t, forDarkTheme, promise, uploadFileId);
      case RemoteInput(remoteId) =>
        result := SetBackground(remoteId, t, forDarkTheme, promise);
    }

    /**
     * Lines 585-601 with no input background: no type either resets the
     * theme to no background; a file type cannot be set without a file; a
     * fill becomes a new local fill background that is then selected.
     */
    twostate predicate NoInputDid(typed: bool, t: BackgroundType, forDarkTheme: bool, promise: PromiseId, result: BackgroundId)
      reads this
    {
      && (!typed ==>
            && result == 0 && Reg() == old(Reg()) && outbox == old(outbox) && maxLocalId == old(maxLocalId)
            && Sel() == Select(backgrounds, old(Sel()), 0, DefaultType, forDarkTheme)
            && resolved == old(resolved) + [Resolution(promise, Ok)])
      && (typed && HasFile(t) ==>
            && result == 0 && Reg() == old(Reg()) && outbox == old(outbox) && maxLocalId == old(maxLocalId) && Sel() == old(Sel())
            && resolved == old(resolved) + [Resolution(promise, Failed(Error(400, "Input background must be non-empty for the background type")))])
      && (typed && !HasFile(t) ==> FillSetDid(t.fill, t, forDarkTheme, promise, result))
    }

    method SetWithoutInput(typed: bool, t: BackgroundType, forDarkTheme: bool, promise: PromiseId) returns (result: BackgroundId)
      requires Valid() && (typed && !HasFile(t) ==> CanAllocateLocalId())
      modifies this`backgrounds, this`nameToId, this`fileToId, this`reservations, this`loadedFromDatabase,
               this`nextFileSource, this`outbox, this`maxLocalId, this`binlog, this`lightSlot, this`darkSlot,
               this`updates, this`resolved
      ensures Valid() && NoInputDid(typed, t, forDarkTheme, promise, result)
    {
      if !typed {
        SelectAndResolve(0, DefaultType, forDarkTheme, promise);
        return 0;
      }
      if HasFile(t) {
        resolved := resolved + [Resolution(promise, Failed(Error(400, "Input background must be non-empty for the background type")))];
        return 0;
      }
      result := SetFillBackground(t.fill, t, forDarkTheme, promise);
    }

    /**
     * A fill given without an input background: stored under the next local
     * id (which is persisted as the new "max_bg_id"), then selected for the
     * theme, and the new id is returned.
     */
    twostate predicate FillSetDid(fill: BackgroundFill, t: BackgroundType, forDarkTheme: bool, promise: PromiseId, result: BackgroundId)
      reads this
    {
      var b := FillBackground(env, old(maxLocalId) + 1, fill, false, env.fillIsDark(fill));
      && result == b.id && maxLocalId == result && MergeAllowed(old(Reg()), b)
      && Reg() == Merge(env, old(Reg()), b).0 && outbox == old(outbox) + Merge(env, old(Reg()), b).1
      && Sel() == Select(backgrounds, old(Sel()).(binlog := old(binlog)[MaxLocalIdKey := [IntToken(result)]]), result, t, forDarkTheme)
      && resolved == old(resolved) + [Resolution(promise, Ok)]
    }

    /** Lines 597-600: add_fill_background, then set_background_id with the requested type. */
    method SetFillBackground(fill: BackgroundFill, t: BackgroundType, forDarkTheme: bool, promise: PromiseId) returns (result: BackgroundId)
      requires Valid() && CanAllocateLocalId()
      modifies this`backgrounds, this`nameToId, this`fileToId, this`reservations, this`loadedFromDatabase,
               this`nextFileSource, this`outbox, this`maxLocalId, this`binlog, this`lightSlot, this`darkSlot,
               this`updates, this`resolved
      ensures Valid() && FillSetDid(fill, t, forDarkTheme, promise, result)
    {
      result := AddFill(fill);
      SelectAndResolve(result, t, forDarkTheme, promise);
    }

    /** set_background_id for no background or one that exists, then the promise is resolved successfully. */
    method SelectAndResolve(id: BackgroundId, t: BackgroundType, forDarkTheme: bool, promise: PromiseId)
      requires Valid() && (id != 0 ==> id in backgrounds)
      modifies this`lightSlot, this`darkSlot, this`binlog, this`updates, this`resolved
      ensures Valid() && Sel() == Select(backgrounds, old(Sel()), id, t, forDarkTheme)
      ensures resolved == old(resolved) + [Resolution(promise, Ok)]
    {
      SetBackgroundId(id, t, forDarkTheme);
      resolved := resolved + [Resolution(promise, Ok)];
    }

    /**
     * Lines 604-625, a local file: only a file type may come with a file; a
     * file that could not be prepared fails; a file some background already
     * uses selects that background by id; any other file is uploaded.
     */
    twostate predicate LocalInputDid(prepared: Result<FileId, Error>, t: BackgroundType, forDarkTheme: bool, promise: PromiseId,
                                     uploadFileId: FileId, result: BackgroundId)
      reads this
    {
      && Reg() == old(Reg()) && maxLocalId == old(maxLocalId)
      && (!HasFile(t) ==>
            && result == 0 && Sel() == old(Sel()) && outbox == old(outbox) && beingUploaded == old(beingUploaded)
            && resolved == old(resolved) + [Resolution(promise, Failed(Error(400, "Can't specify local file for the background type")))])
      && (HasFile(t) && prepared.Failure? ==>
            && result == 0 && Sel() == old(Sel()) && outbox == old(outbox) && beingUploaded == old(beingUploaded)
            && resolved == old(resolved) + [Resolution(promise, Failed(prepared.error))])
      && (HasFile(t) && prepared.Success? ==> LocalFileDid(prepared.value, t, forDarkTheme, promise, uploadFileId, result))
    }

    /** Lines 617-622: a file some background already uses selects it by id; any other file is uploaded. */
    twostate predicate LocalFileDid(fileId: FileId, t: BackgroundType, forDarkTheme: bool, promise: PromiseId,
                                    uploadFileId: FileId, result: BackgroundId)
      reads this
    {
      && (fileId in old(fileToId) ==>
            && beingUploaded == old(beingUploaded)
            && SetBackgroundDid(old(fileToId)[fileId], t, forDarkTheme, promise, result))
      && (fileId !in old(fileToId) ==>
            && result == 0 && Sel() == old(Sel()) && resolved == old(resolved)
            && beingUploaded == old(beingUploaded)[uploadFileId := UploadRequest(t, forDarkTheme, promise)]
            && outbox == old(outbox) + [UploadFile(uploadFileId)])
    }

    method SetLocalInput(prepared: Result<FileId, Error>, t: BackgroundType, forDarkTheme: bool, promise: PromiseId, uploadFileId: FileId)
      returns (result: BackgroundId)
      requires Valid()
      modifies this`outbox, this`binlog, this`lightSlot, this`darkSlot, this`updates, this`resolved, this`beingUploaded
      ensures Valid() && LocalInputDid(prepared, t, forDarkTheme, promise, uploadFileId, result)
    {
      if !HasFile(t) {
        result := 0;
        resolved := resolved + [Resolution(promise, Failed(Error(400, "Can't specify local file for the background type")))];
      } else if prepared.Failure? {
        result := 0;
        resolved := resolved + [Resolution(promise, Failed(prepared.error))];
      } else {
        result := SetLocalFile(prepared.value, t, forDarkTheme, promise, uploadFileId);
      }
    }

    method SetLocalFile(fileId: FileId, t: BackgroundType, forDarkTheme: bool, promise: PromiseId, uploadFileId: FileId)
      returns (result: BackgroundId)
      requires Valid()
      modifies this`outbox, this`binlog, this`lightSlot, this`darkSlot, this`updates, this`resolved, this`beingUploaded
      ensures Valid() && LocalFileDid(fileId, t, forDarkTheme, promise, uploadFileId, result)
    {
      if fileId in fileToId {
        result := SetBackground(fileToId[fileId], t, forDarkTheme, promise);
      } else {
        UploadBackgroundFile(uploadFileId, t, forDarkTheme, promise);
        result := 0;
      }
    }

    // ---------------------------------------------------- file sources

    /**
     * get_background_file_source_id: the token of a known background is
     * created on first use and kept; for an id not known yet a reserved token
     * is kept with the first access hash it was asked with.
     */
    method GetBackgroundFileSourceId(id: BackgroundId, accessHash: int) returns (token: FileSourceId)
      requires Valid()
      modifies this`backgrounds, this`reservations, this`nextFileSource, this`outbox
      ensures Reg() == FileSourceFor(old(Reg()), id, accessHash).0 && token == FileSourceFor(old(Reg()), id, accessHash).1
      ensures outbox == old(outbox) + FileSourceFor(old(Reg()), id, accessHash).2
      ensures Valid()
    {
      if id in backgrounds {
        var background := backgrounds[id];
        if background.fileSourceId == 0 {
          outbox := outbox + [CreateFileSource(nextFileSource, id, background.accessHash)];
          backgrounds := backgrounds[id := background.(fileSourceId := nextFileSource)];
          nextFileSource := nextFileSource + 1;
        }
        token := backgrounds[id].fileSourceId;
        return;
      }
      var reservation := if id in reservations then reservations[id] else Reservation(0, 0);
      if reservation.accessHash == 0 {
        reservation := reservation.(accessHash := accessHash);
      }
      if reservation.fileSourceId == 0 {
        outbox := outbox + [CreateFileSource(nextFileSource, id, reservation.accessHash)];
        reservation := reservation.(fileSourceId := nextFileSource);
        nextFileSource := nextFileSource + 1;
      }
      reservations := reservations[id := reservation];
      token := reservation.fileSourceId;
    }

    // ------------------------------------------------------ start_up

    /** The part of the manager start_up changes. */
    function State(): Boot
      reads this`backgrounds, this`nameToId, this`fileToId, this`reservations, this`loadedFromDatabase, this`nextFileSource
      reads this`outbox, this`lightSlot, this`darkSlot, this`binlog, this`updates, this`maxLocalId
    {
      Boot(Reg(), outbox, Sel(), maxLocalId)
    }

    /**
     * start_up: read the mark, raise it over the marked local fill records of
     * both themes, then restore each theme's selection and send its update.
     */
    method StartUp()
      requires Valid() && reservations == map[] && StartUpAllowed(env, binlog)
      modifies this`backgrounds, this`nameToId, this`fileToId, this`reservations, this`loadedFromDatabase, this`nextFileSource
      modifies this`outbox, this`lightSlot, this`darkSlot, this`binlog, this`updates, this`maxLocalId
      ensures State() == StartUpState(env, old(Reg()), old(outbox), old(Sel()), false)
      ensures Valid() && MarkPersisted()
    {
      var light := StoredSelection(binlog, false);
      var dark := StoredSelection(binlog, true);
      FirstPass(light, dark);
      StartUpPasses(env, old(Reg()), old(outbox), old(Sel()), false, State());
      RestoreSelection(light, false);
      RestoreSelection(dark, true);
    }

    /** Lines 323-339: the mark is read from "max_bg_id" and raised over both themes' marked fill records. */
    method FirstPass(light: Option<LogEvent>, dark: Option<LogEvent>)
      requires Valid()
      modifies this`maxLocalId, this`binlog
      ensures State() == RaiseMark(env, RaiseMark(env, old(State()).(mark := StoredMaxLocalId(old(binlog))), light), dark)
      ensures Valid() && MarkPersisted()
    {
      maxLocalId := StoredMaxLocalId(binlog);
      RaiseMarkFor(light);
      RaiseMarkFor(dark);
    }

    /** The first pass of start_up for one theme's log event. */
    method RaiseMarkFor(e: Option<LogEvent>)
      modifies this`maxLocalId, this`binlog
      ensures State() == RaiseMark(env, old(State()), e)
      ensures old(MarkPersisted()) ==> MarkPersisted()
    {
      if e.Some? && MarksLocalFill(env, e.value.background) && e.value.background.id > maxLocalId {
        SetMaxLocalBackgroundId(e.value.background.id);
      }
    }

    /** The second pass of start_up for one theme. */
    method RestoreSelection(e: Option<LogEvent>, forDarkTheme: bool)
      requires Valid() && reservations == map[] && Restorable(env, maxLocalId, e)
      modifies this`backgrounds, this`nameToId, this`fileToId, this`reservations, this`loadedFromDatabase, this`nextFileSource
      modifies this`outbox, this`lightSlot, this`darkSlot, this`binlog, this`updates, this`maxLocalId
      ensures State() == RestoreTheme(env, old(State()), e, forDarkTheme, false)
      ensures Valid() && reservations == map[] && (old(MarkPersisted()) ==> MarkPersisted())
    {
      if e.Some? {
        RestoreRecord(e.value, forDarkTheme);
      }
      updates := updates + [forDarkTheme];
    }

    /** Lines 344-366 for one theme's log event. */
    method RestoreRecord(ev: LogEvent, forDarkTheme: bool)
      requires Valid() && reservations == map[] && Restorable(env, maxLocalId, Some(ev))
      modifies this`backgrounds, this`nameToId, this`fileToId, this`reservations, this`loadedFromDatabase, this`nextFileSource
      modifies this`outbox, this`lightSlot, this`darkSlot, this`binlog, this`maxLocalId
      ensures var out := RestoreTheme(env, old(State()), Some(ev), forDarkTheme, false);
        State() == out.(s := out.s.(updates := old(updates)))
      ensures Valid() && reservations == map[] && (old(MarkPersisted()) ==> MarkPersisted())
    {
      var background := RenumberRecord(ev.background);
      KeepRecord(background, ev.setType, forDarkTheme, NeedsNewId(ev.background));
    }

    /** Lines 347-352: an old fill record takes the next local id and the marker. */
    method RenumberRecord(b: Background) returns (renumbered: Background)
      requires NeedsNewId(b) ==> env.isLocalId(maxLocalId + 1)
      modifies this`maxLocalId, this`binlog
      ensures State() == Renumber(old(State()), b) && renumbered == Renumbered(b, old(maxLocalId))
      ensures old(MarkPersisted()) ==> MarkPersisted()
    {
      renumbered := b;
      if !b.hasNewLocalId && !HasFile(b.backgroundType) {
        var id := GetNextLocalBackgroundId();
        renumbered := b.(hasNewLocalId := true, id := id);
      }
    }

    /** Lines 354-366: select and add the record, or drop it; save the theme again when it was renumbered or dropped. */
    method KeepRecord(b: Background, setType: BackgroundType, forDarkTheme: bool, renumbered: bool)
      requires Valid() && reservations == map[] && b.id != 0
      modifies this`backgrounds, this`nameToId, this`fileToId, this`reservations, this`loadedFromDatabase, this`nextFileSource
      modifies this`outbox, this`lightSlot, this`darkSlot, this`binlog
      ensures State() == KeepOrDrop(env, old(State()), b, setType, forDarkTheme, renumbered, false)
      ensures Valid() && reservations == map[] && (old(MarkPersisted()) ==> MarkPersisted())
    {
      if (b.fileId != 0) != HasFile(b.backgroundType) {
        SaveBackgroundId(forDarkTheme);
      } else {
        KeepMatchingRecord(b, setType, forDarkTheme, renumbered);
      }
    }

    /** Lines 359-366 for a record whose file agrees with its type. */
    method KeepMatchingRecord(b: Background, setType: BackgroundType, forDarkTheme: bool, renumbered: bool)
      requires Valid() && reservations == map[] && b.id != 0 && FileMatchesType(b)
      modifies this`backgrounds, this`nameToId, this`fileToId, this`reservations, this`loadedFromDatabase, this`nextFileSource
      modifies this`outbox, this`lightSlot, this`darkSlot, this`binlog
      ensures State() == KeepMatching(env, old(State()), b, setType, forDarkTheme, renumbered, false)
      ensures Valid() && reservations == map[] && (old(MarkPersisted()) ==> MarkPersisted())
    {
      ghost var st := State();
      ghost var merged := AddStored(env, st.r, b, false);
      ghost var slot := Slot(b.id, setType);
      ghost var s1 := WithSlot(st.s, slot, forDarkTheme);
      SelectRecord(b, setType, forDarkTheme);
      assert State() == Boot(merged.0, st.outbox + merged.1, s1, st.mark);
      if renumbered {
        SaveBackgroundId(forDarkTheme);
        assert State() == Boot(merged.0, st.outbox + merged.1,
                               s1.(binlog := SavedBinlog(s1.binlog, forDarkTheme, SlotRecord(merged.0.backgrounds, slot))), st.mark);
      }
    }

    /** Lines 359-362: the record becomes the theme's selection and is added (the two writes touch different fields). */
    method SelectRecord(b: Background, setType: BackgroundType, forDarkTheme: bool)
      requires Valid() && reservations == map[] && b.id != 0
      modifies this`backgrounds, this`nameToId, this`fileToId, this`reservations, this`loadedFromDatabase, this`nextFileSource
      modifies this`outbox, this`lightSlot, this`darkSlot
      ensures Reg() == Merge(env, old(Reg()), b).0 && outbox == old(outbox) + Merge(env, old(Reg()), b).1
      ensures Sel() == WithSlot(old(Sel()), Slot(b.id, setType), forDarkTheme)
      ensures Valid() && reservations == map[]
    {
      AddReceivedBackground(b);
      if forDarkTheme {
        darkSlot := Slot(b.id, setType);
      } else {
        lightSlot := Slot(b.id, setType);
      }
    }
  }
}
