/**
 * The registry of BackgroundManager as a value: backgrounds_ and its
 * indices, the file-source reservations, loaded_from_database_backgrounds_
 * and the file reference manager's token counter. Merge is the specification
 * of add_background (td/telegram/BackgroundManager.cpp:860-933) and
 * FileSourceFor that of get_background_file_source_id (1136-1154); the
 * manager's methods are proved to do exactly these.
 */
module BackgroundRegistry {
  import opened Wrappers
  import opened BackgroundTypes

  /** An entry of background_id_to_file_source_id_: the access hash and the token reserved for a background not yet known. */
  datatype Reservation = Reservation(accessHash: int, fileSourceId: FileSourceId)

  datatype Registry = Registry(
    backgrounds: map<BackgroundId, Background>,
    nameToId: map<string, BackgroundId>,
    fileToId: map<FileId, BackgroundId>,
    reservations: map<BackgroundId, Reservation>,
    loadedFromDatabase: set<string>,
    nextFileSource: FileSourceId)

  /**
   * The registry's invariant: records sit under their own valid id, names
   * that look local are never indexed, indices point at known records, a
   * record with a file has a file source, reservations exist only for ids not
   * yet known, and every token handed out is below the next fresh one.
   */
  ghost predicate RegistryOk(r: Registry)
  {
    && r.nextFileSource >= 1
    && (forall id {:trigger r.backgrounds[id]} :: id in r.backgrounds ==>
          r.backgrounds[id].id == id && id != 0 && r.backgrounds[id].fileSourceId < r.nextFileSource
          && (r.backgrounds[id].fileId != 0 ==> r.backgrounds[id].fileSourceId != 0))
    && (forall id {:trigger r.reservations[id]} :: id in r.reservations ==>
          id !in r.backgrounds && 0 < r.reservations[id].fileSourceId < r.nextFileSource)
    && (forall n {:trigger r.nameToId[n]} :: n in r.nameToId ==> !IsBackgroundNameLocal(n) && r.nameToId[n] in r.backgrounds)
    && (forall f {:trigger r.fileToId[f]} :: f in r.fileToId ==> r.fileToId[f] in r.backgrounds)
  }

  /** The CHECKs of add_background: a valid id, and a reserved file source only for a record that brings a file. */
  predicate MergeAllowed(r: Registry, b: Background)
  {
    b.id != 0 && (b.id in r.reservations ==> b.fileId != 0)
  }

  /** add_file_source for every file of the document, in order. */
  function AddFileSources(files: seq<FileId>, source: FileSourceId): (rs: seq<Request>)
    ensures |rs| == |files|
    ensures forall i :: 0 <= i < |files| ==> rs[i] == AddFileSource(files[i], source)
  {
    if files == [] then [] else AddFileSources(files[..|files| - 1], source) + [AddFileSource(files[|files| - 1], source)]
  }

  /** The record add_background starts from: the stored one, or a default-constructed one. */
  function Current(env: Env, r: Registry, id: BackgroundId): Background
  {
    if id in r.backgrounds then r.backgrounds[id] else DefaultBackground(env)
  }

  /**
   * add_background: merge candidate b into the registry; the requests are
   * those sent to the file reference manager and the file manager.
   */
  function Merge(env: Env, r: Registry, b: Background): (out: (Registry, seq<Request>))
    requires MergeAllowed(r, b)
    ensures out.0.backgrounds.Keys == r.backgrounds.Keys + {b.id}
    ensures forall id :: id in r.backgrounds && id != b.id ==> out.0.backgrounds[id] == r.backgrounds[id]
    ensures out.0.reservations == r.reservations - {b.id}
  {
    var cur := Current(env, r, b.id);
    var reserved := if b.id in r.reservations then r.reservations[b.id].fileSourceId else 0;
    var named := cur.(id := b.id, accessHash := b.accessHash, isCreator := b.isCreator, isDefault := b.isDefault,
                      isDark := b.isDark, backgroundType := b.backgroundType, name := b.name);
    var indexName := cur.name != b.name && !IsBackgroundNameLocal(b.name);
    var nameToId := if indexName && b.name !in r.nameToId then r.nameToId[b.name := b.id] else r.nameToId;
    var loaded := if indexName then r.loadedFromDatabase - {b.name} else r.loadedFromDatabase;
    var (merged, fileToId, next, requests) := MergeFile(env, r.fileToId, r.nextFileSource, cur, named, reserved, b);
    (Registry(r.backgrounds[b.id := merged], nameToId, fileToId, r.reservations - {b.id}, loaded, next), requests)
  }

  /**
   * The file half of add_background (lines 901-932): when the file changed,
   * drop a file that now denotes different content, adopt the candidate's
   * file and a reserved or fresh file source, and index the file.
   */
  function MergeFile(env: Env, fileToId: map<FileId, BackgroundId>, nextFileSource: FileSourceId, cur: Background, named: Background, reserved: FileSourceId, b: Background)
    : (out: (Background, map<FileId, BackgroundId>, FileSourceId, seq<Request>))
  {
    if cur.fileId == b.fileId then (named, fileToId, nextFileSource, [])
    else
      var fileMoved := cur.fileId != 0 && env.canonicalFile(cur.fileId) != env.canonicalFile(b.fileId);
      var files := if fileMoved then fileToId - {cur.fileId} else fileToId;
      var kept := if fileMoved then 0 else cur.fileSourceId;
      var source := if reserved != 0 then reserved else kept;
      var create := b.fileId != 0 && source == 0;
      var finalSource := if create then nextFileSource else source;
      var created := if create then [CreateFileSource(finalSource, b.id, b.accessHash)] else [];
      var added := if b.fileId != 0 then AddFileSources(env.documentFileIds(b.fileId), finalSource) else [];
      (named.(fileId := b.fileId, fileSourceId := finalSource),
       if b.fileId in files then files else files[b.fileId := b.id],
       if create then nextFileSource + 1 else nextFileSource,
       created + added)
  }

  /**
   * Merge component by component, for code that computes the components one
   * at a time: a registry built from them is the merge, and well formed.
   */
  lemma MergeFromParts(env: Env, r: Registry, b: Background, cur: Background, reserved: FileSourceId, named: Background,
                       r1: Registry, requests: seq<Request>)
    requires RegistryOk(r) && MergeAllowed(r, b)
    requires cur == Current(env, r, b.id)
    requires reserved == if b.id in r.reservations then r.reservations[b.id].fileSourceId else 0
    requires named == cur.(id := b.id, accessHash := b.accessHash, isCreator := b.isCreator, isDefault := b.isDefault,
                           isDark := b.isDark, backgroundType := b.backgroundType, name := b.name)
    requires var indexName := cur.name != b.name && !IsBackgroundNameLocal(b.name);
      && r1.nameToId == (if indexName && b.name !in r.nameToId then r.nameToId[b.name := b.id] else r.nameToId)
      && r1.loadedFromDatabase == (if indexName then r.loadedFromDatabase - {b.name} else r.loadedFromDatabase)
    requires r1.reservations == r.reservations - {b.id}
    requires var m := MergeFile(env, r.fileToId, r.nextFileSource, cur, named, reserved, b);
      r1.backgrounds == r.backgrounds[b.id := m.0] && r1.fileToId == m.1 && r1.nextFileSource == m.2 && requests == m.3
    ensures Merge(env, r, b) == (r1, requests)
    ensures RegistryOk(r1)
  {
    MergePreservesOk(env, r, b);
  }

  /** The merged record copies id, access hash, the three flags and the type, and adopts the name and the file. */
  lemma MergeRecord(env: Env, r: Registry, b: Background)
    requires MergeAllowed(r, b)
    ensures var rec := Merge(env, r, b).0.backgrounds[b.id];
      && rec.id == b.id && rec.accessHash == b.accessHash && rec.isCreator == b.isCreator
      && rec.isDefault == b.isDefault && rec.isDark == b.isDark && rec.backgroundType == b.backgroundType
      && rec.name == b.name && rec.fileId == b.fileId
      && rec.hasNewLocalId == Current(env, r, b.id).hasNewLocalId
  {
  }

  /**
   * Names: old bindings are never erased or rebound, and a binding is added
   * only for a changed, non-local name that is not bound yet.
   */
  lemma MergeNames(env: Env, r: Registry, b: Background)
    requires MergeAllowed(r, b)
    ensures var m := Merge(env, r, b).0.nameToId;
      && (forall n {:trigger r.nameToId[n]} :: n in r.nameToId ==> n in m && m[n] == r.nameToId[n])
      && m.Keys <= r.nameToId.Keys + {b.name}
      && (b.name in m && b.name !in r.nameToId <==>
            b.name !in r.nameToId && Current(env, r, b.id).name != b.name && !IsBackgroundNameLocal(b.name))
      && (b.name in m && b.name !in r.nameToId ==> m[b.name] == b.id)
  {
  }

  /**
   * File sources: a reserved token is adopted by the new record, a record
   * with a file always ends up with a token, and an unchanged file means no
   * file-source or index work at all.
   */
  lemma MergeFileSource(env: Env, r: Registry, b: Background)
    requires RegistryOk(r) && MergeAllowed(r, b)
    ensures var (r1, requests) := Merge(env, r, b);
      && (b.id in r.reservations ==> r1.backgrounds[b.id].fileSourceId == r.reservations[b.id].fileSourceId)
      && (b.fileId != 0 ==> r1.backgrounds[b.id].fileSourceId != 0)
      && r.nextFileSource <= r1.nextFileSource <= r.nextFileSource + 1
      && r1.backgrounds[b.id].fileSourceId < r1.nextFileSource
      && (Current(env, r, b.id).fileId == b.fileId ==>
            requests == [] && r1.fileToId == r.fileToId && r1.nextFileSource == r.nextFileSource
            && r1.backgrounds[b.id].fileSourceId == Current(env, r, b.id).fileSourceId)
      && (Current(env, r, b.id).fileId != b.fileId ==> b.fileId in r1.fileToId)
      && (forall f :: f in r1.fileToId ==> f in r.fileToId || f == b.fileId)
      && (forall f :: f in r1.fileToId && f !in r.fileToId ==> r1.fileToId[f] == b.id)
      && (forall f :: f in r1.fileToId && f in r.fileToId ==> r1.fileToId[f] == r.fileToId[f])
  {
  }

  lemma MergePreservesOk(env: Env, r: Registry, b: Background)
    requires RegistryOk(r) && MergeAllowed(r, b)
    ensures RegistryOk(Merge(env, r, b).0)
  {
    MergeKeepsRecordsOk(env, r, b);
    MergeKeepsReservationsOk(env, r, b);
    MergeKeepsNamesOk(env, r, b);
    MergeKeepsFilesOk(env, r, b);
  }

  lemma MergeKeepsRecordsOk(env: Env, r: Registry, b: Background)
    requires RegistryOk(r) && MergeAllowed(r, b)
    ensures var r1 := Merge(env, r, b).0;
      && r1.nextFileSource >= 1
      && forall id :: id in r1.backgrounds ==>
          r1.backgrounds[id].id == id && id != 0 && r1.backgrounds[id].fileSourceId < r1.nextFileSource
          && (r1.backgrounds[id].fileId != 0 ==> r1.backgrounds[id].fileSourceId != 0)
  {
    MergeRecord(env, r, b);
    MergeFileSource(env, r, b);
  }

  lemma MergeKeepsReservationsOk(env: Env, r: Registry, b: Background)
    requires RegistryOk(r) && MergeAllowed(r, b)
    ensures var r1 := Merge(env, r, b).0;
      forall id :: id in r1.reservations ==> id !in r1.backgrounds && 0 < r1.reservations[id].fileSourceId < r1.nextFileSource
  {
    MergeFileSource(env, r, b);
  }

  lemma MergeKeepsNamesOk(env: Env, r: Registry, b: Background)
    requires RegistryOk(r) && MergeAllowed(r, b)
    ensures var r1 := Merge(env, r, b).0;
      forall n :: n in r1.nameToId ==> !IsBackgroundNameLocal(n) && r1.nameToId[n] in r1.backgrounds
  {
    MergeNames(env, r, b);
  }

  lemma MergeKeepsFilesOk(env: Env, r: Registry, b: Background)
    requires RegistryOk(r) && MergeAllowed(r, b)
    ensures var r1 := Merge(env, r, b).0;
      forall f :: f in r1.fileToId ==> r1.fileToId[f] in r1.backgrounds
  {
    MergeFileSource(env, r, b);
  }

  /** Merging the same record twice changes nothing the second time. */
  lemma MergeIdempotent(env: Env, r: Registry, b: Background)
    requires RegistryOk(r) && MergeAllowed(r, b)
    ensures var r1 := Merge(env, r, b).0;
      MergeAllowed(r1, b) && Merge(env, r1, b) == (r1, [])
  {
    var r1 := Merge(env, r, b).0;
    MergePreservesOk(env, r, b);
    MergeRecord(env, r, b);
    var rec := r1.backgrounds[b.id];
    assert rec.(id := b.id, accessHash := b.accessHash, isCreator := b.isCreator, isDefault := b.isDefault,
                isDark := b.isDark, backgroundType := b.backgroundType, name := b.name) == rec;
    assert r1.backgrounds[b.id := rec] == r1.backgrounds;
    assert r1.reservations - {b.id} == r1.reservations;
    MergeFromParts(env, r1, b, rec, 0, rec, r1, []);
  }

  /**
   * add_background does not copy has_new_local_id: a new record carries the
   * declared default, whatever the candidate says, and an existing record keeps
   * its own marker.
   */
  lemma MergeNewRecordTakesDefaultMarker(env: Env, r: Registry, b: Background)
    requires RegistryOk(r) && MergeAllowed(r, b)
    ensures b.id !in r.backgrounds ==> Merge(env, r, b).0.backgrounds[b.id].hasNewLocalId == env.markerDefault
    ensures b.id in r.backgrounds ==> Merge(env, r, b).0.backgrounds[b.id].hasNewLocalId == r.backgrounds[b.id].hasNewLocalId
  {
  }

  /** The evidently intended merge: add_background also copies has_new_local_id. */
  function MergeIntended(env: Env, r: Registry, b: Background): (out: (Registry, seq<Request>))
    requires RegistryOk(r) && MergeAllowed(r, b)
    ensures out.0.backgrounds.Keys == r.backgrounds.Keys + {b.id}
    ensures out.0.backgrounds[b.id].hasNewLocalId == b.hasNewLocalId
    ensures out.0.backgrounds[b.id] == Merge(env, r, b).0.backgrounds[b.id].(hasNewLocalId := b.hasNewLocalId)
  {
    var (r1, requests) := Merge(env, r, b);
    (r1.(backgrounds := r1.backgrounds[b.id := r1.backgrounds[b.id].(hasNewLocalId := b.hasNewLocalId)]), requests)
  }

  /** Each decoded record of a list can be merged into r (add_background's CHECKs hold). */
  predicate AllAllowed(r: Registry, items: seq<Option<Background>>)
  {
    forall i :: 0 <= i < |items| && items[i].Some? ==> MergeAllowed(r, items[i].value)
  }

  /** How many records of a list were not rejected. */
  function AcceptedCount(items: seq<Option<Background>>): nat
  {
    if items == [] then 0 else AcceptedCount(items[..|items| - 1]) + (if items[|items| - 1].Some? then 1 else 0)
  }

  /** id is the id of a record of the list that was not rejected. */
  predicate Accepted(items: seq<Option<Background>>, id: BackgroundId)
  {
    exists i :: 0 <= i < |items| && items[i].Some? && items[i].value.id == id
  }

  /** A list's accepted ids are those of all but its last record, plus the last one's when it was accepted. */
  lemma AcceptedLast(items: seq<Option<Background>>, id: BackgroundId)
    requires items != []
    ensures Accepted(items, id) <==>
      Accepted(items[..|items| - 1], id) || (items[|items| - 1].Some? && items[|items| - 1].value.id == id)
  {
    var front := items[..|items| - 1];
    if Accepted(items, id) {
      var i :| 0 <= i < |items| && items[i].Some? && items[i].value.id == id;
      if i < |front| {
        assert front[i] == items[i];
      }
    }
    if Accepted(front, id) {
      var i :| 0 <= i < |front| && front[i].Some? && front[i].value.id == id;
      assert items[i] == front[i];
    }
  }

  /**
   * The ids of the records of a list that were not rejected, in order: one id
   * per accepted record, exactly the accepted records' ids, and the last
   * record's id last when it was accepted.
   */
  function MergedIds(items: seq<Option<Background>>): (ids: seq<BackgroundId>)
    ensures |ids| == AcceptedCount(items) <= |items|
    ensures forall id :: id in ids <==> Accepted(items, id)
    ensures items != [] && items[|items| - 1].Some? ==> ids[|ids| - 1] == items[|items| - 1].value.id
  {
    if items == [] then []
    else
      var ids := MergedIds(items[..|items| - 1]);
      assert forall id :: Accepted(items, id) <==>
        Accepted(items[..|items| - 1], id) || (items[|items| - 1].Some? && items[|items| - 1].value.id == id) by {
        forall id
          ensures Accepted(items, id) <==>
            Accepted(items[..|items| - 1], id) || (items[|items| - 1].Some? && items[|items| - 1].value.id == id)
        {
          AcceptedLast(items, id);
        }
      }
      match items[|items| - 1]
      case None => ids
      case Some(b) => ids + [b.id]
  }

  /**
   * The end of on_get_background (lines 1039-1044): with the file database
   * in use, a received wallpaper with a document (the only kind whose type
   * has a file) is written under its slug's key.
   */
  function SaveReceived(useFileDb: bool, b: Background): seq<Request>
  {
    if useFileDb && HasFile(b.backgroundType) then [DatabaseSet(NameDatabaseKey(b.name), b)] else []
  }

  /** on_get_background's add_background and database write for every record of a list, in order. */
  function MergeAll(env: Env, useFileDb: bool, r: Registry, items: seq<Option<Background>>): (out: (Registry, seq<Request>))
    requires RegistryOk(r) && AllAllowed(r, items)
    ensures RegistryOk(out.0)
    ensures out.0.reservations.Keys <= r.reservations.Keys
    ensures r.backgrounds.Keys <= out.0.backgrounds.Keys
    ensures forall j :: 0 <= j < |MergedIds(items)| ==> MergedIds(items)[j] in out.0.backgrounds
    decreases |items|
  {
    if items == [] then (r, [])
    else
      var front := items[..|items| - 1];
      assert forall i :: 0 <= i < |front| ==> front[i] == items[i];
      var (r1, q1) := MergeAll(env, useFileDb, r, front);
      match items[|items| - 1]
      case None => (r1, q1)
      case Some(b) =>
        MergePreservesOk(env, r1, b);
        var (r2, q2) := Merge(env, r1, b);
        (r2, q1 + (q2 + SaveReceived(useFileDb, b)))
  }

  /** One more record of the list: MergeAll and MergedIds extend by that record's merge. */
  lemma MergeAllStep(env: Env, useFileDb: bool, r: Registry, items: seq<Option<Background>>, i: nat)
    requires RegistryOk(r) && AllAllowed(r, items) && i < |items|
    ensures AllAllowed(r, items[..i]) && AllAllowed(r, items[..i + 1])
    ensures var (r1, q1) := MergeAll(env, useFileDb, r, items[..i]);
      && (items[i].None? ==> MergeAll(env, useFileDb, r, items[..i + 1]) == (r1, q1) && MergedIds(items[..i + 1]) == MergedIds(items[..i]))
      && (items[i].Some? ==>
            && MergeAllowed(r1, items[i].value)
            && MergeAll(env, useFileDb, r, items[..i + 1])
               == (Merge(env, r1, items[i].value).0, q1 + (Merge(env, r1, items[i].value).1 + SaveReceived(useFileDb, items[i].value)))
            && MergedIds(items[..i + 1]) == MergedIds(items[..i]) + [items[i].value.id])
  {
    assert items[..i + 1][..i] == items[..i];
    assert items[..i + 1][i] == items[i];
  }

  // ------------------------------------------------------- file sources

  /**
   * get_background_file_source_id: the record's token (created on first
   * use), or for an id not yet known a reserved token that remembers the
   * first access hash it was asked with.
   */
  function FileSourceFor(r: Registry, id: BackgroundId, accessHash: int): (out: (Registry, FileSourceId, seq<Request>))
    requires RegistryOk(r)
    ensures RegistryOk(out.0) && out.1 != 0
    ensures out.0.backgrounds.Keys == r.backgrounds.Keys
    ensures id in r.backgrounds ==> out.0.backgrounds[id].fileSourceId == out.1 && out.0.reservations == r.reservations
    ensures id !in r.backgrounds ==>
      && out.0.backgrounds == r.backgrounds && id in out.0.reservations
      && out.0.reservations[id].fileSourceId == out.1
      && out.0.reservations[id].accessHash == (if id in r.reservations && r.reservations[id].accessHash != 0 then r.reservations[id].accessHash else accessHash)
    ensures out.0.nameToId == r.nameToId && out.0.fileToId == r.fileToId && out.0.loadedFromDatabase == r.loadedFromDatabase
    ensures forall other :: other != id && other in r.backgrounds ==> out.0.backgrounds[other] == r.backgrounds[other]
    ensures forall other :: other != id && other in r.reservations ==> other in out.0.reservations && out.0.reservations[other] == r.reservations[other]
    ensures out.0.reservations.Keys <= r.reservations.Keys + {id}
  {
    if id in r.backgrounds then
      var rec := r.backgrounds[id];
      if rec.fileSourceId != 0 then (r, rec.fileSourceId, [])
      else
        (r.(backgrounds := r.backgrounds[id := rec.(fileSourceId := r.nextFileSource)], nextFileSource := r.nextFileSource + 1),
         r.nextFileSource, [CreateFileSource(r.nextFileSource, id, rec.accessHash)])
    else
      var res := if id in r.reservations then r.reservations[id] else Reservation(0, 0);
      var hash := if res.accessHash == 0 then accessHash else res.accessHash;
      if res.fileSourceId != 0 then
        (r.(reservations := r.reservations[id := Reservation(hash, res.fileSourceId)]), res.fileSourceId, [])
      else
        (r.(reservations := r.reservations[id := Reservation(hash, r.nextFileSource)], nextFileSource := r.nextFileSource + 1),
         r.nextFileSource, [CreateFileSource(r.nextFileSource, id, hash)])
  }

  /** Asking again gives the same token, sends nothing and leaves the records alone. */
  lemma FileSourceStable(r: Registry, id: BackgroundId, h1: int, h2: int)
    requires RegistryOk(r)
    ensures var (r1, t1, _) := FileSourceFor(r, id, h1);
      var (r2, t2, requests) := FileSourceFor(r1, id, h2);
      t2 == t1 && requests == [] && r2.backgrounds == r1.backgrounds && r2.nextFileSource == r1.nextFileSource
  {
  }

  /** A token handed out before the background was known is the one its record adopts when it arrives with a file. */
  lemma ReservationAdopted(env: Env, r: Registry, accessHash: int, b: Background)
    requires RegistryOk(r) && b.id !in r.backgrounds && b.id != 0 && b.fileId != 0
    ensures var (r1, token, _) := FileSourceFor(r, b.id, accessHash);
      MergeAllowed(r1, b) && Merge(env, r1, b).0.backgrounds[b.id].fileSourceId == token
  {
  }
}
