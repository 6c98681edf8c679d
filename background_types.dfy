/**
 * Values of the background (wallpaper) manager: identifiers, background
 * types, the Background record, the outward requests and promise results,
 * and the small pure rules of td/telegram/BackgroundManager.cpp (the
 * local-name classifier, database keys, the share URL, the upload error
 * rules and the type check of set_background).
 */
module BackgroundTypes {
  import opened Wrappers

  /** A 64-bit background id; 0 is BackgroundId(), the invalid id. */
  type BackgroundId = int
  /** A file id; 0 is FileId(), the invalid one. */
  type FileId = nat
  /** A file-source revalidation token; 0 is FileSourceId(), the invalid one. */
  type FileSourceId = nat
  /** The caller's completion (a Promise<Unit>), named by a token. */
  type PromiseId = nat

  predicate IsValidId(id: BackgroundId) { id != 0 }

  /** BackgroundFill is opaque here: its colours are a token. */
  datatype BackgroundFill = BackgroundFill(colours: int)

  /**
   * BackgroundType: a fill (solid or gradient, no file) or a file-backed
   * wallpaper or pattern whose remaining settings are a token.
   */
  datatype BackgroundType = FillType(fill: BackgroundFill) | FileType(isPattern: bool, settings: int)

  /** BackgroundType(): a fill type, so it has no file. */
  const DefaultType: BackgroundType := FillType(BackgroundFill(0))

  predicate HasFile(t: BackgroundType) { t.FileType? }

  datatype Error = Error(code: int, message: string)

  /** What a promise is resolved with: set_value(Unit()) or set_error(status). */
  datatype Outcome = Ok | Failed(error: Error)

  /** A background as the manager stores it (BackgroundManager::Background). */
  datatype Background = Background(
    id: BackgroundId,
    accessHash: int,
    isCreator: bool,
    isDefault: bool,
    isDark: bool,
    hasNewLocalId: bool,
    name: string,
    backgroundType: BackgroundType,
    fileId: FileId,
    fileSourceId: FileSourceId)

  /**
   * A default-constructed Background: every field zero or empty, except
   * has_new_local_id, which takes its declared default.
   */
  function DefaultBackground(env: Env): Background
  {
    Background(0, 0, false, false, false, env.markerDefault, "", DefaultType, 0, 0)
  }

  /** The collaborators whose code is not part of this model, as uninterpreted functions. */
  datatype Env = Env(
    isLocalId: BackgroundId -> bool,                                  // BackgroundId::is_local
    link: BackgroundType -> string,                                   // BackgroundType::get_link
    hasEqualType: (BackgroundType, BackgroundType) -> bool,           // BackgroundType::has_equal_type
    applyParameters: (BackgroundType, string) -> BackgroundType,      // apply_parameters_from_link
    parseFill: string -> Result<BackgroundFill, Error>,               // BackgroundFill::get_background_fill
    fillIsDark: BackgroundFill -> bool,                               // BackgroundFill::is_dark
    canonicalFile: FileId -> FileId,                                  // get_file_view(file_id).file_id()
    documentFileIds: FileId -> seq<FileId>,                           // Document::get_file_ids
    markerDefault: bool)                                              // Background's declared default for has_new_local_id

  /** Local ids are positive, so a local id is always a valid one. */
  ghost predicate EnvOk(env: Env)
  {
    forall id :: env.isLocalId(id) ==> id > 0
  }

  /** inputWallPaper, inputWallPaperNoFile and inputWallPaperSlug. */
  datatype InputWallPaper = InputWallPaper(id: BackgroundId, accessHash: int) | InputWallPaperNoFile(noFileId: BackgroundId) | InputWallPaperSlug(slug: string)

  /** Everything the manager asks of the network, the database and the file subsystem. */
  datatype Request =
    | GetWallPapers                                                   // GetBackgroundsQuery
    | GetWallPaper(input: InputWallPaper, promise: PromiseId)         // GetBackgroundQuery
    | InstallWallPaper(installId: BackgroundId, installHash: int, installType: BackgroundType, installDark: bool, promise: PromiseId)
    | UploadWallPaper(uploadedFile: FileId, inputFile: nat, uploadType: BackgroundType, uploadDark: bool, promise: PromiseId)
    | UnsaveWallPaper(input: InputWallPaper, promise: PromiseId)      // UnsaveBackgroundQuery
    | ResetWallPapers(promise: PromiseId)                             // ResetBackgroundsQuery
    | DatabaseGet(key: string)                                        // sqlite pmc get
    | DatabaseSet(key: string, record: Background)                    // sqlite pmc set of log_event_store(record)
    | UploadFile(file: FileId)                                        // file_manager_->upload
    | CancelUpload(file: FileId)
    | MergeFiles(kept: FileId, other: FileId)
    | CreateFileSource(source: FileSourceId, sourceId: BackgroundId, sourceHash: int)
    | AddFileSource(file: FileId, source: FileSourceId)

  datatype Resolution = Resolution(promise: PromiseId, outcome: Outcome)

  // ---------------------------------------------------------------- names

  /** std::string::npos. */
  const NPos: nat := 0xFFFF_FFFF_FFFF_FFFF

  /** The index of the first c in s, if any. */
  function FirstIndex(s: string, c: char): (r: Option<nat>)
    ensures r.None? ==> forall j :: 0 <= j < |s| ==> s[j] != c
    ensures r.Some? ==> r.value < |s| && s[r.value] == c && forall j :: 0 <= j < r.value ==> s[j] != c
  {
    if s == [] then None
    else if s[0] == c then Some(0)
    else match FirstIndex(s[1..], c)
      case None => None
      case Some(k) => Some(k + 1)
  }

  /** string::find(c). */
  function Find(s: string, c: char): nat
  {
    match FirstIndex(s, c)
    case None => NPos
    case Some(k) => k
  }

  /** string::substr(0, n), which clamps n to the length. */
  function Prefix(s: string, n: nat): string
  {
    if n <= |s| then s[..n] else s
  }

  /** The alphabet of base64url (section 5 of RFC 4648), without padding. */
  predicate IsBase64UrlChar(ch: char)
  {
    ('A' <= ch <= 'Z') || ('a' <= ch <= 'z') || ('0' <= ch <= '9') || ch == '-' || ch == '_'
  }

  predicate IsBase64UrlCharacters(s: string)
  {
    forall i :: 0 <= i < |s| ==> IsBase64UrlChar(s[i])
  }

  /** is_background_name_local: names a server could not have issued as a slug. */
  predicate IsBackgroundNameLocal(name: string)
  {
    |name| <= 13 || Find(name, '?') <= 13 || !IsBase64UrlCharacters(Prefix(name, Find(name, '?')))
  }

  /** The slug part of a name: everything before the first '?' (search_background, lines 429-430). */
  function Slug(name: string): (slug: string)
    ensures slug <= name && forall j :: 0 <= j < |slug| ==> slug[j] != '?'
    ensures |slug| < |name| ==> name[|slug|] == '?'
  {
    match FirstIndex(name, '?')
    case None => name
    case Some(k) => name[..k]
  }

  /** A character of the name before its first '?' that is outside base64url. */
  ghost predicate HasBadCharBeforeQuery(name: string)
  {
    exists i :: 0 <= i < |name| && !IsBase64UrlChar(name[i]) && '?' !in name[..i + 1]
  }

  /**
   * A name is local exactly when it is at most 13 characters long, or it has
   * a '?' at position 13 or earlier, or its part before the first '?' holds a
   * character outside base64url. (A std::string is always shorter than npos.)
   */
  lemma NameLocalIff(name: string)
    requires |name| < NPos
    ensures IsBackgroundNameLocal(name) <==>
      (|name| <= 13
       || (exists i :: 0 <= i <= 13 && i < |name| && name[i] == '?')
       || HasBadCharBeforeQuery(name))
  {
    var f := FirstIndex(name, '?');
    var p := Prefix(name, Find(name, '?'));
    assert p == Slug(name);
    if (exists i :: 0 <= i <= 13 && i < |name| && name[i] == '?') {
      var i :| 0 <= i <= 13 && i < |name| && name[i] == '?';
      assert f.Some? && f.value <= i;
    }
    if f.Some? && f.value <= 13 {
      assert name[f.value] == '?';
    }
    if !IsBase64UrlCharacters(p) {
      var i :| 0 <= i < |p| && !IsBase64UrlChar(p[i]);
      assert name[i] == p[i];
      assert name[..i + 1] == p[..i + 1];
      assert '?' !in name[..i + 1];
    }
    if HasBadCharBeforeQuery(name) {
      var i :| 0 <= i < |name| && !IsBase64UrlChar(name[i]) && '?' !in name[..i + 1];
      assert i < |p| && p[i] == name[i];
    }
  }

  /**
   * A base64url slug longer than 13 characters, with or without parameters
   * after a '?', is a server slug; anything of 13 characters or fewer is local.
   */
  lemma LongBase64SlugIsNotLocal(slug: string, parameters: Option<string>)
    requires |slug| > 13 && IsBase64UrlCharacters(slug)
    ensures var name := match parameters case None => slug case Some(q) => slug + "?" + q;
      !IsBackgroundNameLocal(name) && Slug(name) == slug
  {
    var name := match parameters case None => slug case Some(q) => slug + "?" + q;
    assert forall j :: 0 <= j < |slug| ==> name[j] == slug[j];
    assert forall j :: 0 <= j < |slug| ==> slug[j] != '?' by {
      forall j | 0 <= j < |slug| ensures slug[j] != '?' { assert IsBase64UrlChar(slug[j]); }
    }
    var f := FirstIndex(name, '?');
    if parameters.Some? {
      assert name[|slug|] == '?';
      assert f == Some(|slug|);
      assert name[..|slug|] == slug;
    } else {
      assert f == None;
    }
  }

  lemma ShortNameIsLocal(name: string)
    requires |name| <= 13
    ensures IsBackgroundNameLocal(name)
  {
  }

  // ----------------------------------------------------------------- keys

  /** get_background_database_key: the binlog key of a theme's selection. */
  function SelectionKey(forDarkTheme: bool): (key: string)
    ensures key == "bg" || key == "bgd"
    ensures forDarkTheme <==> key == "bgd"
  {
    if forDarkTheme then "bgd" else "bg"
  }

  /** The binlog key of the local id high-water mark. */
  const MaxLocalIdKey: string := "max_bg_id"

  /** get_background_name_database_key: the sqlite key of a slug. */
  function NameDatabaseKey(name: string): (key: string)
    ensures |key| == |name| + 3 && key[3..] == name
  {
    "bgn" + name
  }

  lemma NameDatabaseKeyInjective(a: string, b: string)
    requires NameDatabaseKey(a) == NameDatabaseKey(b)
    ensures a == b
  {
    assert a == NameDatabaseKey(a)[3..];
  }

  // ------------------------------------------------------------------ url

  /**
   * get_background_url: the t.me link of a background. A file-backed type is
   * linked by name followed by '?' and the type's parameters (when there are
   * any); a fill type by its own link.
   */
  function BackgroundUrl(env: Env, tMeUrl: Option<string>, name: string, parsedType: Result<BackgroundType, Error>): (r: Result<string, Error>)
    ensures parsedType.Failure? ==> r == Failure(parsedType.error)
    ensures parsedType.Success? ==> r.Success?
  {
    match parsedType
    case Failure(e) => Failure(e)
    case Success(t) =>
      var base := (match tMeUrl case Some(u) => u case None => "https://t.me/") + "bg/";
      var link := env.link(t);
      if HasFile(t) then
        Success(base + name + (if link != [] then "?" + link else ""))
      else
        Success(base + link)
  }

  /**
   * The link of a file-backed background leads back to it: what follows
   * "bg/" has the background's name as its slug, which is what
   * search_background looks up (for a name without '?').
   */
  lemma UrlSlugIsName(env: Env, tMeUrl: Option<string>, name: string, t: BackgroundType)
    requires HasFile(t) && '?' !in name
    ensures var url := BackgroundUrl(env, tMeUrl, name, Success(t)).value;
      var base := (match tMeUrl case Some(u) => u case None => "https://t.me/") + "bg/";
      url[..|base|] == base && Slug(url[|base|..]) == name
  {
    var base := (match tMeUrl case Some(u) => u case None => "https://t.me/") + "bg/";
    var link := env.link(t);
    var tail := name + (if link != [] then "?" + link else "");
    var url := BackgroundUrl(env, tMeUrl, name, Success(t)).value;
    assert url == base + tail;
    assert url[|base|..] == tail;
    if link != [] {
      assert tail[|name|] == '?';
      assert FirstIndex(tail, '?') == Some(|name|) by {
        forall j | 0 <= j < |name| ensures tail[j] != '?' { assert tail[j] == name[j]; }
      }
      assert tail[..|name|] == name;
    } else {
      assert tail == name;
      assert FirstIndex(tail, '?') == None;
    }
  }

  // --------------------------------------------------------------- upload

  predicate IsFilePartMissing(message: string)
  {
    |message| >= 10 && message[..10] == "FILE_PART_" && |message| >= 8 && message[|message| - 8..] == "_MISSING"
  }

  /**
   * UploadBackgroundQuery::on_error: whether the partial upload is discarded
   * (delete_partial_remote_location) before the upload is cancelled.
   */
  predicate DiscardsPartialUpload(error: Error, closing: bool)
  {
    !IsFilePartMissing(error.message) && error.code != 429 && error.code < 500 && !closing
  }

  /** A rate limit, a server error, a missing part or shutdown keeps the partial upload. */
  lemma TransientUploadErrorKeepsPartial(error: Error, closing: bool)
    requires error.code == 429 || error.code >= 500 || closing || IsFilePartMissing(error.message)
    ensures !DiscardsPartialUpload(error, closing)
  {
  }

  /** on_upload_background_file_error: the error reported to the caller always has a positive code. */
  function UploadFailure(error: Error): (e: Error)
    ensures e.code > 0 && e.message == error.message
    ensures error.code > 0 ==> e == error
  {
    Error(if error.code > 0 then error.code else 500, error.message)
  }

  // ----------------------------------------------------- set_background type

  /**
   * Lines 645-650 of set_background as written: a fill type is replaced by
   * the stored type, and a file type is REJECTED when it has_equal_type the
   * stored one.
   */
  function CheckSetType(env: Env, stored: BackgroundType, requested: BackgroundType): (r: Result<BackgroundType, Error>)
    ensures !HasFile(requested) ==> r == Success(stored)
    ensures HasFile(requested) ==> (r.Failure? <==> env.hasEqualType(stored, requested))
    ensures r.Success? && HasFile(requested) ==> r.value == requested
  {
    if !HasFile(requested) then Success(stored)
    else if env.hasEqualType(stored, requested) then Failure(Error(400, "Background type mismatch"))
    else Success(requested)
  }

  /** The evidently intended check: a file type is rejected when it does NOT match the stored one. */
  function CheckSetTypeIntended(env: Env, stored: BackgroundType, requested: BackgroundType): (r: Result<BackgroundType, Error>)
    ensures r.Success? <==> !HasFile(requested) || env.hasEqualType(stored, requested)
    ensures r.Success? ==> r.value == (if HasFile(requested) then requested else stored)
  {
    if !HasFile(requested) then Success(stored)
    else if !env.hasEqualType(stored, requested) then Failure(Error(400, "Background type mismatch"))
    else Success(requested)
  }

  /**
   * The discrepancy: re-installing a wallpaper with a type that matches the
   * stored one is refused as a "mismatch", and one that does not match is
   * let through.
   */
  lemma SetTypeCheckIsInverted(env: Env, stored: BackgroundType, requested: BackgroundType)
    requires HasFile(requested)
    ensures CheckSetType(env, stored, requested).Failure? <==> CheckSetTypeIntended(env, stored, requested).Success?
  {
  }
}
