/**
 * Background::store / Background::parse and BackgroundLogEvent, with the
 * storer modelled as a sequence of tokens. The document of a file-backed
 * background and the BackgroundType are stored by code that is not part of
 * this model, so each is one opaque token.
 */
module BackgroundStorage {
  import opened Wrappers
  import opened TlFlags
  import opened BackgroundTypes

  datatype Token =
    | FlagsToken(word: nat)
    | IntToken(value: int)
    | StringToken(text: string)
    | DocumentToken(file: FileId)
    | TypeToken(backgroundType: BackgroundType)

  /** The flags in stored order: is_creator, is_default, is_dark, has_file_id, has_new_local_id. */
  function BackgroundFlags(b: Background): seq<bool>
  {
    [b.isCreator, b.isDefault, b.isDark, b.fileId != 0, b.hasNewLocalId]
  }

  /** Background::store: flags, id, access hash, name, the document if there is a file, the type. */
  function StoreBackground(b: Background): (tokens: seq<Token>)
    ensures |tokens| == if b.fileId != 0 then 6 else 5
  {
    [FlagsToken(Pack(BackgroundFlags(b))), IntToken(b.id), IntToken(b.accessHash), StringToken(b.name)]
      + (if b.fileId != 0 then [DocumentToken(b.fileId)] else [])
      + [TypeToken(b.backgroundType)]
  }

  /** What parsing gives back: the file source is not stored, so a parsed record has none. */
  function Restored(b: Background): Background
  {
    b.(fileSourceId := 0)
  }

  /**
   * Background::parse from the start of `tokens`: the record and the number
   * of tokens read, or None when the parser meets a token of the wrong kind,
   * runs out of input or finds unknown flags. A document whose file did not
   * load is read as file 0 (lines 294-296); start_up later drops such a record.
   */
  function ParseBackground(tokens: seq<Token>): (r: Option<(Background, nat)>)
    ensures r.Some? ==> r.value.1 <= |tokens| && r.value.0.fileSourceId == 0
    ensures r.Some? ==> (r.value.1 == 5 || r.value.1 == 6) && (r.value.0.fileId != 0 ==> r.value.1 == 6)
  {
    if |tokens| < 5 || !tokens[0].FlagsToken? then None
    else
      match Unpack(tokens[0].word, 5)
      case None => None
      case Some(flags) =>
        if !(tokens[1].IntToken? && tokens[2].IntToken? && tokens[3].StringToken?) then None
        else
          var hasFile := flags[3];
          var next := if hasFile then 5 else 4;
          if next >= |tokens| then None
          else if hasFile && !tokens[4].DocumentToken? then None
          else if !tokens[next].TypeToken? then None
          else
            Some((Background(tokens[1].value, tokens[2].value, flags[0], flags[1], flags[2], flags[4],
                             tokens[3].text, tokens[next].backgroundType,
                             if hasFile then tokens[4].file else 0, 0),
                  next + 1))
  }

  /** Parsing what store wrote, followed by anything, reads back the record and exactly the written tokens. */
  lemma {:induction false} ParseStoreBackground(b: Background, rest: seq<Token>)
    ensures ParseBackground(StoreBackground(b) + rest) == Some((Restored(b), |StoreBackground(b)|))
  {
    var tokens := StoreBackground(b) + rest;
    UnpackPack(BackgroundFlags(b));
    assert tokens[0] == FlagsToken(Pack(BackgroundFlags(b)));
    if b.fileId != 0 {
      assert tokens[4] == DocumentToken(b.fileId) && tokens[5] == TypeToken(b.backgroundType);
    } else {
      assert tokens[4] == TypeToken(b.backgroundType);
    }
  }

  /**
   * A record whose has-file flag is set but whose document did not load is
   * still read: the whole six-token record is consumed and the file is 0, so
   * storing the result again writes five tokens.
   */
  lemma ParseLosesDocument(id: BackgroundId, accessHash: int, name: string, t: BackgroundType)
    ensures var tokens := [FlagsToken(Pack([false, false, false, true, false])), IntToken(id), IntToken(accessHash),
                           StringToken(name), DocumentToken(0), TypeToken(t)];
      && ParseBackground(tokens) == Some((Background(id, accessHash, false, false, false, false, name, t, 0, 0), 6))
      && |StoreBackground(ParseBackground(tokens).value.0)| == 5
  {
    UnpackPack([false, false, false, true, false]);
  }

  /** BackgroundLogEvent: a selected background and the type it was selected with. */
  datatype LogEvent = LogEvent(background: Background, setType: BackgroundType)

  function StoreLogEvent(e: LogEvent): (tokens: seq<Token>)
    ensures |tokens| == |StoreBackground(e.background)| + 1
  {
    StoreBackground(e.background) + [TypeToken(e.setType)]
  }

  /** log_event_parse: the event, provided every token is consumed. */
  function ParseLogEvent(tokens: seq<Token>): (r: Option<LogEvent>)
    ensures r.Some? ==> r.value.background.fileSourceId == 0
  {
    match ParseBackground(tokens)
    case None => None
    case Some((b, used)) =>
      if used + 1 == |tokens| && tokens[used].TypeToken? then Some(LogEvent(b, tokens[used].backgroundType))
      else None
  }

  /** A stored selection reads back as the same background (without its file source) and type. */
  lemma LogEventRoundTrip(e: LogEvent)
    ensures ParseLogEvent(StoreLogEvent(e)) == Some(LogEvent(Restored(e.background), e.setType))
  {
    ParseStoreBackground(e.background, [TypeToken(e.setType)]);
  }

  /**
   * Conversely, the tokens a successful parse reads are exactly what store
   * writes for the parsed record, unless the record's document came back
   * without a file (then store writes no document, see ParseLosesDocument).
   */
  lemma {:induction false} StoreParseBackground(tokens: seq<Token>)
    requires ParseBackground(tokens).Some?
    requires ParseBackground(tokens).value.0.fileId != 0 || ParseBackground(tokens).value.1 == 5
    ensures var r := ParseBackground(tokens).value; StoreBackground(r.0) == tokens[..r.1]
  {
    var r := ParseBackground(tokens).value;
    var flags := Unpack(tokens[0].word, 5).value;
    assert BackgroundFlags(r.0) == flags;
    PackUnpack(tokens[0].word, 5);
    assert StoreBackground(r.0)[0] == tokens[0];
  }

  /** log_event_parse of a lone Background (a slug's database entry): the record, provided every token is consumed. */
  function ParseStoredBackground(tokens: seq<Token>): (r: Option<Background>)
    ensures r.Some? ==> r.value.fileSourceId == 0
  {
    match ParseBackground(tokens)
    case None => None
    case Some((b, used)) => if used == |tokens| then Some(b) else None
  }

  /** What on_get_background writes under a slug's key reads back as the same record. */
  lemma StoredBackgroundRoundTrip(b: Background)
    ensures ParseStoredBackground(StoreBackground(b)) == Some(Restored(b))
  {
    ParseStoreBackground(b, []);
    assert StoreBackground(b) + [] == StoreBackground(b);
  }

  /**
   * The binlog value under "max_bg_id" as start_up reads it
   * (to_integer of the stored text): the stored number, or 0 when the key is
   * missing or holds anything else.
   */
  function StoredMaxLocalId(binlog: map<string, seq<Token>>): (id: BackgroundId)
    ensures MaxLocalIdKey !in binlog ==> id == 0
  {
    if MaxLocalIdKey in binlog && |binlog[MaxLocalIdKey]| == 1 && binlog[MaxLocalIdKey][0].IntToken? then binlog[MaxLocalIdKey][0].value
    else 0
  }

  /** Writing the mark and reading it back gives the mark. */
  lemma StoredMaxLocalIdRoundTrip(binlog: map<string, seq<Token>>, id: BackgroundId)
    ensures StoredMaxLocalId(binlog[MaxLocalIdKey := [IntToken(id)]]) == id
  {
  }
}
