/**
 * The serialisation of a message draft (td/telegram/DraftMessage.hpp):
 * store writes three presence flags, the date and each present field;
 * parse reads them back, or, for data written before replies to other
 * chats existed, a date, a bare reply message id and the text.
 */
module DraftMessages {
  import opened Wrappers
  import opened TlFlags

  type MessageId = int

  /** A chat identifier; 0 is DialogId(). */
  type DialogId = int

  const NoDialog: DialogId := 0

  /** A FormattedText, opaque here; "" is FormattedText(). */
  type FormattedText = string

  /** An InputMessageText; its own store/parse (InputMessageText.hpp) is not part of this model, so it travels as one token. */
  datatype InputMessageText = InputMessageText(text: FormattedText, payload: seq<int>)

  const EmptyText: InputMessageText := InputMessageText("", [])

  /** A MessageInputReplyTo: the replied message, its chat, the quote and the quote's position. */
  datatype MessageInputReplyTo = MessageInputReplyTo(messageId: MessageId, dialogId: DialogId, quote: FormattedText, quotePosition: int)

  const EmptyReplyTo: MessageInputReplyTo := MessageInputReplyTo(0, NoDialog, "", 0)

  /** DraftMessageContent, opaque here; store_draft_message_content writes it as one token. */
  type DraftContent = nat

  datatype DraftMessage = DraftMessage(date: int, text: InputMessageText, replyTo: MessageInputReplyTo, localContent: Option<DraftContent>)

  /** A default-constructed DraftMessage, which parse fills in. */
  const DefaultDraft: DraftMessage := DraftMessage(0, EmptyText, EmptyReplyTo, None)

  /** InputMessageText::is_empty and MessageInputReplyTo::is_empty, whose code is not part of this model. */
  datatype Emptiness = Emptiness(textEmpty: InputMessageText -> bool, replyEmpty: MessageInputReplyTo -> bool)

  /** A draft whose empty parts are the default values, which is what parse restores for a part not written. */
  predicate Canonical(d: DraftMessage, e: Emptiness)
  {
    (e.textEmpty(d.text) ==> d.text == EmptyText) && (e.replyEmpty(d.replyTo) ==> d.replyTo == EmptyReplyTo)
  }

  /** The units the storer appends and the parser reads. */
  datatype Token =
    | FlagsToken(word: nat)
    | DateToken(date: int)
    | MessageIdToken(messageId: MessageId)
    | TextToken(text: InputMessageText)
    | ReplyToken(replyTo: MessageInputReplyTo)
    | ContentToken(content: DraftContent)

  /** has_input_message_text, has_message_input_reply_to and has_local_content, in the order they are stored. */
  function DraftFlags(d: DraftMessage, e: Emptiness): (flags: seq<bool>)
    ensures |flags| == 3
  {
    [!e.textEmpty(d.text), !e.replyEmpty(d.replyTo), d.localContent.Some?]
  }

  /** What DraftMessage::store writes. */
  function DraftTokens(d: DraftMessage, e: Emptiness): seq<Token>
  {
    var flags := DraftFlags(d, e);
    [FlagsToken(Pack(flags)), DateToken(d.date)]
      + (if flags[0] then [TextToken(d.text)] else [])
      + (if flags[1] then [ReplyToken(d.replyTo)] else [])
      + (if flags[2] then [ContentToken(d.localContent.value)] else [])
  }

  /** The reply a legacy reply message id becomes: no chat, no quote, quote position 0. */
  function LegacyReplyTo(messageId: MessageId): (r: MessageInputReplyTo)
    ensures r.messageId == messageId && r.dialogId == NoDialog && r.quote == "" && r.quotePosition == 0
  {
    MessageInputReplyTo(messageId, NoDialog, "", 0)
  }

  /** The fields parse can read. */
  datatype Field = DateField | LegacyReplyField | TextField | ReplyField | ContentField

  /** Reading one field from a token: the token must be of the field's kind. */
  function Assign(d: DraftMessage, field: Field, t: Token): Option<DraftMessage>
  {
    match field
    case DateField => if t.DateToken? then Some(d.(date := t.date)) else None
    case LegacyReplyField => if t.MessageIdToken? then Some(d.(replyTo := LegacyReplyTo(t.messageId))) else None
    case TextField => if t.TextToken? then Some(d.(text := t.text)) else None
    case ReplyField => if t.ReplyToken? then Some(d.(replyTo := t.replyTo)) else None
    case ContentField => if t.ContentToken? then Some(d.(localContent := Some(t.content))) else None
  }

  /** A draft being parsed and how many tokens have been read. */
  datatype Cursor = Cursor(draft: DraftMessage, at: nat)

  /** One read of parse: nothing when the field is absent, failure when the next token is missing or of another kind. */
  function Step(input: seq<Token>, c: Option<Cursor>, present: bool, field: Field): (r: Option<Cursor>)
    ensures r.Some? ==> c.Some? && r.value.at == c.value.at + (if present then 1 else 0)
  {
    if c.None? || !present then c
    else if c.value.at < |input| then
      match Assign(c.value.draft, field, input[c.value.at])
      case None => None
      case Some(d) => Some(Cursor(d, c.value.at + 1))
    else None
  }

  /** The presence flags parse works with, and the tokens it read for them: none before the version that stores them. */
  function ReadFlags(input: seq<Token>, current: bool): Option<(seq<bool>, nat)>
  {
    if !current then Some(([true, false, false], 0))
    else if |input| == 0 || !input[0].FlagsToken? then None
    else
      match Unpack(input[0].word, 3)
      case None => None
      case Some(flags) => Some((flags, 1))
  }

  /**
   * DraftMessage::parse on `prior` from `input`; `current` says whether the
   * data's version is at least SupportRepliesInOtherChats. The result is
   * the draft and the number of tokens read, or None when parsing fails.
   */
  function DecodeDraft(prior: DraftMessage, input: seq<Token>, current: bool): Option<Cursor>
  {
    match ReadFlags(input, current)
    case None => None
    case Some((flags, used)) =>
      var c1 := Step(input, Some(Cursor(prior, used)), true, DateField);
      var c2 := Step(input, c1, !current, LegacyReplyField);
      var c3 := Step(input, c2, flags[0], TextField);
      var c4 := Step(input, c3, flags[1], ReplyField);
      Step(input, c4, flags[2], ContentField)
  }

  /**
   * The flag word store writes reads back as the three presence flags:
   * bit 0 iff the text is non-empty, bit 1 iff the reply is non-empty,
   * bit 2 iff there is local content.
   */
  lemma StoredFlags(d: DraftMessage, e: Emptiness)
    ensures var t := DraftTokens(d, e)[0];
      && t.FlagsToken?
      && Unpack(t.word, 3) == Some(DraftFlags(d, e))
      && (Bit(t.word, 0) <==> !e.textEmpty(d.text))
      && (Bit(t.word, 1) <==> !e.replyEmpty(d.replyTo))
      && (Bit(t.word, 2) <==> d.localContent.Some?)
  {
    UnpackPack(DraftFlags(d, e));
    PackBit(DraftFlags(d, e), 0);
    PackBit(DraftFlags(d, e), 1);
    PackBit(DraftFlags(d, e), 2);
  }

  /**
   * store writes the flags, the date, then the text, the reply and the
   * content, each exactly when its flag is set.
   */
  lemma StoredLayout(d: DraftMessage, e: Emptiness)
    ensures var tokens := DraftTokens(d, e);
      var flags := DraftFlags(d, e);
      var n := (if flags[0] then 1 else 0) + (if flags[1] then 1 else 0) + (if flags[2] then 1 else 0);
      && |tokens| == 2 + n
      && tokens[1] == DateToken(d.date)
      && (flags[0] ==> tokens[2] == TextToken(d.text))
      && (flags[1] ==> tokens[if flags[0] then 3 else 2] == ReplyToken(d.replyTo))
      && (flags[2] ==> tokens[|tokens| - 1] == ContentToken(d.localContent.value))
      && (TextToken(d.text) in tokens <==> flags[0])
      && (ReplyToken(d.replyTo) in tokens <==> flags[1])
      && (forall i :: 0 <= i < |tokens| && tokens[i].ContentToken? ==> flags[2])
  {
  }

  /**
   * At a current version, parsing what store wrote into a default draft
   * gives back the draft and reads exactly the written tokens, whatever
   * follows them.
   */
  lemma {:induction false} RoundTrip(d: DraftMessage, e: Emptiness, rest: seq<Token>)
    requires Canonical(d, e)
    ensures DecodeDraft(DefaultDraft, DraftTokens(d, e) + rest, true) == Some(Cursor(d, |DraftTokens(d, e)|))
  {
    var flags := DraftFlags(d, e);
    var input := DraftTokens(d, e) + rest;
    StoredFlags(d, e);
    assert input[0] == FlagsToken(Pack(flags));
    assert ReadFlags(input, true) == Some((flags, 1));
    var c1 := Step(input, Some(Cursor(DefaultDraft, 1)), true, DateField);
    assert input[1] == DateToken(d.date);
    assert c1 == Some(Cursor(DefaultDraft.(date := d.date), 2));
    var c2 := Step(input, c1, false, LegacyReplyField);
    var k3 := if flags[0] then 3 else 2;
    var c3 := Step(input, c2, flags[0], TextField);
    if flags[0] {
      assert input[2] == TextToken(d.text);
    }
    assert c3 == Some(Cursor(DefaultDraft.(date := d.date, text := d.text), k3));
    var k4 := if flags[1] then k3 + 1 else k3;
    var c4 := Step(input, c3, flags[1], ReplyField);
    if flags[1] {
      assert input[k3] == ReplyToken(d.replyTo);
    }
    assert c4 == Some(Cursor(DefaultDraft.(date := d.date, text := d.text, replyTo := d.replyTo), k4));
    if flags[2] {
      assert input[k4] == ContentToken(d.localContent.value);
    }
  }

  /**
   * Before SupportRepliesInOtherChats no flags are read: the date, a legacy
   * reply message id and the text are read, in that order, and nothing else;
   * the content keeps the draft's own value.
   */
  lemma LegacyParse(prior: DraftMessage, input: seq<Token>)
    ensures var r := DecodeDraft(prior, input, false);
      && (r.Some? <==> |input| >= 3 && input[0].DateToken? && input[1].MessageIdToken? && input[2].TextToken?)
      && (r.Some? ==> r.value == Cursor(DraftMessage(input[0].date, input[2].text, LegacyReplyTo(input[1].messageId), prior.localContent), 3))
  {
  }

  /**
   * At a current version a field whose flag is clear is not read: the
   * parsed draft keeps the value it had.
   */
  lemma AbsentFieldsAreNotRead(prior: DraftMessage, input: seq<Token>)
    requires |input| > 0 && input[0].FlagsToken?
    ensures var r := DecodeDraft(prior, input, true);
      r.Some? ==>
        && (!Bit(input[0].word, 0) ==> r.value.draft.text == prior.text)
        && (!Bit(input[0].word, 1) ==> r.value.draft.replyTo == prior.replyTo)
        && (!Bit(input[0].word, 2) ==> r.value.draft.localContent == prior.localContent)
  {
  }

  /** A buffer td::store appends to. */
  class Storer {
    var tokens: seq<Token>

    constructor()
      ensures tokens == []
    {
      tokens := [];
    }

    method Store(t: Token)
      modifies this
      ensures tokens == old(tokens) + [t]
    {
      tokens := tokens + [t];
    }
  }

  /**
   * A cursor over stored tokens, with the version of the data. A read that
   * finds no token of the expected kind marks the parser failed and leaves
   * nothing more to read, as set_error does.
   */
  class Parser {
    const tokens: seq<Token>
    const version: int
    var pos: nat
    var failed: bool

    constructor(tokens: seq<Token>, version: int)
      ensures this.tokens == tokens && this.version == version && pos == 0 && !failed
    {
      this.tokens := tokens;
      this.version := version;
      pos := 0;
      failed := false;
    }

    predicate Valid()
      reads this`pos
    {
      pos <= |tokens|
    }

    /** The tokens not read yet. */
    function Rest(): seq<Token>
      reads this`pos
      requires Valid()
    {
      tokens[pos..]
    }

    /** A failed read: the parser is marked and exhausted. */
    method Fail()
      modifies this`pos, this`failed
      ensures failed && pos == |tokens|
    {
      failed := true;
      pos := |tokens|;
    }

    /** BEGIN_PARSE_FLAGS ... END_PARSE_FLAGS for k flags. */
    method ParseFlags(k: nat) returns (flags: seq<bool>)
      requires Valid()
      modifies this`pos, this`failed
      ensures Valid() && |flags| == k
      ensures var ok := old(pos) < |tokens| && tokens[old(pos)].FlagsToken? && Unpack(tokens[old(pos)].word, k).Some?;
        && (ok ==> flags == Unpack(tokens[old(pos)].word, k).value && pos == old(pos) + 1 && failed == old(failed))
        && (!ok ==> failed && pos == |tokens|)
    {
      flags := seq(k, i => false);
      if pos < |tokens| && tokens[pos].FlagsToken? {
        match Unpack(tokens[pos].word, k)
        case Some(bits) =>
          flags := bits;
          pos := pos + 1;
        case None =>
          Fail();
      } else {
        Fail();
      }
    }

    /** Reads one token of a field's kind into `d`. */
    method ParseField(d: DraftMessage, field: Field) returns (r: DraftMessage)
      requires Valid()
      modifies this`pos, this`failed
      ensures Valid()
      ensures var ok := old(pos) < |tokens| && Assign(d, field, tokens[old(pos)]).Some?;
        && (ok ==> r == Assign(d, field, tokens[old(pos)]).value && pos == old(pos) + 1 && failed == old(failed))
        && (!ok ==> failed && pos == |tokens|)
    {
      r := d;
      if pos < |tokens| {
        match Assign(d, field, tokens[pos])
        case Some(read) =>
          r := read;
          pos := pos + 1;
        case None =>
          Fail();
      } else {
        Fail();
      }
    }
  }

  /** A DraftMessage object: its four fields, which parse assigns one at a time. */
  class Draft {
    var date: int
    var text: InputMessageText
    var replyTo: MessageInputReplyTo
    var localContent: Option<DraftContent>

    constructor()
      ensures Value() == DefaultDraft
    {
      date, text, replyTo, localContent := 0, EmptyText, EmptyReplyTo, None;
    }

    function Value(): DraftMessage
      reads this
    {
      DraftMessage(date, text, replyTo, localContent)
    }

    /** DraftMessage::store (lines 19-39). */
    method Store(storer: Storer, e: Emptiness)
      modifies storer
      ensures storer.tokens == old(storer.tokens) + DraftTokens(Value(), e)
    {
      var hasInputMessageText := !e.textEmpty(text);
      var hasMessageInputReplyTo := !e.replyEmpty(replyTo);
      var hasLocalContent := localContent.Some?;
      storer.Store(FlagsToken(Pack([hasInputMessageText, hasMessageInputReplyTo, hasLocalContent])));
      storer.Store(DateToken(date));
      ghost var written := [FlagsToken(Pack(DraftFlags(Value(), e))), DateToken(date)];
      if hasInputMessageText {
        storer.Store(TextToken(text));
        written := written + [TextToken(text)];
      }
      if hasMessageInputReplyTo {
        storer.Store(ReplyToken(replyTo));
        written := written + [ReplyToken(replyTo)];
      }
      if hasLocalContent {
        storer.Store(ContentToken(localContent.value));
        written := written + [ContentToken(localContent.value)];
      }
      assert storer.tokens == old(storer.tokens) + written;
    }

    /**
     * DraftMessage::parse (lines 41-72), with SupportRepliesInOtherChats
     * (Version.h is not part of this model) given as `repliesInOtherChats`:
     * on success the draft is what DecodeDraft reads from the unread tokens
     * and exactly those tokens are consumed; otherwise the parser is failed.
     */
    method Parse(parser: Parser, repliesInOtherChats: int)
      requires parser.Valid()
      modifies this, parser
      ensures parser.Valid()
      ensures var r := DecodeDraft(old(Value()), old(parser.Rest()), parser.version >= repliesInOtherChats);
        && (r.Some? ==> Value() == r.value.draft && parser.pos == old(parser.pos) + r.value.at && parser.failed == old(parser.failed))
        && (r.None? ==> parser.failed)
    {
      ghost var input := parser.Rest();
      ghost var p0 := parser.pos;
      var hasLegacyReplyToMessageId, hasInputMessageText, hasMessageInputReplyTo, hasLocalContent := ParsePresence(parser, repliesInOtherChats);
      ghost var c: Option<Cursor> := match ReadFlags(input, parser.version >= repliesInOtherChats)
        case None => None
        case Some((flags, used)) => Some(Cursor(Value(), used));
      ParseInto(parser, p0, input, c, true, DateField);
      c := Step(input, c, true, DateField);
      ParseInto(parser, p0, input, c, hasLegacyReplyToMessageId, LegacyReplyField);
      c := Step(input, c, hasLegacyReplyToMessageId, LegacyReplyField);
      ParseInto(parser, p0, input, c, hasInputMessageText, TextField);
      c := Step(input, c, hasInputMessageText, TextField);
      ParseInto(parser, p0, input, c, hasMessageInputReplyTo, ReplyField);
      c := Step(input, c, hasMessageInputReplyTo, ReplyField);
      ParseInto(parser, p0, input, c, hasLocalContent, ContentField);
    }

    /**
     * The start of parse: the flags at a current version, fixed values
     * before it. It reports what ReadFlags does and changes no field of the draft.
     */
    method ParsePresence(parser: Parser, repliesInOtherChats: int) returns (hasLegacyReplyToMessageId: bool, hasInputMessageText: bool, hasMessageInputReplyTo: bool, hasLocalContent: bool)
      requires parser.Valid()
      modifies parser`pos, parser`failed
      ensures parser.Valid() && old(parser.pos) <= parser.pos
      ensures hasLegacyReplyToMessageId == (parser.version < repliesInOtherChats)
      ensures var r := ReadFlags(old(parser.Rest()), parser.version >= repliesInOtherChats);
        && (r.Some? ==>
              && [hasInputMessageText, hasMessageInputReplyTo, hasLocalContent] == r.value.0
              && parser.pos == old(parser.pos) + r.value.1
              && parser.failed == old(parser.failed))
        && (r.None? ==> parser.failed)
    {
      hasInputMessageText := true;
      hasMessageInputReplyTo := false;
      hasLocalContent := false;
      if parser.version >= repliesInOtherChats {
        hasLegacyReplyToMessageId := false;
        var flags := parser.ParseFlags(3);
        hasInputMessageText, hasMessageInputReplyTo, hasLocalContent := flags[0], flags[1], flags[2];
      } else {
        hasLegacyReplyToMessageId := true;
      }
    }

    /** One read of parse, when its flag is set: the parser call that assigns the field, and the cursor advanced past it. */
    method ParseInto(parser: Parser, ghost p0: nat, ghost input: seq<Token>, ghost c: Option<Cursor>, present: bool, field: Field)
      requires parser.Valid() && p0 <= parser.pos && input == parser.tokens[p0..]
      requires c.Some? ==> Value() == c.value.draft && parser.pos == p0 + c.value.at
      requires c.None? ==> parser.failed
      modifies this, parser`pos, parser`failed
      ensures parser.Valid() && p0 <= parser.pos && input == parser.tokens[p0..]
      ensures var r := Step(input, c, present, field);
        && (r.Some? ==> Value() == r.value.draft && parser.pos == p0 + r.value.at && parser.failed == old(parser.failed))
        && (r.None? ==> parser.failed)
    {
      if present {
        var d := parser.ParseField(Value(), field);
        date, text, replyTo, localContent := d.date, d.text, d.replyTo, d.localContent;
      }
    }
  }
}
