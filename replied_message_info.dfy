/**
 * The reply header of a message (td/telegram/RepliedMessageInfo.cpp): the
 * constructor turns a raw messageReplyHeader into the replied message id,
 * the chat of a reply to another chat and the date of the replied message's
 * origin, clearing what it cannot trust; the accessors and equality.
 */
module RepliedMessages {
  import opened Wrappers

  /** A chat identifier; 0 is DialogId(), the empty one. */
  type DialogId = int

  const NoDialog: DialogId := 0

  /**
   * A message identifier as the constructor builds it: empty (MessageId()),
   * from a server message id, or from a scheduled server message id and a date.
   */
  datatype MessageId = NoMessage | ServerMessage(serverId: int) | ScheduledServerMessage(scheduledId: int, date: int)

  /** A MessageOrigin value, opaque here; 0 is the default-constructed origin. */
  type MessageOrigin = nat

  const DefaultOrigin: MessageOrigin := 0

  /** The reply_from_ part of a header: its date, channel_post_, and whether MessageOrigin::get_message_origin accepts it. */
  datatype ReplyFrom = ReplyFrom(date: int, channelPost: int, originParses: bool)

  /**
   * The fields of telegram_api::messageReplyHeader the constructor acts on;
   * reply_to_peer_id_ is given as the DialogId it converts to.
   */
  datatype ReplyHeader = ReplyHeader(replyToScheduled: bool, replyToMsgId: int, replyToPeer: Option<DialogId>,
                                     replyFrom: Option<ReplyFrom>)

  /** MessageId::is_valid, MessageId::is_scheduled and DialogId::is_valid, whose code is not part of this model. */
  datatype IdRules = IdRules(messageValid: MessageId -> bool, messageScheduled: MessageId -> bool, dialogValid: DialogId -> bool)

  /** The empty ids are not valid. */
  predicate IdRulesOk(rules: IdRules)
  {
    !rules.messageValid(NoMessage) && !rules.dialogValid(NoDialog)
  }

  datatype RepliedMessageInfo = RepliedMessageInfo(messageId: MessageId, dialogId: DialogId, originDate: int, origin: MessageOrigin)

  /** The replied message id the constructor keeps. */
  function KeptMessageId(rules: IdRules, h: ReplyHeader, messageId: MessageId, date: int): MessageId
  {
    if h.replyToScheduled then
      if rules.messageScheduled(messageId) && h.replyToPeer.None? then ScheduledServerMessage(h.replyToMsgId, date) else NoMessage
    else if h.replyToMsgId == 0 then NoMessage
    else if h.replyToPeer.Some? && !rules.dialogValid(h.replyToPeer.value) then NoMessage
    else if !rules.messageValid(ServerMessage(h.replyToMsgId)) then NoMessage
    else ServerMessage(h.replyToMsgId)
  }

  /** The chat of the replied message the constructor keeps: only a valid other chat of a kept server reply. */
  function KeptDialogId(rules: IdRules, h: ReplyHeader, dialogId: DialogId): DialogId
  {
    if !h.replyToScheduled && h.replyToMsgId != 0 && h.replyToPeer.Some? && rules.dialogValid(h.replyToPeer.value)
       && h.replyToPeer.value != dialogId && rules.messageValid(ServerMessage(h.replyToMsgId))
    then h.replyToPeer.value
    else NoDialog
  }

  /** The origin date the constructor keeps: that of reply_from_ in a non-scheduled reply, unless its origin is rejected. */
  function KeptOriginDate(h: ReplyHeader): int
  {
    if h.replyToScheduled || h.replyFrom.None? then 0
    else if h.replyFrom.value.channelPost != 0 || h.replyFrom.value.originParses then h.replyFrom.value.date
    else 0
  }

  /** What the constructor leaves in the four fields; origin_ is never assigned. */
  function Normalised(rules: IdRules, h: ReplyHeader, dialogId: DialogId, messageId: MessageId, date: int): RepliedMessageInfo
  {
    RepliedMessageInfo(KeptMessageId(rules, h, messageId, date), KeptDialogId(rules, h, dialogId), KeptOriginDate(h), DefaultOrigin)
  }

  /**
   * RepliedMessageInfo::RepliedMessageInfo (lines 19-77): the fields start
   * empty and are set, then cleared, step by step; the log lines are left out.
   */
  method Construct(rules: IdRules, h: ReplyHeader, dialogId: DialogId, messageId: MessageId, date: int)
    returns (info: RepliedMessageInfo)
    ensures info == Normalised(rules, h, dialogId, messageId, date)
  {
    var replyMessageId := NoMessage;
    var replyDialogId := NoDialog;
    var originDate := 0;
    if h.replyToScheduled {
      replyMessageId := ScheduledServerMessage(h.replyToMsgId, date);
      if rules.messageScheduled(messageId) {
        if h.replyToPeer.Some? {
          replyDialogId := h.replyToPeer.value;
          replyMessageId := NoMessage;
          replyDialogId := NoDialog;
        }
      } else {
        replyMessageId := NoMessage;
      }
    } else {
      if h.replyToMsgId != 0 {
        replyMessageId := ServerMessage(h.replyToMsgId);
        if h.replyToPeer.Some? {
          replyDialogId := h.replyToPeer.value;
          if !rules.dialogValid(replyDialogId) {
            replyMessageId := NoMessage;
            replyDialogId := NoDialog;
          }
          if replyDialogId == dialogId {
            replyDialogId := NoDialog;
          }
        }
        if !rules.messageValid(replyMessageId) {
          replyMessageId := NoMessage;
          replyDialogId := NoDialog;
        }
      }
      if h.replyFrom.Some? {
        originDate := h.replyFrom.value.date;
        if h.replyFrom.value.channelPost == 0 && !h.replyFrom.value.originParses {
          originDate := 0;
        }
      }
    }
    info := RepliedMessageInfo(replyMessageId, replyDialogId, originDate, DefaultOrigin);
  }

  /**
   * After the constructor, a reply naming another chat names a valid chat
   * other than the message's own, and a valid replied message.
   */
  lemma OtherChatReplyIsValid(rules: IdRules, h: ReplyHeader, dialogId: DialogId, messageId: MessageId, date: int)
    requires IdRulesOk(rules)
    ensures var info := Normalised(rules, h, dialogId, messageId, date);
      info.dialogId != NoDialog ==>
        rules.dialogValid(info.dialogId) && info.dialogId != dialogId && rules.messageValid(info.messageId)
  {
  }

  /** A reply to a scheduled message from a message that is not scheduled keeps no message id (lines 22-36). */
  lemma ScheduledReplyNeedsScheduledMessage(rules: IdRules, h: ReplyHeader, dialogId: DialogId, messageId: MessageId, date: int)
    requires h.replyToScheduled && !rules.messageScheduled(messageId)
    ensures Normalised(rules, h, dialogId, messageId, date).messageId == NoMessage
  {
  }

  /**
   * A reply to a scheduled message keeps the scheduled id exactly when the
   * message is scheduled and the header names no chat; it never names a chat.
   */
  lemma ScheduledReplyShape(rules: IdRules, h: ReplyHeader, dialogId: DialogId, messageId: MessageId, date: int)
    requires h.replyToScheduled
    ensures var info := Normalised(rules, h, dialogId, messageId, date);
      && info.dialogId == NoDialog && info.originDate == 0
      && (info.messageId != NoMessage <==> rules.messageScheduled(messageId) && h.replyToPeer.None?)
      && (info.messageId != NoMessage ==> info.messageId == ScheduledServerMessage(h.replyToMsgId, date))
  {
  }

  /** A non-scheduled reply naming an invalid chat, or an invalid message, is cleared entirely (lines 47-61). */
  lemma InvalidReplyIsCleared(rules: IdRules, h: ReplyHeader, dialogId: DialogId, messageId: MessageId, date: int)
    requires !h.replyToScheduled && h.replyToMsgId != 0
    requires (h.replyToPeer.Some? && !rules.dialogValid(h.replyToPeer.value)) || !rules.messageValid(ServerMessage(h.replyToMsgId))
    ensures var info := Normalised(rules, h, dialogId, messageId, date);
      info.messageId == NoMessage && info.dialogId == NoDialog
  {
  }

  /** Without a replied message id nothing is kept but the origin date, even when a chat is named (lines 43-64). */
  lemma ZeroReplyIdKeepsNothing(rules: IdRules, h: ReplyHeader, dialogId: DialogId, messageId: MessageId, date: int)
    requires !h.replyToScheduled && h.replyToMsgId == 0
    ensures var info := Normalised(rules, h, dialogId, messageId, date);
      info.messageId == NoMessage && info.dialogId == NoDialog
  {
  }

  /**
   * A valid non-scheduled reply keeps its server message id; it names a
   * chat exactly when the header names a valid chat other than the
   * message's own.
   */
  lemma ValidReplyIsKept(rules: IdRules, h: ReplyHeader, dialogId: DialogId, messageId: MessageId, date: int)
    requires IdRulesOk(rules)
    requires !h.replyToScheduled && h.replyToMsgId != 0 && rules.messageValid(ServerMessage(h.replyToMsgId))
    requires h.replyToPeer.Some? ==> rules.dialogValid(h.replyToPeer.value)
    ensures var info := Normalised(rules, h, dialogId, messageId, date);
      && info.messageId == ServerMessage(h.replyToMsgId)
      && (info.dialogId != NoDialog <==> h.replyToPeer.Some? && h.replyToPeer.value != dialogId)
      && (info.dialogId != NoDialog ==> info.dialogId == h.replyToPeer.value)
  {
  }

  /**
   * The origin date is reply_from_'s date in a non-scheduled reply, kept
   * for a channel post and otherwise only when the origin parses; it is 0
   * without reply_from_ (lines 65-75).
   */
  lemma OriginDateRule(rules: IdRules, h: ReplyHeader, dialogId: DialogId, messageId: MessageId, date: int)
    ensures var info := Normalised(rules, h, dialogId, messageId, date);
      && (h.replyToScheduled || h.replyFrom.None? ==> info.originDate == 0)
      && (!h.replyToScheduled && h.replyFrom.Some? ==>
            info.originDate == (if h.replyFrom.value.channelPost != 0 || h.replyFrom.value.originParses then h.replyFrom.value.date else 0))
      && (info.originDate != 0 ==>
            && !h.replyToScheduled && h.replyFrom.Some? && info.originDate == h.replyFrom.value.date
            && (h.replyFrom.value.channelPost != 0 || h.replyFrom.value.originParses))
      && info.origin == DefaultOrigin
  {
  }

  /**
   * get_same_chat_reply_to_message_id (lines 79-81); is_same_chat_reply is
   * declared in RepliedMessageInfo.h, which is not part of this model, and
   * is given as `sameChat`.
   */
  function GetSameChatReplyToMessageId(info: RepliedMessageInfo, sameChat: RepliedMessageInfo -> bool): (m: MessageId)
    ensures sameChat(info) ==> m == info.messageId
    ensures !sameChat(info) ==> m == NoMessage
  {
    if sameChat(info) then info.messageId else NoMessage
  }

  /** The full id of the replied message: (dialog_id_, message_id_). */
  datatype MessageFullId = MessageFullId(dialogId: DialogId, messageId: MessageId)

  /** get_reply_message_full_id (lines 83-85). */
  function GetReplyMessageFullId(info: RepliedMessageInfo): (full: MessageFullId)
    ensures full.dialogId == info.dialogId && full.messageId == info.messageId
  {
    MessageFullId(info.dialogId, info.messageId)
  }

  /**
   * The full id of a constructed reply names another chat only together
   * with a valid message in it; a same-chat reply yields no message id
   * unless the constructor kept one.
   */
  lemma ConstructedFullId(rules: IdRules, h: ReplyHeader, dialogId: DialogId, messageId: MessageId, date: int,
                          sameChat: RepliedMessageInfo -> bool)
    requires IdRulesOk(rules)
    ensures var info := Normalised(rules, h, dialogId, messageId, date);
      var full := GetReplyMessageFullId(info);
      && (full.dialogId != NoDialog ==> rules.messageValid(full.messageId) && full.dialogId != dialogId)
      && (GetSameChatReplyToMessageId(info, sameChat) != NoMessage ==> GetSameChatReplyToMessageId(info, sameChat) == KeptMessageId(rules, h, messageId, date))
  {
    OtherChatReplyIsValid(rules, h, dialogId, messageId, date);
  }

  /** operator== (lines 87-90): all four fields compared. */
  function Equals(lhs: RepliedMessageInfo, rhs: RepliedMessageInfo): (r: bool)
    ensures r <==> lhs == rhs
  {
    lhs.messageId == rhs.messageId && lhs.dialogId == rhs.dialogId && lhs.originDate == rhs.originDate && lhs.origin == rhs.origin
  }

  /** operator!= (lines 92-94): the negation of ==. */
  function NotEquals(lhs: RepliedMessageInfo, rhs: RepliedMessageInfo): (r: bool)
    ensures r <==> !Equals(lhs, rhs)
    ensures r <==> lhs != rhs
  {
    !Equals(lhs, rhs)
  }

  /** Equality is an equivalence: reflexive, symmetric and transitive. */
  lemma EqualsIsEquivalence(a: RepliedMessageInfo, b: RepliedMessageInfo, c: RepliedMessageInfo)
    ensures Equals(a, a)
    ensures Equals(a, b) ==> Equals(b, a)
    ensures Equals(a, b) && Equals(b, c) ==> Equals(a, c)
  {
  }
}
