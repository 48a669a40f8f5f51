/** Small decisions ChatController makes on its own: bot-command replies and
    suffixes, the text cleared after a send, the unread badge, and the
    clamp applied to a URL entity's range. */
module ChatRules {
  import opened Common
  import opened ChatState

  /** A bot command tapped in a message replies to that message only in a
      channel or group, and only when the command names no bot. */
  predicate PostAsReply(command: string, isChannelOrGroup: bool)
  {
    '@' !in command && isChannelOrGroup
  }

  /** The message sent for a command tapped in a message. */
  function MessageBotCommand(messageId: Option<MessageId>, command: string, isChannelOrGroup: bool): (r: OutgoingMessage)
    ensures r.text == command && r.media.None?
    ensures r.replyToMessageId.Some? <==> PostAsReply(command, isChannelOrGroup) && messageId.Some?
    ensures r.replyToMessageId.Some? ==> r.replyToMessageId == messageId
  {
    OutgoingMessage(command, None, if PostAsReply(command, isChannelOrGroup) && messageId.Some? then messageId else None)
  }

  datatype PeerKind = UserPeer | OtherPeer

  /** The text of a command chosen from the input panel: outside a private
      chat with a user it names the bot. */
  function BotCommandText(peer: PeerKind, command: string, addressName: string): (r: string)
    ensures |command| <= |r| && r[..|command|] == command
    ensures peer == UserPeer ==> r == command
    ensures peer == OtherPeer ==> r[|command|..] == "@" + addressName
  {
    if peer == UserPeer then command else command + "@" + addressName
  }

  /** A command chosen from the input panel: sent only when the chat's peer
      and the bot's public name are known, replying to the current reply. */
  function InterfaceBotCommand(s: PresentationState, peer: Option<PeerKind>, addressName: Option<string>, command: string): (r: Option<OutgoingMessage>)
    ensures r.Some? <==> peer.Some? && addressName.Some?
    ensures r.Some? ==> r.value.text == BotCommandText(peer.value, command, addressName.value)
    ensures r.Some? ==> r.value.replyToMessageId == s.interfaceState.replyMessageId && r.value.media.None?
  {
    if peer.Some? && addressName.Some? then
      Some(OutgoingMessage(BotCommandText(peer.value, command, addressName.value), None, s.interfaceState.replyMessageId))
    else None
  }

  /** A command sent from the input panel to a group names its bot, so the
      in-message rule would never turn it into a reply. */
  lemma SuffixedCommandIsNotReply(command: string, addressName: string, isChannelOrGroup: bool)
    ensures !PostAsReply(BotCommandText(OtherPeer, command, addressName), isChannelOrGroup)
  {
    var t := BotCommandText(OtherPeer, command, addressName);
    assert t[|command|] == '@';
  }

  /** After a send: no reply, an empty draft and no link-preview override. */
  function ClearedAfterSend(s: PresentationState): (r: PresentationState)
    ensures r.interfaceState.replyMessageId.None?
    ensures r.interfaceState.composeInputText == ""
    ensures r.interfaceState.composeDisableUrlPreview.None?
    ensures r.interfaceState.editMessage == s.interfaceState.editMessage
    ensures r.interfaceState.messageActionsState == s.interfaceState.messageActionsState
    ensures r == s.(interfaceState := r.interfaceState)
  {
    s.(interfaceState := s.interfaceState.(replyMessageId := None, composeInputText := "", composeDisableUrlPreview := None))
  }

  /** The unread messages of other chats: the chat's own are subtracted
      unless the chat is already removed from the total. */
  function RemainingUnreadCount(totalCount: int, unreadCount: int, isRemovedFromTotalUnreadCount: bool): int
  {
    if isRemovedFromTotalUnreadCount then totalCount else totalCount - unreadCount
  }

  /** The back-button badge: the remaining count in decimal, or empty. */
  function UnreadBadge(totalCount: int, unreadCount: int, isRemovedFromTotalUnreadCount: bool): (r: string)
    ensures var n := RemainingUnreadCount(totalCount, unreadCount, isRemovedFromTotalUnreadCount);
      (r == "" <==> n <= 0) && (n > 0 ==> ParseDecimal(r) == n && r[0] != '-')
  {
    var n := RemainingUnreadCount(totalCount, unreadCount, isRemovedFromTotalUnreadCount);
    if n > 0 then
      DecimalRoundTrip(n);
      Decimal(n)
    else ""
  }

  /** A URL entity's (location, length) moved back inside a text of
      `textLength` UTF-16 units when it runs past the end. */
  function ClampEntityRange(textLength: nat, location: nat, length: nat): (r: (int, int))
    ensures 0 <= r.0 && 0 <= r.1 && r.0 + r.1 <= textLength
    ensures location + length <= textLength ==> r == (location, length)
    ensures location + length > textLength ==>
      && 0 <= r.0 && 0 <= r.1
      && r.0 + r.1 == textLength
      && r.1 == (if length <= textLength then length else textLength)
  {
    if location + length > textLength then
      var loc := if textLength - length > 0 then textLength - length else 0;
      (loc, textLength - loc)
    else (location, length)
  }
}
