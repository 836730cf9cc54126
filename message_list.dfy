/**
 * The chat list adapter (`MessageAdapter`): how each message is classified
 * into a row kind, the list it keeps, and the state of the "accept game"
 * button on an invitation row.
 */
module MessageList {
  import opened Wrappers
  import opened Messages
  import JavaInt
  import opened JavaText

  const VIEW_TYPE_MY_MESSAGE := 1
  const VIEW_TYPE_OTHER_MESSAGE := 2
  const VIEW_TYPE_SYSTEM_MESSAGE := 3
  const VIEW_TYPE_GAME_INVITATION := 4

  const GAME_EMOJI := "\U{1F3AE}"
  const INVITE_PHRASE := "invited you to play"
  const PENDING := "pending"

  /** A text that announces an invitation without being an invitation object. */
  predicate LooksLikeInvitation(text: string) {
    Contains(text, GAME_EMOJI) && Contains(text, INVITE_PHRASE)
  }

  /** `getItemViewType` for one message, seen by the user `me`. */
  function ViewType(m: Message, me: string): (r: int)
    reads m
    ensures r == VIEW_TYPE_SYSTEM_MESSAGE <==> m.IsSystemMessage()
    ensures (r == VIEW_TYPE_GAME_INVITATION <==>
      !m.IsSystemMessage() && (m.invitation.Some? || LooksLikeInvitation(m.Text())))
    ensures (r == VIEW_TYPE_MY_MESSAGE <==>
      !m.IsSystemMessage() && m.invitation.None? && !LooksLikeInvitation(m.Text()) && m.SenderId() == me)
    ensures r in {VIEW_TYPE_MY_MESSAGE, VIEW_TYPE_OTHER_MESSAGE, VIEW_TYPE_SYSTEM_MESSAGE, VIEW_TYPE_GAME_INVITATION}
  {
    if m.IsSystemMessage() then VIEW_TYPE_SYSTEM_MESSAGE
    else if m.invitation.Some? then VIEW_TYPE_GAME_INVITATION
    else if LooksLikeInvitation(m.Text()) then VIEW_TYPE_GAME_INVITATION
    else if m.SenderId() == me then VIEW_TYPE_MY_MESSAGE
    else VIEW_TYPE_OTHER_MESSAGE
  }

  /** A system message stays a system row even when it is also an invitation. */
  lemma SystemWinsOverInvitation(m: Message, me: string)
    requires m.IsSystemMessage() && m.invitation.Some?
    ensures ViewType(m, me) == VIEW_TYPE_SYSTEM_MESSAGE
  {
  }

  /** A text carrying only one of the two markers is an ordinary row. */
  lemma PhraseAloneIsNotInvitation(m: Message, me: string)
    requires !m.IsSystemMessage() && m.invitation.None?
    requires Contains(m.Text(), INVITE_PHRASE) && !Contains(m.Text(), GAME_EMOJI)
    ensures ViewType(m, me) in {VIEW_TYPE_MY_MESSAGE, VIEW_TYPE_OTHER_MESSAGE}
  {
  }

  /** The invitation button of a `GameInvitationViewHolder`. */
  datatype Button = Hidden | Shown(caption: string, enabled: bool)

  const ACCEPT_LABEL := "Accept Game"
  const SENT_LABEL := "Invitation Sent"
  const PROCESSING_LABEL := "Processing..."

  /** `bind`: the button for an invitation from `senderId` with `status`, seen by `me`. */
  function InviteButton(senderId: string, status: Option<string>, me: string): (b: Button)
    ensures b == Shown(ACCEPT_LABEL, true) <==> senderId != me && status == Some(PENDING)
    ensures b == Shown(SENT_LABEL, false) <==> senderId == me
    ensures b == Hidden <==> senderId != me && status != Some(PENDING)
    ensures b.Shown? && b.enabled ==> b.caption == ACCEPT_LABEL
  {
    var isReceiver := senderId != me;
    var isPending := status == Some(PENDING);
    if isReceiver && isPending then Shown(ACCEPT_LABEL, true)
    else if senderId == me then Shown(SENT_LABEL, false)
    else Hidden
  }

  /** Only the receiver of a still-pending invitation can ever press the button. */
  lemma OnlyReceiverCanAccept(senderId: string, status: Option<string>, me: string)
    requires InviteButton(senderId, status, me).Shown? && InviteButton(senderId, status, me).enabled
    ensures senderId != me && status == Some(PENDING)
  {
  }

  /** What a press of "Accept Game" produces: the listener call, if any, and the new button. */
  datatype Click = Click(call: Option<(Option<string>, string)>, button: Button)

  /** The click handler: tell the listener (room id, inviter name), then disable the button. */
  function OnAcceptClicked(inv: Invitation, senderName: string, hasListener: bool): (c: Click)
    ensures c.call.Some? <==> hasListener
    ensures c.call.Some? ==> c.call.value == (inv.gameRoomId, senderName)
    ensures c.button.Shown? && !c.button.enabled
  {
    Click(if hasListener then Some((inv.gameRoomId, senderName)) else None, Shown(PROCESSING_LABEL, false))
  }

  /**
   * `formatTime`: a zero timestamp prints as nothing; any other is shown with
   * the "HH:mm" clock reading `clock`, which depends on the device's zone.
   */
  function FormatTime(timestamp: int, clock: string): (r: string)
    requires |clock| == 5
    ensures r == "" <==> timestamp == 0
    ensures timestamp != 0 ==> r == clock
  {
    if timestamp == 0 then "" else clock
  }

  /** The room id made up for an invitation row whose message is not an invitation object. */
  function FallbackRoomId(now: int): (id: string)
    ensures |id| > 5 && id[..5] == "game_"
  {
    JavaInt.NatToStringDigits(JavaInt.Abs(now));
    "game_" + JavaInt.ToDecimal(now)
  }

  /**
   * `createGameInvitationFromMessage`: the same sender, name, text and time,
   * with a made-up room id and status "pending".
   */
  method InvitationFromMessage(m: Message, now: int) returns (g: Message)
    ensures fresh(g)
    ensures g.senderId == Some(m.SenderId()) && g.senderName == Some(m.SenderName())
    ensures g.text == Some(m.Text()) && g.timestamp == m.timestamp
    ensures g.invitation == Some(Invitation(Some(FallbackRoomId(now)), Some(PENDING)))
  {
    g := new Message.Invite(Some(m.SenderId()), Some(m.SenderName()), Some(m.Text()), m.timestamp,
                            Some(FallbackRoomId(now)), Some(PENDING));
  }

  /** A fallback invitation is pending, so its receiver is offered "Accept Game". */
  lemma FallbackIsAcceptable(senderId: string, now: int, me: string)
    requires senderId != me
    ensures InviteButton(senderId, Some(PENDING), me) == Shown(ACCEPT_LABEL, true)
  {
  }

  class MessageAdapter {
    const currentUserId: string
    var messages: seq<Message>

    /** The signed-in user's id, or "" when nobody is signed in. */
    constructor (signedIn: Option<string>)
      ensures currentUserId == signedIn.GetOr("") && messages == []
    {
      currentUserId := signedIn.GetOr("");
      messages := [];
    }

    function ItemCount(): (n: nat)
      reads this
      ensures n == |messages|
    {
      |messages|
    }

    function ItemViewType(position: nat): (r: int)
      requires position < |messages|
      reads this, messages[position]
      ensures r == ViewType(messages[position], currentUserId)
    {
      ViewType(messages[position], currentUserId)
    }

    /** `addMessage`: appended at the end. */
    method AddMessage(m: Message)
      modifies this
      ensures messages == old(messages) + [m]
      ensures ItemCount() == old(ItemCount()) + 1 && messages[|messages| - 1] == m
    {
      messages := messages + [m];
    }

    /** `setMessages`: the contents become exactly the new list. */
    method SetMessages(newMessages: seq<Message>)
      modifies this
      ensures messages == newMessages
    {
      messages := [];
      messages := messages + newMessages;
    }

    /** `clear`: the list is emptied. */
    method Clear()
      modifies this
      ensures messages == [] && ItemCount() == 0
    {
      messages := [];
    }
  }
}
