/**
 * A chat message (`Message`), and its subclass `GameInvitationMessage` folded in
 * as an optional invitation part.  Java `null` is `None`.
 */
module Messages {
  import opened Wrappers

  /** The extra fields of a `ChatActivity.GameInvitationMessage`. */
  datatype Invitation = Invitation(gameRoomId: Option<string>, status: Option<string>)

  const SYSTEM_SENDER := "system"
  const UNKNOWN_NAME := "Unknown"

  class Message {
    var senderId: Option<string>
    var senderName: Option<string>
    var text: Option<string>
    var timestamp: int
    /** `Some` exactly when the object is a `GameInvitationMessage`. */
    var invitation: Option<Invitation>

    /** The field-less constructor Firebase uses. */
    constructor Empty()
      ensures senderId == None && senderName == None && text == None
      ensures timestamp == 0 && invitation == None
    {
      senderId, senderName, text := None, None, None;
      timestamp := 0;
      invitation := None;
    }

    /** `new Message(senderId, senderName, text, timestamp)`: stores exactly its arguments. */
    constructor (senderId: Option<string>, senderName: Option<string>, text: Option<string>, timestamp: int)
      ensures this.senderId == senderId && this.senderName == senderName && this.text == text
      ensures this.timestamp == timestamp && invitation == None
    {
      this.senderId, this.senderName, this.text := senderId, senderName, text;
      this.timestamp := timestamp;
      invitation := None;
    }

    /** `new GameInvitationMessage(senderId, senderName, text, timestamp, gameRoomId, status)`. */
    constructor Invite(senderId: Option<string>, senderName: Option<string>, text: Option<string>, timestamp: int,
                       gameRoomId: Option<string>, status: Option<string>)
      ensures this.senderId == senderId && this.senderName == senderName && this.text == text
      ensures this.timestamp == timestamp && invitation == Some(Invitation(gameRoomId, status))
    {
      this.senderId, this.senderName, this.text := senderId, senderName, text;
      this.timestamp := timestamp;
      invitation := Some(Invitation(gameRoomId, status));
    }

    /** `getSenderId()`: never null, a missing id reads as "". */
    function SenderId(): (r: string)
      reads this
      ensures senderId.Some? ==> r == senderId.value
      ensures senderId.None? ==> r == ""
    {
      senderId.GetOr("")
    }

    /** `getSenderName()`: never null, a missing name reads as "Unknown". */
    function SenderName(): (r: string)
      reads this
      ensures senderName.Some? ==> r == senderName.value
      ensures senderName.None? ==> r == UNKNOWN_NAME
    {
      senderName.GetOr(UNKNOWN_NAME)
    }

    /** `getText()`: never null, missing text reads as "". */
    function Text(): (r: string)
      reads this
      ensures text.Some? ==> r == text.value
      ensures text.None? ==> r == ""
    {
      text.GetOr("")
    }

    /**
     * `isSystemMessage()` compares the raw field, but since "" is not "system"
     * this agrees with comparing the defaulted getter.
     */
    function IsSystemMessage(): (r: bool)
      reads this
      ensures r <==> SenderId() == SYSTEM_SENDER
    {
      senderId == Some(SYSTEM_SENDER)
    }

    method SetSenderId(id: Option<string>)
      modifies this
      ensures senderId == id
      ensures senderName == old(senderName) && text == old(text)
      ensures timestamp == old(timestamp) && invitation == old(invitation)
    {
      senderId := id;
    }

    method SetSenderName(name: Option<string>)
      modifies this
      ensures senderName == name
      ensures senderId == old(senderId) && text == old(text)
      ensures timestamp == old(timestamp) && invitation == old(invitation)
    {
      senderName := name;
    }

    method SetText(t: Option<string>)
      modifies this
      ensures text == t
      ensures senderId == old(senderId) && senderName == old(senderName)
      ensures timestamp == old(timestamp) && invitation == old(invitation)
    {
      text := t;
    }

    method SetTimestamp(ts: int)
      modifies this
      ensures timestamp == ts
      ensures senderId == old(senderId) && senderName == old(senderName)
      ensures text == old(text) && invitation == old(invitation)
    {
      timestamp := ts;
    }
  }

  /** A message built with the empty constructor reads as the getters' defaults. */
  method EmptyMessageDefaults() returns (m: Message)
    ensures fresh(m)
    ensures m.SenderId() == "" && m.SenderName() == UNKNOWN_NAME && m.Text() == ""
    ensures m.timestamp == 0 && !m.IsSystemMessage()
  {
    m := new Message.Empty();
  }
}
