/**
 * The extras one game screen hands to the next (`gameRoomId`, `partnerId`,
 * `partnerName`, `isInitiator`, `chatRoomId`, and, from the loading screen
 * on, `selectedChapter`), and the check each screen runs on them before it
 * does anything else.  A missing extra is `None`.
 */
module Intents {
  import opened Wrappers
  import opened JavaText

  datatype Intent = Intent(gameRoomId: Option<string>, partnerId: Option<string>, partnerName: Option<string>,
                           isInitiator: bool, chatRoomId: Option<string>, selectedChapter: Option<int>)

  /** What a screen keeps once the extras have passed its check. */
  datatype Setup = Setup(gameRoomId: string, partnerId: string, partnerName: string, isInitiator: bool,
                         chatRoomId: Option<string>)

  /** A string extra that is present and not blank. */
  predicate Given(s: Option<string>) {
    s.Some? && !IsBlank(s.value)
  }

  /** A setup every screen accepts: room, partner and name all non-blank. */
  predicate WellFormed(s: Setup) {
    !IsBlank(s.gameRoomId) && !IsBlank(s.partnerId) && !IsBlank(s.partnerName)
  }

  const DEFAULT_PARTNER_NAME := "Partner"
  const DEFAULT_USER_NAME := "You"

  /**
   * `validateIntentData` of the orientation and loading screens: a missing or
   * blank room or partner id is refused; a missing or blank partner name
   * becomes "Partner"; the other extras are kept as they are.
   */
  function ValidateIntent(i: Intent): (r: Option<Setup>)
    ensures r.Some? <==> Given(i.gameRoomId) && Given(i.partnerId)
    ensures (r.Some? ==>
      r.value.gameRoomId == i.gameRoomId.value && r.value.partnerId == i.partnerId.value &&
      r.value.isInitiator == i.isInitiator && r.value.chatRoomId == i.chatRoomId)
    ensures r.Some? && Given(i.partnerName) ==> r.value.partnerName == i.partnerName.value
    ensures r.Some? && !Given(i.partnerName) ==> r.value.partnerName == DEFAULT_PARTNER_NAME
    ensures r.Some? ==> WellFormed(r.value)
  {
    if !Given(i.gameRoomId) || !Given(i.partnerId) then None
    else
      var name := if Given(i.partnerName) then i.partnerName.value else DEFAULT_PARTNER_NAME;
      assert DEFAULT_PARTNER_NAME[0] == 'P';
      Some(Setup(i.gameRoomId.value, i.partnerId.value, name, i.isInitiator, i.chatRoomId))
  }

  /**
   * The extras a screen puts on the intent for the next one; `chatRoomId` only
   * when it has one, `selectedChapter` only from the loading screen.
   */
  function Forward(s: Setup, chapter: Option<int>): Intent {
    Intent(Some(s.gameRoomId), Some(s.partnerId), Some(s.partnerName), s.isInitiator, s.chatRoomId, chapter)
  }

  /** What one screen accepted and forwards, the next screen accepts unchanged. */
  lemma ForwardValidates(s: Setup, chapter: Option<int>)
    requires WellFormed(s)
    ensures ValidateIntent(Forward(s, chapter)) == Some(s)
  {
  }

  /** Validation is idempotent: checking the forwarded extras again changes nothing. */
  lemma RevalidateIsIdentity(i: Intent, chapter: Option<int>)
    requires ValidateIntent(i).Some?
    ensures ValidateIntent(Forward(ValidateIntent(i).value, chapter)) == ValidateIntent(i)
  {
    ForwardValidates(ValidateIntent(i).value, chapter);
  }

  /** The signed-in user's display name, "You" when it is missing or blank. */
  function DisplayName(n: Option<string>): (r: string)
    ensures Given(n) ==> r == n.value
    ensures !Given(n) ==> r == DEFAULT_USER_NAME
    ensures !IsBlank(r)
  {
    assert DEFAULT_USER_NAME[0] == 'Y';
    if Given(n) then n.value else DEFAULT_USER_NAME
  }
}
