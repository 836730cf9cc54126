# who-i: a verified model of the matchmaking chat and its two-player games

who-i is an Android app. Two strangers are matched at random into a chat room
(paid with coins). From the chat, either one can invite the other to a game
(paid with game tokens). The game is a best-of-five Stone Paper Scissors
round game, or a chapter race that goes through an orientation check and a
loading screen first. Coins come from rewarded ads, a daily bonus and in-app
purchases. All shared state lives in a Firebase Realtime Database tree; the
per-user balances and statistics live in Firestore documents.

This project models that core in Dafny:

- **Store** — both databases as one tree of leaves. The app's `updateChildren`, `setValue`,
  `removeValue` and transaction writes are lists of put/delete operations on it.
  The lemmas say what a write keeps, sets and removes.
- **Ledger, Coins, GameTokens** — the Firestore balance check, the deduction
  transaction and the credit transaction, with their fixed prices.
- **Chat** — `ChatActivity`: presence, the waiting pool and its freshness filter, the
  random partner choice, chat-room creation and clean-up, leaving, and the game-invitation
  protocol (tokens, invitation message, response listener, timeout, game room creation and
  hand-over). It is a class whose fields are the activity's fields.
- **RoundGame** — `GameActivity`: the round rule, choices, reveal, scores, the end of
  the game and the statistics, as a class over the game room. No shipped screen launches
  `GameActivity`. The chat's launch (`ChatActivity.java:553` and `:611`) opens the
  orientation check, which opens the loading screen, and the loading screen opens only
  `Chapter1GameActivity` (`StartLoadingActivity.java:684-696`). So the round game is modelled
  as the code stands, and its findings apply only if some screen starts it with these extras.
- **OrientationCheck, StartLoading, ChapterRace** — the three screens of the chapter
  race, each a class over the shared room. **Intents** holds the checks each screen runs
  on the extras it receives.
- **Messages, MessageList** — the chat message entity and the list adapter's row and
  button logic.
- **Sprites** — `SpriteManager`'s loading loops, success thresholds and cache.
- **Ads, Buy, Dashboard** — rewards and the daily bonus, purchases and the offline
  catalogue, and the level/progress display.

Conventions:

- Java `null` is `None`.
- Integers are unbounded. Java's truncating `/` and `%` are written out in `JavaInt`.
- The clock (`System.currentTimeMillis()`, `ServerValue.TIMESTAMP`) is a parameter `now`.
- Push keys, UUIDs and `Random` draws are parameters.
- Whether a network write or read succeeded is a boolean parameter (`delivered`, `fetched`,
  `readOk`).
- Android callbacks run as separate methods, in the order the main thread would run them.

## Model

| member | source | states |
|---|---|---|
| Ledger.CheckBalance | app/src/main/java/com/humangodcvaki/whoi/GameTokenManager.java:43-72 | an error exactly for a null user, a failed read or a missing document; otherwise "enough" exactly when the stored balance is at least the cost, and a missing field reads as an insufficient 0 |
| Ledger.DeductTx | app/src/main/java/com/humangodcvaki/whoi/GameTokenManager.java:75-99 | aborts on a missing or too small balance; otherwise writes exactly balance minus cost, never negative |
| Ledger.CreditTx | app/src/main/java/com/humangodcvaki/whoi/GameTokenManager.java:102-122 | commits exactly when the user and the document exist; the field becomes its old value (missing as 0) plus the amount |
| Ledger.Run | app/src/main/java/com/humangodcvaki/whoi/GameTokenManager.java:75-99 | the store changes and a result is reported exactly when the body committed and the commit was delivered; otherwise the store is unchanged |
| Ledger.UpdateDocument | app/src/main/java/com/humangodcvaki/whoi/BuyActivity.java:315-331 | an update on a missing document, or one not delivered, writes nothing and fails |
| Ledger.CheckAgreesWithDeduct | app/src/main/java/com/humangodcvaki/whoi/GameTokenManager.java:43-99 | with the document present, the check says "enough" exactly when the deduction commits |
| Ledger.DeductOnlyOwnField | app/src/main/java/com/humangodcvaki/whoi/GameTokenManager.java:75-99 | a committed deduction changes no leaf except its own field |
| Ledger.DeductUndoesCredit | app/src/main/java/com/humangodcvaki/whoi/GameTokenManager.java:75-122 | crediting then deducting the same amount restores the balance (a missing one as 0) |
| Coins.CheckUserCoins | app/src/main/java/com/humangodcvaki/whoi/CoinsManager.java:41-70 | enough exactly when the balance (missing as 0) is at least 50 |
| Coins.DeductCoinsForChat | app/src/main/java/com/humangodcvaki/whoi/CoinsManager.java:73-97 | fails on a null user or listener, a missing field or fewer than 50 coins; otherwise writes balance minus 50 |
| GameTokens.CheckGameTokens | app/src/main/java/com/humangodcvaki/whoi/GameTokenManager.java:43-72 | enough exactly when the balance (missing as 0) is at least the cost; equality is enough |
| GameTokens.DeductGameTokens | app/src/main/java/com/humangodcvaki/whoi/GameTokenManager.java:75-99 | a null user or listener fails before any transaction; a committed deduction leaves balance minus cost, never negative |
| GameTokens.AwardGameTokens | app/src/main/java/com/humangodcvaki/whoi/GameTokenManager.java:102-122 | commits exactly with a listener, a user id and an existing document; the balance (missing as 0) grows by exactly the reward |
| GameTokens.AcceptorCanAlsoInvite | app/src/main/java/com/humangodcvaki/whoi/GameTokenManager.java:17-18 | a balance that covers accepting (5) also covers inviting (2) |
| JavaInt.Div | app/src/main/java/com/humangodcvaki/whoi/Chapter1GameActivity.java:860 | quotient truncated toward zero for a positive divisor: magnitude of a over b, with the sign of a |
| JavaInt.Rem | app/src/main/java/com/humangodcvaki/whoi/DashboardActivity.java:294-296 | remainder with the sign of the dividend, of magnitude below the divisor |
| JavaInt.DivRem | app/src/main/java/com/humangodcvaki/whoi/DashboardActivity.java:290-296 | quotient times divisor plus remainder gives back the dividend, for either sign |
| Intents.ValidateIntent | app/src/main/java/com/humangodcvaki/whoi/OrientationCheckActivity.java:126-161 | refused exactly when the room or partner id is missing or blank; the accepted setup keeps the extras and defaults a blank name to "Partner" |
| Intents.ForwardValidates | app/src/main/java/com/humangodcvaki/whoi/OrientationCheckActivity.java:397-430 | the extras a screen forwards pass the next screen's check unchanged |
| Intents.RevalidateIsIdentity | app/src/main/java/com/humangodcvaki/whoi/StartLoadingActivity.java:152-186 | checking already accepted extras again gives the same setup |
| Intents.DisplayName | app/src/main/java/com/humangodcvaki/whoi/OrientationCheckActivity.java:88-93 | the user's display name, or "You" exactly when it is missing or blank |
| Messages.Message.constructor | app/src/main/java/com/humangodcvaki/whoi/Message.java:16-21 | the new message holds exactly the four arguments and is not an invitation |
| Messages.Message.Empty | app/src/main/java/com/humangodcvaki/whoi/Message.java:14 | every field unset, timestamp 0, not an invitation |
| Messages.Message.Invite | app/src/main/java/com/humangodcvaki/whoi/ChatActivity.java:1360-1365 | the four message fields plus the game room id and the invitation status |
| Messages.Message.SenderId | app/src/main/java/com/humangodcvaki/whoi/Message.java:24-26 | the stored id, or "" exactly when none is stored |
| Messages.Message.SenderName | app/src/main/java/com/humangodcvaki/whoi/Message.java:28-30 | the stored name, or "Unknown" exactly when none is stored |
| Messages.Message.Text | app/src/main/java/com/humangodcvaki/whoi/Message.java:32-34 | the stored text, or "" exactly when none is stored |
| Messages.Message.IsSystemMessage | app/src/main/java/com/humangodcvaki/whoi/Message.java:58-60 | true exactly when the sender id is "system", whether read raw or through the defaulting getter |
| Messages.Message.SetSenderId | app/src/main/java/com/humangodcvaki/whoi/Message.java:41-43 | sets the sender id and nothing else |
| Messages.Message.SetSenderName | app/src/main/java/com/humangodcvaki/whoi/Message.java:45-47 | sets the sender name and nothing else |
| Messages.Message.SetText | app/src/main/java/com/humangodcvaki/whoi/Message.java:49-51 | sets the text and nothing else |
| Messages.Message.SetTimestamp | app/src/main/java/com/humangodcvaki/whoi/Message.java:53-55 | sets the timestamp and nothing else |
| Messages.EmptyMessageDefaults | app/src/main/java/com/humangodcvaki/whoi/Message.java:14-34 | a message built by the empty constructor reads "", "Unknown", "" and 0 |
| MessageList.ViewType | app/src/main/java/com/humangodcvaki/whoi/MessageAdapter.java:43-66 | system rows first; then invitation rows (an invitation object, or text with both markers); then own or other rows by sender |
| MessageList.SystemWinsOverInvitation | app/src/main/java/com/humangodcvaki/whoi/MessageAdapter.java:43-66 | a system message is a system row even when it is an invitation |
| MessageList.PhraseAloneIsNotInvitation | app/src/main/java/com/humangodcvaki/whoi/MessageAdapter.java:43-66 | a plain text with only one of the two markers is an ordinary row |
| MessageList.InviteButton | app/src/main/java/com/humangodcvaki/whoi/MessageAdapter.java:183-221 | "Accept Game", enabled, exactly when the viewer is not the sender and the status is "pending"; "Invitation Sent" for the sender; hidden otherwise |
| MessageList.OnlyReceiverCanAccept | app/src/main/java/com/humangodcvaki/whoi/MessageAdapter.java:183-221 | an enabled button means the viewer is the receiver of a pending invitation |
| MessageList.OnAcceptClicked | app/src/main/java/com/humangodcvaki/whoi/MessageAdapter.java:203-208 | the listener (when present) gets the room id and the inviter's name; the button becomes disabled "Processing..." |
| MessageList.FormatTime | app/src/main/java/com/humangodcvaki/whoi/MessageAdapter.java:37-40 | a zero timestamp gives ""; any other gives the clock's "HH:mm" reading |
| MessageList.FallbackRoomId | app/src/main/java/com/humangodcvaki/whoi/MessageAdapter.java:124-135 | an id that starts with "game_" and has more after it (the decimal current time) |
| MessageList.InvitationFromMessage | app/src/main/java/com/humangodcvaki/whoi/MessageAdapter.java:124-135 | same sender, name, text and time, the made-up room id and status "pending" |
| MessageList.FallbackIsAcceptable | app/src/main/java/com/humangodcvaki/whoi/MessageAdapter.java:96-121 | a fallback invitation from someone else offers the receiver the enabled "Accept Game" button |
| MessageList.MessageAdapter.constructor | app/src/main/java/com/humangodcvaki/whoi/MessageAdapter.java:31-35 | the list starts empty with the signed-in user's id ("" when nobody is signed in) |
| MessageList.MessageAdapter.ItemCount | app/src/main/java/com/humangodcvaki/whoi/MessageAdapter.java:138-140 | the number of messages held |
| MessageList.MessageAdapter.ItemViewType | app/src/main/java/com/humangodcvaki/whoi/MessageAdapter.java:43-66 | the row type of the message at that position, seen by this adapter's user |
| MessageList.MessageAdapter.AddMessage | app/src/main/java/com/humangodcvaki/whoi/MessageAdapter.java:143-146 | the list becomes the old list with the message appended |
| MessageList.MessageAdapter.SetMessages | app/src/main/java/com/humangodcvaki/whoi/MessageAdapter.java:149-153 | the list becomes exactly the new list |
| MessageList.MessageAdapter.Clear | app/src/main/java/com/humangodcvaki/whoi/MessageAdapter.java:156-159 | the list becomes empty |
| Dashboard.LevelAndProgress | app/src/main/java/com/humangodcvaki/whoi/DashboardActivity.java:290-296 | for xp at least 0, the level is at least 1, the progress is below 100, and (level - 1) * 100 + progress == xp |
| Dashboard.HundredXpIsOneLevel | app/src/main/java/com/humangodcvaki/whoi/DashboardActivity.java:290-296 | 100 more xp is exactly one more level with the same progress |
| Dashboard.Level | app/src/main/java/com/humangodcvaki/whoi/DashboardActivity.java:290-292 | for non-negative xp the level is at least 1 and the xp lies in that level's band of 100 |
| Dashboard.ShowDocument | app/src/main/java/com/humangodcvaki/whoi/DashboardActivity.java:239-243 | each field as stored; a missing one takes its default (100 coins, 0 xp, 0 games, 0 streak, 10 tokens) |
| Dashboard.NewUser | app/src/main/java/com/humangodcvaki/whoi/DashboardActivity.java:334-344 | the given coins, xp and level; no games, no streak, 10 tokens, no login date |
| Dashboard.NewUserDocumentShowsDefaults | app/src/main/java/com/humangodcvaki/whoi/DashboardActivity.java:298-322 | the new-user document, read back, shows exactly what the defaults show |
| Dashboard.LoadUserData | app/src/main/java/com/humangodcvaki/whoi/DashboardActivity.java:214-270 | a read with a document shows it; a read without one creates the new-user document and shows the defaults; a failed read shows the defaults |
| Dashboard.Tabs.constructor | app/src/main/java/com/humangodcvaki/whoi/DashboardActivity.java:44-45 | the current tab starts as the profile tab (2) and, as an assumption about the layout, no frame shown |
| Dashboard.Tabs.ShowTab | app/src/main/java/com/humangodcvaki/whoi/DashboardActivity.java:137-169 | exactly the frame for the index is visible (none for an unknown index) |
| Ads.RewardAmount | app/src/main/java/com/humangodcvaki/whoi/AdsActivity.java:289-296 | the ad's amount, or 250 exactly when the ad names 0 |
| Ads.BonusTx | app/src/main/java/com/humangodcvaki/whoi/AdsActivity.java:372-428 | the transaction writes coins (missing as 0) plus 100 and today's date as the claim date |
| Ads.BonusMarksToday | app/src/main/java/com/humangodcvaki/whoi/AdsActivity.java:372-428 | after a committed bonus the document reads claimed today and exactly 100 more coins |
| Ads.FormatTimeLeft | app/src/main/java/com/humangodcvaki/whoi/AdsActivity.java:465-477 | "Hh Mm" with hours, else "Mm Ss" with minutes, else "Ss", from the whole seconds left |
| Ads.FormatUnderAMinute | app/src/main/java/com/humangodcvaki/whoi/AdsActivity.java:465-477 | under a minute the text is the whole seconds followed by "s" |
| Ads.FormatHours | app/src/main/java/com/humangodcvaki/whoi/AdsActivity.java:465-477 | from an hour on, the text names the whole hours and the minutes past them |
| Ads.FormatMinutes | app/src/main/java/com/humangodcvaki/whoi/AdsActivity.java:465-477 | under an hour and from a minute on, the text names the whole minutes and the seconds past them |
| Ads.RewardReads | app/src/main/java/com/humangodcvaki/whoi/AdsActivity.java:555-612 | after a credit whose statistics are delivered, the document reads the old coins (missing as 0) plus the amount, the new earned-today counter and today's date, and for an ad the two ad counters |
| Ads.StatsReadBack | app/src/main/java/com/humangodcvaki/whoi/AdsActivity.java:555-572 | the statistics write reads back its earned-today counter, date and, for an ad, both ad counters, and leaves the coins as they were |
| Ads.RewardFrame | app/src/main/java/com/humangodcvaki/whoi/AdsActivity.java:555-612 | a credit and its statistics change nothing outside the user's document |
| Ads.AdsScreen.UpdateDailyBonusUI | app/src/main/java/com/humangodcvaki/whoi/AdsActivity.java:342-370 | the claimed flag is set exactly when the stored date is today's |
| Ads.AdsScreen.LoadDailyBonusStatus | app/src/main/java/com/humangodcvaki/whoi/AdsActivity.java:306-340 | an existing document supplies the claim date; a missing one is created with defaults and an empty date |
| Ads.AdsScreen.ClaimDailyBonus | app/src/main/java/com/humangodcvaki/whoi/AdsActivity.java:372-428 | refused while claimed; otherwise the bonus is written and recorded exactly when the document exists and the write is delivered |
| Ads.AdsScreen.OnBonusTimerTick | app/src/main/java/com/humangodcvaki/whoi/AdsActivity.java:430-463 | while claimed, the time left is tomorrow 00:00 minus the clock; the flag is cleared and re-derived from the stored date only when that is not positive, and otherwise the countdown text is shown; whenever the clock is still before that midnight the flag is unchanged, so a screen kept open past midnight stays claimed |
| Ads.AdsScreen.OnUserEarnedReward | app/src/main/java/com/humangodcvaki/whoi/AdsActivity.java:289-296 | credits the granted amount, or 250 when the ad names none, exactly when the document exists and the credit is delivered; the new store is the credit followed by the ad's statistics |
| Ads.AdsScreen.AddCoinsToUser | app/src/main/java/com/humangodcvaki/whoi/AdsActivity.java:574-612 | coins (missing as 0) plus the amount, shown and stored exactly when the document exists and the credit is delivered; the statistics then follow, and the ad counters move only for an ad; a refused credit changes nothing |
| Ads.AdsScreen.UpdateUserStats | app/src/main/java/com/humangodcvaki/whoi/AdsActivity.java:555-572 | for an ad, today's and the total ad counters each grow by one; the earned-today counter grows by the amount; the new values are stored exactly when the document exists and the update is delivered, else the store is unchanged |
| Ads.AdsScreen.LoadUserStats | app/src/main/java/com/humangodcvaki/whoi/AdsActivity.java:497-541 | on a new day the daily counters are reset in the store and then locally; on the same day the counters are read, missing as 0 |
| Ads.AdsScreen.ResetOps | app/src/main/java/com/humangodcvaki/whoi/AdsActivity.java:526-533 | `resetDailyStats`'s update stays inside the user's document |
| Buy.CoinsFromId | app/src/main/java/com/humangodcvaki/whoi/BuyActivity.java:254-263 | the coins of each of the five products; 0 for any other id |
| Buy.CoinsFromIdInjective | app/src/main/java/com/humangodcvaki/whoi/BuyActivity.java:254-263 | distinct known products grant distinct amounts |
| Buy.BestValueExactlyCatalogue | app/src/main/java/com/humangodcvaki/whoi/BuyActivity.java:198-208 | the "Best Value!" badge (500 coins or more) shows exactly for the five catalogue products |
| Buy.Shortfall | app/src/main/java/com/humangodcvaki/whoi/BuyActivity.java:383-392 | below 50 coins, the missing coins, and balance plus shortfall is 50 |
| Buy.GateMatchesChatDeduction | app/src/main/java/com/humangodcvaki/whoi/BuyActivity.java:383-392 | the button allows chatting exactly when the chat deduction would accept the balance |
| Buy.SplitOn | app/src/main/java/com/humangodcvaki/whoi/BuyActivity.java:169-172 | at least one piece, and no piece contains the separator |
| Buy.JoinSplitOn | app/src/main/java/com/humangodcvaki/whoi/BuyActivity.java:169-172 | joining the pieces with the separator gives back the string |
| Buy.SplitOnNoSep | app/src/main/java/com/humangodcvaki/whoi/BuyActivity.java:169-172 | a string without the separator is a single piece |
| Buy.SplitOnOnce | app/src/main/java/com/humangodcvaki/whoi/BuyActivity.java:169-172 | a string with one separator between a and b gives exactly [a, b] |
| Buy.JavaSplit | app/src/main/java/com/humangodcvaki/whoi/BuyActivity.java:160-173 | Java's `split` on one character: no piece holds the separator, and when the separator occurs no trailing piece is empty |
| Buy.OfflineEntry | app/src/main/java/com/humangodcvaki/whoi/BuyActivity.java:169-172 | Java's split of an entry "title\|price" gives exactly its title and its price |
| Buy.OfflinePackagesAgreeWithCatalogue | app/src/main/java/com/humangodcvaki/whoi/BuyActivity.java:160-174 | each offline entry names the coins of the matching product, and a price |
| Buy.BuyScreen.LoadUserCoins | app/src/main/java/com/humangodcvaki/whoi/BuyActivity.java:362-376 | an existing document sets the balance (missing as 0); otherwise it stays |
| Buy.BuyScreen.HandlePurchase | app/src/main/java/com/humangodcvaki/whoi/BuyActivity.java:294-337 | credited exactly for a purchased, unacknowledged, consumed purchase naming a product whose update is delivered to an existing document; then the first product's coins are added in the store and on screen; otherwise nothing changes |
| Buy.PurchaseOps | app/src/main/java/com/humangodcvaki/whoi/BuyActivity.java:305-316 | the balance increment stays inside the user's document |
| Sprites.CountAppend | app/src/main/java/com/humangodcvaki/whoi/SpriteManager.java:260-284 | the sprites loaded from two lists in a row are those of the first plus those of the second |
| Sprites.CachedAppend | app/src/main/java/com/humangodcvaki/whoi/SpriteManager.java:260-284 | loading two lists in a row leaves the cache that loading their concatenation does |
| Sprites.GridLength | app/src/main/java/com/humangodcvaki/whoi/SpriteManager.java:166-185 | the nested loop visits outer times inner names |
| Sprites.GridNames | app/src/main/java/com/humangodcvaki/whoi/SpriteManager.java:171-178 | every name the nested loop visits is prefix + outer + "_" + inner for some pair |
| Sprites.CharacterCount | app/src/main/java/com/humangodcvaki/whoi/SpriteManager.java:169 | 5 colours times 9 actions: 45 character sprites |
| Sprites.CharactersOk | app/src/main/java/com/humangodcvaki/whoi/SpriteManager.java:184 | the character load succeeds exactly from 36 of the 45 sprites on (80 % in single precision) |
| Sprites.BackgroundsOk | app/src/main/java/com/humangodcvaki/whoi/SpriteManager.java:201 | the background load succeeds exactly from 10 of the 14 sprites on (70 % in single precision) |
| Sprites.AnyLoaded | app/src/main/java/com/humangodcvaki/whoi/SpriteManager.java:204-239 | tiles and enemies succeed exactly when at least one sprite loads |
| Sprites.DefaultSpriteSize | app/src/main/java/com/humangodcvaki/whoi/SpriteManager.java:387-397 | 128 exactly for names starting "Character_", 256 exactly for "background_", 64 otherwise (and for a null name) |
| Sprites.CharacterKeysGetDefaultSize | app/src/main/java/com/humangodcvaki/whoi/SpriteManager.java:387-397 | every key the character loop caches is lower-case "character_…", so it gets size 64 |
| Sprites.TerrainBlocksListedTwice | app/src/main/java/com/humangodcvaki/whoi/SpriteManager.java:95-122 | each of the four terrain blocks (dirt, grass, stone, sand) is in the tile list and is produced by the terrain loop, so the tile loading tries it at least twice and counts it twice when it loads |
| Sprites.GridSplit | app/src/main/java/com/humangodcvaki/whoi/SpriteManager.java:171-178 | the nested loop's names split at any outer index into the names before and after it |
| Sprites.SpriteManager.LoadSingleSprite | app/src/main/java/com/humangodcvaki/whoi/SpriteManager.java:260-284 | succeeds exactly when the asset decodes; then the cache maps the name to the bitmap; nothing else changes |
| Sprites.SpriteManager.LoadList | app/src/main/java/com/humangodcvaki/whoi/SpriteManager.java:166-202 | the count and the cache are those of loading each listed name in order |
| Sprites.SpriteManager.LoadGrid | app/src/main/java/com/humangodcvaki/whoi/SpriteManager.java:241-258 | the count and the cache are those of loading the grid's names in loop order |
| Sprites.SpriteManager.LoadCharacterSprites | app/src/main/java/com/humangodcvaki/whoi/SpriteManager.java:166-185 | success exactly when at least 80 % of the 45 load; the cache and the total grow by exactly the loaded ones |
| Sprites.SpriteManager.LoadBackgroundSprites | app/src/main/java/com/humangodcvaki/whoi/SpriteManager.java:187-202 | success exactly when at least 70 % of the 14 load; the cache and the total grow by exactly the loaded ones |
| Sprites.SpriteManager.LoadTileSprites | app/src/main/java/com/humangodcvaki/whoi/SpriteManager.java:221-239 | the tile list and then the terrain grid; success exactly when any loads |
| Sprites.SpriteManager.LoadEnemySprites | app/src/main/java/com/humangodcvaki/whoi/SpriteManager.java:204-219 | success exactly when any enemy sprite loads |
| Sprites.SpriteManager.constructor | app/src/main/java/com/humangodcvaki/whoi/SpriteManager.java:124-144 | the four load flags follow the four loads; the total and the cache are the sum and union of them in order; ready exactly when characters and backgrounds loaded |
| Sprites.SpriteManager.GetSprite | app/src/main/java/com/humangodcvaki/whoi/SpriteManager.java:286-301 | a bitmap exactly when the critical assets are in, the name is non-empty, cached and live, and then both critical categories are loaded; a recycled one is removed from the cache; the ready flag stays the conjunction of the two categories |
| Sprites.SpriteManager.HasSprite | app/src/main/java/com/humangodcvaki/whoi/SpriteManager.java:403-405 | true exactly when the critical assets are in and the name is a cache key, and then both critical categories are loaded |
| Sprites.SpriteManager.SpritesByCategory | app/src/main/java/com/humangodcvaki/whoi/SpriteManager.java:447-451 | exactly the cache keys that start with category + "_" |
| Sprites.SpriteManager.Cleanup | app/src/main/java/com/humangodcvaki/whoi/SpriteManager.java:453-476 | the cache is empty, every loaded flag is false, the total is kept, and no sprite is reported present |
| Sprites.LookupAgreesWithHasSprite | app/src/main/java/com/humangodcvaki/whoi/SpriteManager.java:286-405 | a live sprite that hasSprite reports is the bitmap getSprite returns, and the cache stays |
| RoundGame.CalculateResult | app/src/main/java/com/humangodcvaki/whoi/GameActivity.java:782-790 | a draw exactly for equal choices; a win exactly for a different choice that beats the other (stone over scissors, paper over stone, scissors over paper); a loss otherwise |
| RoundGame.ResultIsCyclic | app/src/main/java/com/humangodcvaki/whoi/GameActivity.java:782-790 | on the three real choices the result is the cyclic rule on their positions |
| RoundGame.ResultSwaps | app/src/main/java/com/humangodcvaki/whoi/GameActivity.java:782-790 | both peers agree: swapping the two choices swaps win and loss |
| RoundGame.UnknownChoicesLoseBothWays | app/src/main/java/com/humangodcvaki/whoi/GameActivity.java:782-790 | two different choices outside the three make both peers score a loss |
| RoundGame.ChoiceInNode | app/src/main/java/com/humangodcvaki/whoi/GameActivity.java:589-614 | a stored choice makes its round's node exist |
| RoundGame.ChoiceOpsOwnEntry | app/src/main/java/com/humangodcvaki/whoi/GameActivity.java:553-587 | a choice write changes nothing outside the player's own entry for that round |
| RoundGame.ChoiceStored | app/src/main/java/com/humangodcvaki/whoi/GameActivity.java:553-587 | the choice written reads back under the player's entry for the round |
| RoundGame.WaitingChoicesOps | app/src/main/java/com/humangodcvaki/whoi/GameActivity.java:589-614 | a write happens exactly for the initiator once both choices of the round are stored, and it sets the phase to reveal_results |
| RoundGame.ScoreAfter | app/src/main/java/com/humangodcvaki/whoi/GameActivity.java:616-701 | a win adds one to this player's score, a loss to the partner's, a draw to neither |
| RoundGame.OneRoundOvershootsByNothing | app/src/main/java/com/humangodcvaki/whoi/GameActivity.java:639-655 | from a game not over, one scoring of a round leaves both scores at most 3, and the game is over exactly when one reaches 3 |
| RoundGame.NextOps | app/src/main/java/com/humangodcvaki/whoi/GameActivity.java:616-701 | at 3 the game is ended with phase game_over; otherwise the round advances by one with phase waiting_choices |
| RoundGame.Winner | app/src/main/java/com/humangodcvaki/whoi/GameActivity.java:703-763 | this player at 3 wins; else the partner at 3; else the strictly higher stored score; none for a tie or a missing stored score |
| RoundGame.StatsOps | app/src/main/java/com/humangodcvaki/whoi/GameActivity.java:765-780 | the statistics write is empty exactly when the user document is missing |
| RoundGame.StatsEffect | app/src/main/java/com/humangodcvaki/whoi/GameActivity.java:765-780 | one more game; a win adds a win, 20 xp and one to the streak; otherwise 5 xp, the streak reset and the wins kept |
| RoundGame.DisconnectOwnEntry | app/src/main/java/com/humangodcvaki/whoi/GameActivity.java:868-897 | the non-initiator's disconnect write touches only its own player entry |
| RoundGame.JoinOps | app/src/main/java/com/humangodcvaki/whoi/GameActivity.java:323-336 | `joinGameRoom`'s update stays inside the game room, and a non-initiator's join stays inside its own player entry |
| RoundGame.CanStart | app/src/main/java/com/humangodcvaki/whoi/GameActivity.java:356-395 | the readiness gate of `checkAndStartGameIfReady`: at least two players, every one ready and connected (no contract of its own; `InitiatorNeverReadyAsWritten` and `BothReadyCanStartCorrected` are about it) |
| RoundGame.StartOps | app/src/main/java/com/humangodcvaki/whoi/GameActivity.java:403-411 | `startGameForBothPlayers`'s update stays inside the game room |
| RoundGame.ValidateIntent | app/src/main/java/com/humangodcvaki/whoi/GameActivity.java:105-125 | refused exactly when the room or partner id is missing; a blank name becomes "Partner" |
| RoundGame.GameSession.constructor | app/src/main/java/com/humangodcvaki/whoi/GameActivity.java:88-127 | the session holds the intent's values, the name (or "You"), round 1, zero scores, and is not active |
| RoundGame.GameSession.SetupGameRoom | app/src/main/java/com/humangodcvaki/whoi/GameActivity.java:221-305 | as written: listening exactly when the room exists; then the store is exactly the as-written join of `joinGameRoom` (JoinWrite), and a missing room changes nothing |
| RoundGame.GameSession.SetupGameRoomCorrected | app/src/main/java/com/humangodcvaki/whoi/GameActivity.java:221-305 | the same setup with the corrected join: the store is exactly JoinWriteCorrected when the room exists, and unchanged otherwise |
| RoundGame.GameSession.JoinGameRoom | app/src/main/java/com/humangodcvaki/whoi/GameActivity.java:323-353 | as written: nothing without delivery; delivered, the join, then for the initiator the readiness check (the start write exactly when the joined room is startable and the start is delivered), and for the other player its ready write |
| RoundGame.GameSession.JoinGameRoomCorrected | app/src/main/java/com/humangodcvaki/whoi/GameActivity.java:323-353 | corrected: the join with the ready flag for both players, then for the initiator the same readiness check; nothing without delivery |
| RoundGame.GameSession.CheckAndStartGameIfReady | app/src/main/java/com/humangodcvaki/whoi/GameActivity.java:356-401 | starts exactly for the initiator in a room where two players are all ready and connected; the start write is then applied; fewer than two players arms the join timeout |
| RoundGame.GameSession.OnJoinTimeout | app/src/main/java/com/humangodcvaki/whoi/GameActivity.java:429-448 | with fewer than two players when it fires, the game is not active |
| RoundGame.GameSession.ShowPartnerLeftEarly | app/src/main/java/com/humangodcvaki/whoi/GameActivity.java:856-866 | the game is no longer active; round, scores and choice are kept |
| RoundGame.GameSession.StartNewRound | app/src/main/java/com/humangodcvaki/whoi/GameActivity.java:496-515 | in an active game the choice reopens, none is held, and the countdown runs; otherwise nothing changes |
| RoundGame.GameSession.MakeChoice | app/src/main/java/com/humangodcvaki/whoi/GameActivity.java:553-587 | refused after a choice or outside a game; otherwise the choice is held, the countdown stops, and the write is stored exactly when delivered |
| RoundGame.GameSession.OnCountdownFinish | app/src/main/java/com/humangodcvaki/whoi/GameActivity.java:517-542 | with no choice made in a running countdown the picked choice is submitted; otherwise the store is unchanged |
| RoundGame.GameSession.HandleWaitingChoices | app/src/main/java/com/humangodcvaki/whoi/GameActivity.java:589-614 | in an active game applies the waiting-choices write; otherwise nothing |
| RoundGame.GameSession.HandleRevealResults | app/src/main/java/com/humangodcvaki/whoi/GameActivity.java:616-701 | an inactive game changes nothing; otherwise RevealOutcome, on every snapshot it is given: with both choices the scores follow ScoreAfter, the round becomes the stored round when that is ahead, and the initiator (when delivered) stores only the round result and scores and has one more success callback pending; with a choice missing, scores, round and pending callbacks stay and the initiator resets the phase |
| RoundGame.GameSession.ScoreRound | app/src/main/java/com/humangodcvaki/whoi/GameActivity.java:635-700 | the scores follow ScoreAfter of the two choices, the round becomes the stored round when that is ahead, and the delivered initiator stores the result of the round it scored, under that round, with one more callback pending |
| RoundGame.GameSession.OnRevealWriteSuccess | app/src/main/java/com/humangodcvaki/whoi/GameActivity.java:673-683 | with a callback pending, one fewer is pending and the store gets NextOps of the round and scores as they are when it runs: gameEnded and game_over once a score is 3 or more, otherwise the next round in waiting_choices; without one, nothing changes; round, scores and activity stay |
| RoundGame.GameSession.UpdateUserGameStats | app/src/main/java/com/humangodcvaki/whoi/GameActivity.java:765-780 | a delivered transaction applies the statistics write; otherwise nothing |
| RoundGame.GameSession.HandleGameEnd | app/src/main/java/com/humangodcvaki/whoi/GameActivity.java:703-763 | an inactive game changes nothing, the countdown included; once, while active: the game stops and the countdown is cancelled; with a winner, exactly this player's win or loss statistics when delivered, else nothing; without a winner nothing; the initiator schedules the room's removal |
| RoundGame.GameSession.OnRemovalTimeout | app/src/main/java/com/humangodcvaki/whoi/GameActivity.java:755-761 | a pending removal deletes the room; otherwise nothing |
| RoundGame.GameSession.ShowPartnerDisconnected | app/src/main/java/com/humangodcvaki/whoi/GameActivity.java:868-897 | in an active game not finishing: the game stops and the disconnect write is applied; otherwise nothing |
| RoundGame.GameSession.OnPartnerPresence | app/src/main/java/com/humangodcvaki/whoi/GameActivity.java:450-467 | anything but online == true during a game is a disconnect; otherwise nothing |
| RoundGame.GameSession.OnRoomChange | app/src/main/java/com/humangodcvaki/whoi/GameActivity.java:246-300 | per branch, the store, activity, round and scores: not listening, nothing; a removed room stops the game, writing the disconnect only for an active game not being closed; a stored gameEnded is exactly HandleGameEnd's effect; a missing player changes nothing; otherwise gameStarted activates the game and the phase decides: waiting_choices applies WaitingChoicesOps, reveal_results is RevealOutcome (the result write only; the next step waits for OnRevealWriteSuccess), any other phase changes nothing |
| RoundGame.GameSession.FinishGameCleanup | app/src/main/java/com/humangodcvaki/whoi/GameActivity.java:899-923 | not active, no countdown, not listening; this player's connected flag is false |
| RoundGame.GameSession.LeaveGame | app/src/main/java/com/humangodcvaki/whoi/GameActivity.java:823-843 | an active game gets the leave write first; then the clean-up |
| RoundGame.RevealEndsOrAdvances | app/src/main/java/com/humangodcvaki/whoi/GameActivity.java:665-683 | the round result followed by its callback on the same scores: both scores read back as stored, and the store holds gameEnded and game_over when a score reaches 3 (so the next room change runs the end handler), otherwise the next round in waiting_choices |
| RoundGame.NextOpsStored | app/src/main/java/com/humangodcvaki/whoi/GameActivity.java:674-682 | the end of the game or the next round reads back from the store it is written to |
| RoundGame.LaterRoundRefusedAsWritten | app/src/main/java/com/humangodcvaki/whoi/GameActivity.java:589-614 | as written, after the first choice the next round's choice and its auto-pick both write nothing |
| RoundGame.HandleWaitingChoicesCorrected | app/src/main/java/com/humangodcvaki/whoi/GameActivity.java:589-614 | corrected: a stored round ahead of the local one is adopted and reopens the choice before waiting |
| RoundGame.NextRoundPlayableCorrected | app/src/main/java/com/humangodcvaki/whoi/GameActivity.java:589-614 | corrected: once the round has advanced in the store, this player's next choice is stored under it |
| RoundGame.RoundResultKeepsRoom | app/src/main/java/com/humangodcvaki/whoi/GameActivity.java:665-673 | a round result changes no field of the room outside results and scores |
| RoundGame.RevealSnapshotKept | app/src/main/java/com/humangodcvaki/whoi/GameActivity.java:665-673 | after a round result the snapshot keeps both choices, the phase and the stored round |
| RoundGame.RevealRescoresAsWritten | app/src/main/java/com/humangodcvaki/whoi/GameActivity.java:286-287 | as written: an initiator's reveal of stone against scissors, handed the snapshot its own result write produces, scores the round twice and leaves two callbacks pending, with the phase still reveal_results |
| RoundGame.HandleRevealResultsCorrected | app/src/main/java/com/humangodcvaki/whoi/GameActivity.java:616-701 | corrected: a round already scored changes nothing but adopting a stored round ahead; otherwise RevealOutcome as before, and a round with both choices is marked scored |
| RoundGame.RevealOnceCorrected | app/src/main/java/com/humangodcvaki/whoi/GameActivity.java:616-701 | corrected: the same round handed to the handler twice counts once, as ScoreAfter says, with at most one callback pending |
| OrientationCheck.OwnEntryOnly | app/src/main/java/com/humangodcvaki/whoi/OrientationCheckActivity.java:364-395 | a write made only of this peer's own status fields leaves every other leaf as it was |
| OrientationCheck.PublishOps | app/src/main/java/com/humangodcvaki/whoi/OrientationCheckActivity.java:364-375 | `updateOrientationInFirebase`'s update stays inside this peer's own status entry |
| OrientationCheck.PublishFrame | app/src/main/java/com/humangodcvaki/whoi/OrientationCheckActivity.java:364-395 | publishing the orientation leaves the partner's entry, and everything outside this peer's own, as it was |
| OrientationCheck.PublishReadBack | app/src/main/java/com/humangodcvaki/whoi/OrientationCheckActivity.java:364-395 | after publishing, the partner reads this peer's orientation and connected == true |
| OrientationCheck.DisconnectEffect | app/src/main/java/com/humangodcvaki/whoi/OrientationCheckActivity.java:432-466 | the disconnect stays in the peer's own entry, keeps its orientation, and reads back connected == false |
| OrientationCheck.OrientationGate.constructor | app/src/main/java/com/humangodcvaki/whoi/OrientationCheckActivity.java:63-124 | the accepted setup and display name; portrait on both sides, nothing started, nothing posted |
| OrientationCheck.OrientationGate.UpdateOrientationUI | app/src/main/java/com/humangodcvaki/whoi/OrientationCheckActivity.java:238-280 | one delayed start is posted exactly when both phones are in landscape and loading has not started |
| OrientationCheck.OrientationGate.UpdateOrientationInFirebase | app/src/main/java/com/humangodcvaki/whoi/OrientationCheckActivity.java:364-395 | the store gets exactly the publish write of the current orientation |
| OrientationCheck.OrientationGate.CheckCurrentOrientation | app/src/main/java/com/humangodcvaki/whoi/OrientationCheckActivity.java:222-236 | records the orientation, publishes it, and posts a start exactly when both are landscape and loading has not started |
| OrientationCheck.OrientationGate.OnResume | app/src/main/java/com/humangodcvaki/whoi/OrientationCheckActivity.java:523-531 | while not destroyed, records and publishes the current orientation; otherwise nothing |
| OrientationCheck.OrientationGate.SetupGameRoomListener | app/src/main/java/com/humangodcvaki/whoi/OrientationCheckActivity.java:117-121 | the listener is registered unless the screen is destroyed |
| OrientationCheck.OrientationGate.StartLoadingActivity | app/src/main/java/com/humangodcvaki/whoi/OrientationCheckActivity.java:397-430 | unless destroyed, exactly one launch of the loading screen carrying the accepted extras |
| OrientationCheck.OrientationGate.OnStartDelay | app/src/main/java/com/humangodcvaki/whoi/OrientationCheckActivity.java:266-276 | as written, the delayed start launches whenever the screen is alive and loading has not started, whatever the orientations now |
| OrientationCheck.OrientationGate.OnStartDelayCorrected | app/src/main/java/com/humangodcvaki/whoi/OrientationCheckActivity.java:266-276 | corrected: a launch happens only when both phones are still in landscape |
| OrientationCheck.OrientationGate.CleanupAndFinish | app/src/main/java/com/humangodcvaki/whoi/OrientationCheckActivity.java:432-466 | once only: the listener goes and, when delivered, this peer's disconnect is written |
| OrientationCheck.OrientationGate.OnRoomChange | app/src/main/java/com/humangodcvaki/whoi/OrientationCheckActivity.java:282-362 | the screen ends exactly when the room is gone or the partner is disconnected (then writing this peer's disconnect when delivered, else nothing); the stored partner orientation replaces the known one; a partner newly in landscape while this phone is in landscape and loading has not started posts exactly one delayed start, and nothing else posts one |
| OrientationCheck.OrientationGate.OnConfigurationChanged | app/src/main/java/com/humangodcvaki/whoi/OrientationCheckActivity.java:469-490 | a changed orientation is recorded and published; a change to landscape while the partner is in landscape and loading has not started posts exactly one delayed start; an unchanged one writes nothing and posts nothing |
| OrientationCheck.OrientationGate.OnDestroy | app/src/main/java/com/humangodcvaki/whoi/OrientationCheckActivity.java:493-508 | destroyed and not listening; no launch and no pending start added |
| OrientationCheck.PartnerLandscapeStartsLoading | app/src/main/java/com/humangodcvaki/whoi/OrientationCheckActivity.java:238-325 | with this phone in landscape, a room change reporting the partner in landscape posts the start, and its running launches the loading screen once with the accepted extras |
| OrientationCheck.PortraitStartAsWritten | app/src/main/java/com/humangodcvaki/whoi/OrientationCheckActivity.java:238-280 | as written: both in landscape, a start is posted, this phone turns to portrait, and the loading screen still launches in portrait |
| OrientationCheck.PortraitStartRefusedCorrected | app/src/main/java/com/humangodcvaki/whoi/OrientationCheckActivity.java:238-280 | corrected: after the same steps no launch happens and loading has not started |
| StartLoading.ConnectionEffect | app/src/main/java/com/humangodcvaki/whoi/StartLoadingActivity.java:414-444 | announcing stays in this peer's own status entry and reads back connected == true |
| StartLoading.DisconnectEffect | app/src/main/java/com/humangodcvaki/whoi/StartLoadingActivity.java:703-742 | the disconnect stays in this peer's own status entry and reads back as not connected |
| StartLoading.ChapterWriteStartsRoom | app/src/main/java/com/humangodcvaki/whoi/StartLoadingActivity.java:546-592 | after the chapter write every listener sees a startable room holding that chapter |
| StartLoading.ChapterOps | app/src/main/java/com/humangodcvaki/whoi/StartLoadingActivity.java:546-566 | `selectRandomChapter`'s update stays inside the game room |
| StartLoading.RandomChapter | app/src/main/java/com/humangodcvaki/whoi/StartLoadingActivity.java:556 | nextInt(1) + 1 is always chapter 1 |
| StartLoading.ChapterActivityFor | app/src/main/java/com/humangodcvaki/whoi/StartLoadingActivity.java:680-700 | every chapter number, known or not, opens the chapter-1 screen |
| StartLoading.LoadingScreen.constructor | app/src/main/java/com/humangodcvaki/whoi/StartLoadingActivity.java:76-121 | the accepted setup and display name; chapter 1, progress 0; nothing ready, started or pending |
| StartLoading.LoadingScreen.Begin | app/src/main/java/com/humangodcvaki/whoi/StartLoadingActivity.java:99-121 | listening, the progress steps and the 10 s forced start pending; the connection write applied when delivered |
| StartLoading.LoadingScreen.AccelerateAssetLoading | app/src/main/java/com/humangodcvaki/whoi/StartLoadingActivity.java:520-534 | below 100 % every posted step is dropped and the finalisation is posted; from 100 % nothing changes |
| StartLoading.LoadingScreen.UpdatePlayerStatus | app/src/main/java/com/humangodcvaki/whoi/StartLoadingActivity.java:446-480 | both players connected while assets still load (below 100 %) speeds the loading up; otherwise nothing is posted |
| StartLoading.LoadingScreen.SelectRandomChapter | app/src/main/java/com/humangodcvaki/whoi/StartLoadingActivity.java:546-592 | once only: chapter 1 and the chapter write when delivered; an undelivered write allows another try |
| StartLoading.LoadingScreen.CheckReadyToStart | app/src/main/java/com/humangodcvaki/whoi/StartLoadingActivity.java:594-611 | with both players, assets and game data ready and not yet starting, the initiator selects the chapter; otherwise nothing |
| StartLoading.LoadingScreen.OnStep | app/src/main/java/com/humangodcvaki/whoi/StartLoadingActivity.java:482-518 | the next step's progress; game data ready from 80, assets from 100; the store changes only at 100, and there exactly by the initiator's delivered chapter write when both players are ready, the game is not starting and no chapter was selected |
| StartLoading.LoadingScreen.OnFinalize | app/src/main/java/com/humangodcvaki/whoi/StartLoadingActivity.java:520-534 | progress 100 with assets and game data ready; the store changes exactly by the initiator's delivered chapter write when both players are ready, the game is not starting and no chapter was selected |
| StartLoading.LoadingScreen.StartChapterActivity | app/src/main/java/com/humangodcvaki/whoi/StartLoadingActivity.java:635-678 | the launch is posted exactly when the screen is not destroyed |
| StartLoading.LoadingScreen.ForceStartGame | app/src/main/java/com/humangodcvaki/whoi/StartLoadingActivity.java:613-633 | unless already starting: everything ready, chapter 1, the launch posted |
| StartLoading.LoadingScreen.OnForceStartTimeout | app/src/main/java/com/humangodcvaki/whoi/StartLoadingActivity.java:110-115 | the timer is spent and the game is starting; a fresh start posts the launch on chapter 1 |
| StartLoading.LoadingScreen.OnLaunch | app/src/main/java/com/humangodcvaki/whoi/StartLoadingActivity.java:635-678 | exactly one launch, carrying this screen's extras and the selected chapter |
| StartLoading.LoadingScreen.CleanupAndFinish | app/src/main/java/com/humangodcvaki/whoi/StartLoadingActivity.java:703-742 | once only: not listening, destroyed, every callback dropped, and the disconnect written when delivered |
| StartLoading.LoadingScreen.OnDestroy | app/src/main/java/com/humangodcvaki/whoi/StartLoadingActivity.java:745-771 | destroyed, not listening, every callback dropped |
| StartLoading.LoadingScreen.RefreshReadiness | app/src/main/java/com/humangodcvaki/whoi/StartLoadingActivity.java:274-412 | each player's ready flag is exactly its stored connected flag |
| StartLoading.LoadingScreen.DecideStart | app/src/main/java/com/humangodcvaki/whoi/StartLoadingActivity.java:274-412 | starting exactly when the room says start, or for the non-initiator once locally ready; the initiator, locally ready in an unstarted room, selects the chapter |
| StartLoading.LoadingScreen.OnRoomChange | app/src/main/java/com/humangodcvaki/whoi/StartLoadingActivity.java:274-412 | ignored once destroyed or starting; a missing room ends the screen, drops every callback and writes this peer's disconnect when delivered; otherwise the readiness follows the snapshot, the start launches with the stored chapter (1 when absent), and the store changes only by the initiator's chapter write |
| StartLoading.InitiatorStartsOnChapterOne | app/src/main/java/com/humangodcvaki/whoi/StartLoadingActivity.java:274-412 | with both peers connected and its loading done, two snapshots take the initiator to a posted launch on chapter 1 |
| ChapterRace.ValidateIntent | app/src/main/java/com/humangodcvaki/whoi/Chapter1GameActivity.java:281-307 | refused exactly for a missing room or partner id; a blank name becomes "Partner"; the chapter defaults to 1 |
| ChapterRace.LaunchAccepted | app/src/main/java/com/humangodcvaki/whoi/Chapter1GameActivity.java:281-307 | the loading screen's launch is accepted with the same room, partner, name, role and chapter |
| ChapterRace.ChapterSelectionStartsRace | app/src/main/java/com/humangodcvaki/whoi/Chapter1GameActivity.java:558-597 | the room left by the loading screen's chapter write already says start |
| ChapterRace.ReadyStartsRace | app/src/main/java/com/humangodcvaki/whoi/Chapter1GameActivity.java:639-688 | either peer's ready write alone makes the room say start |
| ChapterRace.TimeBonus | app/src/main/java/com/humangodcvaki/whoi/Chapter1GameActivity.java:860 | never negative, at most 200, and 0 exactly from 200 s on |
| ChapterRace.TimeBonusNonIncreasing | app/src/main/java/com/humangodcvaki/whoi/Chapter1GameActivity.java:860 | reaching the goal later never earns a larger bonus |
| ChapterRace.TimeBonusPerSecond | app/src/main/java/com/humangodcvaki/whoi/Chapter1GameActivity.java:860 | within the first second the full 200; each further whole second costs one point |
| ChapterRace.EndOpsEffect | app/src/main/java/com/humangodcvaki/whoi/Chapter1GameActivity.java:848-880 | the stored end reads back as ended, won by this player, with its total score |
| ChapterRace.EndOps | app/src/main/java/com/humangodcvaki/whoi/Chapter1GameActivity.java:864-876 | `reachObjective`'s end update stays inside the game room |
| ChapterRace.PartnerLeaveIsWin | app/src/main/java/com/humangodcvaki/whoi/Chapter1GameActivity.java:1084-1103 | the leaving player's write reads back as ended, with the remaining player and that player's name as winner and reason player_left, so the remaining player's end handler (:903-918) reports a win |
| ChapterRace.LeaveOps | app/src/main/java/com/humangodcvaki/whoi/Chapter1GameActivity.java:1088-1095 | `leaveGame`'s update stays inside the game room |
| ChapterRace.StatsOps | app/src/main/java/com/humangodcvaki/whoi/Chapter1GameActivity.java:937-961 | empty exactly when the user document is missing |
| ChapterRace.WinStatsEffect | app/src/main/java/com/humangodcvaki/whoi/Chapter1GameActivity.java:937-961 | a win adds one game, one win, 75 xp, 25 tokens and one chapter win |
| ChapterRace.LossStatsEffect | app/src/main/java/com/humangodcvaki/whoi/Chapter1GameActivity.java:937-961 | a loss adds one game, 25 xp and 10 tokens; wins and chapter wins are kept |
| ChapterRace.EndKeepsUsers | app/src/main/java/com/humangodcvaki/whoi/Chapter1GameActivity.java:848-880 | a write inside the room keeps every user document and its win count |
| ChapterRace.RaceScreen.constructor | app/src/main/java/com/humangodcvaki/whoi/Chapter1GameActivity.java:117-175 | the accepted setup and display name; not active or ended, scores 0, nothing pending |
| ChapterRace.RaceScreen.SelectGameSprites | app/src/main/java/com/humangodcvaki/whoi/Chapter1GameActivity.java:309-331 | background, objective and colour from their draws; the partner's colour is the first later draw that differs from the player's |
| ChapterRace.RaceScreen.OnSpritesReady | app/src/main/java/com/humangodcvaki/whoi/Chapter1GameActivity.java:456-505 | ready after a load error in any case, after success unless finishing |
| ChapterRace.RaceScreen.SetupAndMarkReady | app/src/main/java/com/humangodcvaki/whoi/Chapter1GameActivity.java:639-688 | unless finishing: the listener is on and the ready write is applied |
| ChapterRace.RaceScreen.ForceStartGame | app/src/main/java/com/humangodcvaki/whoi/Chapter1GameActivity.java:690-699 | nothing when active, ended, finishing or without sprites; otherwise the race starts |
| ChapterRace.RaceScreen.OnStartTimeout | app/src/main/java/com/humangodcvaki/whoi/Chapter1GameActivity.java:162-684 | any of the three start timers (7 s auto-start, 3 s and 4 s fallbacks): the race is active exactly when it was, or when it is not ended, not finishing and the sprites are ready, because `forceStartGame` repeats both timers' guards |
| ChapterRace.RaceScreen.ReportPosition | app/src/main/java/com/humangodcvaki/whoi/Chapter1GameActivity.java:766-834 | written exactly when more than 100 ms have passed since the last write; then the time and the position are stored |
| ChapterRace.RaceScreen.ReachObjective | app/src/main/java/com/humangodcvaki/whoi/Chapter1GameActivity.java:848-880 | once only: the race stops and the end is stored with score + 100 + the time bonus |
| ChapterRace.RaceScreen.UpdateUserStats | app/src/main/java/com/humangodcvaki/whoi/Chapter1GameActivity.java:937-961 | a delivered transaction on a live screen applies the statistics write; otherwise nothing |
| ChapterRace.RaceScreen.HandleGameEnd | app/src/main/java/com/humangodcvaki/whoi/Chapter1GameActivity.java:882-935 | as written: a race already inactive and ended records nothing; otherwise it stops and records win or loss |
| ChapterRace.RaceScreen.HandleGameEndCorrected | app/src/main/java/com/humangodcvaki/whoi/Chapter1GameActivity.java:882-935 | corrected: records the result once per screen, whoever ended the race |
| ChapterRace.RaceScreen.UpdateScores | app/src/main/java/com/humangodcvaki/whoi/Chapter1GameActivity.java:621-637 | each stored score that is present replaces the local one |
| ChapterRace.RaceScreen.OnRoomChange | app/src/main/java/com/humangodcvaki/whoi/Chapter1GameActivity.java:515-597 | as written: ignored while not listening or finishing, and a missing room changes nothing; a stored end runs `handleGameEnd`, which writes this player's result only when the race had not already ended here; otherwise the store is unchanged, the race starts once the room says start, and both scores follow the room |
| ChapterRace.RaceScreen.OnRoomChangeCorrected | app/src/main/java/com/humangodcvaki/whoi/Chapter1GameActivity.java:515-597 | the same listener with the corrected end handler: a stored end writes this player's result once per screen, whoever ended the race |
| ChapterRace.RaceScreen.FinishGame | app/src/main/java/com/humangodcvaki/whoi/Chapter1GameActivity.java:1131-1175 | finishing; the first call stops the race and removes the listener |
| ChapterRace.RaceScreen.LeaveGame | app/src/main/java/com/humangodcvaki/whoi/Chapter1GameActivity.java:1084-1103 | an active race gets the leave write; then the race stops and the player returns to the chat |
| ChapterRace.RaceScreen.OnDestroy | app/src/main/java/com/humangodcvaki/whoi/Chapter1GameActivity.java:178-204 | not active, ended, listener removed |
| ChapterRace.WinnerUnrecordedAsWritten | app/src/main/java/com/humangodcvaki/whoi/Chapter1GameActivity.java:882-935 | as written: after the winner reaches the goal and the end comes back, the store holds the end and no statistics |
| ChapterRace.WinnerRecordedCorrected | app/src/main/java/com/humangodcvaki/whoi/Chapter1GameActivity.java:882-935 | corrected: the same sequence adds exactly one win to the player's statistics |
| ChapterRace.PartnerLeaveRecordsWin | app/src/main/java/com/humangodcvaki/whoi/Chapter1GameActivity.java:515-597 | as written, a partner's leave write reaching a race that had not ended through the room listener stops the race and adds exactly one win to this player's statistics |
| Chat.OnlineIsPresenceChild | app/src/main/java/com/humangodcvaki/whoi/ChatActivity.java:726-762 | a user whose presence says online is a child of the presence node |
| Chat.OnlineUsers | app/src/main/java/com/humangodcvaki/whoi/ChatActivity.java:726-762 | exactly the other users whose presence `online` child is true |
| Chat.PresenceMakesOnline | app/src/main/java/com/humangodcvaki/whoi/ChatActivity.java:138-155 | another peer sees a user who has just set up presence as online |
| Chat.OfflineIsNotOnline | app/src/main/java/com/humangodcvaki/whoi/ChatActivity.java:1287-1331 | once the presence node is the bare value false, nobody sees the user as online |
| Chat.PresenceOps | app/src/main/java/com/humangodcvaki/whoi/ChatActivity.java:138-148 | `setupUserPresence` replaces the user's presence node by online, last seen and name; every operation stays inside that node |
| Chat.Candidates | app/src/main/java/com/humangodcvaki/whoi/ChatActivity.java:764-812 | the pool keys, in snapshot order, whose entry is another online user stamped less than 15 s ago |
| Chat.CollectCandidates | app/src/main/java/com/humangodcvaki/whoi/ChatActivity.java:774-779 | the loop over the pool snapshot collects exactly the candidates, in order |
| Chat.CandidateIsFreshOtherUser | app/src/main/java/com/humangodcvaki/whoi/ChatActivity.java:774-779 | a candidate is another user, online, with a fresh entry: nobody is matched with themselves |
| Chat.PoolEntryReads | app/src/main/java/com/humangodcvaki/whoi/ChatActivity.java:814-843 | a new pool entry reads back its user, name and stamp, and leaves presence alone |
| Chat.PoolEntryOps | app/src/main/java/com/humangodcvaki/whoi/ChatActivity.java:822-833 | the new pool entry (user, name, time) under the push key; every operation stays inside that entry |
| Chat.FreshEntryQualifies | app/src/main/java/com/humangodcvaki/whoi/ChatActivity.java:774-779 | an entry written at time t by an online user is a candidate for another peer exactly while now - t < 15000 |
| Chat.ChatRoomLeavesDisjoint | app/src/main/java/com/humangodcvaki/whoi/ChatActivity.java:960-995 | the room-creation update's leaves reach disjoint subtrees |
| Chat.ChatRoomEffect | app/src/main/java/com/humangodcvaki/whoi/ChatActivity.java:960-995 | after createChatRoom: the caller is participant1, the partner participant2, the room active, both present, and neither pool entry left |
| Chat.ChatRoomFrame | app/src/main/java/com/humangodcvaki/whoi/ChatActivity.java:960-995 | the same update changes nothing outside the new room and the two pool entries |
| Chat.ChatRoomOps | app/src/main/java/com/humangodcvaki/whoi/ChatActivity.java:960-984 | `createChatRoom`'s one multi-path update; every operation lies in the new chat room or in the waiting pool |
| Chat.RemoveChildren | app/src/main/java/com/humangodcvaki/whoi/ChatActivity.java:864-908 | one removal per listed child, whatever the snapshot order, removes exactly those children |
| Chat.PoolSweepKeepsRooms | app/src/main/java/com/humangodcvaki/whoi/ChatActivity.java:864-908 | the pool half of the sweep leaves every chat-room leaf alone |
| Chat.SameRoomsIdleKeys | app/src/main/java/com/humangodcvaki/whoi/ChatActivity.java:864-908 | trees that agree under chatRooms have the same idle rooms |
| Chat.PoolSweepKeepsRoomKeys | app/src/main/java/com/humangodcvaki/whoi/ChatActivity.java:864-908 | the room half reads the same rooms after the pool half as before |
| Chat.SweepRemovesStaleEntries | app/src/main/java/com/humangodcvaki/whoi/ChatActivity.java:864-908 | every pool entry stamped at or before the cutoff is gone after the sweep |
| Chat.SweepKeepsFreshEntries | app/src/main/java/com/humangodcvaki/whoi/ChatActivity.java:864-908 | an entry stamped after the cutoff keeps every leaf |
| Chat.SweepKeepsActiveRooms | app/src/main/java/com/humangodcvaki/whoi/ChatActivity.java:864-908 | an active room is never swept, however old |
| Chat.SweepRemovesIdleRooms | app/src/main/java/com/humangodcvaki/whoi/ChatActivity.java:864-908 | an old room whose active flag is false or missing is gone after the sweep |
| Chat.SweepResult | app/src/main/java/com/humangodcvaki/whoi/ChatActivity.java:864-908 | both halves of the five-minute sweep: the result only removes leaves, and every leaf it keeps has its old value |
| Chat.AnyUserPresent | app/src/main/java/com/humangodcvaki/whoi/ChatActivity.java:1229-1263 | the loop over the participants finds someone exactly when some participant entry is true |
| Chat.LeaveEffect | app/src/main/java/com/humangodcvaki/whoi/ChatActivity.java:1211-1227 | after the caller leaves, somebody is still present exactly when some other participant was |
| Chat.InvitationTextIsRecognised | app/src/main/java/com/humangodcvaki/whoi/ChatActivity.java:271-304 | the invitation text is recognised by the chat list as an invitation, whatever the sender's name |
| Chat.InvitationLeavesDisjoint | app/src/main/java/com/humangodcvaki/whoi/ChatActivity.java:271-304 | the invitation message's fields are distinct leaves |
| Chat.InvitationMessageStored | app/src/main/java/com/humangodcvaki/whoi/ChatActivity.java:271-304 | the stored invitation names its sender and game room and is pending, so the partner's row offers the enabled "Accept Game" |
| Chat.InvitationMessageKeepsAnswer | app/src/main/java/com/humangodcvaki/whoi/ChatActivity.java:271-304 | an invitation message leaves the room's gameInvitation node as it was |
| Chat.InvitationMessageKeepsAnswerOf | app/src/main/java/com/humangodcvaki/whoi/ChatActivity.java:271-304 | after an invitation message the response listener reads the same answer as before |
| Chat.InvitationMessageOps | app/src/main/java/com/humangodcvaki/whoi/ChatActivity.java:271-294 | the invitation message's seven fields under the fresh message key; every operation stays inside that message |
| Chat.AnswerOf | app/src/main/java/com/humangodcvaki/whoi/ChatActivity.java:387-443 | the response listener's reading of `gameInvitation`, in its branch order (accepted with an acceptor, declined, timeout, otherwise no answer); with no invitation stored in the room there is no answer |
| Chat.AcceptIsAccepted | app/src/main/java/com/humangodcvaki/whoi/ChatActivity.java:519-579 | the inviter's listener reads the acceptance write as Accepted |
| Chat.DeclineIsDeclined | app/src/main/java/com/humangodcvaki/whoi/ChatActivity.java:582-591 | the decline write reads as Declined |
| Chat.TimeoutIsTimedOut | app/src/main/java/com/humangodcvaki/whoi/ChatActivity.java:456-481 | the timeout write reads as TimedOut |
| Chat.AcceptOps | app/src/main/java/com/humangodcvaki/whoi/ChatActivity.java:525-533 | the acceptance (status, acceptor, time); every operation stays inside the room's `gameInvitation` node |
| Chat.DeclineOps | app/src/main/java/com/humangodcvaki/whoi/ChatActivity.java:582-591 | the decline (status, who, time); every operation stays inside the room's `gameInvitation` node |
| Chat.TimeoutOps | app/src/main/java/com/humangodcvaki/whoi/ChatActivity.java:459-464 | the timeout's status write; it stays inside the room's `gameInvitation` node |
| Chat.GameRoomLeavesDisjoint | app/src/main/java/com/humangodcvaki/whoi/ChatActivity.java:307-356 | the game room's leaves reach disjoint subtrees |
| Chat.GameRoomState | app/src/main/java/com/humangodcvaki/whoi/ChatActivity.java:307-356 | the new game room: waiting_players, round 1, not started, not ended, the caller as initiator |
| Chat.GameRoomPlayers | app/src/main/java/com/humangodcvaki/whoi/ChatActivity.java:307-356 | both players present, neither ready nor connected, scores 0 |
| Chat.GameRoomOnlyTwoPlayers | app/src/main/java/com/humangodcvaki/whoi/ChatActivity.java:307-356 | under players the new room holds only the caller and the partner |
| Chat.GameRoomOps | app/src/main/java/com/humangodcvaki/whoi/ChatActivity.java:307-327 | `createGameRoom`'s one `setValue` of the whole room; every operation stays inside that game room |
| Chat.InitiatorNeverReadyAsWritten | app/src/main/java/com/humangodcvaki/whoi/GameActivity.java:323-353 | as written: in a room laid out by createGameRoom, after both joins the initiator is not ready and the room cannot start |
| Chat.InitiatorReadyCorrected | app/src/main/java/com/humangodcvaki/whoi/GameActivity.java:323-353 | corrected: after both joins the initiator is ready and connected |
| Chat.PartnerReadyCorrected | app/src/main/java/com/humangodcvaki/whoi/GameActivity.java:323-353 | corrected: after both joins the partner is ready and connected |
| Chat.OnlyTwoPlayersCorrected | app/src/main/java/com/humangodcvaki/whoi/GameActivity.java:323-353 | corrected: only the two players appear under players |
| Chat.BothReadyCanStartCorrected | app/src/main/java/com/humangodcvaki/whoi/GameActivity.java:356-401 | corrected: once both have joined, the room passes the readiness gate |
| Chat.ClearedInvitationUnanswered | app/src/main/java/com/humangodcvaki/whoi/ChatActivity.java:248-268 | with the old answer removed in the message write, the listener finds no answer, whatever the room held |
| Chat.DeductionKeepsAnswer | app/src/main/java/com/humangodcvaki/whoi/ChatActivity.java:248-268 | a committed token deduction leaves the room's answer as it was |
| Chat.WithStatusNone | app/src/main/java/com/humangodcvaki/whoi/ChatActivity.java:359-379 | marking no message changes nothing |
| Chat.WithStatusOneMore | app/src/main/java/com/humangodcvaki/whoi/ChatActivity.java:359-379 | one more setValue(status) marks one more message |
| Chat.WithStatusReads | app/src/main/java/com/humangodcvaki/whoi/ChatActivity.java:359-379 | every marked message reads the status |
| Chat.WithStatusFrame | app/src/main/java/com/humangodcvaki/whoi/ChatActivity.java:359-379 | nothing outside chatRooms changes |
| Chat.RoomCreatedHidesAccept | app/src/main/java/com/humangodcvaki/whoi/ChatActivity.java:359-379 | a message marked room_created no longer offers anybody "Accept Game" |
| Chat.RoomWriteKeepsRoom | app/src/main/java/com/humangodcvaki/whoi/ChatActivity.java:307-356 | the marking only touches chat rooms, so the game room reads as createGameRoom laid it out |
| Chat.Respond | app/src/main/java/com/humangodcvaki/whoi/ChatActivity.java:388-443 | no answer keeps waiting; accepted removes the listener, cancels the timeout and schedules the launch as initiator; declined or timed out ends the invitation without a launch |
| Chat.StaleDeclineEndsInvitationAsWritten | app/src/main/java/com/humangodcvaki/whoi/ChatActivity.java:382-453 | as written: an old decline in the room ends a new invitation as soon as its listener is registered |
| Chat.StaleAcceptLaunchesAsWritten | app/src/main/java/com/humangodcvaki/whoi/ChatActivity.java:382-453 | as written: an old acceptance launches the inviter although nobody accepted this invitation |
| Chat.FreshInvitationWaitsCorrected | app/src/main/java/com/humangodcvaki/whoi/ChatActivity.java:382-453 | corrected: with the old answer cleared, the new listener keeps waiting, whatever came before |
| Chat.ChatScreen.constructor | app/src/main/java/com/humangodcvaki/whoi/ChatActivity.java:94-136 | "Anonymous" for a missing or blank name; an empty user id finishes at once; nothing else set |
| Chat.ChatScreen.SetupUserPresence | app/src/main/java/com/humangodcvaki/whoi/ChatActivity.java:138-155 | the presence write is applied and presence is set |
| Chat.ChatScreen.EnterWaitingPool | app/src/main/java/com/humangodcvaki/whoi/ChatActivity.java:704-724 | the store becomes the sweep result for the 5-minute cutoff; the 45 s timeout is armed |
| Chat.ChatScreen.CleanUpOldEntries | app/src/main/java/com/humangodcvaki/whoi/ChatActivity.java:864-908 | the store becomes the sweep of pool entries and idle rooms older than now - 300000 |
| Chat.ChatScreen.CollectOnlineUsers | app/src/main/java/com/humangodcvaki/whoi/ChatActivity.java:726-762 | the loop collects exactly the other online users |
| Chat.ChatScreen.AddToWaitingPool | app/src/main/java/com/humangodcvaki/whoi/ChatActivity.java:814-843 | an empty id finishes; otherwise the entry is under the new key, in the pool and listening once delivered, a retry pending when not |
| Chat.ChatScreen.OnRetry | app/src/main/java/com/humangodcvaki/whoi/ChatActivity.java:845-862 | only while neither chatting nor in the pool, the entry is added again |
| Chat.ChatScreen.RemoveFromWaitingPool | app/src/main/java/com/humangodcvaki/whoi/ChatActivity.java:1197-1209 | only while in the pool: the entry is removed once delivered and the flag drops; presence is untouched |
| Chat.ChatScreen.OnMatchTimeout | app/src/main/java/com/humangodcvaki/whoi/ChatActivity.java:712-723 | still in the pool and not chatting: leave the pool and finish; otherwise nothing |
| Chat.ChatScreen.StartChat | app/src/main/java/com/humangodcvaki/whoi/ChatActivity.java:997-1028 | chatting, out of the pool, the match timeout cancelled; the store is unchanged |
| Chat.ChatScreen.CreateChatRoom | app/src/main/java/com/humangodcvaki/whoi/ChatActivity.java:960-995 | delivered: the room update is applied and the chat starts; otherwise the screen finishes and the store is unchanged |
| Chat.ChatScreen.FindWaitingOnlineUsers | app/src/main/java/com/humangodcvaki/whoi/ChatActivity.java:764-812 | the partner is the drawn candidate with a non-empty id other than the caller, and gets a room; with none the caller joins the pool |
| Chat.ChatScreen.FindRandomOnlinePartner | app/src/main/java/com/humangodcvaki/whoi/ChatActivity.java:726-762 | with no other online user (or a failed query) nobody is matched and the caller joins the pool; otherwise the pool is searched |
| Chat.ChatScreen.OnMatch | app/src/main/java/com/humangodcvaki/whoi/ChatActivity.java:910-958 | when not yet chatting: the room and the other participant are taken and the chat starts; the store is unchanged |
| Chat.ChatScreen.CheckAndCleanupRoom | app/src/main/java/com/humangodcvaki/whoi/ChatActivity.java:1229-1263 | the room is deleted exactly when no participant is present and the removal is delivered |
| Chat.ChatScreen.LeaveChat | app/src/main/java/com/humangodcvaki/whoi/ChatActivity.java:1211-1227 | the store is exactly LeaveWrite: only while chatting and delivered, the caller's participant flag becomes false and the room is removed when nobody is left and the removal is delivered; presence untouched |
| Chat.ChatScreen.OnDestroy | app/src/main/java/com/humangodcvaki/whoi/ChatActivity.java:1287-1331 | the store is exactly the offline presence write (when set), then LeaveWrite, then the pool entry removal when in the pool and delivered; presence is no longer online; the invitation listener and both timeouts are dropped |
| Chat.ChatScreen.TearDown | app/src/main/java/com/humangodcvaki/whoi/ChatActivity.java:1296-1330 | `onDestroy` after the presence write: the invitation listener and both timeouts are gone, the store is exactly LeaveWrite followed by the pool removal, the pool entry is gone when that removal is delivered, and the caller's online flag is unchanged |
| Chat.ChatScreen.CreateGameRoom | app/src/main/java/com/humangodcvaki/whoi/ChatActivity.java:307-356 | the store becomes RoomWrite: the game room and the messages marked room_created when a partner exists and the write is delivered |
| Chat.ChatScreen.UpdateInvitationMessageStatus | app/src/main/java/com/humangodcvaki/whoi/ChatActivity.java:359-379 | the loop marks exactly the room's messages for this game room with the status |
| Chat.ChatScreen.OnInvitationResponse | app/src/main/java/com/humangodcvaki/whoi/ChatActivity.java:388-443 | the invitation state becomes Respond of the old state on the stored answer |
| Chat.ChatScreen.ListenForGameInvitationResponse | app/src/main/java/com/humangodcvaki/whoi/ChatActivity.java:382-453 | the listener is registered and runs at once on the current answer |
| Chat.ChatScreen.DeductTokensAndSendInvite | app/src/main/java/com/humangodcvaki/whoi/ChatActivity.java:248-268 | as written: the store is exactly SendWrite and the flags SendState: a failed deduction changes nothing, a lost message keeps only the deduction and the timeout, a stored one registers the listener, which reads whatever answer the room still holds |
| Chat.ChatScreen.DeductTokensAndSendInviteCorrected | app/src/main/java/com/humangodcvaki/whoi/ChatActivity.java:248-268 | corrected: the same, with the old answer removed in the message write, so the listener waits for this invitation's answer |
| Chat.ChatScreen.SendGameInvitation | app/src/main/java/com/humangodcvaki/whoi/ChatActivity.java:221-245 | as written: without enough tokens or without confirmation nothing changes; otherwise exactly the as-written deduction and invitation (SendWrite, SendState) |
| Chat.ChatScreen.SendGameInvitationCorrected | app/src/main/java/com/humangodcvaki/whoi/ChatActivity.java:221-245 | the same check, then the corrected deduction and invitation |
| Chat.ChatScreen.OnGameButton | app/src/main/java/com/humangodcvaki/whoi/ChatActivity.java:200-212 | as written: nothing outside a chat with a partner or while an invitation is out; otherwise exactly SendGameInvitation's effect |
| Chat.ChatScreen.OnGameButtonCorrected | app/src/main/java/com/humangodcvaki/whoi/ChatActivity.java:200-212 | the same gate, then the corrected invitation |
| Chat.ChatScreen.OnInvitationTimeout | app/src/main/java/com/humangodcvaki/whoi/ChatActivity.java:456-481 | with the listener registered the timeout is written and the listener removed; otherwise nothing is written |
| Chat.ChatScreen.DeclineGameInvitation | app/src/main/java/com/humangodcvaki/whoi/ChatActivity.java:582-591 | the decline write is applied and the room reads Declined |
| Chat.ChatScreen.AcceptGameInvitation | app/src/main/java/com/humangodcvaki/whoi/ChatActivity.java:519-579 | the store is exactly AcceptWrite: a failed deduction declines; then the acceptance, and once the room is read the game room is created only if missing; the launch as acceptor is scheduled exactly when deduction, acceptance and read all succeed |
| Chat.ChatScreen.HandleGameInvitationAccept | app/src/main/java/com/humangodcvaki/whoi/ChatActivity.java:491-516 | a failed check or a refusal declines; too few tokens with the user going to earn changes nothing; enough tokens and agreement give exactly AcceptWrite; the acceptor's launch is scheduled exactly when enough tokens, agreement, deduction, acceptance and read all hold |
| Chat.ChatScreen.StartOrientationCheckActivity | app/src/main/java/com/humangodcvaki/whoi/ChatActivity.java:594-626 | refused for a blank game room or a missing partner; otherwise an intent the orientation screen accepts with exactly these values |
| Chat.ChatScreen.OnLaunchTimeout | app/src/main/java/com/humangodcvaki/whoi/ChatActivity.java:409-411 | the pending launch runs: the orientation screen starts with its values, unless refused |

## Left out

- Android UI: layouts, animations, toasts, dialogs (only the choice a dialog returns is modelled), sounds, the countdown's display and the game view's drawing (`GameView`, the `drawSprite*` methods of `SpriteManager`). None of it changes shared state.
- Network and threads: every Firebase callback runs to completion on the main thread, one at a time. A write's success is a boolean parameter. The two peers' screens are separate objects over the same store; the partner's writes show up as store changes between calls. Firestore transaction retries under contention are not modelled.
- `onDisconnect()` handlers run by the server when a connection drops are not modelled. Only the app's own explicit offline writes are.
- Clocks, push keys, `UUID`s and `Random` are parameters. A random index is `draw % n`.
- Integers are unbounded. Java's `long` and `int` overflow is not modelled. Only Java's truncating `/` and `%` are written out, in `JavaInt`.
- `ChatActivity.sendMessage`, `listenForMessages`, `monitorPartnerPresence`, `monitorRoomParticipants`, `showPartnerLeftMessage`, `onBackPressed`, `onResume` and `enableChatAfterGame`: message traffic and presence monitoring are left out. Their effect on who is matched and how rooms are cleaned up is covered by `LeaveChat`, `CheckAndCleanupRoom` and `OnDestroy`.
- `ChatActivity.checkCoinsAndStart` and `deductCoinsAndEnterChat`: only the coin check and deduction they call are modelled, in `Coins`.
- `GameActivity.monitorConnectionQuality`, `loadUserStats` and `updateScoreText`: display only.
- `Chapter1GameActivity` movement physics (`updatePlayerMovement`'s steps and `checkObjectiveReached`'s distance test) are left out. The screen model takes "the goal was reached" as an event and keeps the position throttle, the scoring and the end protocol.
- `AdsActivity` AdMob loading (`loadRewardedAd`, `setupAdCallbacks`, `showRewardedAd`) and `BuyActivity` billing setup (`setupBilling`, `loadProductDetails`, `launchPurchaseFlow`): third-party SDK calls. Only what their callbacks deliver (a reward amount; a purchase with its state) enters the model.
- `DashboardActivity` navigation and tab colours: only which frame is visible is modelled.
- `Messages.Message`: Firestore's reflective (de)serialisation is left out; unset fields are `None`.
- `MessageList.FormatTime`: the "HH:mm" clock reading depends on the device's time zone, so it is a parameter.
- `Sprites.CharactersOk`, `Sprites.BackgroundsOk`: the single-precision thresholds `45 * 0.8f` and `14 * 0.7f` are replaced by the integer bounds 36 and 10, which agree with them for every integer count.
- `Sprites.SpriteManager.LoadSingleSprite`: bitmap decoding is a lookup in a given asset map.
- `ChapterRace.RaceScreen.SelectGameSprites`: it requires some draw to differ from the player's colour. The source's `do … while` loops forever otherwise.
- `Chat.ChatScreen.OnInvitationTimeout`: a second invitation re-arms the single pending-timeout flag. The source does not cancel an older `Runnable` first, and the model does not capture that interleaving.
- `Chat.ChatScreen.CreateGameRoom`: with a null `partnerId` the source would throw. The model writes nothing instead.
- `Chat.ChatScreen.StartChat`: its own `removeFromWaitingPool` call comes after the pool flag has been cleared, so it removes nothing. The model states that the store is unchanged.
- `Chat.Candidates`: a pool entry counts only while it is less than 15 s old, yet a waiting user stays in the pool for up to 45 s. That behaviour is modelled as written; see `Chat.FreshEntryQualifies`.
- `ChapterRace.RaceScreen.OnStartTimeout`: one event stands for the 7 s auto-start timer and the 3 s and 4 s fallback timers of `markPlayerReady`. Which timers are pending and when they fire is not tracked; each has the effect stated, because `forceStartGame` repeats their guards.
- `Ads.AdsScreen.OnBonusTimerTick`: tomorrow's midnight comes from the device calendar (time zone, daylight saving), so it is a parameter beside the clock reading. As written, the flag is cleared only when midnight passes between the two readings, so a screen kept open past midnight stays claimed until it is reopened.
- `RoundGame.GameSession.OnRevealWriteSuccess`: the callback's two `setValue`s are two writes, but the room listener is not called between them, so the snapshot holding the next round with the phase still `reveal_results` is not delivered. `RevealRescoresAsWritten` shows the re-scoring such a snapshot would also cause.
- `RoundGame.OneRoundOvershootsByNothing`: it is about one scoring of a round. As written, a round can be scored again (see Findings), so a score can pass 3; only the corrected handler keeps each round to one scoring.
- `Store.Exists`: a Firestore document with no fields is read as missing. The source would see it as existing: `Ledger.CheckBalance` would read 0 instead of failing, `Ledger.CreditTx` and `GameTokens.AwardGameTokens` would write 0 plus the amount instead of aborting, and `Dashboard.LoadUserData` would show defaults instead of creating the document. The app never writes a document without fields, so only a document emptied by hand differs.
- The race between two peers who each create a chat room with the other at the same moment is not modelled. Each screen is modelled alone.
- `Chat.ChatScreen.DeductTokensAndSendInvite`: tokens already deducted are lost when the message write fails. The model states this as written.
- The `participant2` match listener is never removed in the source. The model has one listening flag for both listeners.
- These are not part of this model: `MainActivity`, `SplashActivity` and `GameView`.

## Findings

| source | as written | input that shows it | evidently intended | confidence | as-written member | corrected member |
|---|---|---|---|---|---|---|
| app/src/main/java/com/humangodcvaki/whoi/GameActivity.java:323-353 | only the non-initiator writes `ready = true` after joining, and `checkAndStartGameIfReady` needs every player ready | a room laid out by `createGameRoom`, joined by both players through `GameActivity` (reachable only if some screen launches it, which no shipped screen does) | both players mark themselves ready, so the initiator can start the game | not executed | Chat.InitiatorNeverReadyAsWritten | Chat.BothReadyCanStartCorrected |
| app/src/main/java/com/humangodcvaki/whoi/GameActivity.java:589-614 | `hasSubmittedChoice` is reset only by `startNewRound`, which runs only when the game becomes active, so after round 1 every choice is refused | an active game after the first round's choice: the next `waiting_choices` snapshot, then a choice | a snapshot whose round is ahead of the local one opens that round | not executed | RoundGame.LaterRoundRefusedAsWritten | RoundGame.NextRoundPlayableCorrected |
| app/src/main/java/com/humangodcvaki/whoi/OrientationCheckActivity.java:266-276 | the delayed start checks only that the screen is alive and loading has not started | both phones in landscape, then this phone turns to portrait within 2.5 s | start only while both phones are still in landscape | not executed | OrientationCheck.PortraitStartAsWritten | OrientationCheck.PortraitStartRefusedCorrected |
| app/src/main/java/com/humangodcvaki/whoi/Chapter1GameActivity.java:882-935 | `handleGameEnd` returns at once when the race is inactive and ended, which `reachObjective` has already made it | the winner reaches the goal; its own end write comes back through the listener | the result is recorded once per screen, whoever ended the race | not executed | ChapterRace.WinnerUnrecordedAsWritten | ChapterRace.WinnerRecordedCorrected |
| app/src/main/java/com/humangodcvaki/whoi/ChatActivity.java:248-268 | the room's `gameInvitation` answer is never cleared before a new invitation, and the new listener reads it at once | a previous invitation in the same room was declined (or accepted), then a new invitation is sent | the new invitation waits for its own answer | not executed | Chat.StaleDeclineEndsInvitationAsWritten | Chat.FreshInvitationWaitsCorrected |
| app/src/main/java/com/humangodcvaki/whoi/GameActivity.java:286-287 | the room listener hands every `reveal_results` snapshot to `handleRevealResults`, which scores the round of `currentRound` with no guard; the initiator's own result write changes neither the phase, nor the round, nor the choices | the initiator in round 1 with stone against scissors stored: its result write produces another `reveal_results` snapshot of round 1, and the round is scored again; the success callback then reads the inflated score | each round is scored once by each peer | not executed | RoundGame.RevealRescoresAsWritten | RoundGame.RevealOnceCorrected |
