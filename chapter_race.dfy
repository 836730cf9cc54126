/**
 * The integer and flag logic of the chapter-1 race (`Chapter1GameActivity`):
 * when a peer starts its race, the one-shot end when it reaches the goal, the
 * time bonus, the throttle on position writes, the end handler and its
 * rewards, leaving, and the choice of two different character colours.
 * Positions are floats and stay opaque store values here.
 */
module ChapterRace {
  import opened Wrappers
  import opened Store
  import opened JavaText
  import opened Intents
  import JavaInt
  import Ledger
  import RoundGame
  import StartLoading

  const BACKGROUND_OPTIONS: seq<string> := ["background_color_trees", "background_fade_trees", "background_solid_grass"]
  const PLAYER_COLORS: seq<string> := ["green", "pink", "purple", "yellow", "beige"]
  const OBJECTIVE_OPTIONS: seq<string> := ["flag_green_a", "flag_blue_a", "flag_yellow_a"]

  const POSITION_UPDATE_INTERVAL := 100
  const OBJECTIVE_POINTS := 100
  const MAX_TIME_BONUS := 200
  const PLAYER_LEFT := "player_left"
  const OBJECTIVE_REACHED := "objective_reached"

  // ------------------------------------------------------------ the intent

  /** What this screen keeps from its extras. */
  datatype ChapterSetup = ChapterSetup(gameRoomId: string, partnerId: string, partnerName: string,
                                       isInitiator: bool, selectedChapter: int)

  /**
   * `validateIntentData`: only a missing (null) room or partner id is
   * refused here; a blank partner name becomes "Partner"; the chapter
   * defaults to 1.
   */
  function ValidateIntent(i: Intent): (r: Option<ChapterSetup>)
    ensures r.None? <==> i.gameRoomId.None? || i.partnerId.None?
    ensures (r.Some? ==>
      r.value.gameRoomId == i.gameRoomId.value && r.value.partnerId == i.partnerId.value &&
      r.value.isInitiator == i.isInitiator && r.value.selectedChapter == i.selectedChapter.GetOr(1))
    ensures r.Some? && Given(i.partnerName) ==> r.value.partnerName == i.partnerName.value
    ensures r.Some? && !Given(i.partnerName) ==> r.value.partnerName == DEFAULT_PARTNER_NAME
  {
    if i.gameRoomId.None? || i.partnerId.None? then None
    else
      var name := if Given(i.partnerName) then i.partnerName.value else DEFAULT_PARTNER_NAME;
      Some(ChapterSetup(i.gameRoomId.value, i.partnerId.value, name, i.isInitiator, i.selectedChapter.GetOr(1)))
  }

  /** The loading screen's launch is always accepted here, with the same room, partner, role and chapter. */
  lemma LaunchAccepted(s: Setup, chapter: int)
    requires WellFormed(s)
    ensures ValidateIntent(Forward(s, Some(chapter))) ==
            Some(ChapterSetup(s.gameRoomId, s.partnerId, s.partnerName, s.isInitiator, chapter))
  {
  }

  // ----------------------------------------------------------------- paths

  function RoomField(id: string, field: string): Path {
    RoundGame.RoomField(id, field)
  }

  function ScorePath(id: string, user: string): Path {
    RoundGame.ScorePath(id, user)
  }

  function PositionField(id: string, user: string, field: string): Path {
    RoundGame.Room(id) + ["playerPositions", user, field]
  }

  // ------------------------------------------------------------- the start

  const START_PHASES: set<string> := {"chapter_ready", "game_active", "chapter1_active"}

  /** `processGameRoomData`'s `shouldStartGame`: a start flag, or a start phase. */
  predicate RoomSaysStart(d: Data, id: string) {
    IsTrue(d, RoomField(id, "gameStarted")) ||
    IsTrue(d, RoomField(id, "chapterStarted")) ||
    (GetStr(d, RoomField(id, "gamePhase")).Some? && GetStr(d, RoomField(id, "gamePhase")).value in START_PHASES)
  }

  /** The room the loading screen's chapter selection leaves behind already starts the race here. */
  lemma ChapterSelectionStartsRace(d: Data, id: string, user: string, chapter: int, now: int)
    ensures RoomSaysStart(Apply(d, StartLoading.ChapterOps(id, user, chapter, now)), id)
  {
    var ops := StartLoading.ChapterOps(id, user, chapter, now);
    assert forall i, j :: 0 <= i < j < 6 ==> ops[i].at[2] != ops[j].at[2];
    assert DistinctPuts(ops);
    PutSurvives(d, ops, 4);
  }

  /**
   * `markPlayerReady`'s update: this player's chapter entry, position and a
   * zero score, the phase `chapter1_active`, `chapterStarted`, and the chosen
   * sprites.
   */
  function ReadyOps(id: string, user: string, name: string, color: string, x: Value, y: Value,
                    background: string, objective: string, now: int): seq<Op> {
    [Put(RoundGame.Room(id) + ["chapterPlayers", user, "ready"], Bool(true)),
     Put(RoundGame.Room(id) + ["chapterPlayers", user, "name"], Str(name)),
     Put(RoundGame.Room(id) + ["chapterPlayers", user, "characterColor"], Str(color)),
     Put(RoundGame.Room(id) + ["chapterPlayers", user, "readyTime"], Int(now)),
     Put(PositionField(id, user, "x"), x),
     Put(PositionField(id, user, "y"), y),
     Put(PositionField(id, user, "lastUpdate"), Int(now)),
     Put(ScorePath(id, user), Int(0)),
     Put(RoomField(id, "gamePhase"), Str("chapter1_active")),
     Put(RoomField(id, "chapterStarted"), Bool(true)),
     Put(RoundGame.Room(id) + ["gameSettings", "background"], Str(background)),
     Put(RoundGame.Room(id) + ["gameSettings", "objective"], Str(objective)),
     Put(RoundGame.Room(id) + ["gameSettings", "playerColors", user], Str(color))]
  }

  /** Either peer's ready write alone is enough for both peers' start test. */
  lemma ReadyStartsRace(d: Data, id: string, user: string, name: string, color: string, x: Value, y: Value,
                        background: string, objective: string, now: int)
    ensures RoomSaysStart(Apply(d, ReadyOps(id, user, name, color, x, y, background, objective, now)), id)
  {
    var ops := ReadyOps(id, user, name, color, x, y, background, objective, now);
    assert forall i :: 10 <= i < |ops| ==> Within(RoundGame.Room(id) + ["gameSettings"], ops[i].at);
    assert ops[9..] == [ops[9]] + ops[10..];
    assert Untouched(ops[10..], ops[9].at) by {
      forall i | 0 <= i < |ops[10..]| ensures !Within(ops[10..][i].at, ops[9].at) {
        assert ops[10..][i].at[2] == "gameSettings";
      }
    }
    ApplyPut(d, ops, 9);
  }

  // ------------------------------------------------------------- the bonus

  /** `Math.max(0, 200 - (int)(completionTime / 1000))`, with Java's truncating division. */
  function TimeBonus(completionTime: int): (b: int)
    ensures b >= 0
    ensures completionTime >= 0 ==> b <= MAX_TIME_BONUS
    ensures completionTime >= 0 ==> (b == 0 <==> completionTime >= 1000 * MAX_TIME_BONUS)
  {
    JavaInt.DivRem(completionTime, 1000);
    var seconds := JavaInt.Div(completionTime, 1000);
    if MAX_TIME_BONUS - seconds > 0 then MAX_TIME_BONUS - seconds else 0
  }

  /** Reaching the goal later never earns a larger bonus. */
  lemma TimeBonusNonIncreasing(a: int, b: int)
    requires 0 <= a <= b
    ensures TimeBonus(b) <= TimeBonus(a)
  {
    JavaInt.DivRem(a, 1000);
    JavaInt.DivRem(b, 1000);
    assert JavaInt.Div(a, 1000) <= JavaInt.Div(b, 1000);
  }

  /** Within the first second the whole bonus is earned; each further full second costs one point. */
  lemma TimeBonusPerSecond(seconds: nat, ms: nat)
    requires ms < 1000 && seconds <= MAX_TIME_BONUS
    ensures TimeBonus(1000 * seconds + ms) == MAX_TIME_BONUS - seconds
  {
    JavaInt.DivRem(1000 * seconds + ms, 1000);
  }

  /** The room fields of `reachObjective`'s update: the end, this player as winner, and how. */
  function EndFieldOps(id: string, user: string, name: string, completionTime: int, timeBonus: int,
                       now: int): seq<Op> {
    [Put(RoomField(id, "gameEnded"), Bool(true)),
     Put(RoomField(id, "winner"), Str(user)),
     Put(RoomField(id, "winnerName"), Str(name)),
     Put(RoomField(id, "gameEndTime"), Int(now)),
     Put(RoomField(id, "gameEndReason"), Str(OBJECTIVE_REACHED)),
     Put(RoomField(id, "completionTime"), Int(completionTime)),
     Put(RoomField(id, "timeBonus"), Int(timeBonus))]
  }

  /** `reachObjective`'s whole update (one `updateChildren` of a map): the room fields and the final score. */
  function EndOps(id: string, user: string, name: string, completionTime: int, timeBonus: int, totalScore: int,
                  now: int): (r: seq<Op>)
    ensures Inside(r, RoundGame.Room(id))
  {
    EndFieldOps(id, user, name, completionTime, timeBonus, now) + [Put(ScorePath(id, user), Int(totalScore))]
  }

  /** Tells the end fields apart by their first letter and length. */
  function EndFieldCode(name: string): int {
    if name == [] then -1
    else match name[0]
      case 'w' => if |name| == 6 then 1 else 2
      case 'g' => (match |name| case 9 => 0 case 11 => 3 case 13 => 4 case _ => -1)
      case 'c' => 5 case 't' => 6
      case _ => -1
  }

  /** The end fields are distinct leaves. */
  lemma EndFieldsDistinct(id: string, user: string, name: string, completionTime: int, timeBonus: int, now: int)
    ensures DistinctPuts(EndFieldOps(id, user, name, completionTime, timeBonus, now))
  {
    var fields := EndFieldOps(id, user, name, completionTime, timeBonus, now);
    forall i | 0 <= i < |fields| ensures fields[i].Put? && |fields[i].at| == 3 && EndFieldCode(fields[i].at[2]) == i {
    }
    NumberedPuts(fields, 3, 2, EndFieldCode);
  }

  /** The stored end reads back as ended, won by this player, with its score. */
  lemma EndOpsEffect(d: Data, id: string, user: string, name: string, completionTime: int, timeBonus: int,
                     totalScore: int, now: int)
    ensures (var after := Apply(d, EndOps(id, user, name, completionTime, timeBonus, totalScore, now));
      IsTrue(after, RoomField(id, "gameEnded")) && GetStr(after, RoomField(id, "winner")) == Some(user) &&
      GetInt(after, ScorePath(id, user)) == Some(totalScore) && Exists(after, RoundGame.Room(id)))
  {
    var fields := EndFieldOps(id, user, name, completionTime, timeBonus, now);
    var score := [Put(ScorePath(id, user), Int(totalScore))];
    var mid := Apply(d, fields);
    ApplyConcat(d, fields, score);
    EndFieldsDistinct(id, user, name, completionTime, timeBonus, now);
    PutSurvives(d, fields, 0);
    PutSurvives(d, fields, 1);
    ApplyFrame(mid, score, RoomField(id, "gameEnded"));
    ApplyFrame(mid, score, RoomField(id, "winner"));
    ApplyPut(mid, score, 0);
    var after := Apply(mid, score);
    assert RoomField(id, "gameEnded") in after && Within(RoundGame.Room(id), RoomField(id, "gameEnded"));
  }

  /** `leaveGame`'s update: ended, the partner wins, reason `player_left`. */
  function LeaveOps(id: string, partner: string, partnerName: string, now: int): (r: seq<Op>)
    ensures Inside(r, RoundGame.Room(id))
  {
    [Put(RoomField(id, "gameEnded"), Bool(true)),
     Put(RoomField(id, "winner"), Str(partner)),
     Put(RoomField(id, "winnerName"), Str(partnerName)),
     Put(RoomField(id, "gameEndReason"), Str(PLAYER_LEFT)),
     Put(RoomField(id, "gameEndTime"), Int(now))]
  }

  /** `updatePositionInFirebase`. */
  function PositionOps(id: string, user: string, x: Value, y: Value, now: int): seq<Op> {
    [Put(PositionField(id, user, "x"), x),
     Put(PositionField(id, user, "y"), y),
     Put(PositionField(id, user, "lastUpdate"), Int(now))]
  }

  // ------------------------------------------------------------ the result

  /** `handleGameEnd`'s verdict: this player is the stored winner, or the other player left. */
  predicate Won(d: Data, id: string, user: string) {
    GetStr(d, RoomField(id, "winner")) == Some(user) || GetStr(d, RoomField(id, "gameEndReason")) == Some(PLAYER_LEFT)
  }

  /**
   * The leave write of the player who quits names the remaining player (and
   * that player's name) as winner, with reason `player_left`; so the
   * remaining player's end handler reports a win.
   */
  lemma PartnerLeaveIsWin(d: Data, id: string, remaining: string, remainingName: string, now: int)
    ensures var after := Apply(d, LeaveOps(id, remaining, remainingName, now));
      IsTrue(after, RoomField(id, "gameEnded")) &&
      GetStr(after, RoomField(id, "winner")) == Some(remaining) &&
      GetStr(after, RoomField(id, "winnerName")) == Some(remainingName) &&
      GetStr(after, RoomField(id, "gameEndReason")) == Some(PLAYER_LEFT) &&
      Won(after, id, remaining)
  {
    var ops := LeaveOps(id, remaining, remainingName, now);
    forall i | 0 <= i < |ops| ensures ops[i].Put? && |ops[i].at| == 3 && LeaveFieldCode(ops[i].at[2]) == i {
    }
    NumberedPuts(ops, 3, 2, LeaveFieldCode);
    PutSurvives(d, ops, 0);
    PutSurvives(d, ops, 1);
    PutSurvives(d, ops, 2);
    PutSurvives(d, ops, 3);
  }

  /** Tells the leave fields apart by their first letter and length. */
  function LeaveFieldCode(name: string): int {
    if name == [] then -1
    else match name[0]
      case 'w' => if |name| == 6 then 1 else 2
      case 'g' => (match |name| case 9 => 0 case 13 => 3 case 11 => 4 case _ => -1)
      case _ => -1
  }

  const GAMES_FIELD := "totalGamesPlayed"
  const WINS_FIELD := "wins"
  const XP_FIELD := "xp"
  const TOKENS_FIELD := "gameTokens"
  const CHAPTER_WINS_FIELD := "chapter1Wins"

  /**
   * `updateUserStats`: a transaction of increments (a missing field counts
   * from 0) that fails as a whole on a missing document.
   */
  function StatsOps(d: Data, user: string, won: bool): (ops: seq<Op>)
    ensures ops == [] <==> !Exists(d, Ledger.UserDoc(user))
  {
    if !Exists(d, Ledger.UserDoc(user)) then []
    else if won then
      [Put(Ledger.FieldPath(user, GAMES_FIELD), Int(RoundGame.Counter(d, user, GAMES_FIELD) + 1)),
       Put(Ledger.FieldPath(user, WINS_FIELD), Int(RoundGame.Counter(d, user, WINS_FIELD) + 1)),
       Put(Ledger.FieldPath(user, XP_FIELD), Int(RoundGame.Counter(d, user, XP_FIELD) + 75)),
       Put(Ledger.FieldPath(user, TOKENS_FIELD), Int(RoundGame.Counter(d, user, TOKENS_FIELD) + 25)),
       Put(Ledger.FieldPath(user, CHAPTER_WINS_FIELD), Int(RoundGame.Counter(d, user, CHAPTER_WINS_FIELD) + 1))]
    else
      [Put(Ledger.FieldPath(user, GAMES_FIELD), Int(RoundGame.Counter(d, user, GAMES_FIELD) + 1)),
       Put(Ledger.FieldPath(user, XP_FIELD), Int(RoundGame.Counter(d, user, XP_FIELD) + 25)),
       Put(Ledger.FieldPath(user, TOKENS_FIELD), Int(RoundGame.Counter(d, user, TOKENS_FIELD) + 10))]
  }

  /** Tells the counters a win bumps apart by their first letter. */
  function WinFieldCode(name: string): int {
    if name == [] then -1
    else match name[0]
      case 't' => 0 case 'w' => 1 case 'x' => 2 case 'g' => 3 case 'c' => 4
      case _ => -1
  }

  /** Each counter the transaction sets reads back. */
  lemma StatsReads(d: Data, user: string, won: bool, k: nat)
    requires Exists(d, Ledger.UserDoc(user)) && k < |StatsOps(d, user, won)|
    ensures (var put := StatsOps(d, user, won)[k]; Get(Apply(d, StatsOps(d, user, won)), put.at) == Some(put.v))
  {
    var ops := StatsOps(d, user, won);
    if won {
      forall i | 0 <= i < |ops| ensures ops[i].Put? && |ops[i].at| == 3 && WinFieldCode(ops[i].at[2]) == i {
      }
      NumberedPuts(ops, 3, 2, WinFieldCode);
    } else {
      assert ops[0].at[2][0] == 't' && ops[1].at[2][0] == 'x' && ops[2].at[2][0] == 'g';
      assert DistinctPuts(ops);
    }
    PutSurvives(d, ops, k);
  }

  /** A win: one game, one win, 75 xp, 25 tokens, one chapter win. */
  lemma WinStatsEffect(d: Data, user: string)
    requires Exists(d, Ledger.UserDoc(user))
    ensures var after := Apply(d, StatsOps(d, user, true));
      RoundGame.Counter(after, user, GAMES_FIELD) == RoundGame.Counter(d, user, GAMES_FIELD) + 1 &&
      RoundGame.Counter(after, user, WINS_FIELD) == RoundGame.Counter(d, user, WINS_FIELD) + 1 &&
      RoundGame.Counter(after, user, XP_FIELD) == RoundGame.Counter(d, user, XP_FIELD) + 75 &&
      RoundGame.Counter(after, user, TOKENS_FIELD) == RoundGame.Counter(d, user, TOKENS_FIELD) + 25 &&
      RoundGame.Counter(after, user, CHAPTER_WINS_FIELD) == RoundGame.Counter(d, user, CHAPTER_WINS_FIELD) + 1
  {
    StatsReads(d, user, true, 0);
    StatsReads(d, user, true, 1);
    StatsReads(d, user, true, 2);
    StatsReads(d, user, true, 3);
    StatsReads(d, user, true, 4);
  }

  /** A loss: one game, 25 xp, 10 tokens; wins and chapter wins kept. */
  lemma LossStatsEffect(d: Data, user: string)
    requires Exists(d, Ledger.UserDoc(user))
    ensures var after := Apply(d, StatsOps(d, user, false));
      RoundGame.Counter(after, user, GAMES_FIELD) == RoundGame.Counter(d, user, GAMES_FIELD) + 1 &&
      RoundGame.Counter(after, user, WINS_FIELD) == RoundGame.Counter(d, user, WINS_FIELD) &&
      RoundGame.Counter(after, user, XP_FIELD) == RoundGame.Counter(d, user, XP_FIELD) + 25 &&
      RoundGame.Counter(after, user, TOKENS_FIELD) == RoundGame.Counter(d, user, TOKENS_FIELD) + 10 &&
      RoundGame.Counter(after, user, CHAPTER_WINS_FIELD) == RoundGame.Counter(d, user, CHAPTER_WINS_FIELD)
  {
    StatsReads(d, user, false, 0);
    StatsReads(d, user, false, 1);
    StatsReads(d, user, false, 2);
    LossKeeps(d, user, WINS_FIELD);
    LossKeeps(d, user, CHAPTER_WINS_FIELD);
  }

  /** A loss leaves every counter it does not name alone. */
  lemma LossKeeps(d: Data, user: string, field: string)
    requires Exists(d, Ledger.UserDoc(user))
    requires field != [] && field[0] != 't' && field[0] != 'x' && field[0] != 'g'
    ensures RoundGame.Counter(Apply(d, StatsOps(d, user, false)), user, field) == RoundGame.Counter(d, user, field)
  {
    var ops := StatsOps(d, user, false);
    forall i | 0 <= i < |ops| ensures !Within(ops[i].at, Ledger.FieldPath(user, field)) {
      assert |ops[i].at| == 3 && ops[i].at[2][0] != field[0];
    }
    ApplyFrame(d, ops, Ledger.FieldPath(user, field));
  }

  // ------------------------------------------------------------ the screen

  class RaceScreen {
    const uid: string
    const userName: string
    const setup: ChapterSetup

    var selectedBackground: string
    var selectedObjective: string
    var playerCharacterColor: string
    var partnerCharacterColor: string

    var gameActive: bool
    var gameEnded: bool
    var spriteSystemReady: bool
    /** `isFinishing()`: `finish()` has been called. */
    var finishing: bool
    var listenersActive: bool
    var gameStartTime: int
    var playerScore: int
    var partnerScore: int
    var lastPositionUpdate: int
    /** The end has been handled (used by the corrected end handler only). */
    var endHandled: bool
    var returnedToChat: bool

    /** An ended race is never active again. */
    predicate Valid()
      reads this
    {
      gameEnded ==> !gameActive
    }

    /** `onCreate` once the extras have passed `validateIntentData`. */
    constructor (uid: string, displayName: Option<string>, setup: ChapterSetup)
      ensures Valid()
      ensures this.uid == uid && userName == DisplayName(displayName) && this.setup == setup
      ensures !gameActive && !gameEnded && !spriteSystemReady && !finishing && !listenersActive
      ensures playerScore == 0 && partnerScore == 0 && lastPositionUpdate == 0 && !endHandled && !returnedToChat
    {
      this.uid := uid;
      userName := DisplayName(displayName);
      this.setup := setup;
      selectedBackground, selectedObjective := BACKGROUND_OPTIONS[0], OBJECTIVE_OPTIONS[0];
      playerCharacterColor, partnerCharacterColor := PLAYER_COLORS[0], PLAYER_COLORS[4];
      gameActive, gameEnded, spriteSystemReady, finishing, listenersActive := false, false, false, false, false;
      gameStartTime, playerScore, partnerScore, lastPositionUpdate := 0, 0, 0, 0;
      endHandled, returnedToChat := false, false;
    }

    /**
     * `selectGameSprites`: a background, an objective and this player's
     * colour from one draw each, then the partner's colour drawn again until it
     * differs.  `draws` are the successive `nextInt(5)` results of that loop;
     * some later draw must differ, as a run of `Random` eventually does.
     */
    method SelectGameSprites(background: nat, objective: nat, player: nat, draws: seq<nat>)
      requires background < |BACKGROUND_OPTIONS| && objective < |OBJECTIVE_OPTIONS| && player < |PLAYER_COLORS|
      requires forall k :: 0 <= k < |draws| ==> draws[k] < |PLAYER_COLORS|
      requires exists k :: 0 <= k < |draws| && draws[k] != player
      modifies this
      ensures selectedBackground == BACKGROUND_OPTIONS[background] && selectedObjective == OBJECTIVE_OPTIONS[objective]
      ensures playerCharacterColor == PLAYER_COLORS[player]
      ensures partnerCharacterColor != playerCharacterColor
      ensures (exists k :: 0 <= k < |draws| && partnerCharacterColor == PLAYER_COLORS[draws[k]] &&
                           forall j :: 0 <= j < k ==> draws[j] == player)
      ensures gameActive == old(gameActive) && gameEnded == old(gameEnded) && finishing == old(finishing)
      ensures listenersActive == old(listenersActive) && spriteSystemReady == old(spriteSystemReady)
      ensures playerScore == old(playerScore) && endHandled == old(endHandled)
    {
      selectedBackground := BACKGROUND_OPTIONS[background];
      selectedObjective := OBJECTIVE_OPTIONS[objective];
      playerCharacterColor := PLAYER_COLORS[player];
      var i := 0;
      var partner := PLAYER_COLORS[draws[0]];
      while partner == PLAYER_COLORS[player]
        invariant 0 <= i < |draws|
        invariant partner == PLAYER_COLORS[draws[i]]
        invariant forall j :: 0 <= j < i ==> draws[j] == player
        invariant exists k :: i <= k < |draws| && draws[k] != player
        decreases |draws| - i
      {
        assert draws[i] == player;
        i := i + 1;
        partner := PLAYER_COLORS[draws[i]];
      }
      partnerCharacterColor := partner;
    }

    /**
     * The sprite loader's callback: on success the sprites are ready unless
     * the screen is finishing; after a loading error the fallback drawing is
     * ready in any case.
     */
    method OnSpritesReady(failed: bool)
      requires Valid()
      modifies this
      ensures Valid()
      ensures spriteSystemReady == (old(spriteSystemReady) || failed || !finishing)
      ensures gameActive == old(gameActive) && gameEnded == old(gameEnded) && finishing == old(finishing)
      ensures listenersActive == old(listenersActive) && endHandled == old(endHandled)
    {
      if failed || !finishing {
        spriteSystemReady := true;
      }
    }

    /** The 1.5 s delayed listener setup and `markPlayerReady`. */
    method SetupAndMarkReady(db: Database, x: Value, y: Value, now: int, delivered: bool)
      requires Valid()
      modifies this, db
      ensures Valid()
      ensures finishing ==> db.data == old(db.data) && listenersActive == old(listenersActive)
      ensures (!finishing ==>
        listenersActive &&
        db.data == if delivered
                   then Apply(old(db.data), ReadyOps(setup.gameRoomId, uid, userName, playerCharacterColor, x, y,
                                                     selectedBackground, selectedObjective, now))
                   else old(db.data))
      ensures gameActive == old(gameActive) && gameEnded == old(gameEnded) && finishing == old(finishing)
    {
      if finishing {
        return;
      }
      listenersActive := true;
      if delivered {
        db.Write(ReadyOps(setup.gameRoomId, uid, userName, playerCharacterColor, x, y,
                          selectedBackground, selectedObjective, now));
      }
    }

    /** `forceStartGame`: nothing when active, ended, finishing, or the sprites are not ready. */
    method ForceStartGame(now: int)
      requires Valid()
      modifies this
      ensures Valid()
      ensures (old(gameActive) || old(gameEnded) || finishing || !spriteSystemReady ==>
        gameActive == old(gameActive) && gameStartTime == old(gameStartTime))
      ensures (!old(gameActive) && !old(gameEnded) && !finishing && spriteSystemReady ==>
        gameActive && gameStartTime == now)
      ensures gameEnded == old(gameEnded) && playerScore == old(playerScore) && finishing == old(finishing)
      ensures listenersActive == old(listenersActive) && endHandled == old(endHandled)
    {
      if gameActive || gameEnded || finishing || !spriteSystemReady {
        return;
      }
      gameActive := true;
      gameStartTime := now;
    }

    /**
     * One event for three separate start timers: the 7 s auto-start posted by
     * `onCreate`, and the 3 s (after a stored ready write, initiator only) and
     * 4 s (after a failed one) fallbacks posted by `markPlayerReady`. Their
     * guards differ (the first tests `gameEnded`, the others the sprites), but
     * `forceStartGame` repeats both tests, so each timer has this effect.
     * Which of the timers are pending, and when they fire, is not modelled.
     */
    method OnStartTimeout(now: int)
      requires Valid()
      modifies this
      ensures Valid()
      ensures gameActive == (old(gameActive) || (!old(gameEnded) && !finishing && spriteSystemReady))
      ensures gameEnded == old(gameEnded) && playerScore == old(playerScore) && finishing == old(finishing)
    {
      if !gameActive && !gameEnded && !finishing {
        ForceStartGame(now);
      }
    }

    /**
     * The position throttle of `updatePlayerMovement`, for a move that
     * changed the position: written only when more than 100 ms have passed
     * since the last write.
     */
    method ReportPosition(db: Database, x: Value, y: Value, now: int) returns (written: bool)
      modifies this, db
      ensures written <==> now - old(lastPositionUpdate) > POSITION_UPDATE_INTERVAL
      ensures lastPositionUpdate == if written then now else old(lastPositionUpdate)
      ensures (db.data == if written && !finishing then Apply(old(db.data), PositionOps(setup.gameRoomId, uid, x, y, now))
                          else old(db.data))
      ensures gameActive == old(gameActive) && gameEnded == old(gameEnded) && finishing == old(finishing)
      ensures playerScore == old(playerScore) && listenersActive == old(listenersActive)
      ensures endHandled == old(endHandled) && gameStartTime == old(gameStartTime)
    {
      written := now - lastPositionUpdate > POSITION_UPDATE_INTERVAL;
      if written {
        if !finishing {
          db.Write(PositionOps(setup.gameRoomId, uid, x, y, now));
        }
        lastPositionUpdate := now;
      }
    }

    /**
     * `reachObjective`: once only (guarded by `gameEnded`); the race stops, and
     * the end is written with this player as winner and score
     * `playerScore + 100 + timeBonus`.
     */
    method ReachObjective(db: Database, now: int)
      requires Valid()
      modifies this, db
      ensures Valid()
      ensures old(gameEnded) || finishing ==> db.data == old(db.data) && gameActive == old(gameActive)
      ensures (!old(gameEnded) && !finishing ==>
        var completion := now - gameStartTime;
        var bonus := TimeBonus(completion);
        !gameActive && gameEnded &&
        db.data == Apply(old(db.data), EndOps(setup.gameRoomId, uid, userName, completion, bonus,
                                              playerScore + OBJECTIVE_POINTS + bonus, now)))
      ensures gameEnded == (old(gameEnded) || !finishing)
      ensures finishing == old(finishing) && playerScore == old(playerScore)
      ensures listenersActive == old(listenersActive) && endHandled == old(endHandled)
      ensures gameStartTime == old(gameStartTime)
    {
      if gameEnded || finishing {
        return;
      }
      gameActive := false;
      gameEnded := true;
      var completionTime := now - gameStartTime;
      var timeBonus := TimeBonus(completionTime);
      var totalScore := playerScore + OBJECTIVE_POINTS + timeBonus;
      db.Write(EndOps(setup.gameRoomId, uid, userName, completionTime, timeBonus, totalScore, now));
    }

    /** `updateUserStats`, when its transaction commits. */
    method UpdateUserStats(db: Database, won: bool, delivered: bool)
      modifies db
      ensures (db.data == if delivered && !finishing then Apply(old(db.data), StatsOps(old(db.data), uid, won))
                          else old(db.data))
    {
      if finishing || !delivered {
        return;
      }
      db.Write(StatsOps(db.data, uid, won));
    }

    /**
     * `handleGameEnd` as written: it returns at once when the race is already
     * inactive and ended; otherwise it stops the race and writes this
     * player's result.
     */
    method HandleGameEnd(db: Database, d: Data, delivered: bool)
      requires Valid()
      modifies this, db
      ensures Valid() && !gameActive && gameEnded
      ensures !old(gameActive) && old(gameEnded) ==> db.data == old(db.data)
      ensures (!(!old(gameActive) && old(gameEnded)) ==>
        db.data == if delivered && !finishing then Apply(old(db.data), StatsOps(old(db.data), uid, Won(d, setup.gameRoomId, uid)))
                   else old(db.data))
      ensures finishing == old(finishing) && playerScore == old(playerScore) && endHandled == old(endHandled)
      ensures listenersActive == old(listenersActive) && gameStartTime == old(gameStartTime)
      ensures partnerScore == old(partnerScore)
    {
      if !gameActive && gameEnded {
        return;
      }
      gameActive := false;
      gameEnded := true;
      UpdateUserStats(db, Won(d, setup.gameRoomId, uid), delivered);
    }

    /** The end handler as meant: once per screen, whoever ended the race. */
    method HandleGameEndCorrected(db: Database, d: Data, delivered: bool)
      requires Valid()
      modifies this, db
      ensures Valid() && !gameActive && gameEnded && endHandled
      ensures old(endHandled) ==> db.data == old(db.data)
      ensures (!old(endHandled) ==>
        db.data == if delivered && !finishing then Apply(old(db.data), StatsOps(old(db.data), uid, Won(d, setup.gameRoomId, uid)))
                   else old(db.data))
      ensures finishing == old(finishing) && playerScore == old(playerScore) && partnerScore == old(partnerScore)
      ensures listenersActive == old(listenersActive)
    {
      if endHandled {
        gameActive := false;
        gameEnded := true;
        return;
      }
      endHandled := true;
      gameActive := false;
      gameEnded := true;
      UpdateUserStats(db, Won(d, setup.gameRoomId, uid), delivered);
    }

    /** `updateScores`: each stored score that is present replaces the local one. */
    method UpdateScores(d: Data)
      modifies this
      ensures playerScore == GetInt(d, ScorePath(setup.gameRoomId, uid)).GetOr(old(playerScore))
      ensures partnerScore == GetInt(d, ScorePath(setup.gameRoomId, setup.partnerId)).GetOr(old(partnerScore))
      ensures gameActive == old(gameActive) && gameEnded == old(gameEnded) && finishing == old(finishing)
      ensures listenersActive == old(listenersActive) && endHandled == old(endHandled)
      ensures spriteSystemReady == old(spriteSystemReady)
    {
      var mine := GetInt(d, ScorePath(setup.gameRoomId, uid));
      var theirs := GetInt(d, ScorePath(setup.gameRoomId, setup.partnerId));
      if mine.Some? {
        playerScore := mine.value;
      }
      if theirs.Some? {
        partnerScore := theirs.value;
      }
    }

    /**
     * The room listener and `processGameRoomData`, as written: a missing room
     * only shows the closing dialog; a startable room starts the race once; a
     * stored `gameEnded` runs `handleGameEnd`; otherwise the scores follow
     * the room.
     */
    method OnRoomChange(db: Database, now: int, delivered: bool)
      requires Valid()
      modifies this, db
      ensures Valid()
      ensures finishing == old(finishing) && listenersActive == old(listenersActive) && endHandled == old(endHandled)
      ensures (!old(listenersActive) || finishing || !Exists(old(db.data), RoundGame.Room(setup.gameRoomId)) ==>
        db.data == old(db.data) && gameActive == old(gameActive) && gameEnded == old(gameEnded) &&
        playerScore == old(playerScore) && partnerScore == old(partnerScore))
      ensures (old(listenersActive) && !finishing && Exists(old(db.data), RoundGame.Room(setup.gameRoomId)) ==>
        var d := old(db.data);
        var start := RoomSaysStart(d, setup.gameRoomId) && !old(gameActive) && !old(gameEnded) && spriteSystemReady;
        (IsTrue(d, RoomField(setup.gameRoomId, "gameEnded")) ==>
          !gameActive && gameEnded && playerScore == old(playerScore) && partnerScore == old(partnerScore) &&
          db.data == if !old(gameEnded) && delivered then Apply(d, StatsOps(d, uid, Won(d, setup.gameRoomId, uid))) else d) &&
        (!IsTrue(d, RoomField(setup.gameRoomId, "gameEnded")) ==>
          db.data == d && gameEnded == old(gameEnded) && gameActive == (old(gameActive) || start) &&
          playerScore == GetInt(d, ScorePath(setup.gameRoomId, uid)).GetOr(old(playerScore)) &&
          partnerScore == GetInt(d, ScorePath(setup.gameRoomId, setup.partnerId)).GetOr(old(partnerScore))))
    {
      if !listenersActive || finishing {
        return;
      }
      var d := db.data;
      if !Exists(d, RoundGame.Room(setup.gameRoomId)) {
        return;
      }
      if RoomSaysStart(d, setup.gameRoomId) && !gameActive && !gameEnded && spriteSystemReady {
        gameActive := true;
        gameStartTime := now;
      }
      if IsTrue(d, RoomField(setup.gameRoomId, "gameEnded")) {
        HandleGameEnd(db, d, delivered);
        return;
      }
      UpdateScores(d);
    }

    /** The same listener with the corrected end handler: a stored end is handled once per screen. */
    method OnRoomChangeCorrected(db: Database, now: int, delivered: bool)
      requires Valid()
      modifies this, db
      ensures Valid()
      ensures finishing == old(finishing) && listenersActive == old(listenersActive)
      ensures (!old(listenersActive) || finishing || !Exists(old(db.data), RoundGame.Room(setup.gameRoomId)) ==>
        db.data == old(db.data) && gameActive == old(gameActive) && gameEnded == old(gameEnded) &&
        endHandled == old(endHandled) && playerScore == old(playerScore) && partnerScore == old(partnerScore))
      ensures (old(listenersActive) && !finishing && Exists(old(db.data), RoundGame.Room(setup.gameRoomId)) ==>
        var d := old(db.data);
        var start := RoomSaysStart(d, setup.gameRoomId) && !old(gameActive) && !old(gameEnded) && spriteSystemReady;
        (IsTrue(d, RoomField(setup.gameRoomId, "gameEnded")) ==>
          !gameActive && gameEnded && endHandled && playerScore == old(playerScore) && partnerScore == old(partnerScore) &&
          db.data == if !old(endHandled) && delivered then Apply(d, StatsOps(d, uid, Won(d, setup.gameRoomId, uid))) else d) &&
        (!IsTrue(d, RoomField(setup.gameRoomId, "gameEnded")) ==>
          db.data == d && gameEnded == old(gameEnded) && gameActive == (old(gameActive) || start) &&
          endHandled == old(endHandled) &&
          playerScore == GetInt(d, ScorePath(setup.gameRoomId, uid)).GetOr(old(playerScore)) &&
          partnerScore == GetInt(d, ScorePath(setup.gameRoomId, setup.partnerId)).GetOr(old(partnerScore))))
    {
      if !listenersActive || finishing {
        return;
      }
      var d := db.data;
      if !Exists(d, RoundGame.Room(setup.gameRoomId)) {
        return;
      }
      if RoomSaysStart(d, setup.gameRoomId) && !gameActive && !gameEnded && spriteSystemReady {
        gameActive := true;
        gameStartTime := now;
      }
      if IsTrue(d, RoomField(setup.gameRoomId, "gameEnded")) {
        HandleGameEndCorrected(db, d, delivered);
        return;
      }
      UpdateScores(d);
    }

    /** `finishGame` and `finish()`: the race stops and the listener goes; once only. */
    method FinishGame()
      requires Valid()
      modifies this
      ensures Valid() && finishing
      ensures !old(finishing) ==> !gameActive && gameEnded && !listenersActive
      ensures playerScore == old(playerScore)
    {
      if !finishing {
        gameActive := false;
        gameEnded := true;
        listenersActive := false;
      }
      finishing := true;
    }

    /** `leaveGame`: while the race is active, hand it to the partner; then back to the chat. */
    method LeaveGame(db: Database, now: int)
      requires Valid()
      modifies this, db
      ensures Valid() && finishing && returnedToChat
      ensures (db.data == if old(gameActive) && !old(finishing)
                          then Apply(old(db.data), LeaveOps(setup.gameRoomId, setup.partnerId, setup.partnerName, now))
                          else old(db.data))
      ensures !old(finishing) ==> !gameActive && gameEnded && !listenersActive
    {
      if gameActive && !finishing {
        db.Write(LeaveOps(setup.gameRoomId, setup.partnerId, setup.partnerName, now));
      }
      FinishGame();
      returnedToChat := true;
    }

    /** `onDestroy`. */
    method OnDestroy()
      requires Valid()
      modifies this
      ensures Valid() && !gameActive && gameEnded && !listenersActive
    {
      gameActive := false;
      gameEnded := true;
      listenersActive := false;
    }
  }

  /**
   * As written: the winner's own `reachObjective` already set the race
   * inactive and ended, so when that end comes back through the listener
   * `handleGameEnd` returns at once and no win is recorded.
   */
  method WinnerUnrecordedAsWritten(g: RaceScreen, db: Database, now: int)
    requires g.Valid() && g.gameActive && !g.finishing && g.listenersActive
    modifies g, db
    ensures Won(db.data, g.setup.gameRoomId, g.uid)
    ensures db.data == Apply(old(db.data), EndOps(g.setup.gameRoomId, g.uid, g.userName, now - g.gameStartTime,
                                                  TimeBonus(now - g.gameStartTime),
                                                  old(g.playerScore) + OBJECTIVE_POINTS + TimeBonus(now - g.gameStartTime), now))
  {
    var d0 := db.data;
    g.ReachObjective(db, now);
    var completion := now - g.gameStartTime;
    var bonus := TimeBonus(completion);
    EndOpsEffect(d0, g.setup.gameRoomId, g.uid, g.userName, completion, bonus,
                 old(g.playerScore) + OBJECTIVE_POINTS + bonus, now);
    g.HandleGameEnd(db, db.data, true);
  }

  /**
   * Corrected: with the end handler guarded by its own flag, the same
   * sequence records the win in the player's statistics.
   */
  method WinnerRecordedCorrected(g: RaceScreen, db: Database, now: int)
    requires g.Valid() && g.gameActive && !g.finishing && g.listenersActive && !g.endHandled
    requires Exists(db.data, Ledger.UserDoc(g.uid))
    modifies g, db
    ensures (RoundGame.Counter(db.data, g.uid, WINS_FIELD) == RoundGame.Counter(old(db.data), g.uid, WINS_FIELD) + 1)
  {
    var id, uid := g.setup.gameRoomId, g.uid;
    var d0 := db.data;
    var ends := EndOps(id, uid, g.userName, now - g.gameStartTime, TimeBonus(now - g.gameStartTime),
                       g.playerScore + OBJECTIVE_POINTS + TimeBonus(now - g.gameStartTime), now);
    g.ReachObjective(db, now);
    var d1 := db.data;
    assert d1 == Apply(d0, ends);
    EndOpsEffect(d0, id, uid, g.userName, now - g.gameStartTime, TimeBonus(now - g.gameStartTime),
                 g.playerScore + OBJECTIVE_POINTS + TimeBonus(now - g.gameStartTime), now);
    EndKeepsUsers(d0, ends, id, uid);
    assert IsTrue(d1, RoomField(id, "gameEnded")) && Won(d1, id, uid);
    assert Exists(d1, RoundGame.Room(id));
    g.OnRoomChangeCorrected(db, now, true);
    assert db.data == Apply(d1, StatsOps(d1, uid, true));
    WinStatsEffect(d1, uid);
  }

  /**
   * The partner's leave reaches the player still in the race through the
   * room listener as written: its race had not ended, so `handleGameEnd`
   * runs and records a win.
   */
  method PartnerLeaveRecordsWin(g: RaceScreen, db: Database, now: int)
    requires g.Valid() && !g.gameEnded && !g.finishing && g.listenersActive
    requires Exists(db.data, Ledger.UserDoc(g.uid))
    modifies g, db
    ensures !g.gameActive && g.gameEnded
    ensures (RoundGame.Counter(db.data, g.uid, WINS_FIELD) == RoundGame.Counter(old(db.data), g.uid, WINS_FIELD) + 1)
  {
    var id, uid := g.setup.gameRoomId, g.uid;
    var d0 := db.data;
    var leave := LeaveOps(id, uid, g.userName, now);
    db.Write(leave);
    var d1 := db.data;
    PartnerLeaveIsWin(d0, id, uid, g.userName, now);
    EndKeepsUsers(d0, leave, id, uid);
    assert RoomField(id, "gameEnded") in d1 && Within(RoundGame.Room(id), RoomField(id, "gameEnded"));
    g.OnRoomChange(db, now, true);
    assert db.data == Apply(d1, StatsOps(d1, uid, true));
    WinStatsEffect(d1, uid);
  }

  /** A write inside a room leaves every user document as it was. */
  lemma EndKeepsUsers(d: Data, ops: seq<Op>, id: string, user: string)
    requires forall i :: 0 <= i < |ops| ==> Within(RoundGame.Room(id), ops[i].at)
    requires Exists(d, Ledger.UserDoc(user))
    ensures Exists(Apply(d, ops), Ledger.UserDoc(user))
    ensures RoundGame.Counter(Apply(d, ops), user, WINS_FIELD) == RoundGame.Counter(d, user, WINS_FIELD)
  {
    assert RoundGame.Room(id)[0][0] != Ledger.FieldPath(user, WINS_FIELD)[0][0];
    WriteInside(d, ops, RoundGame.Room(id), Ledger.FieldPath(user, WINS_FIELD));
    var q :| q in d && Within(Ledger.UserDoc(user), q);
    assert q[0] == "users";
    assert RoundGame.Room(id)[0][0] != q[0][0];
    WriteInside(d, ops, RoundGame.Room(id), q);
  }
}
