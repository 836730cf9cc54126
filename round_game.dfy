/**
 * The rock-paper-scissors room (`GameActivity`) as one peer runs it.  The
 * room lives at `gameRooms/<id>` of the realtime store; the peer flagged
 * `isInitiator` is the only one that moves the phase
 * `waiting_players -> waiting_choices -> reveal_results -> waiting_choices | game_over`
 * and writes the scores.  Every listener callback and timer is a method that
 * reads the store as it is when the callback runs.
 */
module RoundGame {
  import opened Wrappers
  import opened Store
  import opened JavaText
  import JavaInt
  import Ledger

  const GAME_ROOMS_NODE := "gameRooms"
  const ROUNDS_TO_WIN := 3
  const COUNTDOWN_TIME := 10

  const CHOICE_STONE := "stone"
  const CHOICE_PAPER := "paper"
  const CHOICE_SCISSORS := "scissors"
  const CHOICES: seq<string> := [CHOICE_STONE, CHOICE_PAPER, CHOICE_SCISSORS]

  const WAITING_PLAYERS := "waiting_players"
  const WAITING_CHOICES := "waiting_choices"
  const REVEAL_RESULTS := "reveal_results"
  const GAME_OVER := "game_over"

  // ---------------------------------------------------------------- outcome

  datatype Outcome = Win | Loss | Draw

  /** The three winning pairs of the hand game. */
  predicate Beats(a: string, b: string) {
    (a == CHOICE_STONE && b == CHOICE_SCISSORS) ||
    (a == CHOICE_PAPER && b == CHOICE_STONE) ||
    (a == CHOICE_SCISSORS && b == CHOICE_PAPER)
  }

  /** `calculateResult`: a draw for equal choices, a win for the three beating pairs, a loss otherwise. */
  function CalculateResult(mine: string, theirs: string): (r: Outcome)
    ensures r == Draw <==> mine == theirs
    ensures r == Win <==> mine != theirs && Beats(mine, theirs)
  {
    if mine == theirs then Draw
    else if Beats(mine, theirs) then Win
    else Loss
  }

  function Flip(o: Outcome): Outcome {
    match o
    case Win => Loss
    case Loss => Win
    case Draw => Draw
  }

  /** The position of a choice in `stone, paper, scissors`. */
  function Index(c: string): (i: nat)
    requires c in CHOICES
    ensures i < 3 && CHOICES[i] == c
  {
    if c == CHOICE_STONE then 0 else if c == CHOICE_PAPER then 1 else 2
  }

  /**
   * The reference rule: each choice beats the one just before it in the
   * cycle `stone, paper, scissors`.
   */
  function CyclicResult(i: nat, j: nat): Outcome
    requires i < 3 && j < 3
  {
    var k := (i - j + 3) % 3;
    if k == 0 then Draw else if k == 1 then Win else Loss
  }

  /** For the three real choices `calculateResult` is the cyclic rule. */
  lemma ResultIsCyclic(a: string, b: string)
    requires a in CHOICES && b in CHOICES
    ensures CalculateResult(a, b) == CyclicResult(Index(a), Index(b))
  {
    var i, j := Index(a), Index(b);
    assert a == CHOICES[i] && b == CHOICES[j];
  }

  /** Both peers compute the same round: swapping the choices swaps win and loss. */
  lemma ResultSwaps(a: string, b: string)
    requires a in CHOICES && b in CHOICES
    ensures CalculateResult(b, a) == Flip(CalculateResult(a, b))
  {
    ResultIsCyclic(a, b);
    ResultIsCyclic(b, a);
  }

  /** Outside the three choices the symmetry fails: both peers score a loss. */
  lemma UnknownChoicesLoseBothWays(a: string, b: string)
    requires a != b && a !in CHOICES && b !in CHOICES
    ensures CalculateResult(a, b) == Loss && CalculateResult(b, a) == Loss
  {
  }

  // ------------------------------------------------------------------ paths

  function Room(id: string): Path {
    [GAME_ROOMS_NODE, id]
  }

  function RoomField(id: string, field: string): Path {
    Room(id) + [field]
  }

  function PlayersNode(id: string): Path {
    Room(id) + ["players"]
  }

  function PlayerNode(id: string, user: string): Path {
    Room(id) + ["players", user]
  }

  function PlayerField(id: string, user: string, field: string): Path {
    Room(id) + ["players", user, field]
  }

  function ScorePath(id: string, user: string): Path {
    Room(id) + ["scores", user]
  }

  /** `choices/<round>`, the round written as Java prints an int. */
  function ChoicesNode(id: string, round: int): Path {
    Room(id) + ["choices", JavaInt.ToDecimal(round)]
  }

  function ChoicePath(id: string, round: int, user: string): Path {
    Room(id) + ["choices", JavaInt.ToDecimal(round), user, "choice"]
  }

  function ResultPath(id: string, round: int, field: string): Path {
    Room(id) + ["results", JavaInt.ToDecimal(round), field]
  }

  /** A stored choice makes its round's node exist. */
  lemma ChoiceInNode(d: Data, id: string, round: int, user: string)
    requires GetStr(d, ChoicePath(id, round, user)).Some?
    ensures Exists(d, ChoicesNode(id, round))
  {
    var q := ChoicePath(id, round, user);
    assert q[..|ChoicesNode(id, round)|] == ChoicesNode(id, round);
    assert q in d && Within(ChoicesNode(id, round), q);
  }

  // ------------------------------------------------------------ the writes

  /** `joinGameRoom`: mark this player connected; the initiator also lays out the initial room state. */
  function JoinOps(id: string, user: string, name: string, now: int, isInitiator: bool, round: int): (r: seq<Op>)
    ensures Inside(r, Room(id))
    ensures !isInitiator ==> Inside(r, PlayerNode(id, user))
  {
    [Put(PlayerField(id, user, "connected"), Bool(true)),
     Put(PlayerField(id, user, "name"), Str(name)),
     Put(PlayerField(id, user, "joinedAt"), Int(now))] +
    (if isInitiator
     then [Put(RoomField(id, "initiatorId"), Str(user)),
           Put(RoomField(id, "gamePhase"), Str(WAITING_PLAYERS)),
           Put(RoomField(id, "currentRound"), Int(round)),
           Put(RoomField(id, "gameStarted"), Bool(false)),
           Put(RoomField(id, "gameEnded"), Bool(false))]
     else [])
  }

  /** The non-initiator's follow-up once its join is stored. */
  function ReadyOps(id: string, user: string): seq<Op> {
    [Put(PlayerField(id, user, "ready"), Bool(true))]
  }

  /**
   * Corrected join: every player, the initiator included, marks itself ready
   * once its join is stored, so that the readiness gate can open.
   */
  function JoinOpsCorrected(id: string, user: string, name: string, now: int, isInitiator: bool, round: int): seq<Op> {
    JoinOps(id, user, name, now, isInitiator, round) + ReadyOps(id, user)
  }

  /** The readiness gate: two players at least, every one of them ready and connected. */
  predicate CanStart(d: Data, id: string) {
    var players := Children(d, PlayersNode(id));
    |players| >= 2 &&
    forall p :: p in players ==> IsTrue(d, PlayerField(id, p, "ready")) && IsTrue(d, PlayerField(id, p, "connected"))
  }

  /** `startGameForBothPlayers`: started, first round, both scores 0. */
  function StartOps(id: string, user: string, partner: string, now: int): (r: seq<Op>)
    ensures Inside(r, Room(id))
  {
    [Put(RoomField(id, "gameStarted"), Bool(true)),
     Put(RoomField(id, "gamePhase"), Str(WAITING_CHOICES)),
     Put(RoomField(id, "currentRound"), Int(1)),
     Put(ScorePath(id, user), Int(0)),
     Put(ScorePath(id, partner), Int(0)),
     Put(RoomField(id, "gameStartedAt"), Int(now))]
  }

  /** `makeChoice`: the choice goes under this round and this player only. */
  function ChoiceOps(id: string, round: int, user: string, choice: string, now: int): seq<Op> {
    [Put(ChoicePath(id, round, user), Str(choice)),
     Put(Room(id) + ["choices", JavaInt.ToDecimal(round), user, "timestamp"], Int(now))]
  }

  /** A choice write touches nothing outside the player's own entry for that round. */
  lemma ChoiceOpsOwnEntry(d: Data, id: string, round: int, user: string, choice: string, now: int, q: Path)
    requires !Within(ChoicesNode(id, round) + [user], q)
    ensures Get(Apply(d, ChoiceOps(id, round, user, choice, now)), q) == Get(d, q)
  {
    var ops := ChoiceOps(id, round, user, choice, now);
    var own := ChoicesNode(id, round) + [user];
    forall i | 0 <= i < |ops| ensures !Within(ops[i].at, q) {
      assert ops[i].at[..|own|] == own;
    }
    ApplyFrame(d, ops, q);
  }

  /** `handleWaitingChoices`: the initiator alone moves to reveal, once both choices of the round are stored. */
  function WaitingChoicesOps(d: Data, id: string, round: int, user: string, partner: string, isInitiator: bool): (ops: seq<Op>)
    ensures (ops != [] <==>
      isInitiator && GetStr(d, ChoicePath(id, round, user)).Some? && GetStr(d, ChoicePath(id, round, partner)).Some?)
    ensures ops != [] ==> ops == [Put(RoomField(id, "gamePhase"), Str(REVEAL_RESULTS))]
  {
    if !Exists(d, ChoicesNode(id, round)) then []
    else
      var mine := GetStr(d, ChoicePath(id, round, user));
      var theirs := GetStr(d, ChoicePath(id, round, partner));
      if mine.Some? && theirs.Some? && isInitiator then
        [Put(RoomField(id, "gamePhase"), Str(REVEAL_RESULTS))]
      else
        if mine.Some? then ChoiceInNode(d, id, round, user); []
        else []
  }

  /** The scores after one round, seen from this peer. */
  function ScoreAfter(o: Outcome, userScore: int, partnerScore: int): (s: (int, int))
    ensures o == Win ==> s == (userScore + 1, partnerScore)
    ensures o == Loss ==> s == (userScore, partnerScore + 1)
    ensures o == Draw ==> s == (userScore, partnerScore)
    ensures s.0 + s.1 <= userScore + partnerScore + 1
  {
    match o
    case Win => (userScore + 1, partnerScore)
    case Loss => (userScore, partnerScore + 1)
    case Draw => (userScore, partnerScore)
  }

  predicate GameOver(userScore: int, partnerScore: int) {
    userScore >= ROUNDS_TO_WIN || partnerScore >= ROUNDS_TO_WIN
  }

  /** A game that was not over is over after one scoring of a round only with a score of exactly 3. */
  lemma OneRoundOvershootsByNothing(o: Outcome, userScore: int, partnerScore: int)
    requires !GameOver(userScore, partnerScore)
    ensures var s := ScoreAfter(o, userScore, partnerScore);
      s.0 <= ROUNDS_TO_WIN && s.1 <= ROUNDS_TO_WIN &&
      (GameOver(s.0, s.1) <==> s.0 == ROUNDS_TO_WIN || s.1 == ROUNDS_TO_WIN)
  {
  }

  /** The round record and scores the initiator writes on reveal. */
  function RoundResultOps(id: string, round: int, user: string, partner: string, mine: string, theirs: string,
                          o: Outcome, userScore: int, partnerScore: int): seq<Op> {
    var winner := match o case Win => user case Loss => partner case Draw => "draw";
    [Put(ResultPath(id, round, "winner"), Str(winner)),
     Put(ResultPath(id, round, "userChoice"), Str(mine)),
     Put(ResultPath(id, round, "partnerChoice"), Str(theirs)),
     Put(ScorePath(id, user), Int(userScore)),
     Put(ScorePath(id, partner), Int(partnerScore))]
  }

  /** After the scores are stored: end the game at 3, otherwise open the next round. */
  function NextOps(id: string, round: int, userScore: int, partnerScore: int): (ops: seq<Op>)
    ensures (GameOver(userScore, partnerScore) <==>
      ops == [Put(RoomField(id, "gameEnded"), Bool(true)), Put(RoomField(id, "gamePhase"), Str(GAME_OVER))])
    ensures (!GameOver(userScore, partnerScore) <==>
      ops == [Put(RoomField(id, "currentRound"), Int(round + 1)), Put(RoomField(id, "gamePhase"), Str(WAITING_CHOICES))])
  {
    if GameOver(userScore, partnerScore) then
      [Put(RoomField(id, "gameEnded"), Bool(true)), Put(RoomField(id, "gamePhase"), Str(GAME_OVER))]
    else
      [Put(RoomField(id, "currentRound"), Int(round + 1)), Put(RoomField(id, "gamePhase"), Str(WAITING_CHOICES))]
  }

  /**
   * `handleGameEnd`: first the local side that reached 3, then the strictly
   * higher stored score; a tie, or a missing stored score, has no winner.
   */
  function Winner(userScore: int, partnerScore: int, storedUser: Option<int>, storedPartner: Option<int>,
                  user: string, partner: string): (w: Option<string>)
    ensures userScore >= ROUNDS_TO_WIN ==> w == Some(user)
    ensures userScore < ROUNDS_TO_WIN && partnerScore >= ROUNDS_TO_WIN ==> w == Some(partner)
    ensures (!GameOver(userScore, partnerScore) ==>
      (w.None? <==> storedUser.None? || storedPartner.None? || storedUser.value == storedPartner.value))
    ensures (!GameOver(userScore, partnerScore) && storedUser.Some? && storedPartner.Some? ==>
      (storedUser.value > storedPartner.value ==> w == Some(user)) &&
      (storedPartner.value > storedUser.value ==> w == Some(partner)))
  {
    if userScore >= ROUNDS_TO_WIN then Some(user)
    else if partnerScore >= ROUNDS_TO_WIN then Some(partner)
    else if storedUser.Some? && storedPartner.Some? then
      if storedUser.value > storedPartner.value then Some(user)
      else if storedPartner.value > storedUser.value then Some(partner)
      else None
    else None
  }

  const GAMES_FIELD := "totalGamesPlayed"
  const WINS_FIELD := "wins"
  const XP_FIELD := "xp"
  const STREAK_FIELD := "winStreak"

  function Counter(d: Data, user: string, field: string): int {
    GetInt(d, Ledger.FieldPath(user, field)).GetOr(0)
  }

  /**
   * `updateUserGameStats`: a transaction of `FieldValue.increment`s (a
   * missing field counts from 0); `update` on a missing document fails the
   * whole transaction.
   */
  function StatsOps(d: Data, user: string, won: bool): (ops: seq<Op>)
    ensures ops == [] <==> !Exists(d, Ledger.UserDoc(user))
  {
    if !Exists(d, Ledger.UserDoc(user)) then []
    else if won then
      [Put(Ledger.FieldPath(user, GAMES_FIELD), Int(Counter(d, user, GAMES_FIELD) + 1)),
       Put(Ledger.FieldPath(user, WINS_FIELD), Int(Counter(d, user, WINS_FIELD) + 1)),
       Put(Ledger.FieldPath(user, XP_FIELD), Int(Counter(d, user, XP_FIELD) + 20)),
       Put(Ledger.FieldPath(user, STREAK_FIELD), Int(Counter(d, user, STREAK_FIELD) + 1))]
    else
      [Put(Ledger.FieldPath(user, GAMES_FIELD), Int(Counter(d, user, GAMES_FIELD) + 1)),
       Put(Ledger.FieldPath(user, XP_FIELD), Int(Counter(d, user, XP_FIELD) + 5)),
       Put(Ledger.FieldPath(user, STREAK_FIELD), Int(0))]
  }

  /** Tells the counters a win bumps apart by their length. */
  function WinFieldCode(name: string): int {
    match |name|
    case 16 => 0 case 4 => 1 case 2 => 2 case 9 => 3
    case _ => -1
  }

  /** Each counter the transaction sets reads back. */
  lemma StatsReads(d: Data, user: string, won: bool, k: nat)
    requires Exists(d, Ledger.UserDoc(user)) && k < |StatsOps(d, user, won)|
    ensures (var put := StatsOps(d, user, won)[k]; Get(Apply(d, StatsOps(d, user, won)), put.at) == Some(put.v))
  {
    var ops := StatsOps(d, user, won);
    if won {
      forall i | 0 <= i < |ops| ensures ops[i].Put? && |ops[i].at| == 3 && WinFieldCode(ops[i].at[2]) == i {
      }
      NumberedPuts(ops, 3, 2, WinFieldCode);
    } else {
      assert |ops[0].at[2]| == 16 && |ops[1].at[2]| == 2 && |ops[2].at[2]| == 9;
      assert DistinctPuts(ops);
    }
    PutSurvives(d, ops, k);
  }

  /** A loss leaves the wins alone. */
  lemma LossKeepsWins(d: Data, user: string)
    requires Exists(d, Ledger.UserDoc(user))
    ensures Counter(Apply(d, StatsOps(d, user, false)), user, WINS_FIELD) == Counter(d, user, WINS_FIELD)
  {
    var ops := StatsOps(d, user, false);
    forall i | 0 <= i < |ops| ensures !Within(ops[i].at, Ledger.FieldPath(user, WINS_FIELD)) {
      assert |ops[i].at| == 3 && |ops[i].at[2]| != 4;
    }
    ApplyFrame(d, ops, Ledger.FieldPath(user, WINS_FIELD));
  }

  /** A win: one more game, one more win, 20 xp, streak up; otherwise: one more game, 5 xp, streak reset, wins kept. */
  lemma StatsEffect(d: Data, user: string, won: bool)
    requires Exists(d, Ledger.UserDoc(user))
    ensures var after := Apply(d, StatsOps(d, user, won));
      Counter(after, user, GAMES_FIELD) == Counter(d, user, GAMES_FIELD) + 1 &&
      (won ==> Counter(after, user, WINS_FIELD) == Counter(d, user, WINS_FIELD) + 1 &&
               Counter(after, user, XP_FIELD) == Counter(d, user, XP_FIELD) + 20 &&
               Counter(after, user, STREAK_FIELD) == Counter(d, user, STREAK_FIELD) + 1) &&
      (!won ==> Counter(after, user, WINS_FIELD) == Counter(d, user, WINS_FIELD) &&
                Counter(after, user, XP_FIELD) == Counter(d, user, XP_FIELD) + 5 &&
                Counter(after, user, STREAK_FIELD) == 0)
  {
    StatsReads(d, user, won, 0);
    StatsReads(d, user, won, 1);
    StatsReads(d, user, won, 2);
    if won {
      StatsReads(d, user, won, 3);
    } else {
      LossKeepsWins(d, user);
    }
  }

  /** `showPartnerDisconnected`: the initiator ends the game in its own favour; the other peer only marks itself gone. */
  function DisconnectOps(id: string, user: string, isInitiator: bool): seq<Op> {
    if isInitiator then
      [Put(RoomField(id, "gameEnded"), Bool(true)),
       Put(RoomField(id, "gamePhase"), Str(GAME_OVER)),
       Put(RoomField(id, "winnerOnDisconnect"), Str(user))]
    else
      [Put(PlayerField(id, user, "connected"), Bool(false))]
  }

  /** The non-initiator's disconnect write stays inside its own player entry. */
  lemma DisconnectOwnEntry(d: Data, id: string, user: string, q: Path)
    requires !Within(PlayerNode(id, user), q)
    ensures Get(Apply(d, DisconnectOps(id, user, false)), q) == Get(d, q)
  {
    var ops := DisconnectOps(id, user, false);
    assert ops[0].at[..|PlayerNode(id, user)|] == PlayerNode(id, user);
    ApplyFrame(d, ops, q);
  }

  /** `showLeaveGameDialog`, "Leave": the initiator hands the game to the partner. */
  function LeaveOps(id: string, user: string, partner: string, isInitiator: bool): seq<Op> {
    if isInitiator then
      [Put(RoomField(id, "gameEnded"), Bool(true)),
       Put(RoomField(id, "gamePhase"), Str(GAME_OVER)),
       Put(RoomField(id, "winnerOnLeave"), Str(partner))]
    else
      [Put(PlayerField(id, user, "connected"), Bool(false))]
  }

  /** The intent data `onCreate` insists on; a blank partner name becomes "Partner". */
  function ValidateIntent(gameRoomId: Option<string>, partnerId: Option<string>, partnerName: Option<string>)
    : (r: Option<(string, string, string)>)
    ensures r.None? <==> gameRoomId.None? || partnerId.None?
    ensures r.Some? ==> r.value.0 == gameRoomId.value && r.value.1 == partnerId.value
    ensures (r.Some? ==>
      (r.value.2 == "Partner" <==> partnerName.None? || IsBlank(partnerName.value) || partnerName.value == "Partner"))
  {
    if gameRoomId.None? || partnerId.None? then None
    else
      var name := if partnerName.None? || IsBlank(partnerName.value) then "Partner" else partnerName.value;
      Some((gameRoomId.value, partnerId.value, name))
  }

  // ------------------------------------------------------------ the session

  class GameSession {
    const uid: string
    const userName: string
    const gameRoomId: string
    const partnerId: string
    const partnerName: string
    const isInitiator: bool

    var currentRound: int
    var userScore: int
    var partnerScore: int
    var isGameActive: bool
    var hasSubmittedChoice: bool
    var userCurrentChoice: Option<string>
    var partnerCurrentChoice: Option<string>
    /** The round countdown is running (not finished, not cancelled). */
    var countdownRunning: bool
    /** The 30 s wait for the second player is pending. */
    var joinTimeoutPending: bool
    /** The initiator's 10 s delayed room removal is pending. */
    var removalPending: bool
    /** The room listener is registered. */
    var listening: bool
    /** The initiator's stored round results whose success callback has not run yet. */
    var resultWritesPending: nat
    /** The last round the corrected reveal handler scored (0 before the first). */
    var scoredRound: int

    predicate Valid()
      reads this
    {
      currentRound >= 1 && userScore >= 0 && partnerScore >= 0
    }

    /** `onCreate` after the intent checks: `displayName` falls back to "You". */
    constructor (uid: string, displayName: Option<string>, gameRoomId: string, partnerId: string,
                 partnerName: string, isInitiator: bool)
      ensures Valid()
      ensures this.uid == uid && userName == displayName.GetOr("You")
      ensures this.gameRoomId == gameRoomId && this.partnerId == partnerId
      ensures this.partnerName == partnerName && this.isInitiator == isInitiator
      ensures currentRound == 1 && userScore == 0 && partnerScore == 0
      ensures !isGameActive && !hasSubmittedChoice && !countdownRunning && !listening
      ensures resultWritesPending == 0 && scoredRound == 0
    {
      this.uid := uid;
      userName := displayName.GetOr("You");
      this.gameRoomId := gameRoomId;
      this.partnerId := partnerId;
      this.partnerName := partnerName;
      this.isInitiator := isInitiator;
      currentRound, userScore, partnerScore := 1, 0, 0;
      isGameActive, hasSubmittedChoice := false, false;
      userCurrentChoice, partnerCurrentChoice := None, None;
      countdownRunning, joinTimeoutPending, removalPending, listening := false, false, false, false;
      resultWritesPending, scoredRound := 0, 0;
    }

    /** `validatePlayersInRoom`: both this player and the partner have an entry. */
    predicate BothPlayersPresent(d: Data)
      reads this
    {
      Exists(d, PlayerNode(gameRoomId, uid)) && Exists(d, PlayerNode(gameRoomId, partnerId))
    }

    /** The store after the initiator's readiness check on `d`: the start write when every player is ready and connected. */
    function StartWrite(d: Data, now: int, startDelivered: bool): Data {
      if isInitiator && CanStart(d, gameRoomId) && startDelivered then Apply(d, StartOps(gameRoomId, uid, partnerId, now)) else d
    }

    /**
     * The store after `joinGameRoom` on `d`, as written: the join (with
     * `ready` only for the initiator's own entry left false), then the
     * initiator's readiness check, or the other player's `ready` flag.
     */
    function JoinWrite(d: Data, round: int, now: int, delivered: bool, startDelivered: bool): Data {
      if !delivered then d
      else
        var joined := Apply(d, JoinOps(gameRoomId, uid, userName, now, isInitiator, round));
        if isInitiator then StartWrite(joined, now, startDelivered) else Apply(joined, ReadyOps(gameRoomId, uid))
    }

    /** The store after the corrected join: both players join ready, then the initiator's readiness check. */
    function JoinWriteCorrected(d: Data, round: int, now: int, delivered: bool, startDelivered: bool): Data {
      if !delivered then d
      else
        var joined := Apply(d, JoinOpsCorrected(gameRoomId, uid, userName, now, isInitiator, round));
        if isInitiator then StartWrite(joined, now, startDelivered) else joined
    }

    /**
     * `setupGameRoom` and `setupGameRoomListener`, as written: a missing room
     * is an error; otherwise listen to it and join with `joinGameRoom`.
     */
    method SetupGameRoom(db: Database, now: int, joinDelivered: bool, startDelivered: bool)
      requires Valid()
      modifies this, db
      ensures Valid()
      ensures listening == (old(listening) || Exists(old(db.data), Room(gameRoomId)))
      ensures (db.data == if Exists(old(db.data), Room(gameRoomId))
                          then JoinWrite(old(db.data), old(currentRound), now, joinDelivered, startDelivered)
                          else old(db.data))
      ensures isGameActive == old(isGameActive) && currentRound == old(currentRound)
      ensures userScore == old(userScore) && partnerScore == old(partnerScore)
    {
      if !Exists(db.data, Room(gameRoomId)) {
        return;
      }
      listening := true;
      JoinGameRoom(db, now, joinDelivered, startDelivered);
    }

    /** The same setup joining with the corrected join, under which both players mark themselves ready. */
    method SetupGameRoomCorrected(db: Database, now: int, joinDelivered: bool, startDelivered: bool)
      requires Valid()
      modifies this, db
      ensures Valid()
      ensures listening == (old(listening) || Exists(old(db.data), Room(gameRoomId)))
      ensures (db.data == if Exists(old(db.data), Room(gameRoomId))
                          then JoinWriteCorrected(old(db.data), old(currentRound), now, joinDelivered, startDelivered)
                          else old(db.data))
      ensures isGameActive == old(isGameActive) && currentRound == old(currentRound)
      ensures userScore == old(userScore) && partnerScore == old(partnerScore)
    {
      if !Exists(db.data, Room(gameRoomId)) {
        return;
      }
      listening := true;
      JoinGameRoomCorrected(db, now, joinDelivered, startDelivered);
    }

    /** `joinGameRoom` and its success callback. */
    method JoinGameRoom(db: Database, now: int, delivered: bool, startDelivered: bool)
      requires Valid()
      modifies this, db
      ensures Valid()
      ensures listening == old(listening) && isGameActive == old(isGameActive) && currentRound == old(currentRound)
      ensures userScore == old(userScore) && partnerScore == old(partnerScore)
      ensures db.data == JoinWrite(old(db.data), old(currentRound), now, delivered, startDelivered)
    {
      if !delivered {
        return;
      }
      db.Write(JoinOps(gameRoomId, uid, userName, now, isInitiator, currentRound));
      if isInitiator {
        var _ := CheckAndStartGameIfReady(db, now, startDelivered);
      } else {
        db.Write(ReadyOps(gameRoomId, uid));
      }
    }

    /**
     * Corrected `joinGameRoom`: both players mark themselves ready after the
     * join; the initiator then runs the readiness check.
     */
    method JoinGameRoomCorrected(db: Database, now: int, delivered: bool, startDelivered: bool)
      requires Valid()
      modifies this, db
      ensures Valid()
      ensures listening == old(listening) && isGameActive == old(isGameActive) && currentRound == old(currentRound)
      ensures userScore == old(userScore) && partnerScore == old(partnerScore)
      ensures db.data == JoinWriteCorrected(old(db.data), old(currentRound), now, delivered, startDelivered)
    {
      if !delivered {
        return;
      }
      db.Write(JoinOpsCorrected(gameRoomId, uid, userName, now, isInitiator, currentRound));
      if isInitiator {
        var _ := CheckAndStartGameIfReady(db, now, startDelivered);
      }
    }

    /**
     * `checkAndStartGameIfReady`: the initiator reads `players`; with fewer
     * than two it arms the join timeout, otherwise it starts the game once
     * every player is ready and connected.
     */
    method CheckAndStartGameIfReady(db: Database, now: int, startDelivered: bool) returns (started: bool)
      requires Valid()
      modifies this, db
      ensures Valid()
      ensures started <==> isInitiator && CanStart(old(db.data), gameRoomId)
      ensures (db.data == if started && startDelivered
                          then Apply(old(db.data), StartOps(gameRoomId, uid, partnerId, now)) else old(db.data))
      ensures (joinTimeoutPending <==>
        old(joinTimeoutPending) || (isInitiator && |Children(old(db.data), PlayersNode(gameRoomId))| < 2))
      ensures isGameActive == old(isGameActive) && listening == old(listening)
      ensures currentRound == old(currentRound) && userScore == old(userScore) && partnerScore == old(partnerScore)
    {
      if !isInitiator {
        return false;
      }
      var d := db.data;
      var players := Children(d, PlayersNode(gameRoomId));
      if |players| < 2 {
        joinTimeoutPending := true;
        return false;
      }
      var allReady, allConnected := true, true;
      var todo := players;
      while todo != {}
        invariant todo <= players
        invariant allReady <==> forall p :: p in players - todo ==> IsTrue(d, PlayerField(gameRoomId, p, "ready"))
        invariant allConnected <==> forall p :: p in players - todo ==> IsTrue(d, PlayerField(gameRoomId, p, "connected"))
        decreases todo
      {
        var p :| p in todo;
        if !IsTrue(d, PlayerField(gameRoomId, p, "ready")) {
          allReady := false;
        }
        if !IsTrue(d, PlayerField(gameRoomId, p, "connected")) {
          allConnected := false;
        }
        todo := todo - {p};
      }
      started := allConnected && allReady;
      if started && startDelivered {
        db.Write(StartOps(gameRoomId, uid, partnerId, now));
      }
    }

    /** The join timeout fires: still fewer than two players means the partner never came. */
    method OnJoinTimeout(db: Database)
      requires Valid()
      modifies this
      ensures Valid() && !joinTimeoutPending
      ensures (old(joinTimeoutPending) && |Children(db.data, PlayersNode(gameRoomId))| < 2 ==> !isGameActive)
      ensures (!old(joinTimeoutPending) || |Children(db.data, PlayersNode(gameRoomId))| >= 2 ==>
        isGameActive == old(isGameActive))
    {
      if joinTimeoutPending {
        joinTimeoutPending := false;
        if |Children(db.data, PlayersNode(gameRoomId))| < 2 {
          ShowPartnerLeftEarly();
        }
      }
    }

    /** `showPartnerLeftEarly`: the game is no longer active (the dialog is not modelled). */
    method ShowPartnerLeftEarly()
      modifies this
      ensures !isGameActive
      ensures currentRound == old(currentRound) && userScore == old(userScore) && partnerScore == old(partnerScore)
      ensures hasSubmittedChoice == old(hasSubmittedChoice) && listening == old(listening)
      ensures joinTimeoutPending == old(joinTimeoutPending)
    {
      isGameActive := false;
    }

    /** `startNewRound`: reopen the choice for the current round and start the countdown. */
    method StartNewRound()
      modifies this
      ensures (old(isGameActive) ==>
        !hasSubmittedChoice && userCurrentChoice.None? && partnerCurrentChoice.None? && countdownRunning)
      ensures (!old(isGameActive) ==>
        hasSubmittedChoice == old(hasSubmittedChoice) && countdownRunning == old(countdownRunning))
      ensures isGameActive == old(isGameActive) && listening == old(listening)
      ensures currentRound == old(currentRound) && userScore == old(userScore) && partnerScore == old(partnerScore)
      ensures resultWritesPending == old(resultWritesPending)
    {
      if !isGameActive {
        return;
      }
      hasSubmittedChoice := false;
      userCurrentChoice := None;
      partnerCurrentChoice := None;
      countdownRunning := true;
    }

    /**
     * `makeChoice`: at most one choice per round, written under
     * `choices/<round>/<uid>`; a failed write reopens the choice.
     */
    method MakeChoice(db: Database, choice: string, now: int, delivered: bool)
      modifies this, db
      ensures (old(hasSubmittedChoice) || !old(isGameActive) ==>
        db.data == old(db.data) && hasSubmittedChoice == old(hasSubmittedChoice))
      ensures (!old(hasSubmittedChoice) && old(isGameActive) ==>
        userCurrentChoice == Some(choice) && !countdownRunning &&
        hasSubmittedChoice == delivered &&
        db.data == (if delivered then Apply(old(db.data), ChoiceOps(gameRoomId, currentRound, uid, choice, now))
                    else old(db.data)))
      ensures isGameActive == old(isGameActive) && listening == old(listening)
      ensures currentRound == old(currentRound) && userScore == old(userScore) && partnerScore == old(partnerScore)
    {
      if hasSubmittedChoice || !isGameActive {
        return;
      }
      hasSubmittedChoice := true;
      userCurrentChoice := Some(choice);
      countdownRunning := false;
      if delivered {
        db.Write(ChoiceOps(gameRoomId, currentRound, uid, choice, now));
      } else {
        hasSubmittedChoice := false;
      }
    }

    /** The countdown's `onFinish`: with no choice made, submit `CHOICES[pick]` (the random index is given). */
    method OnCountdownFinish(db: Database, pick: nat, now: int, delivered: bool)
      requires pick < |CHOICES|
      modifies this, db
      ensures !countdownRunning
      ensures (old(countdownRunning) && !old(hasSubmittedChoice) && old(isGameActive) ==>
        userCurrentChoice == Some(CHOICES[pick]) &&
        db.data == (if delivered then Apply(old(db.data), ChoiceOps(gameRoomId, currentRound, uid, CHOICES[pick], now))
                    else old(db.data)))
      ensures (!old(countdownRunning) || old(hasSubmittedChoice) || !old(isGameActive) ==> db.data == old(db.data))
      ensures old(hasSubmittedChoice) ==> hasSubmittedChoice
      ensures isGameActive == old(isGameActive) && listening == old(listening)
      ensures currentRound == old(currentRound) && userScore == old(userScore) && partnerScore == old(partnerScore)
    {
      if !countdownRunning {
        return;
      }
      countdownRunning := false;
      if !hasSubmittedChoice && isGameActive {
        MakeChoice(db, CHOICES[pick], now, delivered);
      }
    }

    /** `handleWaitingChoices`. */
    method HandleWaitingChoices(db: Database)
      modifies db
      ensures (db.data == if old(isGameActive)
        then Apply(old(db.data), WaitingChoicesOps(old(db.data), gameRoomId, currentRound, uid, partnerId, isInitiator))
        else old(db.data))
    {
      if !isGameActive {
        return;
      }
      db.Write(WaitingChoicesOps(db.data, gameRoomId, currentRound, uid, partnerId, isInitiator));
    }

    /**
     * What `handleRevealResults` makes of snapshot `d`, taken in round
     * `round` with local scores `us` and `ps` and `pending` result writes
     * awaiting their callback: the new round, scores, pending count, known
     * partner choice and store.
     */
    ghost predicate RevealOutcome(d: Data, round: int, us: int, ps: int, pending: nat, delivered: bool,
                                  newRound: int, newUs: int, newPs: int, newPending: nat,
                                  theirsSeen: Option<string>, after: Data)
    {
      var mine := GetStr(d, ChoicePath(gameRoomId, round, uid));
      var theirs := GetStr(d, ChoicePath(gameRoomId, round, partnerId));
      theirsSeen == theirs &&
      (mine.None? || theirs.None? ==>
        newUs == us && newPs == ps && newRound == round && newPending == pending &&
        after == (if isInitiator then Apply(d, [Put(RoomField(gameRoomId, "gamePhase"), Str(WAITING_CHOICES))]) else d)) &&
      (mine.Some? && theirs.Some? ==>
        var o := CalculateResult(mine.value, theirs.value);
        var stored := GetInt(d, RoomField(gameRoomId, "currentRound"));
        (newUs, newPs) == ScoreAfter(o, us, ps) &&
        newRound == (if stored.Some? && stored.value > round then stored.value else round) &&
        newPending == (if isInitiator && delivered then pending + 1 else pending) &&
        after == (if isInitiator && delivered
                  then Apply(d, RoundResultOps(gameRoomId, round, uid, partnerId, mine.value, theirs.value, o, newUs, newPs))
                  else d))
    }

    /**
     * `handleRevealResults`: both peers score the round locally, with no
     * guard against a snapshot of a round already scored; the initiator
     * stores the round result, whose success callback (`OnRevealWriteSuccess`)
     * runs later; a missing choice sends the initiator back to `waiting_choices`.
     */
    method HandleRevealResults(db: Database, delivered: bool)
      requires Valid()
      modifies this, db
      ensures Valid()
      ensures !old(isGameActive) ==> db.data == old(db.data) && userScore == old(userScore) && partnerScore == old(partnerScore)
      ensures !old(isGameActive) ==> currentRound == old(currentRound) && resultWritesPending == old(resultWritesPending)
      ensures (old(isGameActive) ==>
        RevealOutcome(old(db.data), old(currentRound), old(userScore), old(partnerScore), old(resultWritesPending), delivered,
                      currentRound, userScore, partnerScore, resultWritesPending, partnerCurrentChoice, db.data))
      ensures isGameActive == old(isGameActive) && hasSubmittedChoice == old(hasSubmittedChoice)
      ensures listening == old(listening) && scoredRound == old(scoredRound)
    {
      if !isGameActive {
        return;
      }
      var d, round := db.data, currentRound;
      var mine := GetStr(d, ChoicePath(gameRoomId, round, uid));
      var theirs := GetStr(d, ChoicePath(gameRoomId, round, partnerId));
      partnerCurrentChoice := theirs;
      if mine.None? || theirs.None? {
        if isInitiator {
          db.Write([Put(RoomField(gameRoomId, "gamePhase"), Str(WAITING_CHOICES))]);
        }
        return;
      }
      ScoreRound(db, mine.value, theirs.value, delivered);
    }

    /** The scoring half of `handleRevealResults`, once both choices of the round are known. */
    method ScoreRound(db: Database, mine: string, theirs: string, delivered: bool)
      requires Valid()
      modifies this, db
      ensures Valid()
      ensures (var o := CalculateResult(mine, theirs);
        var stored := GetInt(old(db.data), RoomField(gameRoomId, "currentRound"));
        (userScore, partnerScore) == ScoreAfter(o, old(userScore), old(partnerScore)) &&
        currentRound == (if stored.Some? && stored.value > old(currentRound) then stored.value else old(currentRound)) &&
        resultWritesPending == (if isInitiator && delivered then old(resultWritesPending) + 1 else old(resultWritesPending)) &&
        db.data == (if isInitiator && delivered
                    then Apply(old(db.data), RoundResultOps(gameRoomId, old(currentRound), uid, partnerId, mine, theirs,
                                                            o, userScore, partnerScore))
                    else old(db.data)))
      ensures isGameActive == old(isGameActive) && hasSubmittedChoice == old(hasSubmittedChoice)
      ensures listening == old(listening) && scoredRound == old(scoredRound) && partnerCurrentChoice == old(partnerCurrentChoice)
    {
      var d, round := db.data, currentRound;
      var o := CalculateResult(mine, theirs);
      var scores := ScoreAfter(o, userScore, partnerScore);
      var stored := GetInt(d, RoomField(gameRoomId, "currentRound"));
      userScore, partnerScore := scores.0, scores.1;
      currentRound := if stored.Some? && stored.value > round then stored.value else round;
      if isInitiator && delivered {
        db.Write(RoundResultOps(gameRoomId, round, uid, partnerId, mine, theirs, o, scores.0, scores.1));
        resultWritesPending := resultWritesPending + 1;
      }
    }

    /**
     * The success callback of a stored round result: two `setValue`s built
     * from the round and scores as they are when the callback runs, not as
     * they were when the result was written.
     */
    method OnRevealWriteSuccess(db: Database)
      modifies this, db
      ensures resultWritesPending == if old(resultWritesPending) > 0 then old(resultWritesPending) - 1 else 0
      ensures old(resultWritesPending) == 0 ==> db.data == old(db.data)
      ensures (old(resultWritesPending) > 0 ==>
        db.data == Apply(old(db.data), NextOps(gameRoomId, currentRound, userScore, partnerScore)))
      ensures (old(resultWritesPending) > 0 && GameOver(userScore, partnerScore) ==>
        IsTrue(db.data, RoomField(gameRoomId, "gameEnded")) &&
        GetStr(db.data, RoomField(gameRoomId, "gamePhase")) == Some(GAME_OVER))
      ensures (old(resultWritesPending) > 0 && !GameOver(userScore, partnerScore) ==>
        GetInt(db.data, RoomField(gameRoomId, "currentRound")) == Some(currentRound + 1) &&
        GetStr(db.data, RoomField(gameRoomId, "gamePhase")) == Some(WAITING_CHOICES))
      ensures isGameActive == old(isGameActive) && listening == old(listening) && countdownRunning == old(countdownRunning)
      ensures currentRound == old(currentRound) && userScore == old(userScore) && partnerScore == old(partnerScore)
    {
      if resultWritesPending == 0 {
        return;
      }
      resultWritesPending := resultWritesPending - 1;
      var d := db.data;
      var next := NextOps(gameRoomId, currentRound, userScore, partnerScore);
      db.Write(next[..1]);
      db.Write(next[1..]);
      assert next[..1] + next[1..] == next;
      ApplyConcat(d, next[..1], next[1..]);
      NextOpsStored(d, gameRoomId, currentRound, userScore, partnerScore);
    }

    /** `updateUserGameStats`, when its transaction commits. */
    method UpdateUserGameStats(db: Database, won: bool, delivered: bool)
      modifies db
      ensures db.data == if delivered then Apply(old(db.data), StatsOps(old(db.data), uid, won)) else old(db.data)
    {
      if delivered {
        db.Write(StatsOps(db.data, uid, won));
      }
    }

    /**
     * `handleGameEnd`: once only, guarded by `isGameActive`; decide the
     * winner, write this player's stats when there is one, and have the
     * initiator schedule the room's removal.
     */
    method HandleGameEnd(db: Database, statsDelivered: bool)
      requires Valid()
      modifies this, db
      ensures Valid() && !isGameActive
      ensures old(isGameActive) ==> !countdownRunning
      ensures (!old(isGameActive) ==>
        db.data == old(db.data) && removalPending == old(removalPending) && countdownRunning == old(countdownRunning))
      ensures (old(isGameActive) ==>
        var d := old(db.data);
        var w := Winner(userScore, partnerScore, GetInt(d, ScorePath(gameRoomId, uid)),
                        GetInt(d, ScorePath(gameRoomId, partnerId)), uid, partnerId);
        (w.None? ==> db.data == d) &&
        (w.Some? ==> db.data == if statsDelivered then Apply(d, StatsOps(d, uid, w.value == uid)) else d) &&
        removalPending == (old(removalPending) || isInitiator))
      ensures currentRound == old(currentRound) && userScore == old(userScore) && partnerScore == old(partnerScore)
      ensures listening == old(listening)
    {
      if !isGameActive {
        return;
      }
      isGameActive := false;
      countdownRunning := false;
      var d := db.data;
      var w := Winner(userScore, partnerScore, GetInt(d, ScorePath(gameRoomId, uid)),
                      GetInt(d, ScorePath(gameRoomId, partnerId)), uid, partnerId);
      if w.Some? {
        UpdateUserGameStats(db, w.value == uid, statsDelivered);
      }
      if isInitiator {
        removalPending := true;
      }
    }

    /** The initiator's delayed removal of the room. */
    method OnRemovalTimeout(db: Database)
      modifies this, db
      ensures !removalPending
      ensures db.data == if old(removalPending) then Apply(old(db.data), [Delete(Room(gameRoomId))]) else old(db.data)
    {
      if removalPending {
        removalPending := false;
        db.Write([Delete(Room(gameRoomId))]);
      }
    }

    /** `showPartnerDisconnected`: runs once, while the game is active and the screen is not closing. */
    method ShowPartnerDisconnected(db: Database, finishing: bool)
      modifies this, db
      ensures (!old(isGameActive) || finishing ==> db.data == old(db.data) && isGameActive == old(isGameActive))
      ensures (old(isGameActive) && !finishing ==>
        !isGameActive && !countdownRunning && db.data == Apply(old(db.data), DisconnectOps(gameRoomId, uid, isInitiator)))
      ensures currentRound == old(currentRound) && userScore == old(userScore) && partnerScore == old(partnerScore)
      ensures listening == old(listening)
    {
      if !isGameActive || finishing {
        return;
      }
      isGameActive := false;
      countdownRunning := false;
      db.Write(DisconnectOps(gameRoomId, uid, isInitiator));
    }

    /** The partner's presence listener: anything but `online == true` during a game is a disconnect. */
    method OnPartnerPresence(db: Database, online: Option<bool>, finishing: bool)
      modifies this, db
      ensures (online == Some(true) || !old(isGameActive) ==> db.data == old(db.data) && isGameActive == old(isGameActive))
      ensures (online != Some(true) && old(isGameActive) && !finishing ==>
        !isGameActive && db.data == Apply(old(db.data), DisconnectOps(gameRoomId, uid, isInitiator)))
      ensures currentRound == old(currentRound) && userScore == old(userScore) && partnerScore == old(partnerScore)
    {
      if online != Some(true) && isGameActive {
        ShowPartnerDisconnected(db, finishing);
      }
    }

    /**
     * The room listener's `onDataChange`: a removed room ends the game, a
     * stored `gameEnded` runs the end handler, and otherwise, with both
     * players present, a stored `gameStarted` activates the game before the
     * phase is handled.
     */
    method OnRoomChange(db: Database, finishing: bool, delivered: bool)
      requires Valid()
      modifies this, db
      ensures Valid()
      ensures listening == old(listening)
      ensures (!old(listening) ==>
        db.data == old(db.data) && isGameActive == old(isGameActive) &&
        currentRound == old(currentRound) && userScore == old(userScore) && partnerScore == old(partnerScore))
      // The room is gone: the game stops, and an active game not being closed writes this peer's disconnect.
      ensures (old(listening) && !Exists(old(db.data), Room(gameRoomId)) ==>
        currentRound == old(currentRound) && userScore == old(userScore) && partnerScore == old(partnerScore) &&
        (!old(isGameActive) ==> !isGameActive && db.data == old(db.data)) &&
        (old(isGameActive) && finishing ==> isGameActive && db.data == old(db.data)) &&
        (old(isGameActive) && !finishing ==>
          !isGameActive && db.data == Apply(old(db.data), DisconnectOps(gameRoomId, uid, isInitiator))))
      // A stored end: the end handler, which records this player's result once.
      ensures (old(listening) && Exists(old(db.data), Room(gameRoomId)) &&
               IsTrue(old(db.data), RoomField(gameRoomId, "gameEnded")) ==>
        var d := old(db.data);
        var w := Winner(old(userScore), old(partnerScore), GetInt(d, ScorePath(gameRoomId, uid)),
                        GetInt(d, ScorePath(gameRoomId, partnerId)), uid, partnerId);
        !isGameActive &&
        currentRound == old(currentRound) && userScore == old(userScore) && partnerScore == old(partnerScore) &&
        db.data == (if old(isGameActive) && w.Some? && delivered then Apply(d, StatsOps(d, uid, w.value == uid)) else d) &&
        removalPending == (old(removalPending) || (old(isGameActive) && isInitiator)))
      // A player missing from the room: nothing happens.
      ensures (old(listening) && Exists(old(db.data), Room(gameRoomId)) &&
               !IsTrue(old(db.data), RoomField(gameRoomId, "gameEnded")) && !BothPlayersPresent(old(db.data)) ==>
        db.data == old(db.data) && isGameActive == old(isGameActive) &&
        currentRound == old(currentRound) && userScore == old(userScore) && partnerScore == old(partnerScore))
      // Both players present: `gameStarted` activates the game, then the stored phase is handled.
      ensures (old(listening) && Exists(old(db.data), Room(gameRoomId)) &&
               !IsTrue(old(db.data), RoomField(gameRoomId, "gameEnded")) && BothPlayersPresent(old(db.data)) ==>
        var d := old(db.data);
        var active := old(isGameActive) || IsTrue(d, RoomField(gameRoomId, "gameStarted"));
        var phase := GetStr(d, RoomField(gameRoomId, "gamePhase")).GetOr("");
        isGameActive == active &&
        (!active || (phase != WAITING_CHOICES && phase != REVEAL_RESULTS) ==>
          db.data == d && currentRound == old(currentRound) && userScore == old(userScore) && partnerScore == old(partnerScore)) &&
        (active && phase == WAITING_CHOICES ==>
          db.data == Apply(d, WaitingChoicesOps(d, gameRoomId, old(currentRound), uid, partnerId, isInitiator)) &&
          currentRound == old(currentRound) && userScore == old(userScore) && partnerScore == old(partnerScore)) &&
        (active && phase == REVEAL_RESULTS ==>
          RevealOutcome(d, old(currentRound), old(userScore), old(partnerScore), old(resultWritesPending), delivered,
                        currentRound, userScore, partnerScore, resultWritesPending, partnerCurrentChoice, db.data)))
    {
      if !listening {
        return;
      }
      var d := db.data;
      if !Exists(d, Room(gameRoomId)) {
        if !isGameActive {
          ShowPartnerLeftEarly();
        } else {
          ShowPartnerDisconnected(db, finishing);
        }
        return;
      }
      if IsTrue(d, RoomField(gameRoomId, "gameEnded")) {
        HandleGameEnd(db, delivered);
        return;
      }
      if !BothPlayersPresent(d) {
        return;
      }
      if IsTrue(d, RoomField(gameRoomId, "gameStarted")) && !isGameActive {
        isGameActive := true;
        StartNewRound();
      }
      var phase := GetStr(d, RoomField(gameRoomId, "gamePhase")).GetOr("");
      if phase == WAITING_CHOICES {
        HandleWaitingChoices(db);
      } else if phase == REVEAL_RESULTS {
        HandleRevealResults(db, delivered);
      }
    }

    /** `finishGameCleanup`: stop, unregister, and mark this player disconnected. */
    method FinishGameCleanup(db: Database)
      modifies this, db
      ensures !isGameActive && !countdownRunning && !listening
      ensures db.data == Apply(old(db.data), [Put(PlayerField(gameRoomId, uid, "connected"), Bool(false))])
    {
      isGameActive := false;
      countdownRunning := false;
      listening := false;
      db.Write([Put(PlayerField(gameRoomId, uid, "connected"), Bool(false))]);
    }

    /** "Leave" in the leave dialog: end or abandon the game, then clean up. */
    method LeaveGame(db: Database)
      modifies this, db
      ensures !isGameActive && !listening
      ensures (db.data == Apply(
        if old(isGameActive) then Apply(old(db.data), LeaveOps(gameRoomId, uid, partnerId, isInitiator)) else old(db.data),
        [Put(PlayerField(gameRoomId, uid, "connected"), Bool(false))]))
    {
      if isGameActive {
        db.Write(LeaveOps(gameRoomId, uid, partnerId, isInitiator));
      }
      FinishGameCleanup(db);
    }
  }

  /** A stored choice reads back as the choice. */
  lemma ChoiceStored(d: Data, id: string, round: int, user: string, choice: string, now: int)
    ensures Get(Apply(d, ChoiceOps(id, round, user, choice, now)), ChoicePath(id, round, user)) == Some(Str(choice))
  {
    var ops := ChoiceOps(id, round, user, choice, now);
    assert ops[0].at[|ops[0].at| - 1] != ops[1].at[|ops[1].at| - 1];
    assert DistinctPuts(ops);
    PutSurvives(d, ops, 0);
  }

  /**
   * The initiator's round result followed by its success callback, with no
   * other scoring in between: the scores read back as stored, and the
   * callback either stores `gameEnded` and `game_over`, which the next room
   * change hands to the end handler, or opens the next round in
   * `waiting_choices`.
   */
  lemma RevealEndsOrAdvances(d: Data, id: string, round: int, user: string, partner: string,
                             mine: string, theirs: string, o: Outcome, us: int, ps: int, nextRound: int)
    requires user != partner
    ensures (var after := Apply(Apply(d, RoundResultOps(id, round, user, partner, mine, theirs, o, us, ps)),
                                NextOps(id, nextRound, us, ps));
      GetInt(after, ScorePath(id, user)) == Some(us) && GetInt(after, ScorePath(id, partner)) == Some(ps) &&
      (GameOver(us, ps) ==>
        IsTrue(after, RoomField(id, "gameEnded")) && GetStr(after, RoomField(id, "gamePhase")) == Some(GAME_OVER)) &&
      (!GameOver(us, ps) ==>
        GetInt(after, RoomField(id, "currentRound")) == Some(nextRound + 1) &&
        GetStr(after, RoomField(id, "gamePhase")) == Some(WAITING_CHOICES)))
  {
    var result := RoundResultOps(id, round, user, partner, mine, theirs, o, us, ps);
    var next := NextOps(id, nextRound, us, ps);
    var mid := Apply(d, result);
    assert result[4].at[|result[4].at| - 1] != result[3].at[|result[3].at| - 1];
    assert Untouched(result[4..], result[3].at);
    ApplyPut(d, result, 3);
    ApplyPut(d, result, 4);
    forall i | 0 <= i < |next| ensures !Within(next[i].at, ScorePath(id, user)) && !Within(next[i].at, ScorePath(id, partner)) {
      assert next[i].at[2] != "scores";
    }
    ApplyFrame(mid, next, ScorePath(id, user));
    ApplyFrame(mid, next, ScorePath(id, partner));
    NextOpsStored(mid, id, nextRound, us, ps);
  }

  /** The step after a round reads back from the store it is written to. */
  lemma NextOpsStored(d: Data, id: string, round: int, userScore: int, partnerScore: int)
    ensures (var after := Apply(d, NextOps(id, round, userScore, partnerScore));
      (GameOver(userScore, partnerScore) ==>
        IsTrue(after, RoomField(id, "gameEnded")) && GetStr(after, RoomField(id, "gamePhase")) == Some(GAME_OVER)) &&
      (!GameOver(userScore, partnerScore) ==>
        GetInt(after, RoomField(id, "currentRound")) == Some(round + 1) &&
        GetStr(after, RoomField(id, "gamePhase")) == Some(WAITING_CHOICES)))
  {
    var next := NextOps(id, round, userScore, partnerScore);
    assert next[1..] == [next[1]] && next[2..] == [];
    assert next[1].at[|next[1].at| - 1] != next[0].at[|next[0].at| - 1];
    assert Untouched(next[1..], next[0].at);
    ApplyPut(d, next, 0);
    ApplyPut(d, next, 1);
  }

  /**
   * As written: once a choice is submitted, neither the reveal nor the next
   * `waiting_choices` snapshot reopens it, because `startNewRound` runs only
   * when the game becomes active.  The next round's choice and its auto-pick
   * are then both refused, so no round after the first can be played.
   */
  method LaterRoundRefusedAsWritten(s: GameSession, db: Database, choice: string, pick: nat, now: int)
    returns (written: bool)
    requires s.Valid() && s.isGameActive && s.hasSubmittedChoice && pick < |CHOICES|
    modifies s, db
    ensures s.hasSubmittedChoice && !written
  {
    s.HandleWaitingChoices(db);
    s.HandleRevealResults(db, true);
    s.HandleWaitingChoices(db);
    var before := db.data;
    s.MakeChoice(db, choice, now, true);
    s.OnCountdownFinish(db, pick, now, true);
    written := db.data != before;
  }

  /**
   * Corrected `handleWaitingChoices`: a snapshot whose stored round is ahead
   * of the local one opens that round first (`startNewRound`), then waits for
   * its choices as before.
   */
  method HandleWaitingChoicesCorrected(s: GameSession, db: Database)
    requires s.Valid()
    modifies s, db
    ensures s.Valid()
    ensures (var stored := GetInt(old(db.data), RoomField(s.gameRoomId, "currentRound"));
      old(s.isGameActive) && stored.Some? && stored.value > old(s.currentRound) ==>
        s.currentRound == stored.value && !s.hasSubmittedChoice && s.countdownRunning)
    ensures s.isGameActive == old(s.isGameActive) && s.listening == old(s.listening)
    ensures (db.data == if old(s.isGameActive)
      then Apply(old(db.data), WaitingChoicesOps(old(db.data), s.gameRoomId, s.currentRound, s.uid, s.partnerId, s.isInitiator))
      else old(db.data))
  {
    var stored := GetInt(db.data, RoomField(s.gameRoomId, "currentRound"));
    if s.isGameActive && stored.Some? && stored.value > s.currentRound {
      s.currentRound := stored.value;
      s.StartNewRound();
    }
    s.HandleWaitingChoices(db);
  }

  /** Corrected: once the round has advanced in the store, this player's next choice is stored under it. */
  method NextRoundPlayableCorrected(s: GameSession, db: Database, choice: string, now: int)
    requires s.Valid() && s.isGameActive && s.hasSubmittedChoice
    requires (var stored := GetInt(db.data, RoomField(s.gameRoomId, "currentRound"));
      stored.Some? && stored.value > s.currentRound)
    modifies s, db
    ensures s.hasSubmittedChoice && s.userCurrentChoice == Some(choice)
    ensures Get(db.data, ChoicePath(s.gameRoomId, s.currentRound, s.uid)) == Some(Str(choice))
  {
    HandleWaitingChoicesCorrected(s, db);
    var mid := db.data;
    s.MakeChoice(db, choice, now, true);
    ChoiceStored(mid, s.gameRoomId, s.currentRound, s.uid, choice, now);
  }

  /** A round result leaves every field of the room outside `results` and `scores` as it was. */
  lemma RoundResultKeepsRoom(d: Data, id: string, round: int, user: string, partner: string,
                             mine: string, theirs: string, o: Outcome, us: int, ps: int, q: Path)
    requires |q| >= 3 && q[..2] == Room(id) && q[2] != "results" && q[2] != "scores"
    ensures Get(Apply(d, RoundResultOps(id, round, user, partner, mine, theirs, o, us, ps)), q) == Get(d, q)
  {
    var ops := RoundResultOps(id, round, user, partner, mine, theirs, o, us, ps);
    forall i | 0 <= i < |ops| ensures !Within(ops[i].at, q) {
      assert ops[i].at[2] == "results" || ops[i].at[2] == "scores";
    }
    ApplyFrame(d, ops, q);
  }

  /**
   * As written: the initiator's own result write leaves the phase, the
   * round and both choices in place, so the snapshot it produces is again a
   * `reveal_results` snapshot of the same round, and the handler scores the
   * round a second time (from 2 points, past 3).
   */
  method RevealRescoresAsWritten(s: GameSession, db: Database)
    requires s.Valid() && s.isGameActive && s.isInitiator
    requires GetStr(db.data, ChoicePath(s.gameRoomId, s.currentRound, s.uid)) == Some(CHOICE_STONE)
    requires GetStr(db.data, ChoicePath(s.gameRoomId, s.currentRound, s.partnerId)) == Some(CHOICE_SCISSORS)
    requires GetStr(db.data, RoomField(s.gameRoomId, "gamePhase")) == Some(REVEAL_RESULTS)
    requires GetInt(db.data, RoomField(s.gameRoomId, "currentRound")) == Some(s.currentRound)
    modifies s, db
    ensures s.userScore == old(s.userScore) + 2 && s.partnerScore == old(s.partnerScore)
    ensures s.resultWritesPending == old(s.resultWritesPending) + 2 && s.currentRound == old(s.currentRound)
    ensures GetStr(db.data, RoomField(s.gameRoomId, "gamePhase")) == Some(REVEAL_RESULTS)
  {
    var id, round, us, ps := s.gameRoomId, s.currentRound, s.userScore, s.partnerScore;
    assert CalculateResult(CHOICE_STONE, CHOICE_SCISSORS) == Win;
    var d := db.data;
    s.HandleRevealResults(db, true);
    assert s.userScore == us + 1 && s.partnerScore == ps && s.currentRound == round;
    RevealSnapshotKept(d, id, round, s.uid, s.partnerId, us + 1, ps);
    var d1 := db.data;
    s.HandleRevealResults(db, true);
    assert s.userScore == us + 2 && s.partnerScore == ps;
    RevealSnapshotKept(d1, id, round, s.uid, s.partnerId, us + 2, ps);
  }

  /** After a round result of stone against scissors, the snapshot is still a reveal of the same round. */
  lemma RevealSnapshotKept(d: Data, id: string, round: int, user: string, partner: string, us: int, ps: int)
    ensures (var after := Apply(d, RoundResultOps(id, round, user, partner, CHOICE_STONE, CHOICE_SCISSORS, Win, us, ps));
      GetStr(after, ChoicePath(id, round, user)) == GetStr(d, ChoicePath(id, round, user)) &&
      GetStr(after, ChoicePath(id, round, partner)) == GetStr(d, ChoicePath(id, round, partner)) &&
      GetStr(after, RoomField(id, "gamePhase")) == GetStr(d, RoomField(id, "gamePhase")) &&
      GetInt(after, RoomField(id, "currentRound")) == GetInt(d, RoomField(id, "currentRound")))
  {
    RoundResultKeepsRoom(d, id, round, user, partner, CHOICE_STONE, CHOICE_SCISSORS, Win, us, ps, ChoicePath(id, round, user));
    RoundResultKeepsRoom(d, id, round, user, partner, CHOICE_STONE, CHOICE_SCISSORS, Win, us, ps, ChoicePath(id, round, partner));
    RoundResultKeepsRoom(d, id, round, user, partner, CHOICE_STONE, CHOICE_SCISSORS, Win, us, ps, RoomField(id, "gamePhase"));
    RoundResultKeepsRoom(d, id, round, user, partner, CHOICE_STONE, CHOICE_SCISSORS, Win, us, ps, RoomField(id, "currentRound"));
  }

  /**
   * Corrected `handleRevealResults`: a round is scored once.  A snapshot of
   * a round this peer has already scored only adopts a stored round that is
   * ahead; any other snapshot is handled as before and, when both choices
   * are there, marks the round scored.
   */
  method HandleRevealResultsCorrected(s: GameSession, db: Database, delivered: bool)
    requires s.Valid()
    modifies s, db
    ensures s.Valid()
    ensures (old(s.scoredRound) >= old(s.currentRound) ==>
      db.data == old(db.data) && s.userScore == old(s.userScore) && s.partnerScore == old(s.partnerScore) &&
      s.resultWritesPending == old(s.resultWritesPending) && s.scoredRound == old(s.scoredRound) &&
      s.currentRound == (var stored := GetInt(old(db.data), RoomField(s.gameRoomId, "currentRound"));
                         if old(s.isGameActive) && stored.Some? && stored.value > old(s.currentRound)
                         then stored.value else old(s.currentRound)))
    ensures (old(s.scoredRound) < old(s.currentRound) && old(s.isGameActive) ==>
      s.RevealOutcome(old(db.data), old(s.currentRound), old(s.userScore), old(s.partnerScore), old(s.resultWritesPending),
                      delivered, s.currentRound, s.userScore, s.partnerScore, s.resultWritesPending,
                      s.partnerCurrentChoice, db.data))
    ensures (old(s.scoredRound) < old(s.currentRound) && old(s.isGameActive) &&
             GetStr(old(db.data), ChoicePath(s.gameRoomId, old(s.currentRound), s.uid)).Some? &&
             GetStr(old(db.data), ChoicePath(s.gameRoomId, old(s.currentRound), s.partnerId)).Some? ==>
      s.scoredRound == old(s.currentRound))
    ensures (!old(s.isGameActive) ==>
      db.data == old(db.data) && s.userScore == old(s.userScore) && s.partnerScore == old(s.partnerScore))
    ensures s.isGameActive == old(s.isGameActive) && s.listening == old(s.listening)
  {
    var round, d := s.currentRound, db.data;
    if s.scoredRound >= round {
      var stored := GetInt(d, RoomField(s.gameRoomId, "currentRound"));
      if s.isGameActive && stored.Some? && stored.value > round {
        s.currentRound := stored.value;
      }
      return;
    }
    s.HandleRevealResults(db, delivered);
    if s.isGameActive && GetStr(d, ChoicePath(s.gameRoomId, round, s.uid)).Some? &&
       GetStr(d, ChoicePath(s.gameRoomId, round, s.partnerId)).Some? {
      s.scoredRound := round;
    }
  }

  /**
   * Corrected: the snapshot the initiator's own result write produces, or
   * any later one of the same round, no longer scores it again; the round
   * counts once, as `ScoreAfter` says.
   */
  method RevealOnceCorrected(s: GameSession, db: Database, delivered: bool)
    requires s.Valid() && s.isGameActive && s.scoredRound < s.currentRound
    requires GetStr(db.data, ChoicePath(s.gameRoomId, s.currentRound, s.uid)).Some?
    requires GetStr(db.data, ChoicePath(s.gameRoomId, s.currentRound, s.partnerId)).Some?
    requires GetInt(db.data, RoomField(s.gameRoomId, "currentRound")) == Some(s.currentRound)
    modifies s, db
    ensures (var o := CalculateResult(GetStr(old(db.data), ChoicePath(s.gameRoomId, old(s.currentRound), s.uid)).value,
                                      GetStr(old(db.data), ChoicePath(s.gameRoomId, old(s.currentRound), s.partnerId)).value);
      (s.userScore, s.partnerScore) == ScoreAfter(o, old(s.userScore), old(s.partnerScore)))
    ensures s.currentRound == old(s.currentRound) && s.scoredRound == s.currentRound
    ensures s.resultWritesPending == old(s.resultWritesPending) + (if s.isInitiator && delivered then 1 else 0)
  {
    var id, round := s.gameRoomId, s.currentRound;
    var d := db.data;
    HandleRevealResultsCorrected(s, db, delivered);
    if s.isInitiator && delivered {
      var mine := GetStr(d, ChoicePath(id, round, s.uid)).value;
      var theirs := GetStr(d, ChoicePath(id, round, s.partnerId)).value;
      RoundResultKeepsRoom(d, id, round, s.uid, s.partnerId, mine, theirs, CalculateResult(mine, theirs),
                           s.userScore, s.partnerScore, RoomField(id, "currentRound"));
    }
    HandleRevealResultsCorrected(s, db, delivered);
  }
}
