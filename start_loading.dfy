/**
 * The loading gate (`StartLoadingActivity`): each peer announces itself under
 * `gameRooms/<id>/loadingStatus/<uid>`, runs a timed progress sequence, and
 * launches the chapter screen once the room says the game may start.  The
 * initiator makes the room say so by selecting the chapter.  Every
 * `loadingHandler` callback is a pending flag with its own event method; the
 * five progress steps are posted with increasing delays on one handler and so
 * run in order.
 */
module StartLoading {
  import opened Wrappers
  import opened Store
  import opened Intents
  import RoundGame

  function StatusNode(id: string, user: string): Path {
    RoundGame.Room(id) + ["loadingStatus", user]
  }

  function StatusField(id: string, user: string, field: string): Path {
    RoundGame.Room(id) + ["loadingStatus", user, field]
  }

  /** `updateConnectionStatus`. */
  function ConnectionOps(id: string, user: string, name: string, now: int): seq<Op> {
    [Put(StatusField(id, user, "connected"), Bool(true)),
     Put(StatusField(id, user, "name"), Str(name)),
     Put(StatusField(id, user, "timestamp"), Int(now))]
  }

  /** `cleanupAndFinish`. */
  function DisconnectOps(id: string, user: string, now: int): seq<Op> {
    [Put(StatusField(id, user, "connected"), Bool(false)),
     Put(StatusField(id, user, "timestamp"), Int(now))]
  }

  /** Announcing stays in this peer's own entry and reads back as connected. */
  lemma ConnectionEffect(d: Data, id: string, user: string, name: string, now: int, q: Path)
    requires !Within(StatusNode(id, user), q)
    ensures (var after := Apply(d, ConnectionOps(id, user, name, now));
      Get(after, q) == Get(d, q) && IsTrue(after, StatusField(id, user, "connected")))
  {
    var ops := ConnectionOps(id, user, name, now);
    WriteInside(d, ops, StatusNode(id, user), q);
    assert forall i, j :: 0 <= i < j < 3 ==> ops[i].at[4] != ops[j].at[4];
    assert DistinctPuts(ops);
    PutSurvives(d, ops, 0);
  }

  /** The disconnect stays in this peer's own entry and reads back as not connected. */
  lemma DisconnectEffect(d: Data, id: string, user: string, now: int, q: Path)
    requires !Within(StatusNode(id, user), q)
    ensures (var after := Apply(d, DisconnectOps(id, user, now));
      Get(after, q) == Get(d, q) && !IsTrue(after, StatusField(id, user, "connected")))
  {
    var ops := DisconnectOps(id, user, now);
    WriteInside(d, ops, StatusNode(id, user), q);
    assert ops[0].at[4] != ops[1].at[4];
    assert DistinctPuts(ops);
    PutSurvives(d, ops, 0);
  }

  const START_PHASES: set<string> := {"loading_complete", "chapter_ready", "game_active"}

  /** The listener's `canStartGame` before its own readiness test: a start flag, or a start phase. */
  predicate RoomSaysStart(d: Data, id: string) {
    IsTrue(d, RoundGame.RoomField(id, "gameReadyToStart")) ||
    IsTrue(d, RoundGame.RoomField(id, "gameStarted")) ||
    IsTrue(d, RoundGame.RoomField(id, "chapterStarted")) ||
    (GetStr(d, RoundGame.RoomField(id, "gamePhase")).Some? &&
     GetStr(d, RoundGame.RoomField(id, "gamePhase")).value in START_PHASES)
  }

  /** `selectRandomChapter`'s update: the chapter, who chose it and when, and the start flags. */
  function ChapterOps(id: string, user: string, chapter: int, now: int): (r: seq<Op>)
    ensures Inside(r, RoundGame.Room(id))
  {
    [Put(RoundGame.RoomField(id, "selectedChapter"), Int(chapter)),
     Put(RoundGame.RoomField(id, "chapterSelectedBy"), Str(user)),
     Put(RoundGame.RoomField(id, "chapterSelectedAt"), Int(now)),
     Put(RoundGame.RoomField(id, "gameReadyToStart"), Bool(true)),
     Put(RoundGame.RoomField(id, "gameStarted"), Bool(true)),
     Put(RoundGame.RoomField(id, "gamePhase"), Str("chapter_ready"))]
  }

  /** Once the initiator's chapter write is stored, every peer's listener sees a startable room with that chapter. */
  lemma ChapterWriteStartsRoom(d: Data, id: string, user: string, chapter: int, now: int)
    ensures (var after := Apply(d, ChapterOps(id, user, chapter, now));
      RoomSaysStart(after, id) && GetInt(after, RoundGame.RoomField(id, "selectedChapter")) == Some(chapter))
  {
    var ops := ChapterOps(id, user, chapter, now);
    assert forall i, j :: 0 <= i < j < 6 ==> ops[i].at[2] != ops[j].at[2];
    assert DistinctPuts(ops);
    PutSurvives(d, ops, 0);
    PutSurvives(d, ops, 3);
  }

  /** `nextInt(1) + 1`: `nextInt(1)` can only return 0. */
  function RandomChapter(draw: nat): (c: int)
    requires draw < 1
    ensures c == 1
  {
    draw + 1
  }

  const CHAPTER1_ACTIVITY := "Chapter1GameActivity"

  /** `getChapterActivityClass`: chapters 1 to 5 and every other number. */
  function ChapterActivityFor(chapter: int): (name: string)
    ensures name == CHAPTER1_ACTIVITY
  {
    match chapter
    case 1 => CHAPTER1_ACTIVITY
    case 2 => CHAPTER1_ACTIVITY
    case 3 => CHAPTER1_ACTIVITY
    case 4 => CHAPTER1_ACTIVITY
    case 5 => CHAPTER1_ACTIVITY
    case _ => CHAPTER1_ACTIVITY
  }

  /** The progress values of `startLoadingSequence`, at 300, 800, 1500, 2200 and 3000 ms. */
  const STEPS: seq<int> := [20, 40, 60, 80, 100]

  /** The progress shown once the first `n` steps have run. */
  function ProgressAfter(n: nat): int
    requires n <= |STEPS|
  {
    if n == 0 then 0 else STEPS[n - 1]
  }

  class LoadingScreen {
    const uid: string
    const userName: string
    const setup: Setup

    var selectedChapter: int
    var player1Ready: bool
    var player2Ready: bool
    var assetsLoaded: bool
    var gameDataInitialized: bool
    var isGameStarting: bool
    var isActivityDestroyed: bool
    var chapterSelected: bool
    var currentProgress: int
    /** The room listener is registered. */
    var listening: bool

    /** The progress steps still posted, and how many have run. */
    var stepsPending: bool
    var nextStep: nat
    /** The 800 ms finalisation posted by `accelerateAssetLoading`. */
    var finalizePending: bool
    /** The 10 s forced start posted by `onCreate`. */
    var forceStartPending: bool
    /** The 1 s delayed launch posted by `startChapterActivity`. */
    var launchPending: bool

    var launches: nat
    var launched: Option<Intent>

    /**
     * The chapter screen is launched at most once, only after `isGameStarting`;
     * nothing is posted on a destroyed screen; the steps run in order, and
     * progress 100 means assets and game data are ready.
     */
    predicate Valid()
      reads this
    {
      launches <= 1 &&
      (!isGameStarting ==> launches == 0 && !launchPending) &&
      (launchPending ==> launches == 0) &&
      (launched.Some? <==> launches == 1) &&
      (isActivityDestroyed ==> !stepsPending && !finalizePending && !forceStartPending && !launchPending) &&
      (finalizePending ==> !stepsPending) &&
      nextStep <= |STEPS| &&
      (stepsPending ==> nextStep < |STEPS| && currentProgress == ProgressAfter(nextStep)) &&
      (nextStep >= 4 ==> gameDataInitialized || isActivityDestroyed) &&
      (currentProgress == 100 ==> assetsLoaded && gameDataInitialized) &&
      0 <= currentProgress <= 100
    }

    /** `onCreate` once the extras have passed `validateIntentData`. */
    constructor (uid: string, displayName: Option<string>, setup: Setup)
      ensures Valid()
      ensures this.uid == uid && userName == DisplayName(displayName) && this.setup == setup
      ensures selectedChapter == 1 && currentProgress == 0 && nextStep == 0
      ensures !player1Ready && !player2Ready && !assetsLoaded && !gameDataInitialized
      ensures !isGameStarting && !isActivityDestroyed && !chapterSelected && !listening
      ensures !stepsPending && !finalizePending && !forceStartPending && !launchPending && launches == 0
    {
      this.uid := uid;
      userName := DisplayName(displayName);
      this.setup := setup;
      selectedChapter, currentProgress, nextStep := 1, 0, 0;
      player1Ready, player2Ready, assetsLoaded, gameDataInitialized := false, false, false, false;
      isGameStarting, isActivityDestroyed, chapterSelected, listening := false, false, false, false;
      stepsPending, finalizePending, forceStartPending, launchPending := false, false, false, false;
      launches, launched := 0, None;
    }

    /** The rest of `onCreate`: listen, announce, start the progress steps, arm the forced start. */
    method Begin(db: Database, now: int, delivered: bool)
      requires Valid() && !isActivityDestroyed && nextStep == 0 && currentProgress == 0 && !finalizePending
      modifies this, db
      ensures Valid()
      ensures listening && stepsPending && nextStep == 0 && forceStartPending
      ensures db.data == if delivered then Apply(old(db.data), ConnectionOps(setup.gameRoomId, uid, userName, now)) else old(db.data)
      ensures isGameStarting == old(isGameStarting) && launches == old(launches)
    {
      listening := true;
      if delivered {
        db.Write(ConnectionOps(setup.gameRoomId, uid, userName, now));
      }
      stepsPending := true;
      forceStartPending := true;
    }

    /** `accelerateAssetLoading`: below 100 %, drop every posted callback and post the finalisation. */
    method AccelerateAssetLoading()
      requires Valid() && !isActivityDestroyed
      modifies this
      ensures Valid()
      ensures (old(currentProgress) < 100 ==>
        !stepsPending && !forceStartPending && !launchPending && finalizePending)
      ensures (old(currentProgress) >= 100 ==>
        stepsPending == old(stepsPending) && forceStartPending == old(forceStartPending) &&
        launchPending == old(launchPending) && finalizePending == old(finalizePending))
      ensures currentProgress == old(currentProgress) && assetsLoaded == old(assetsLoaded)
      ensures gameDataInitialized == old(gameDataInitialized) && isGameStarting == old(isGameStarting)
      ensures launches == old(launches) && nextStep == old(nextStep) && (launchPending ==> old(launchPending))
      ensures player1Ready == old(player1Ready) && player2Ready == old(player2Ready)
      ensures chapterSelected == old(chapterSelected) && selectedChapter == old(selectedChapter)
      ensures isActivityDestroyed == old(isActivityDestroyed) && listening == old(listening)
    {
      if currentProgress < 100 {
        stepsPending, forceStartPending, launchPending := false, false, false;
        finalizePending := true;
      }
    }

    /** `updatePlayerStatus`: both players connected while assets are still loading speeds the loading up. */
    method UpdatePlayerStatus()
      requires Valid() && !isActivityDestroyed
      modifies this
      ensures Valid()
      ensures (player1Ready && player2Ready && !assetsLoaded && old(currentProgress) < 100 ==>
        !stepsPending && !forceStartPending && finalizePending)
      ensures (!(player1Ready && player2Ready && !assetsLoaded) ==>
        stepsPending == old(stepsPending) && forceStartPending == old(forceStartPending) &&
        finalizePending == old(finalizePending) && launchPending == old(launchPending))
      ensures currentProgress == old(currentProgress) && assetsLoaded == old(assetsLoaded)
      ensures gameDataInitialized == old(gameDataInitialized) && isGameStarting == old(isGameStarting)
      ensures launches == old(launches) && nextStep == old(nextStep) && (launchPending ==> old(launchPending))
      ensures player1Ready == old(player1Ready) && player2Ready == old(player2Ready)
      ensures chapterSelected == old(chapterSelected) && selectedChapter == old(selectedChapter)
      ensures isActivityDestroyed == old(isActivityDestroyed) && listening == old(listening)
    {
      if player1Ready && player2Ready && !assetsLoaded {
        AccelerateAssetLoading();
      }
    }

    /**
     * `selectRandomChapter`: once only; chapter 1; the update that makes the
     * room startable; a failed update allows another try.
     */
    method SelectRandomChapter(db: Database, now: int, delivered: bool)
      requires Valid()
      modifies this, db
      ensures Valid()
      ensures old(chapterSelected) ==> db.data == old(db.data) && chapterSelected && selectedChapter == old(selectedChapter)
      ensures (!old(chapterSelected) ==>
        selectedChapter == 1 && chapterSelected == delivered &&
        db.data == if delivered then Apply(old(db.data), ChapterOps(setup.gameRoomId, uid, 1, now)) else old(db.data))
      ensures isGameStarting == old(isGameStarting) && launches == old(launches) && launchPending == old(launchPending)
      ensures currentProgress == old(currentProgress) && assetsLoaded == old(assetsLoaded)
      ensures gameDataInitialized == old(gameDataInitialized) && nextStep == old(nextStep)
      ensures stepsPending == old(stepsPending) && finalizePending == old(finalizePending)
      ensures forceStartPending == old(forceStartPending)
      ensures player1Ready == old(player1Ready) && player2Ready == old(player2Ready)
      ensures isActivityDestroyed == old(isActivityDestroyed) && listening == old(listening)
    {
      if chapterSelected {
        return;
      }
      chapterSelected := true;
      selectedChapter := RandomChapter(0);
      if delivered {
        db.Write(ChapterOps(setup.gameRoomId, uid, selectedChapter, now));
      } else {
        chapterSelected := false;
      }
    }

    /** `checkReadyToStart`: with everything ready, the initiator selects the chapter; the other peer waits. */
    method CheckReadyToStart(db: Database, now: int, delivered: bool)
      requires Valid()
      modifies this, db
      ensures Valid()
      ensures (player1Ready && player2Ready && assetsLoaded && gameDataInitialized && !isGameStarting &&
               setup.isInitiator && !old(chapterSelected) ==>
        selectedChapter == 1 &&
        db.data == if delivered then Apply(old(db.data), ChapterOps(setup.gameRoomId, uid, 1, now)) else old(db.data))
      ensures (!(player1Ready && player2Ready && assetsLoaded && gameDataInitialized && !isGameStarting &&
                 setup.isInitiator && !old(chapterSelected)) ==>
        db.data == old(db.data) && chapterSelected == old(chapterSelected) && selectedChapter == old(selectedChapter))
      ensures isGameStarting == old(isGameStarting) && launches == old(launches) && launchPending == old(launchPending)
      ensures currentProgress == old(currentProgress) && assetsLoaded == old(assetsLoaded)
      ensures gameDataInitialized == old(gameDataInitialized) && nextStep == old(nextStep)
      ensures stepsPending == old(stepsPending) && finalizePending == old(finalizePending)
      ensures forceStartPending == old(forceStartPending)
      ensures player1Ready == old(player1Ready) && player2Ready == old(player2Ready)
      ensures isActivityDestroyed == old(isActivityDestroyed) && listening == old(listening)
    {
      if player1Ready && player2Ready && assetsLoaded && gameDataInitialized && !isGameStarting {
        if setup.isInitiator && !chapterSelected {
          SelectRandomChapter(db, now, delivered);
        }
      }
    }

    /** The next of the five timed steps: its progress, game data at 80, assets (and the ready check) at 100. */
    method OnStep(db: Database, now: int, delivered: bool)
      requires Valid() && stepsPending
      modifies this, db
      ensures Valid()
      ensures nextStep == old(nextStep) + 1 && currentProgress == STEPS[old(nextStep)]
      ensures stepsPending == (nextStep < |STEPS|)
      ensures gameDataInitialized == (old(gameDataInitialized) || currentProgress == 80 || currentProgress == 100)
      ensures assetsLoaded == (old(assetsLoaded) || currentProgress == 100)
      ensures currentProgress < 100 ==> db.data == old(db.data)
      ensures (currentProgress == 100 ==>
        db.data == if player1Ready && player2Ready && gameDataInitialized && !isGameStarting && setup.isInitiator &&
                      !old(chapterSelected) && delivered
                   then Apply(old(db.data), ChapterOps(setup.gameRoomId, uid, 1, now)) else old(db.data))
      ensures player1Ready == old(player1Ready) && player2Ready == old(player2Ready)
      ensures isGameStarting == old(isGameStarting) && launches == old(launches)
    {
      currentProgress := STEPS[nextStep];
      if nextStep == 3 {
        gameDataInitialized := true;
      }
      nextStep := nextStep + 1;
      stepsPending := nextStep < |STEPS|;
      assert currentProgress == ProgressAfter(nextStep);
      if currentProgress == 100 {
        assetsLoaded := true;
        CheckReadyToStart(db, now, delivered);
      }
    }

    /** The finalisation posted by the acceleration: 100 %, both flags, then the ready check. */
    method OnFinalize(db: Database, now: int, delivered: bool)
      requires Valid() && finalizePending
      modifies this, db
      ensures Valid()
      ensures !finalizePending && currentProgress == 100 && assetsLoaded && gameDataInitialized
      ensures db.data == if player1Ready && player2Ready && !isGameStarting && setup.isInitiator &&
                            !old(chapterSelected) && delivered
                         then Apply(old(db.data), ChapterOps(setup.gameRoomId, uid, 1, now)) else old(db.data)
      ensures player1Ready == old(player1Ready) && player2Ready == old(player2Ready)
      ensures isGameStarting == old(isGameStarting) && launches == old(launches)
    {
      finalizePending := false;
      currentProgress := 100;
      assetsLoaded := true;
      gameDataInitialized := true;
      CheckReadyToStart(db, now, delivered);
    }

    /** `startChapterActivity`: post the launch, unless the screen is gone. */
    method StartChapterActivity()
      requires Valid() && isGameStarting && launches == 0 && !launchPending
      modifies this
      ensures Valid()
      ensures launchPending == !isActivityDestroyed
      ensures isGameStarting && launches == 0 && selectedChapter == old(selectedChapter)
      ensures isActivityDestroyed == old(isActivityDestroyed) && listening == old(listening)
      ensures chapterSelected == old(chapterSelected)
      ensures player1Ready == old(player1Ready) && player2Ready == old(player2Ready)
      ensures assetsLoaded == old(assetsLoaded) && gameDataInitialized == old(gameDataInitialized)
      ensures stepsPending == old(stepsPending) && finalizePending == old(finalizePending)
      ensures forceStartPending == old(forceStartPending)
    {
      if isActivityDestroyed {
        return;
      }
      launchPending := true;
    }

    /** `forceStartGame`: unless already starting, mark everything ready, chapter 1, and start. */
    method ForceStartGame()
      requires Valid()
      modifies this
      ensures Valid()
      ensures old(isGameStarting) ==> launchPending == old(launchPending) && selectedChapter == old(selectedChapter)
      ensures (!old(isGameStarting) ==>
        isGameStarting && player1Ready && player2Ready && assetsLoaded && gameDataInitialized &&
        selectedChapter == 1 && launchPending == !isActivityDestroyed)
      ensures isGameStarting && launches == old(launches) && forceStartPending == old(forceStartPending)
      ensures isActivityDestroyed == old(isActivityDestroyed) && listening == old(listening)
    {
      if isGameStarting {
        return;
      }
      player1Ready, player2Ready, assetsLoaded, gameDataInitialized := true, true, true, true;
      selectedChapter := 1;
      if !isActivityDestroyed {
        UpdatePlayerStatus();
      }
      isGameStarting := true;
      StartChapterActivity();
    }

    /** The 10 s timer. */
    method OnForceStartTimeout()
      requires Valid() && forceStartPending
      modifies this
      ensures Valid()
      ensures !forceStartPending && isGameStarting
      ensures !old(isGameStarting) ==> launchPending && selectedChapter == 1
      ensures launches == old(launches)
    {
      forceStartPending := false;
      ForceStartGame();
    }

    /** The delayed launch: the chapter screen gets this screen's extras and the chapter. */
    method OnLaunch()
      requires Valid() && launchPending
      modifies this
      ensures Valid()
      ensures !launchPending && launches == 1 && old(launches) == 0
      ensures launched == Some(Forward(setup, Some(selectedChapter)))
      ensures isGameStarting && selectedChapter == old(selectedChapter)
    {
      launchPending := false;
      launches := 1;
      launched := Some(Forward(setup, Some(selectedChapter)));
    }

    /** `cleanupAndFinish`: once only; unregister, write this peer's disconnect, drop every callback. */
    method CleanupAndFinish(db: Database, now: int, delivered: bool)
      requires Valid()
      modifies this, db
      ensures Valid() && isActivityDestroyed && !listening
      ensures old(isActivityDestroyed) ==> db.data == old(db.data)
      ensures (!old(isActivityDestroyed) ==>
        db.data == if delivered then Apply(old(db.data), DisconnectOps(setup.gameRoomId, uid, now)) else old(db.data))
      ensures !stepsPending && !finalizePending && !forceStartPending && !launchPending
      ensures launches == old(launches) && isGameStarting == old(isGameStarting)
    {
      if isActivityDestroyed {
        listening := false;
        return;
      }
      listening := false;
      if delivered {
        db.Write(DisconnectOps(setup.gameRoomId, uid, now));
      }
      stepsPending, finalizePending, forceStartPending, launchPending := false, false, false, false;
      isActivityDestroyed := true;
    }

    /** `onDestroy`. */
    method OnDestroy()
      requires Valid()
      modifies this
      ensures Valid() && isActivityDestroyed && !listening
      ensures !stepsPending && !finalizePending && !forceStartPending && !launchPending
      ensures launches == old(launches)
    {
      isActivityDestroyed := true;
      stepsPending, finalizePending, forceStartPending, launchPending := false, false, false, false;
      listening := false;
    }

    /** The listener's readiness update: the two `connected` flags, and `updatePlayerStatus` when either changed. */
    method RefreshReadiness(d: Data)
      requires Valid() && !isActivityDestroyed && !isGameStarting
      modifies this
      ensures Valid()
      ensures player1Ready == IsTrue(d, StatusField(setup.gameRoomId, uid, "connected"))
      ensures player2Ready == IsTrue(d, StatusField(setup.gameRoomId, setup.partnerId, "connected"))
      ensures assetsLoaded == old(assetsLoaded) && gameDataInitialized == old(gameDataInitialized)
      ensures !isGameStarting && !launchPending && launches == old(launches)
      ensures chapterSelected == old(chapterSelected) && selectedChapter == old(selectedChapter)
      ensures isActivityDestroyed == old(isActivityDestroyed) && listening == old(listening)
    {
      var newPlayer1Ready := IsTrue(d, StatusField(setup.gameRoomId, uid, "connected"));
      var newPlayer2Ready := IsTrue(d, StatusField(setup.gameRoomId, setup.partnerId, "connected"));
      if newPlayer1Ready != player1Ready || newPlayer2Ready != player2Ready {
        player1Ready := newPlayer1Ready;
        player2Ready := newPlayer2Ready;
        UpdatePlayerStatus();
      }
    }

    /** This peer is ready to start on its own side: both connected, assets loaded, data initialised. */
    predicate LocallyReady()
      reads this
    {
      player1Ready && player2Ready && assetsLoaded && gameDataInitialized
    }

    /**
     * The listener's start decision on snapshot `d`: with the peer locally
     * ready and the room not yet startable, the initiator selects the chapter
     * and the other peer treats the room as startable; a startable room reads
     * the chapter (1 when absent) and starts.
     */
    method DecideStart(db: Database, d: Data, now: int, delivered: bool)
      requires Valid() && !isActivityDestroyed && !isGameStarting && db.data == d
      modifies this, db
      ensures Valid()
      ensures isGameStarting <==> RoomSaysStart(d, setup.gameRoomId) || (!setup.isInitiator && LocallyReady())
      ensures (isGameStarting ==>
        launchPending && selectedChapter == GetInt(d, RoundGame.RoomField(setup.gameRoomId, "selectedChapter")).GetOr(1))
      ensures (setup.isInitiator && LocallyReady() && !RoomSaysStart(d, setup.gameRoomId) && !old(chapterSelected) ==>
        db.data == if delivered then Apply(d, ChapterOps(setup.gameRoomId, uid, 1, now)) else d)
      ensures (!(setup.isInitiator && LocallyReady() && !RoomSaysStart(d, setup.gameRoomId) && !old(chapterSelected)) ==>
        db.data == d)
      ensures player1Ready == old(player1Ready) && player2Ready == old(player2Ready)
      ensures assetsLoaded == old(assetsLoaded) && gameDataInitialized == old(gameDataInitialized)
      ensures launches == old(launches) && isActivityDestroyed == old(isActivityDestroyed) && listening == old(listening)
    {
      var canStartGame := RoomSaysStart(d, setup.gameRoomId);
      if LocallyReady() && !canStartGame {
        if setup.isInitiator && !chapterSelected {
          SelectRandomChapter(db, now, delivered);
        } else if !setup.isInitiator {
          canStartGame := true;
        }
      }
      if canStartGame && !isGameStarting {
        selectedChapter := GetInt(d, RoundGame.RoomField(setup.gameRoomId, "selectedChapter")).GetOr(1);
        isGameStarting := true;
        StartChapterActivity();
      }
    }

    /**
     * The room listener.  Ignored once destroyed or starting.  A missing room
     * ends the screen; otherwise the readiness flags follow the snapshot and
     * the start decision is taken on it.
     */
    method OnRoomChange(db: Database, now: int, delivered: bool)
      requires Valid()
      modifies this, db
      ensures Valid()
      ensures (!old(listening) || old(isActivityDestroyed) || old(isGameStarting) ==>
        db.data == old(db.data) && isGameStarting == old(isGameStarting) && launchPending == old(launchPending))
      ensures (old(listening) && !old(isActivityDestroyed) && !old(isGameStarting) &&
               !Exists(old(db.data), RoundGame.Room(setup.gameRoomId)) ==>
        isActivityDestroyed && !listening && !isGameStarting && !launchPending &&
        db.data == if delivered then Apply(old(db.data), DisconnectOps(setup.gameRoomId, uid, now)) else old(db.data))
      ensures (old(listening) && !old(isActivityDestroyed) && !old(isGameStarting) &&
               Exists(old(db.data), RoundGame.Room(setup.gameRoomId)) ==>
        listening && !isActivityDestroyed &&
        player1Ready == IsTrue(old(db.data), StatusField(setup.gameRoomId, uid, "connected")) &&
        player2Ready == IsTrue(old(db.data), StatusField(setup.gameRoomId, setup.partnerId, "connected")) &&
        assetsLoaded == old(assetsLoaded) && gameDataInitialized == old(gameDataInitialized) &&
        (isGameStarting <==> RoomSaysStart(old(db.data), setup.gameRoomId) || (!setup.isInitiator && LocallyReady())) &&
        (isGameStarting ==>
          launchPending &&
          selectedChapter == GetInt(old(db.data), RoundGame.RoomField(setup.gameRoomId, "selectedChapter")).GetOr(1)))
      ensures (old(listening) && !old(isActivityDestroyed) && !old(isGameStarting) &&
               Exists(old(db.data), RoundGame.Room(setup.gameRoomId)) ==>
        var d := old(db.data);
        var selects := setup.isInitiator && LocallyReady() && !RoomSaysStart(d, setup.gameRoomId) && !old(chapterSelected);
        (selects ==> db.data == if delivered then Apply(d, ChapterOps(setup.gameRoomId, uid, 1, now)) else d) &&
        (!selects ==> db.data == d))
      ensures launches == old(launches)
    {
      if !listening || isActivityDestroyed || isGameStarting {
        return;
      }
      var d := db.data;
      if !Exists(d, RoundGame.Room(setup.gameRoomId)) {
        CleanupAndFinish(db, now, delivered);
        return;
      }
      RefreshReadiness(d);
      DecideStart(db, d, now, delivered);
    }
  }

  /**
   * The initiator's side of the handshake: with both peers announced and its
   * own loading done, one snapshot makes it write the chapter, and the
   * snapshot of that write starts it on chapter 1.
   */
  method InitiatorStartsOnChapterOne(s: LoadingScreen, db: Database, now: int)
    requires s.Valid() && s.listening && !s.isActivityDestroyed && !s.isGameStarting && !s.chapterSelected
    requires s.setup.isInitiator && s.assetsLoaded && s.gameDataInitialized
    requires Exists(db.data, RoundGame.Room(s.setup.gameRoomId)) && !RoomSaysStart(db.data, s.setup.gameRoomId)
    requires IsTrue(db.data, StatusField(s.setup.gameRoomId, s.uid, "connected"))
    requires IsTrue(db.data, StatusField(s.setup.gameRoomId, s.setup.partnerId, "connected"))
    modifies s, db
    ensures s.isGameStarting && s.launchPending && s.selectedChapter == 1
  {
    var d := db.data;
    s.OnRoomChange(db, now, true);
    assert db.data == Apply(d, ChapterOps(s.setup.gameRoomId, s.uid, 1, now));
    ChapterWriteStartsRoom(d, s.setup.gameRoomId, s.uid, 1, now);
    var id := s.setup.gameRoomId;
    assert Exists(db.data, RoundGame.Room(id)) by {
      var q := RoundGame.RoomField(id, "selectedChapter");
      assert q in db.data;
      assert Within(RoundGame.Room(id), q);
    }
    s.OnRoomChange(db, now, true);
  }
}
