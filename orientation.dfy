/**
 * The orientation gate (`OrientationCheckActivity`): each peer publishes
 * whether its phone is in landscape under `gameRooms/<id>/orientationStatus/<uid>`,
 * watches the partner's entry, and moves on to the loading screen once both
 * are in landscape.  The 2.5 s delayed start is an explicit pending callback.
 */
module OrientationCheck {
  import opened Wrappers
  import opened Store
  import opened Intents
  import RoundGame

  function StatusNode(id: string, user: string): Path {
    RoundGame.Room(id) + ["orientationStatus", user]
  }

  function StatusField(id: string, user: string, field: string): Path {
    RoundGame.Room(id) + ["orientationStatus", user, field]
  }

  /** `updateOrientationInFirebase`: this peer's orientation, name, and `connected = true`. */
  function PublishOps(id: string, user: string, name: string, landscape: bool, now: int): (r: seq<Op>)
    ensures Inside(r, StatusNode(id, user))
  {
    [Put(StatusField(id, user, "isLandscape"), Bool(landscape)),
     Put(StatusField(id, user, "lastUpdated"), Int(now)),
     Put(StatusField(id, user, "name"), Str(name)),
     Put(StatusField(id, user, "connected"), Bool(true))]
  }

  /** `cleanupAndFinish`: this peer is gone. */
  function DisconnectOps(id: string, user: string, now: int): seq<Op> {
    [Put(StatusField(id, user, "connected"), Bool(false)),
     Put(StatusField(id, user, "lastUpdated"), Int(now))]
  }

  /** A write made only of fields of this peer's own status entry. */
  lemma OwnEntryOnly(d: Data, id: string, user: string, ops: seq<Op>, q: Path)
    requires forall i :: 0 <= i < |ops| ==> |ops[i].at| == 5 && ops[i].at[..4] == StatusNode(id, user)
    requires !Within(StatusNode(id, user), q)
    ensures Get(Apply(d, ops), q) == Get(d, q)
  {
    WriteInside(d, ops, StatusNode(id, user), q);
  }

  /** Publishing leaves the partner's entry, and everything outside this peer's own, as it was. */
  lemma PublishFrame(d: Data, id: string, user: string, name: string, landscape: bool, now: int, q: Path)
    requires !Within(StatusNode(id, user), q)
    ensures Get(Apply(d, PublishOps(id, user, name, landscape, now)), q) == Get(d, q)
  {
    OwnEntryOnly(d, id, user, PublishOps(id, user, name, landscape, now), q);
  }

  /** What a peer publishes is what the partner reads back: its orientation, and connected. */
  lemma PublishReadBack(d: Data, id: string, user: string, name: string, landscape: bool, now: int)
    ensures (var after := Apply(d, PublishOps(id, user, name, landscape, now));
      GetBool(after, StatusField(id, user, "isLandscape")) == Some(landscape) &&
      GetBool(after, StatusField(id, user, "connected")) == Some(true))
  {
    var ops := PublishOps(id, user, name, landscape, now);
    assert forall i, j :: 0 <= i < j < 4 ==> ops[i].at[4] != ops[j].at[4];
    assert DistinctPuts(ops);
    PutSurvives(d, ops, 0);
    PutSurvives(d, ops, 3);
  }

  /** The disconnect write stays in the peer's own entry, keeps its orientation, and reads back as disconnected. */
  lemma DisconnectEffect(d: Data, id: string, user: string, now: int, q: Path)
    requires !Within(StatusNode(id, user), q)
    ensures (var after := Apply(d, DisconnectOps(id, user, now));
      Get(after, q) == Get(d, q) &&
      GetBool(after, StatusField(id, user, "connected")) == Some(false) &&
      Get(after, StatusField(id, user, "isLandscape")) == Get(d, StatusField(id, user, "isLandscape")))
  {
    var ops := DisconnectOps(id, user, now);
    OwnEntryOnly(d, id, user, ops, q);
    assert ops[0].at[4] != ops[1].at[4];
    assert DistinctPuts(ops);
    PutSurvives(d, ops, 0);
    ApplyFrame(d, ops, StatusField(id, user, "isLandscape"));
  }

  class OrientationGate {
    const uid: string
    const userName: string
    const setup: Setup

    var isLandscape: bool
    var partnerIsLandscape: bool
    var hasStartedLoading: bool
    var isActivityDestroyed: bool
    /** The room listener is registered. */
    var listening: bool
    /** Delayed-start callbacks posted and not yet run. */
    var pendingStarts: nat
    /** How many times the loading screen was started, and with what. */
    var launches: nat
    var launched: Option<Intent>

    /** Loading starts at most once, only after the flag is set, and with the extras this screen accepted. */
    predicate Valid()
      reads this
    {
      launches <= 1 &&
      (launches == 1 ==> hasStartedLoading && launched == Some(Forward(setup, None))) &&
      (launches == 0 ==> launched.None?)
    }

    /** `onCreate` once the extras have passed `validateIntentData`. */
    constructor (uid: string, displayName: Option<string>, setup: Setup)
      ensures Valid()
      ensures this.uid == uid && userName == DisplayName(displayName) && this.setup == setup
      ensures !isLandscape && !partnerIsLandscape && !hasStartedLoading && !isActivityDestroyed
      ensures !listening && pendingStarts == 0 && launches == 0
    {
      this.uid := uid;
      userName := DisplayName(displayName);
      this.setup := setup;
      isLandscape, partnerIsLandscape, hasStartedLoading, isActivityDestroyed := false, false, false, false;
      listening, pendingStarts, launches, launched := false, 0, 0, None;
    }

    /** `updateOrientationUI`: with both phones in landscape and loading not started, post the delayed start. */
    method UpdateOrientationUI()
      modifies this
      ensures pendingStarts == old(pendingStarts) + (if isLandscape && partnerIsLandscape && !hasStartedLoading then 1 else 0)
      ensures isLandscape == old(isLandscape) && partnerIsLandscape == old(partnerIsLandscape)
      ensures hasStartedLoading == old(hasStartedLoading) && isActivityDestroyed == old(isActivityDestroyed)
      ensures listening == old(listening) && launches == old(launches) && launched == old(launched)
    {
      if isLandscape && partnerIsLandscape && !hasStartedLoading {
        pendingStarts := pendingStarts + 1;
      }
    }

    /** `updateOrientationInFirebase`. */
    method UpdateOrientationInFirebase(db: Database, now: int)
      modifies db
      ensures db.data == Apply(old(db.data), PublishOps(setup.gameRoomId, uid, userName, isLandscape, now))
    {
      db.Write(PublishOps(setup.gameRoomId, uid, userName, isLandscape, now));
    }

    /** `checkCurrentOrientation` (from `onCreate`, and from `onResume` while not destroyed). */
    method CheckCurrentOrientation(db: Database, landscape: bool, now: int)
      requires Valid()
      modifies this, db
      ensures Valid()
      ensures isLandscape == landscape && partnerIsLandscape == old(partnerIsLandscape)
      ensures pendingStarts == old(pendingStarts) + (if landscape && partnerIsLandscape && !hasStartedLoading then 1 else 0)
      ensures db.data == Apply(old(db.data), PublishOps(setup.gameRoomId, uid, userName, landscape, now))
      ensures hasStartedLoading == old(hasStartedLoading) && isActivityDestroyed == old(isActivityDestroyed)
      ensures listening == old(listening) && launches == old(launches)
    {
      isLandscape := landscape;
      UpdateOrientationUI();
      UpdateOrientationInFirebase(db, now);
    }

    /** `onResume`. */
    method OnResume(db: Database, landscape: bool, now: int)
      requires Valid()
      modifies this, db
      ensures Valid()
      ensures isActivityDestroyed ==> db.data == old(db.data) && isLandscape == old(isLandscape)
      ensures (!isActivityDestroyed ==>
        isLandscape == landscape &&
        db.data == Apply(old(db.data), PublishOps(setup.gameRoomId, uid, userName, landscape, now)))
      ensures isActivityDestroyed == old(isActivityDestroyed) && launches == old(launches)
    {
      if !isActivityDestroyed {
        CheckCurrentOrientation(db, landscape, now);
      }
    }

    /** The 1 s delayed `setupGameRoomListener`. */
    method SetupGameRoomListener()
      modifies this
      ensures listening == (old(listening) || !isActivityDestroyed)
      ensures isActivityDestroyed == old(isActivityDestroyed) && launches == old(launches) && launched == old(launched)
      ensures hasStartedLoading == old(hasStartedLoading) && pendingStarts == old(pendingStarts)
    {
      if !isActivityDestroyed {
        listening := true;
      }
    }

    /** `startLoadingActivity`: hand the accepted extras to the loading screen and finish. */
    method StartLoadingActivity()
      requires Valid() && hasStartedLoading && launches == 0
      modifies this
      ensures Valid()
      ensures launches == if old(isActivityDestroyed) then 0 else 1
      ensures launches == 1 ==> launched == Some(Forward(setup, None))
      ensures hasStartedLoading && isActivityDestroyed == old(isActivityDestroyed)
      ensures pendingStarts == old(pendingStarts) && listening == old(listening)
      ensures isLandscape == old(isLandscape) && partnerIsLandscape == old(partnerIsLandscape)
    {
      if isActivityDestroyed {
        return;
      }
      launches := 1;
      launched := Some(Forward(setup, None));
    }

    /**
     * The delayed start, as written: it re-checks only that the screen is alive
     * and loading has not started, not that both phones are still in landscape.
     */
    method OnStartDelay()
      requires Valid() && pendingStarts > 0
      modifies this
      ensures Valid()
      ensures pendingStarts == old(pendingStarts) - 1
      ensures launches == if !old(isActivityDestroyed) && !old(hasStartedLoading) then 1 else old(launches)
      ensures hasStartedLoading == (old(hasStartedLoading) || !old(isActivityDestroyed))
      ensures isLandscape == old(isLandscape) && partnerIsLandscape == old(partnerIsLandscape)
      ensures isActivityDestroyed == old(isActivityDestroyed) && listening == old(listening)
    {
      pendingStarts := pendingStarts - 1;
      if !isActivityDestroyed && !hasStartedLoading {
        hasStartedLoading := true;
        StartLoadingActivity();
      }
    }

    /** The delayed start as the gate means it: both phones must still be in landscape. */
    method OnStartDelayCorrected()
      requires Valid() && pendingStarts > 0
      modifies this
      ensures Valid()
      ensures pendingStarts == old(pendingStarts) - 1
      ensures (launches == if !old(isActivityDestroyed) && !old(hasStartedLoading) && isLandscape && partnerIsLandscape
                           then 1 else old(launches))
      ensures launches > old(launches) ==> isLandscape && partnerIsLandscape
      ensures hasStartedLoading == (old(hasStartedLoading) || (!old(isActivityDestroyed) && isLandscape && partnerIsLandscape))
      ensures isLandscape == old(isLandscape) && partnerIsLandscape == old(partnerIsLandscape)
      ensures isActivityDestroyed == old(isActivityDestroyed) && listening == old(listening)
    {
      pendingStarts := pendingStarts - 1;
      if !isActivityDestroyed && !hasStartedLoading && isLandscape && partnerIsLandscape {
        hasStartedLoading := true;
        StartLoadingActivity();
      }
    }

    /** `cleanupAndFinish`: once only; unregister, then write this peer's disconnect. */
    method CleanupAndFinish(db: Database, now: int, delivered: bool)
      requires Valid()
      modifies this, db
      ensures Valid() && isActivityDestroyed
      ensures old(isActivityDestroyed) ==> db.data == old(db.data) && listening == old(listening)
      ensures (!old(isActivityDestroyed) ==>
        !listening &&
        db.data == if delivered then Apply(old(db.data), DisconnectOps(setup.gameRoomId, uid, now)) else old(db.data))
      ensures launches == old(launches) && hasStartedLoading == old(hasStartedLoading) && pendingStarts == old(pendingStarts)
      ensures isLandscape == old(isLandscape) && partnerIsLandscape == old(partnerIsLandscape)
    {
      if isActivityDestroyed {
        return;
      }
      listening := false;
      if delivered {
        db.Write(DisconnectOps(setup.gameRoomId, uid, now));
      }
      isActivityDestroyed := true;
    }

    /**
     * The room listener: a missing room, or a partner entry with
     * `connected == false`, ends this screen; a stored partner orientation that
     * differs from the one known here replaces it.
     */
    method OnRoomChange(db: Database, now: int, delivered: bool)
      requires Valid()
      modifies this, db
      ensures Valid()
      ensures !old(listening) || old(isActivityDestroyed) ==> db.data == old(db.data) && partnerIsLandscape == old(partnerIsLandscape)
      ensures (old(listening) && !old(isActivityDestroyed) ==>
        var d := old(db.data);
        var stored := GetBool(d, StatusField(setup.gameRoomId, setup.partnerId, "isLandscape"));
        var gone := !Exists(d, RoundGame.Room(setup.gameRoomId)) ||
                    GetBool(d, StatusField(setup.gameRoomId, setup.partnerId, "connected")) == Some(false);
        (isActivityDestroyed <==> gone) &&
        (Exists(d, RoundGame.Room(setup.gameRoomId)) ==> partnerIsLandscape == stored.GetOr(old(partnerIsLandscape))) &&
        (!gone ==> db.data == d) &&
        (gone && delivered ==> db.data == Apply(d, DisconnectOps(setup.gameRoomId, uid, now))) &&
        (gone && !delivered ==> db.data == d))
      ensures pendingStarts == old(pendingStarts) +
        (if old(listening) && !old(isActivityDestroyed) && Exists(old(db.data), RoundGame.Room(setup.gameRoomId)) &&
            GetBool(old(db.data), StatusField(setup.gameRoomId, setup.partnerId, "isLandscape")) == Some(true) &&
            !old(partnerIsLandscape) && isLandscape && !hasStartedLoading
         then 1 else 0)
      ensures isLandscape == old(isLandscape) && launches == old(launches) && hasStartedLoading == old(hasStartedLoading)
    {
      if !listening || isActivityDestroyed {
        return;
      }
      var d := db.data;
      if !Exists(d, RoundGame.Room(setup.gameRoomId)) {
        CleanupAndFinish(db, now, delivered);
        return;
      }
      var stored := GetBool(d, StatusField(setup.gameRoomId, setup.partnerId, "isLandscape"));
      if stored.Some? && stored.value != partnerIsLandscape {
        partnerIsLandscape := stored.value;
        UpdateOrientationUI();
      }
      if GetBool(d, StatusField(setup.gameRoomId, setup.partnerId, "connected")) == Some(false) {
        CleanupAndFinish(db, now, delivered);
      }
    }

    /** `onConfigurationChanged`: publish again only when the orientation actually changed. */
    method OnConfigurationChanged(db: Database, landscape: bool, now: int)
      requires Valid()
      modifies this, db
      ensures Valid()
      ensures old(isActivityDestroyed) ==> db.data == old(db.data) && isLandscape == old(isLandscape)
      ensures !old(isActivityDestroyed) ==> isLandscape == landscape
      ensures (!old(isActivityDestroyed) && landscape != old(isLandscape) ==>
        db.data == Apply(old(db.data), PublishOps(setup.gameRoomId, uid, userName, landscape, now)))
      ensures landscape == old(isLandscape) ==> db.data == old(db.data)
      ensures pendingStarts == old(pendingStarts) +
        (if !old(isActivityDestroyed) && landscape != old(isLandscape) && landscape && partnerIsLandscape && !hasStartedLoading
         then 1 else 0)
      ensures partnerIsLandscape == old(partnerIsLandscape) && hasStartedLoading == old(hasStartedLoading)
      ensures isActivityDestroyed == old(isActivityDestroyed) && launches == old(launches)
    {
      if isActivityDestroyed {
        return;
      }
      var wasLandscape := isLandscape;
      isLandscape := landscape;
      if wasLandscape != isLandscape {
        UpdateOrientationUI();
        UpdateOrientationInFirebase(db, now);
      }
    }

    /** `onDestroy`: the flag that every pending callback checks, and the listener removed. */
    method OnDestroy()
      requires Valid()
      modifies this
      ensures Valid() && isActivityDestroyed && !listening
      ensures launches == old(launches) && pendingStarts == old(pendingStarts)
    {
      isActivityDestroyed := true;
      listening := false;
    }
  }

  /**
   * The gate's purpose: this phone waits in landscape, the room reports the
   * partner turned to landscape; the delayed start is posted, and when it
   * runs the loading screen is started once with the accepted extras.
   */
  method PartnerLandscapeStartsLoading(g: OrientationGate, db: Database, now: int, delivered: bool)
    requires g.Valid() && g.listening && !g.isActivityDestroyed && !g.hasStartedLoading && g.launches == 0
    requires g.isLandscape && !g.partnerIsLandscape
    requires Exists(db.data, RoundGame.Room(g.setup.gameRoomId))
    requires GetBool(db.data, StatusField(g.setup.gameRoomId, g.setup.partnerId, "isLandscape")) == Some(true)
    requires GetBool(db.data, StatusField(g.setup.gameRoomId, g.setup.partnerId, "connected")) != Some(false)
    modifies g, db
    ensures g.Valid() && g.launches == 1 && g.launched == Some(Forward(g.setup, None))
    ensures g.partnerIsLandscape && db.data == old(db.data)
  {
    g.OnRoomChange(db, now, delivered);
    g.OnStartDelay();
  }

  /**
   * As written: both phones in landscape post the delayed start; this peer
   * turns back to portrait within the 2.5 s; the start still happens.
   */
  method PortraitStartAsWritten(g: OrientationGate, db: Database, now: int)
    requires g.Valid() && !g.isActivityDestroyed && !g.hasStartedLoading
    requires g.isLandscape && g.partnerIsLandscape
    modifies g, db
    ensures g.launches == 1 && !g.isLandscape
  {
    g.UpdateOrientationUI();
    g.OnConfigurationChanged(db, false, now);
    g.OnStartDelay();
  }

  /** Corrected: after the same steps no start happens. */
  method PortraitStartRefusedCorrected(g: OrientationGate, db: Database, now: int)
    requires g.Valid() && !g.isActivityDestroyed && !g.hasStartedLoading
    requires g.isLandscape && g.partnerIsLandscape
    modifies g, db
    ensures g.launches == 0 && !g.hasStartedLoading
  {
    g.UpdateOrientationUI();
    g.OnConfigurationChanged(db, false, now);
    g.OnStartDelayCorrected();
  }
}
