/**
 * The home screen (`DashboardActivity`): the level arithmetic on experience
 * points, the profile read with its defaults, the document written for a new
 * user, and the tab switcher.
 */
module Dashboard {
  import opened Wrappers
  import opened Store
  import opened Ledger
  import JavaInt

  const XP_PER_LEVEL := 100

  /** `calculateLevel`: `xp / 100 + 1` with Java's truncating division. */
  function Level(xp: int): (r: int)
    ensures xp >= 0 ==> r >= 1 && (r - 1) * XP_PER_LEVEL <= xp < r * XP_PER_LEVEL
  {
    JavaInt.Div(xp, XP_PER_LEVEL) + 1
  }

  /** `calculateProgressInLevel`: `xp % 100` with Java's remainder. */
  function Progress(xp: int): int {
    JavaInt.Rem(xp, XP_PER_LEVEL)
  }

  /** For any non-negative xp the level starts at 1, progress is a percentage, and together they give back xp. */
  lemma LevelAndProgress(xp: int)
    requires xp >= 0
    ensures Level(xp) >= 1 && 0 <= Progress(xp) < XP_PER_LEVEL
    ensures (Level(xp) - 1) * XP_PER_LEVEL + Progress(xp) == xp
  {
    JavaInt.DivRem(xp, XP_PER_LEVEL);
  }

  /** Another 100 xp is exactly one more level with the same progress. */
  lemma HundredXpIsOneLevel(xp: int)
    requires xp >= 0
    ensures Level(xp + XP_PER_LEVEL) == Level(xp) + 1
    ensures Progress(xp + XP_PER_LEVEL) == Progress(xp)
  {
    LevelAndProgress(xp);
    LevelAndProgress(xp + XP_PER_LEVEL);
  }

  /** What the profile panel shows. */
  datatype Profile = Profile(coins: int, xp: int, totalGames: int, winStreak: int, gameTokens: int,
                             level: int, progress: int)

  const DEFAULT_COINS := 100
  const DEFAULT_TOKENS := 10

  /** `setDefaultValues`: what the panel shows when there is nothing to read. */
  const DefaultProfile := Profile(DEFAULT_COINS, 0, 0, 0, DEFAULT_TOKENS, 1, 0)

  function Field(d: Data, user: string, name: string, default: int): int {
    GetInt(d, FieldPath(user, name)).GetOr(default)
  }

  /** The panel for an existing document: each missing field takes its default. */
  function ShowDocument(d: Data, user: string): (p: Profile)
    ensures GetInt(d, FieldPath(user, "coins")).None? ==> p.coins == DEFAULT_COINS
    ensures GetInt(d, FieldPath(user, "xp")).None? ==> p.xp == 0 && p.level == 1 && p.progress == 0
    ensures GetInt(d, FieldPath(user, "totalGamesPlayed")).None? ==> p.totalGames == 0
    ensures GetInt(d, FieldPath(user, "winStreak")).None? ==> p.winStreak == 0
    ensures GetInt(d, FieldPath(user, "gameTokens")).None? ==> p.gameTokens == DEFAULT_TOKENS
    ensures GetInt(d, FieldPath(user, "coins")).Some? ==> p.coins == GetInt(d, FieldPath(user, "coins")).value
    ensures GetInt(d, FieldPath(user, "xp")).Some? ==> p.xp == GetInt(d, FieldPath(user, "xp")).value
    ensures GetInt(d, FieldPath(user, "totalGamesPlayed")).Some? ==>
      p.totalGames == GetInt(d, FieldPath(user, "totalGamesPlayed")).value
    ensures GetInt(d, FieldPath(user, "winStreak")).Some? ==> p.winStreak == GetInt(d, FieldPath(user, "winStreak")).value
    ensures GetInt(d, FieldPath(user, "gameTokens")).Some? ==> p.gameTokens == GetInt(d, FieldPath(user, "gameTokens")).value
    ensures p.xp >= 0 ==> (p.level - 1) * XP_PER_LEVEL + p.progress == p.xp
  {
    var xp := Field(d, user, "xp", 0);
    assert xp >= 0 ==> (Level(xp) - 1) * XP_PER_LEVEL + Progress(xp) == xp by {
      if xp >= 0 { LevelAndProgress(xp); }
    }
    Profile(Field(d, user, "coins", DEFAULT_COINS), xp, Field(d, user, "totalGamesPlayed", 0),
            Field(d, user, "winStreak", 0), Field(d, user, "gameTokens", DEFAULT_TOKENS),
            Level(xp), Progress(xp))
  }

  /** The Firestore `User` record. */
  datatype User = User(coins: int, xp: int, level: int, totalGamesPlayed: int, winStreak: int,
                       gameTokens: int, lastLoginDate: string)

  /** `new User(coins, xp, level)`: no games, no streak, 10 tokens, no login date. */
  function NewUser(coins: int, xp: int, level: int): (u: User)
    ensures u.coins == coins && u.xp == xp && u.level == level
    ensures u.totalGamesPlayed == 0 && u.winStreak == 0 && u.gameTokens == 10 && u.lastLoginDate == ""
  {
    User(coins, xp, level, 0, 0, 10, "")
  }

  /** `document(user).set(u)`: the document is replaced by exactly the record's fields. */
  function SetUserOps(user: string, u: User): seq<Op> {
    [Delete(UserDoc(user)),
     Put(FieldPath(user, "coins"), Int(u.coins)),
     Put(FieldPath(user, "xp"), Int(u.xp)),
     Put(FieldPath(user, "level"), Int(u.level)),
     Put(FieldPath(user, "totalGamesPlayed"), Int(u.totalGamesPlayed)),
     Put(FieldPath(user, "winStreak"), Int(u.winStreak)),
     Put(FieldPath(user, "gameTokens"), Int(u.gameTokens)),
     Put(FieldPath(user, "lastLoginDate"), Str(u.lastLoginDate))]
  }

  /** Tells the `User` field names apart by their first letter and length. */
  function UserFieldCode(name: string): int {
    if name == [] then -1
    else match name[0]
      case 'c' => 0 case 'x' => 1 case 't' => 3 case 'w' => 4 case 'g' => 5
      case 'l' => if |name| == 5 then 2 else 6
      case _ => -1
  }

  /** The record `createNewUserDocument` writes. */
  const NEW_USER := NewUser(100, 0, 1)

  /**
   * A document written by `createNewUserDocument`, read back by `loadUserData`,
   * shows exactly what `setDefaultValues` shows: the two paths agree.
   */
  lemma NewUserDocumentShowsDefaults(d: Data, user: string)
    ensures ShowDocument(Apply(d, SetUserOps(user, NEW_USER)), user) == DefaultProfile
  {
    var after := Apply(d, SetUserOps(user, NEW_USER));
    NewUserFieldReads(d, user, 0);
    NewUserFieldReads(d, user, 1);
    NewUserFieldReads(d, user, 3);
    NewUserFieldReads(d, user, 4);
    NewUserFieldReads(d, user, 5);
    assert Field(after, user, "coins", DEFAULT_COINS) == 100;
    assert Field(after, user, "xp", 0) == 0;
    assert Level(0) == 1 && Progress(0) == 0;
  }

  /** Each field of the new-user document reads back. */
  lemma NewUserFieldReads(d: Data, user: string, k: nat)
    requires k < 7
    ensures (var put := SetUserOps(user, NEW_USER)[k + 1];
      Get(Apply(d, SetUserOps(user, NEW_USER)), put.at) == Some(put.v))
  {
    var ops := SetUserOps(user, NEW_USER);
    var d0 := Step(d, ops[0]);
    assert Apply(d, ops) == Apply(d0, ops[1..]);
    var puts := ops[1..];
    forall i | 0 <= i < |puts| ensures puts[i].Put? && |puts[i].at| == 3 && UserFieldCode(puts[i].at[2]) == i {
    }
    assert DistinctPuts(puts);
    PutSurvives(d0, puts, k);
  }

  /** What `loadUserData` does with the result of reading `users/<uid>`. */
  datatype Load = Shown(profile: Profile, ops: seq<Op>)

  /**
   * The read succeeds with a document: show it; succeeds without one: create
   * the new-user document and show the defaults; fails: show the defaults.
   */
  function LoadUserData(d: Data, user: string, fetched: bool): (r: Load)
    ensures !fetched ==> r == Shown(DefaultProfile, [])
    ensures fetched && Exists(d, UserDoc(user)) ==> r == Shown(ShowDocument(d, user), [])
    ensures fetched && !Exists(d, UserDoc(user)) ==> r == Shown(DefaultProfile, SetUserOps(user, NEW_USER))
  {
    if !fetched then Shown(DefaultProfile, [])
    else if Exists(d, UserDoc(user)) then Shown(ShowDocument(d, user), [])
    else Shown(DefaultProfile, SetUserOps(user, NEW_USER))
  }

  const LEADERBOARD_TAB := 0
  const CHAT_TAB := 1
  const PROFILE_TAB := 2
  const STORAGE_TAB := 3

  /** The tab bar: which tab is current and which content frame is visible. */
  class Tabs {
    var currentTab: int
    var leaderboardVisible: bool
    var chatVisible: bool
    var profileVisible: bool
    var storageVisible: bool

    /**
     * The field starts on the profile tab.  That no frame is visible until
     * `showTab` runs is an assumption: the layout that sets the frames'
     * initial visibility is not part of this model.
     */
    constructor ()
      ensures currentTab == PROFILE_TAB
      ensures !leaderboardVisible && !chatVisible && !profileVisible && !storageVisible
    {
      currentTab := PROFILE_TAB;
      leaderboardVisible, chatVisible, profileVisible, storageVisible := false, false, false, false;
    }

    function VisibleCount(): (n: nat)
      reads this
      ensures n <= 4
    {
      (if leaderboardVisible then 1 else 0) + (if chatVisible then 1 else 0) +
      (if profileVisible then 1 else 0) + (if storageVisible then 1 else 0)
    }

    /** `showTab(i)`: hide every frame, then show the one that matches `i`, if any. */
    method ShowTab(i: int)
      modifies this
      ensures currentTab == i
      ensures leaderboardVisible == (i == LEADERBOARD_TAB) && chatVisible == (i == CHAT_TAB)
      ensures profileVisible == (i == PROFILE_TAB) && storageVisible == (i == STORAGE_TAB)
      ensures VisibleCount() == if 0 <= i <= 3 then 1 else 0
    {
      currentTab := i;
      profileVisible := false;
      leaderboardVisible := false;
      chatVisible := false;
      storageVisible := false;
      if i == LEADERBOARD_TAB {
        leaderboardVisible := true;
      } else if i == CHAT_TAB {
        chatVisible := true;
      } else if i == PROFILE_TAB {
        profileVisible := true;
      } else if i == STORAGE_TAB {
        storageVisible := true;
      }
    }
  }
}
