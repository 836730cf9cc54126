/**
 * `AdsActivity`: coin credits from rewarded ads and from the once-a-day
 * bonus, the per-day ad statistics, and the countdown text shown until the
 * next bonus. Dates are the `yyyy-MM-dd` strings the caller passes in as
 * `today`; the ad SDK is reduced to the amount it grants.
 */
module Ads {
  import opened Wrappers
  import opened Store
  import Ledger
  import JavaInt

  const COINS_PER_AD: int := 250
  const DAILY_BONUS_COINS: int := 100

  const COINS: string := "coins"
  const LAST_DAILY_BONUS: string := "lastDailyBonus"
  const ADS_WATCHED_TODAY: string := "adsWatchedToday"
  const COINS_EARNED_TODAY: string := "coinsEarnedToday"
  const TOTAL_ADS_WATCHED: string := "totalAdsWatched"
  const LAST_STATS_UPDATE: string := "lastStatsUpdate"

  /** The reward an ad grants; an unspecified amount (0) becomes the default 250. */
  function RewardAmount(granted: int): (r: int)
    ensures r != 0
    ensures granted != 0 ==> r == granted
    ensures granted == 0 ==> r == COINS_PER_AD
  {
    if granted == 0 then COINS_PER_AD else granted
  }

  /** The bonus counts as claimed exactly when the stored claim date is today's date. */
  predicate ClaimedToday(lastClaimDate: Option<string>, today: string) {
    lastClaimDate == Some(today)
  }

  /** The daily-bonus transaction: coins (missing as 0) plus 100, and today's date as the claim date. */
  function BonusTx(d: Data, user: string, today: string): (r: Ledger.Tx)
    ensures r.Committed? <==> Exists(d, Ledger.UserDoc(user))
    ensures r.Committed? ==> r.balance == GetInt(d, Ledger.FieldPath(user, COINS)).GetOr(0) + DAILY_BONUS_COINS
  {
    match Ledger.CreditTx(d, Some(user), COINS, DAILY_BONUS_COINS)
    case Aborted => Ledger.Aborted
    case Committed(balance, ops) =>
      Ledger.Committed(balance, ops + [Put(Ledger.FieldPath(user, LAST_DAILY_BONUS), Str(today))])
  }

  /** A committed bonus leaves the document claimed for today and exactly 100 coins richer. */
  lemma BonusMarksToday(d: Data, user: string, today: string)
    requires Exists(d, Ledger.UserDoc(user))
    ensures var after := Apply(d, BonusTx(d, user, today).ops);
      ClaimedToday(GetStr(after, Ledger.FieldPath(user, LAST_DAILY_BONUS)), today) &&
      GetInt(after, Ledger.FieldPath(user, COINS)) == Some(GetInt(d, Ledger.FieldPath(user, COINS)).GetOr(0) + DAILY_BONUS_COINS)
  {
    var ops := BonusTx(d, user, today).ops;
    assert |ops| == 2;
    ApplyPut(d, ops, 1);
    ApplyPut(d, ops, 0);
  }

  /** The statistics written by `updateUserStats`, from the already-updated counters. */
  function StatsOps(user: string, adsToday: int, totalAds: int, earnedToday: int, today: string, fromAd: bool): seq<Op> {
    (if fromAd
     then [Put(Ledger.FieldPath(user, ADS_WATCHED_TODAY), Int(adsToday)),
           Put(Ledger.FieldPath(user, TOTAL_ADS_WATCHED), Int(totalAds))]
     else []) +
    [Put(Ledger.FieldPath(user, COINS_EARNED_TODAY), Int(earnedToday)),
     Put(Ledger.FieldPath(user, LAST_STATS_UPDATE), Str(today))]
  }

  /** The split of `formatTimeLeft`: whole hours, then minutes and seconds each taken mod 60. */
  datatype TimeLeft = TimeLeft(hours: int, minutes: int, seconds: int)

  function SplitTimeLeft(ms: int): (t: TimeLeft)
    ensures ms >= 0 ==> t.hours >= 0 && 0 <= t.minutes < 60 && 0 <= t.seconds < 60
    ensures ms >= 0 ==> t.hours * 3600 + t.minutes * 60 + t.seconds == ms / 1000
  {
    var t := TimeLeft(JavaInt.Div(ms, 3600000), JavaInt.Rem(JavaInt.Div(ms, 60000), 60), JavaInt.Rem(JavaInt.Div(ms, 1000), 60));
    if ms >= 0 then
      SecondsSplit(ms);
      t
    else t
  }

  lemma SecondsSplit(ms: nat)
    ensures (ms / 3600000) * 3600 + ((ms / 60000) % 60) * 60 + (ms / 1000) % 60 == ms / 1000
  {
    var s := ms / 1000;
    var m := ms / 60000;
    assert m == s / 60;
    assert ms / 3600000 == m / 60;
  }

  /** `formatTimeLeft`: "Hh Mm" when there are hours, else "Mm Ss" when there are minutes, else "Ss". */
  function FormatTimeLeft(ms: int): (r: string)
    ensures 'h' in r <==> SplitTimeLeft(ms).hours > 0
    ensures 'm' in r <==> SplitTimeLeft(ms).hours > 0 || SplitTimeLeft(ms).minutes > 0
    ensures 's' in r <==> SplitTimeLeft(ms).hours <= 0
  {
    var t := SplitTimeLeft(ms);
    var h, m, s := JavaInt.ToDecimal(t.hours), JavaInt.ToDecimal(t.minutes), JavaInt.ToDecimal(t.seconds);
    NoLetters(t.hours);
    NoLetters(t.minutes);
    NoLetters(t.seconds);
    if t.hours > 0 then h + "h " + m + "m"
    else if t.minutes > 0 then m + "m " + s + "s"
    else s + "s"
  }

  lemma NoLetters(n: int)
    ensures 'h' !in JavaInt.ToDecimal(n) && 'm' !in JavaInt.ToDecimal(n) && 's' !in JavaInt.ToDecimal(n)
  {
    JavaInt.NatToStringDigits(if n < 0 then -n else n);
  }

  /** Under a minute the text is the number of whole seconds. */
  lemma FormatUnderAMinute(ms: nat)
    requires ms < 60000
    ensures FormatTimeLeft(ms) == JavaInt.NatToString(ms / 1000) + "s"
  {
    assert SplitTimeLeft(ms) == TimeLeft(0, 0, ms / 1000);
  }

  /** From an hour on, the text gives whole hours and the minutes past them. */
  lemma FormatHours(ms: nat)
    requires ms >= 3600000
    ensures FormatTimeLeft(ms) == JavaInt.NatToString(ms / 3600000) + "h " + JavaInt.NatToString((ms / 60000) % 60) + "m"
  {
    assert SplitTimeLeft(ms).hours == ms / 3600000 >= 1;
    assert SplitTimeLeft(ms).minutes == (ms / 60000) % 60;
  }

  /** Under an hour and from a minute on, the text gives the minutes and the seconds past them. */
  lemma FormatMinutes(ms: nat)
    requires 60000 <= ms < 3600000
    ensures FormatTimeLeft(ms) == JavaInt.NatToString(ms / 60000) + "m " + JavaInt.NatToString((ms / 1000) % 60) + "s"
  {
    assert SplitTimeLeft(ms).hours == 0;
    assert SplitTimeLeft(ms).minutes == ms / 60000 >= 1;
    assert SplitTimeLeft(ms).seconds == (ms / 1000) % 60;
  }

  /**
   * The store after `addCoinsToUser` credits `amount`: the coins
   * transaction, then the statistics update `stats` when it is delivered.
   */
  function CreditWrite(d: Data, user: string, amount: int, stats: seq<Op>, statsDelivered: bool): Data {
    match Ledger.CreditTx(d, Some(user), COINS, amount)
    case Aborted => d
    case Committed(_, credit) =>
      var credited := Apply(d, credit);
      if statsDelivered then Apply(credited, stats) else credited
  }

  /** The statistics fields are four distinct leaves of the user document, none of them `coins`. */
  lemma StatsOpsShape(user: string, adsToday: int, totalAds: int, earnedToday: int, today: string, fromAd: bool)
    ensures var ops := StatsOps(user, adsToday, totalAds, earnedToday, today, fromAd);
      DistinctPuts(ops) &&
      forall i :: 0 <= i < |ops| ==> Within(Ledger.UserDoc(user), ops[i].at) && !Within(ops[i].at, Ledger.FieldPath(user, COINS))
  {
    var ops := StatsOps(user, adsToday, totalAds, earnedToday, today, fromAd);
    var base := if fromAd then 2 else 0;
    var code := (f: string) =>
      if f == ADS_WATCHED_TODAY then 0 else if f == TOTAL_ADS_WATCHED then 1
      else if f == COINS_EARNED_TODAY then base else base + 1;
    forall i | 0 <= i < |ops| ensures ops[i].Put? && |ops[i].at| == 3 && code(ops[i].at[2]) == i {
    }
    NumberedPuts(ops, 3, 2, code);
    forall i | 0 <= i < |ops|
      ensures Within(Ledger.UserDoc(user), ops[i].at) && !Within(ops[i].at, Ledger.FieldPath(user, COINS))
    {
      assert ops[i].at[..2] == Ledger.UserDoc(user);
      ApartAt(ops[i].at, Ledger.FieldPath(user, COINS), 2);
    }
  }

  /**
   * After a credited reward whose statistics were delivered, the document
   * holds the credited coins and the new counters; nothing outside it changes.
   */
  lemma RewardReads(d: Data, user: string, amount: int, adsToday: int, totalAds: int, earnedToday: int,
                    today: string, fromAd: bool)
    requires Exists(d, Ledger.UserDoc(user))
    ensures var after := CreditWrite(d, user, amount, StatsOps(user, adsToday, totalAds, earnedToday, today, fromAd), true);
      GetInt(after, Ledger.FieldPath(user, COINS)) == Some(GetInt(d, Ledger.FieldPath(user, COINS)).GetOr(0) + amount) &&
      GetInt(after, Ledger.FieldPath(user, COINS_EARNED_TODAY)) == Some(earnedToday) &&
      GetStr(after, Ledger.FieldPath(user, LAST_STATS_UPDATE)) == Some(today) &&
      (fromAd ==> GetInt(after, Ledger.FieldPath(user, ADS_WATCHED_TODAY)) == Some(adsToday) &&
                  GetInt(after, Ledger.FieldPath(user, TOTAL_ADS_WATCHED)) == Some(totalAds))
  {
    var credit := Ledger.CreditTx(d, Some(user), COINS, amount).ops;
    var stats := StatsOps(user, adsToday, totalAds, earnedToday, today, fromAd);
    assert CreditWrite(d, user, amount, stats, true) == Apply(Apply(d, credit), stats);
    ApplyPut(d, credit, 0);
    StatsReadBack(Apply(d, credit), user, adsToday, totalAds, earnedToday, today, fromAd);
  }

  /** The statistics write reads back and leaves the coins as they were. */
  lemma StatsReadBack(d: Data, user: string, adsToday: int, totalAds: int, earnedToday: int, today: string, fromAd: bool)
    ensures var after := Apply(d, StatsOps(user, adsToday, totalAds, earnedToday, today, fromAd));
      Get(after, Ledger.FieldPath(user, COINS)) == Get(d, Ledger.FieldPath(user, COINS)) &&
      GetInt(after, Ledger.FieldPath(user, COINS_EARNED_TODAY)) == Some(earnedToday) &&
      GetStr(after, Ledger.FieldPath(user, LAST_STATS_UPDATE)) == Some(today) &&
      (fromAd ==> GetInt(after, Ledger.FieldPath(user, ADS_WATCHED_TODAY)) == Some(adsToday) &&
                  GetInt(after, Ledger.FieldPath(user, TOTAL_ADS_WATCHED)) == Some(totalAds))
  {
    var stats := StatsOps(user, adsToday, totalAds, earnedToday, today, fromAd);
    StatsOpsShape(user, adsToday, totalAds, earnedToday, today, fromAd);
    ApplyFrame(d, stats, Ledger.FieldPath(user, COINS));
    var n := |stats|;
    PutSurvives(d, stats, n - 2);
    PutSurvives(d, stats, n - 1);
    if fromAd {
      PutSurvives(d, stats, 0);
      PutSurvives(d, stats, 1);
    }
  }

  /** A credit and its statistics stay inside the user's document. */
  lemma RewardFrame(d: Data, user: string, amount: int, stats: seq<Op>, statsDelivered: bool, q: Path)
    requires forall i :: 0 <= i < |stats| ==> Within(Ledger.UserDoc(user), stats[i].at)
    requires !Within(Ledger.UserDoc(user), q)
    ensures Get(CreditWrite(d, user, amount, stats, statsDelivered), q) == Get(d, q)
  {
    if Ledger.CreditTx(d, Some(user), COINS, amount).Committed? {
      var credit := Ledger.CreditTx(d, Some(user), COINS, amount).ops;
      assert forall i :: 0 <= i < |credit| ==> credit[i].at[..2] == Ledger.UserDoc(user);
      WriteInside(d, credit, Ledger.UserDoc(user), q);
      if statsDelivered {
        WriteInside(Apply(d, credit), stats, Ledger.UserDoc(user), q);
      }
    }
  }

  class AdsScreen {
    const userId: string
    var hasClaimed: bool
    var lastClaimDate: Option<string>
    var currentCoins: int
    var todayAdsWatched: int
    var todayCoinsEarned: int
    var totalAdsCount: int

    constructor (userId: string)
      ensures this.userId == userId && !hasClaimed && lastClaimDate == Some("")
      ensures currentCoins == 0 && todayAdsWatched == 0 && todayCoinsEarned == 0 && totalAdsCount == 0
    {
      this.userId := userId;
      hasClaimed := false;
      lastClaimDate := Some("");
      currentCoins := 0;
      todayAdsWatched := 0;
      todayCoinsEarned := 0;
      totalAdsCount := 0;
    }

    /** `updateDailyBonusUI`: the claimed flag follows the stored date. */
    method UpdateDailyBonusUI(today: string)
      modifies this`hasClaimed
      ensures hasClaimed == ClaimedToday(lastClaimDate, today)
    {
      hasClaimed := ClaimedToday(lastClaimDate, today);
    }

    /**
     * `loadDailyBonusStatus`: an existing document supplies the claim date
     * (`None` when the field is absent); a missing one is created with
     * default values and an empty claim date.
     */
    method LoadDailyBonusStatus(db: Database, today: string, fetched: bool, createDelivered: bool)
      modifies this`hasClaimed, this`lastClaimDate, db
      ensures !fetched ==> db.data == old(db.data) && lastClaimDate == old(lastClaimDate) && hasClaimed == old(hasClaimed)
      ensures fetched && Exists(old(db.data), Ledger.UserDoc(userId)) ==>
        db.data == old(db.data) &&
        lastClaimDate == GetStr(old(db.data), Ledger.FieldPath(userId, LAST_DAILY_BONUS)) &&
        hasClaimed == ClaimedToday(lastClaimDate, today)
      ensures fetched && !Exists(old(db.data), Ledger.UserDoc(userId)) ==>
        db.data == (if createDelivered then Apply(old(db.data), NewUserOps(today)) else old(db.data)) &&
        (createDelivered ==> lastClaimDate == Some("") && hasClaimed == ClaimedToday(Some(""), today)) &&
        (!createDelivered ==> lastClaimDate == old(lastClaimDate) && hasClaimed == old(hasClaimed))
    {
      if !fetched {
        return;
      }
      if Exists(db.data, Ledger.UserDoc(userId)) {
        lastClaimDate := GetStr(db.data, Ledger.FieldPath(userId, LAST_DAILY_BONUS));
        UpdateDailyBonusUI(today);
      } else if createDelivered {
        db.Write(NewUserOps(today));
        lastClaimDate := Some("");
        UpdateDailyBonusUI(today);
      }
    }

    /** `createUserDocument`: zero coins and statistics, an empty claim date, today's statistics date. */
    function NewUserOps(today: string): seq<Op> {
      [Delete(Ledger.UserDoc(userId)),
       Put(Ledger.FieldPath(userId, COINS), Int(0)),
       Put(Ledger.FieldPath(userId, LAST_DAILY_BONUS), Str("")),
       Put(Ledger.FieldPath(userId, ADS_WATCHED_TODAY), Int(0)),
       Put(Ledger.FieldPath(userId, COINS_EARNED_TODAY), Int(0)),
       Put(Ledger.FieldPath(userId, TOTAL_ADS_WATCHED), Int(0)),
       Put(Ledger.FieldPath(userId, LAST_STATS_UPDATE), Str(today))]
    }

    /**
     * `claimDailyBonus`: refused while the bonus counts as claimed; otherwise
     * the transaction commits when the document exists and the write is
     * delivered, and then the screen records today's claim.
     */
    method ClaimDailyBonus(db: Database, today: string, delivered: bool) returns (claimed: bool)
      modifies this, db
      ensures claimed <==> !old(hasClaimed) && delivered && Exists(old(db.data), Ledger.UserDoc(userId))
      ensures claimed ==>
        db.data == Apply(old(db.data), BonusTx(old(db.data), userId, today).ops) &&
        currentCoins == GetInt(old(db.data), Ledger.FieldPath(userId, COINS)).GetOr(0) + DAILY_BONUS_COINS &&
        lastClaimDate == Some(today) && hasClaimed
      ensures !claimed ==> (db.data == old(db.data) && currentCoins == old(currentCoins) &&
        lastClaimDate == old(lastClaimDate) && hasClaimed == old(hasClaimed))
      ensures todayAdsWatched == old(todayAdsWatched) && todayCoinsEarned == old(todayCoinsEarned) &&
        totalAdsCount == old(totalAdsCount)
    {
      if hasClaimed {
        return false;
      }
      var r := Ledger.Run(db, BonusTx(db.data, userId, today), delivered);
      claimed := r.Some?;
      if claimed {
        currentCoins := r.value;
        lastClaimDate := Some(today);
        hasClaimed := true;
        UpdateDailyBonusUI(today);
      }
    }

    /**
     * The once-a-second tick of `setupDailyBonusTimer`. While the bonus counts
     * as claimed it computes the time left as `nextMidnight - now`, where
     * `nextMidnight` is tomorrow 00:00 of the calendar read at the start of the
     * tick and `now` the clock read just after it. Only with no time left
     * does it clear the flag and re-derive it from the stored date; otherwise
     * it shows the countdown text. Since tomorrow's midnight lies after the
     * calendar read, the time left is positive unless midnight passes between
     * the two reads, so a screen kept open past midnight stays claimed.
     */
    method OnBonusTimerTick(nextMidnight: int, now: int, today: string) returns (status: Option<string>)
      modifies this`hasClaimed
      ensures old(hasClaimed) && nextMidnight - now <= 0 ==>
        hasClaimed == ClaimedToday(lastClaimDate, today) && status.None?
      ensures old(hasClaimed) && nextMidnight - now > 0 ==>
        hasClaimed && status == Some(CountdownText(nextMidnight - now))
      ensures !old(hasClaimed) ==> !hasClaimed && status.None?
      ensures now < nextMidnight ==> hasClaimed == old(hasClaimed)
    {
      status := None;
      if hasClaimed {
        var timeUntilNext := nextMidnight - now;
        if timeUntilNext <= 0 {
          hasClaimed := false;
          UpdateDailyBonusUI(today);
        } else {
          status := Some(CountdownText(timeUntilNext));
        }
      }
    }

    /** The status line shown while the bonus is claimed. */
    function CountdownText(ms: int): string {
      "Next bonus in " + FormatTimeLeft(ms)
    }

    /** `onUserEarnedReward`: credit the granted amount, or 250 when the ad names none. */
    method OnUserEarnedReward(db: Database, granted: int, today: string, creditDelivered: bool, statsDelivered: bool)
      returns (credited: bool)
      modifies this, db
      ensures credited <==> creditDelivered && Exists(old(db.data), Ledger.UserDoc(userId))
      ensures credited ==>
        currentCoins == GetInt(old(db.data), Ledger.FieldPath(userId, COINS)).GetOr(0) + RewardAmount(granted) &&
        todayAdsWatched == old(todayAdsWatched) + 1 && totalAdsCount == old(totalAdsCount) + 1 &&
        todayCoinsEarned == old(todayCoinsEarned) + RewardAmount(granted) &&
        db.data == CreditWrite(old(db.data), userId, RewardAmount(granted),
                               StatsOps(userId, todayAdsWatched, totalAdsCount, todayCoinsEarned, today, true), statsDelivered)
      ensures !credited ==> (db.data == old(db.data) && currentCoins == old(currentCoins) &&
        todayAdsWatched == old(todayAdsWatched) && totalAdsCount == old(totalAdsCount) &&
        todayCoinsEarned == old(todayCoinsEarned))
    {
      credited := AddCoinsToUser(db, RewardAmount(granted), true, today, creditDelivered, statsDelivered);
    }

    /** `addCoinsToUser`: coins (missing as 0) plus the amount; on success the statistics follow. */
    method AddCoinsToUser(db: Database, amount: int, fromAd: bool, today: string, creditDelivered: bool, statsDelivered: bool)
      returns (credited: bool)
      modifies this, db
      ensures credited <==> creditDelivered && Exists(old(db.data), Ledger.UserDoc(userId))
      ensures credited ==>
        currentCoins == GetInt(old(db.data), Ledger.FieldPath(userId, COINS)).GetOr(0) + amount &&
        todayAdsWatched == old(todayAdsWatched) + (if fromAd then 1 else 0) &&
        totalAdsCount == old(totalAdsCount) + (if fromAd then 1 else 0) &&
        todayCoinsEarned == old(todayCoinsEarned) + amount &&
        db.data == CreditWrite(old(db.data), userId, amount,
                               StatsOps(userId, todayAdsWatched, totalAdsCount, todayCoinsEarned, today, fromAd), statsDelivered)
      ensures !credited ==> (db.data == old(db.data) && currentCoins == old(currentCoins) &&
        todayAdsWatched == old(todayAdsWatched) && totalAdsCount == old(totalAdsCount) &&
        todayCoinsEarned == old(todayCoinsEarned))
      ensures hasClaimed == old(hasClaimed) && lastClaimDate == old(lastClaimDate)
    {
      var tx := Ledger.CreditTx(db.data, Some(userId), COINS, amount);
      var r := Ledger.Run(db, tx, creditDelivered);
      credited := r.Some?;
      if credited {
        ApplyPut(old(db.data), tx.ops, 0);
        assert Within(Ledger.UserDoc(userId), Ledger.FieldPath(userId, COINS));
        currentCoins := r.value;
        UpdateUserStats(db, amount, fromAd, today, statsDelivered);
      }
    }

    /**
     * `updateUserStats`: the local counters move first, an ad counting once
     * today and once in total, and the new values are then written.
     */
    method UpdateUserStats(db: Database, coinsEarned: int, fromAd: bool, today: string, delivered: bool)
      modifies this`todayAdsWatched, this`totalAdsCount, this`todayCoinsEarned, db
      ensures todayAdsWatched == old(todayAdsWatched) + (if fromAd then 1 else 0)
      ensures totalAdsCount == old(totalAdsCount) + (if fromAd then 1 else 0)
      ensures todayCoinsEarned == old(todayCoinsEarned) + coinsEarned
      ensures db.data == if delivered && Exists(old(db.data), Ledger.UserDoc(userId))
        then Apply(old(db.data), StatsOps(userId, todayAdsWatched, totalAdsCount, todayCoinsEarned, today, fromAd))
        else old(db.data)
    {
      if fromAd {
        todayAdsWatched := todayAdsWatched + 1;
        totalAdsCount := totalAdsCount + 1;
      }
      todayCoinsEarned := todayCoinsEarned + coinsEarned;
      var _ := Ledger.UpdateDocument(db, userId, StatsOps(userId, todayAdsWatched, totalAdsCount, todayCoinsEarned, today, fromAd), delivered);
    }

    /**
     * `loadUserStats`: on a new day (stored date not today's) the daily
     * counters are reset in the store and, once that write succeeds,
     * locally; on the same day the three counters are read, missing as 0.
     */
    method LoadUserStats(db: Database, today: string, fetched: bool, resetDelivered: bool)
      modifies this`todayAdsWatched, this`todayCoinsEarned, this`totalAdsCount, db
      ensures var d := old(db.data);
        var present := fetched && Exists(d, Ledger.UserDoc(userId));
        var newDay := present && GetStr(d, Ledger.FieldPath(userId, LAST_STATS_UPDATE)) != Some(today);
        (!present ==> (db.data == d && todayAdsWatched == old(todayAdsWatched) &&
           todayCoinsEarned == old(todayCoinsEarned) && totalAdsCount == old(totalAdsCount))) &&
        (newDay && resetDelivered ==> (db.data == Apply(d, ResetOps(today)) &&
           todayAdsWatched == 0 && todayCoinsEarned == 0 && totalAdsCount == old(totalAdsCount))) &&
        (newDay && !resetDelivered ==> (db.data == d && todayAdsWatched == old(todayAdsWatched) &&
           todayCoinsEarned == old(todayCoinsEarned) && totalAdsCount == old(totalAdsCount))) &&
        (present && !newDay ==> (db.data == d &&
           todayAdsWatched == GetInt(d, Ledger.FieldPath(userId, ADS_WATCHED_TODAY)).GetOr(0) &&
           todayCoinsEarned == GetInt(d, Ledger.FieldPath(userId, COINS_EARNED_TODAY)).GetOr(0) &&
           totalAdsCount == GetInt(d, Ledger.FieldPath(userId, TOTAL_ADS_WATCHED)).GetOr(0)))
    {
      if !fetched || !Exists(db.data, Ledger.UserDoc(userId)) {
        return;
      }
      var d := db.data;
      if GetStr(d, Ledger.FieldPath(userId, LAST_STATS_UPDATE)) != Some(today) {
        var ok := Ledger.UpdateDocument(db, userId, ResetOps(today), resetDelivered);
        if ok {
          todayAdsWatched := 0;
          todayCoinsEarned := 0;
        }
      } else {
        todayAdsWatched := GetInt(d, Ledger.FieldPath(userId, ADS_WATCHED_TODAY)).GetOr(0);
        todayCoinsEarned := GetInt(d, Ledger.FieldPath(userId, COINS_EARNED_TODAY)).GetOr(0);
        totalAdsCount := GetInt(d, Ledger.FieldPath(userId, TOTAL_ADS_WATCHED)).GetOr(0);
      }
    }

    /** `resetDailyStats`: both daily counters to 0 and today's date as the statistics date. */
    function ResetOps(today: string): (r: seq<Op>)
      ensures Inside(r, Ledger.UserDoc(userId))
    {
      [Put(Ledger.FieldPath(userId, ADS_WATCHED_TODAY), Int(0)),
       Put(Ledger.FieldPath(userId, COINS_EARNED_TODAY), Int(0)),
       Put(Ledger.FieldPath(userId, LAST_STATS_UPDATE), Str(today))]
    }
  }
}
