/** The plan/quota ledger of lib/quota.ts: `checkQuota` answers whether a user
    may start a try-on and performs the lazy premium downgrade and daily-window
    reset on the way; `decrementQuota` consumes one unit; `getUserQuota` is a
    read-only projection for display. */
module Quota {
  import opened Base
  import opened Records

  const FREE_LIMIT: nat := 2
  const PREMIUM_DAILY_LIMIT: nat := 100

  const USER_NOT_FOUND := "User not found"
  const ACCOUNT_SUSPENDED := "Account suspended"
  const SUBSCRIPTION_EXPIRED := "Subscription expired. You have 2 free try-ons again."
  const DAILY_LIMIT_REACHED := "Daily limit reached (100/day). Resets tomorrow."
  const FREE_QUOTA_EXHAUSTED := "Free quota exhausted. Upgrade to Premium for unlimited try-ons."

  datatype Remaining = Count(n: nat) | Unlimited

  datatype QuotaCheck = QuotaCheck(
    canUse: bool,
    remaining: Remaining,
    plan: Plan,
    renewsAt: Option<int>,
    reason: Option<string>)

  datatype QuotaView = QuotaView(used: nat, limit: nat, plan: Plan)

  /** The subscription period has a recorded end, and it lies before `now`. */
  predicate PeriodExpired(u: User, now: int)
  {
    u.stripeCurrentPeriodEnd.Some? && u.stripeCurrentPeriodEnd.value < now
  }

  /** The premium daily window has run out. */
  predicate DailyWindowStale(u: User, now: int)
  {
    now > u.dailyResetAt
  }

  /** The reason reported to a banned user. */
  function BanMessage(u: User): string
  {
    OrElse(u.banReason, ACCOUNT_SUSPENDED)
  }

  /** The user row as `checkQuota` leaves it at time `now`. */
  function AfterCheck(u: User, now: int): (r: User)
    ensures r.id == u.id && r.isBanned == u.isBanned && r.banReason == u.banReason
    ensures u.isBanned || !u.isPremium ==> r == u
    ensures !u.isBanned && u.isPremium && PeriodExpired(u, now) ==>
      !r.isPremium && r.plan == FREE && r.freeUsed == 0 && r.dailyUsed == 0
    ensures !u.isBanned && u.isPremium && !PeriodExpired(u, now) ==>
      r.isPremium && r.plan == u.plan && r.freeUsed == u.freeUsed
      && (DailyWindowStale(u, now) ==> r.dailyUsed == 0 && r.dailyResetAt == now + DAY_MS)
      && (!DailyWindowStale(u, now) ==> r == u)
  {
    if u.isBanned || !u.isPremium then u
    else if PeriodExpired(u, now) then u.(isPremium := false, plan := FREE, freeUsed := 0, dailyUsed := 0)
    else if DailyWindowStale(u, now) then u.(dailyUsed := 0, dailyResetAt := now + DAY_MS)
    else u
  }

  /** The answer `checkQuota` gives for user row `u` at time `now`. */
  function CheckAnswer(u: User, now: int): (q: QuotaCheck)
    ensures u.isBanned ==>
      !q.canUse && q.remaining == Count(0) && q.plan == u.plan && q.reason == Some(BanMessage(u))
    ensures !u.isBanned && u.isPremium && PeriodExpired(u, now) ==>
      q.canUse && q.remaining == Count(FREE_LIMIT) && q.plan == FREE && q.reason == Some(SUBSCRIPTION_EXPIRED)
    ensures !u.isBanned && u.isPremium && !PeriodExpired(u, now) ==>
      && q.remaining == Unlimited && q.plan == PREMIUM
      && (q.canUse <==> AfterCheck(u, now).dailyUsed < PREMIUM_DAILY_LIMIT)
      && (!q.canUse ==> q.renewsAt == Some(u.dailyResetAt) && q.reason == Some(DAILY_LIMIT_REACHED))
      && (q.canUse ==> q.renewsAt == u.stripeCurrentPeriodEnd && q.reason.None?)
    ensures !u.isBanned && !u.isPremium ==>
      && q.remaining == Count(Max(0, FREE_LIMIT - u.freeUsed)) && q.plan == FREE
      && (q.canUse <==> u.freeUsed < FREE_LIMIT)
      && (q.reason.Some? <==> !q.canUse)
  {
    if u.isBanned then
      QuotaCheck(false, Count(0), u.plan, None, Some(BanMessage(u)))
    else if u.isPremium then
      if PeriodExpired(u, now) then
        QuotaCheck(true, Count(2), FREE, None, Some(SUBSCRIPTION_EXPIRED))
      else
        var used := if DailyWindowStale(u, now) then 0 else u.dailyUsed;
        if used >= PREMIUM_DAILY_LIMIT then
          QuotaCheck(false, Unlimited, PREMIUM, Some(u.dailyResetAt), Some(DAILY_LIMIT_REACHED))
        else
          QuotaCheck(true, Unlimited, PREMIUM, u.stripeCurrentPeriodEnd, None)
    else
      var remaining := Max(0, 2 - u.freeUsed);
      var canUse := remaining > 0;
      QuotaCheck(canUse, Count(remaining), FREE, None, if canUse then None else Some(FREE_QUOTA_EXHAUSTED))
  }

  /** `checkQuota(userId)` at time `now`: reads the row, writes the lazy
      downgrade or daily reset, and answers. */
  method CheckQuota(db: Database, userId: UserId, now: int) returns (r: Result<QuotaCheck, string>)
    requires db.Valid()
    modifies db`users
    ensures db.Valid()
    ensures userId !in old(db.users) ==> r == Err(USER_NOT_FOUND) && db.users == old(db.users)
    ensures userId in old(db.users) ==>
      && r == Ok(CheckAnswer(old(db.users)[userId], now))
      && db.users == old(db.users)[userId := AfterCheck(old(db.users)[userId], now)]
  {
    if userId !in db.users {
      return Err(USER_NOT_FOUND);
    }
    var user := db.users[userId];
    if user.isBanned {
      return Ok(QuotaCheck(false, Count(0), user.plan, None, Some(OrElse(user.banReason, ACCOUNT_SUSPENDED))));
    }
    if user.isPremium {
      if user.stripeCurrentPeriodEnd.Some? && user.stripeCurrentPeriodEnd.value < now {
        db.users := db.users[userId := user.(isPremium := false, plan := FREE, freeUsed := 0, dailyUsed := 0)];
        return Ok(QuotaCheck(true, Count(2), FREE, None, Some(SUBSCRIPTION_EXPIRED)));
      }
      if now > user.dailyResetAt {
        db.users := db.users[userId := user.(dailyUsed := 0, dailyResetAt := now + DAY_MS)];
        // only the counter of the in-memory copy is refreshed
        user := user.(dailyUsed := 0);
      }
      if user.dailyUsed >= 100 {
        return Ok(QuotaCheck(false, Unlimited, PREMIUM, Some(user.dailyResetAt), Some(DAILY_LIMIT_REACHED)));
      }
      return Ok(QuotaCheck(true, Unlimited, PREMIUM, user.stripeCurrentPeriodEnd, None));
    }
    var remaining := Max(0, 2 - user.freeUsed);
    var canUse := remaining > 0;
    r := Ok(QuotaCheck(canUse, Count(remaining), FREE, None, if canUse then None else Some(FREE_QUOTA_EXHAUSTED)));
  }

  /** One consumed unit: the daily counter of a premium user, the free counter otherwise. */
  function Consume(u: User): (r: User)
    ensures r.freeUsed + r.dailyUsed == u.freeUsed + u.dailyUsed + 1
    ensures u.isPremium ==> r.freeUsed == u.freeUsed
    ensures !u.isPremium ==> r.dailyUsed == u.dailyUsed
    ensures r.(freeUsed := u.freeUsed, dailyUsed := u.dailyUsed) == u
  {
    if u.isPremium then u.(dailyUsed := u.dailyUsed + 1) else u.(freeUsed := u.freeUsed + 1)
  }

  /** `decrementQuota(userId)`. */
  method DecrementQuota(db: Database, userId: UserId) returns (r: Result<(), string>)
    requires db.Valid()
    modifies db`users
    ensures db.Valid()
    ensures userId !in old(db.users) ==> r == Err(USER_NOT_FOUND) && db.users == old(db.users)
    ensures userId in old(db.users) ==> r == Ok(()) && db.users == old(db.users)[userId := Consume(old(db.users)[userId])]
  {
    if userId !in db.users {
      return Err(USER_NOT_FOUND);
    }
    var user := db.users[userId];
    if user.isPremium {
      db.users := db.users[userId := user.(dailyUsed := user.dailyUsed + 1)];
    } else {
      db.users := db.users[userId := user.(freeUsed := user.freeUsed + 1)];
    }
    r := Ok(());
  }

  /** The `{used, limit, plan}` view of one row. */
  function View(u: User): (v: QuotaView)
    ensures v.plan == PREMIUM <==> u.isPremium
    ensures v.used == (if u.isPremium then u.dailyUsed else u.freeUsed)
    ensures v.limit == (if u.isPremium then PREMIUM_DAILY_LIMIT else FREE_LIMIT)
  {
    if u.isPremium then QuotaView(u.dailyUsed, PREMIUM_DAILY_LIMIT, PREMIUM)
    else QuotaView(u.freeUsed, FREE_LIMIT, FREE)
  }

  /** `getUserQuota(userId)`: a read of the table that writes nothing. */
  function GetUserQuota(users: map<UserId, User>, userId: UserId): (r: Result<QuotaView, string>)
    ensures userId !in users ==> r == Err(USER_NOT_FOUND)
    ensures userId in users && users[userId].isPremium ==>
      r == Ok(QuotaView(users[userId].dailyUsed, PREMIUM_DAILY_LIMIT, PREMIUM))
    ensures userId in users && !users[userId].isPremium ==>
      r == Ok(QuotaView(users[userId].freeUsed, FREE_LIMIT, FREE))
  {
    if userId !in users then Err(USER_NOT_FOUND) else Ok(View(users[userId]))
  }

  // ---- properties of the ledger ----

  /** A stale daily window is reset to one day after the check, however old it was. */
  lemma DailyResetFromNow(u: User, now: int)
    requires !u.isBanned && u.isPremium && !PeriodExpired(u, now) && DailyWindowStale(u, now)
    ensures AfterCheck(u, now).dailyUsed == 0
    ensures AfterCheck(u, now).dailyResetAt == now + DAY_MS
    ensures CheckAnswer(u, now).canUse
  {
  }

  /** Without a recorded period end a premium user is never downgraded. */
  lemma NoPeriodEndNoDowngrade(u: User, now: int)
    requires u.stripeCurrentPeriodEnd.None?
    ensures AfterCheck(u, now).isPremium == u.isPremium && AfterCheck(u, now).plan == u.plan
  {
  }

  /** Checking twice at the same instant writes nothing the second time and gives the same verdict. */
  lemma CheckIdempotent(u: User, now: int)
    ensures AfterCheck(AfterCheck(u, now), now) == AfterCheck(u, now)
    ensures CheckAnswer(AfterCheck(u, now), now).canUse == CheckAnswer(u, now).canUse
  {
  }

  /** A consumed unit shows up as exactly one more unit used in the display view. */
  lemma ConsumeCountsOne(u: User)
    ensures View(Consume(u)).used == View(u).used + 1
    ensures View(Consume(u)).limit == View(u).limit && View(Consume(u)).plan == View(u).plan
    ensures Consume(u).(freeUsed := u.freeUsed, dailyUsed := u.dailyUsed) == u
  {
  }

  /** A free user with one try-on left may start, and after one success is refused with a reason. */
  lemma LastFreeUnit(u: User, now: int)
    requires !u.isBanned && !u.isPremium && u.freeUsed == 1
    ensures CheckAnswer(u, now).canUse && CheckAnswer(u, now).remaining == Count(1)
    ensures !CheckAnswer(Consume(u), now).canUse
    ensures CheckAnswer(Consume(u), now).reason == Some(FREE_QUOTA_EXHAUSTED)
  {
  }

  /** A premium user at the ceiling inside the window is refused until the window ends. */
  lemma PremiumAtCeiling(u: User, now: int)
    requires !u.isBanned && u.isPremium && !PeriodExpired(u, now)
    requires u.dailyUsed >= PREMIUM_DAILY_LIMIT && now <= u.dailyResetAt
    ensures CheckAnswer(u, now) ==
      QuotaCheck(false, Unlimited, PREMIUM, Some(u.dailyResetAt), Some(DAILY_LIMIT_REACHED))
    ensures AfterCheck(u, now) == u
  {
  }
}
