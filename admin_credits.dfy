/** The credit grant of app/api/admin/users/credits/route.ts: the free
    counter of one user is lowered by the granted amount, never below zero. */
module AdminCredits {
  import opened Base
  import opened Records
  import opened Quota
  import opened Admin

  const CREDITS_REQUIRED := "userId et credits (number) requis"
  const USER_MISSING := "Utilisateur introuvable"

  /** The row after granting `credits`: `freeUsed = max(0, freeUsed - credits)`, nothing else changes. */
  function WithCredits(u: User, credits: int): (r: User)
    ensures r.freeUsed == Max(0, u.freeUsed - credits)
    ensures r.(freeUsed := u.freeUsed) == u
  {
    var n := Max(0, u.freeUsed - credits);
    u.(freeUsed := n as nat)
  }

  /** `POST /api/admin/users/credits` by admin `adminId`. `credits` is None when
      the body's value is not a number; `logId` is the id given to the log entry. */
  method GiveCredits(db: Database, adminId: UserId, userId: Option<string>, credits: Option<int>, logId: string, now: int)
    returns (resp: AdminResponse)
    requires db.Valid()
    modifies db`users, db`adminLogs
    ensures db.Valid()
    ensures !Truthy(userId) || credits.None? ==>
      resp == BadRequest(CREDITS_REQUIRED) && db.users == old(db.users) && db.adminLogs == old(db.adminLogs)
    ensures Truthy(userId) && credits.Some? && userId.value !in old(db.users) ==>
      resp == NotFound(USER_MISSING) && db.users == old(db.users) && db.adminLogs == old(db.adminLogs)
    ensures Truthy(userId) && credits.Some? && userId.value in old(db.users) ==>
      && resp == Success
      && db.users == old(db.users)[userId.value := WithCredits(old(db.users)[userId.value], credits.value)]
      && db.adminLogs == old(db.adminLogs) + [AdminLog(logId, adminId, "gave_credits", Some("User"), Some(userId.value),
                                                       CreditsGiven(credits.value), now)]
  {
    if !Truthy(userId) || credits.None? {
      return BadRequest(CREDITS_REQUIRED);
    }
    var id := userId.value;
    if id !in db.users {
      return NotFound(USER_MISSING);
    }
    var user := db.users[id];
    db.UpdateUser(user.(freeUsed := Max(0, user.freeUsed - credits.value) as nat));
    db.RecordAdminLog(AdminLog(logId, adminId, "gave_credits", Some("User"), Some(id), CreditsGiven(credits.value), now));
    resp := Success;
  }

  /** The amount is not sign-checked: a non-negative grant never raises the
      counter, a negative one raises it by exactly its size. */
  lemma CreditsSign(u: User, credits: int)
    ensures credits >= 0 ==> WithCredits(u, credits).freeUsed <= u.freeUsed
    ensures credits < 0 ==> WithCredits(u, credits).freeUsed == u.freeUsed - credits > u.freeUsed
  {
  }

  /** Granting at least the used amount gives a free user who is not banned both try-ons back. */
  lemma GrantRestoresFreeQuota(u: User, credits: int, now: int)
    requires !u.isBanned && !u.isPremium && credits >= u.freeUsed
    ensures CheckAnswer(WithCredits(u, credits), now) == QuotaCheck(true, Count(FREE_LIMIT), FREE, None, None)
  {
  }

  /** A premium user's daily counter is untouched by a grant, so the daily ceiling still applies. */
  lemma GrantLeavesDailyCounter(u: User, credits: int, now: int)
    ensures WithCredits(u, credits).dailyUsed == u.dailyUsed
    ensures u.isPremium ==> CheckAnswer(WithCredits(u, credits), now) == CheckAnswer(u, now)
  {
  }
}
