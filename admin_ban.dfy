/** The ban action of app/api/admin/users/ban/route.ts: the user row is
    flagged as banned with the given reason, then the action is logged. */
module AdminBan {
  import opened Base
  import opened Records
  import opened Quota
  import opened Admin

  const BAN_FIELDS_REQUIRED := "userId et reason requis"
  const BAN_FAILED := "Erreur lors du bannissement"

  /** The row after a ban: only `isBanned` and `banReason` change. */
  function Ban(u: User, reason: string): (r: User)
    ensures r.isBanned && r.banReason == Some(reason)
    ensures r.(isBanned := u.isBanned, banReason := u.banReason) == u
  {
    u.(isBanned := true, banReason := Some(reason))
  }

  /** `POST /api/admin/users/ban` by admin `adminId`; updating a missing user
      throws, which the route answers with 500 before logging anything. */
  method BanUser(db: Database, adminId: UserId, userId: Option<string>, reason: Option<string>, logId: string, now: int)
    returns (resp: AdminResponse)
    requires db.Valid()
    modifies db`users, db`adminLogs
    ensures db.Valid()
    ensures !Truthy(userId) || !Truthy(reason) ==>
      resp == BadRequest(BAN_FIELDS_REQUIRED) && db.users == old(db.users) && db.adminLogs == old(db.adminLogs)
    ensures Truthy(userId) && Truthy(reason) && userId.value !in old(db.users) ==>
      resp == ServerError(BAN_FAILED) && db.users == old(db.users) && db.adminLogs == old(db.adminLogs)
    ensures Truthy(userId) && Truthy(reason) && userId.value in old(db.users) ==>
      && resp == Success
      && db.users == old(db.users)[userId.value := Ban(old(db.users)[userId.value], reason.value)]
      && db.adminLogs == old(db.adminLogs) + [AdminLog(logId, adminId, "banned_user", Some("User"), Some(userId.value),
                                                       BanReason(reason.value), now)]
  {
    if !Truthy(userId) || !Truthy(reason) {
      return BadRequest(BAN_FIELDS_REQUIRED);
    }
    var id := userId.value;
    if id !in db.users {
      return ServerError(BAN_FAILED);
    }
    db.UpdateUser(db.users[id].(isBanned := true, banReason := Some(reason.value)));
    db.RecordAdminLog(AdminLog(logId, adminId, "banned_user", Some("User"), Some(id), BanReason(reason.value), now));
    resp := Success;
  }

  /** Banning twice with the same reason leaves the same row. */
  lemma BanIdempotent(u: User, reason: string)
    ensures Ban(Ban(u, reason), reason) == Ban(u, reason)
  {
  }

  /** After a ban the quota check refuses, whatever the plan, giving the
      reason, and writes nothing. */
  lemma BannedCannotUse(u: User, reason: string, now: int)
    requires reason != ""
    ensures !CheckAnswer(Ban(u, reason), now).canUse
    ensures CheckAnswer(Ban(u, reason), now).reason == Some(reason)
    ensures CheckAnswer(Ban(u, reason), now).remaining == Count(0)
    ensures AfterCheck(Ban(u, reason), now) == Ban(u, reason)
  {
  }
}
