/** The unban action of app/api/admin/users/unban/route.ts: the ban flag and
    reason are cleared, then the action is logged. */
module AdminUnban {
  import opened Base
  import opened Records
  import opened Quota
  import opened Admin
  import AdminBan

  const UNBAN_FIELDS_REQUIRED := "userId requis"
  const UNBAN_FAILED := "Erreur lors du débannissement"

  /** The row after an unban: only `isBanned` and `banReason` change. */
  function Unban(u: User): (r: User)
    ensures !r.isBanned && r.banReason.None?
    ensures r.(isBanned := u.isBanned, banReason := u.banReason) == u
  {
    u.(isBanned := false, banReason := None)
  }

  /** `POST /api/admin/users/unban` by admin `adminId`. */
  method UnbanUser(db: Database, adminId: UserId, userId: Option<string>, logId: string, now: int)
    returns (resp: AdminResponse)
    requires db.Valid()
    modifies db`users, db`adminLogs
    ensures db.Valid()
    ensures !Truthy(userId) ==>
      resp == BadRequest(UNBAN_FIELDS_REQUIRED) && db.users == old(db.users) && db.adminLogs == old(db.adminLogs)
    ensures Truthy(userId) && userId.value !in old(db.users) ==>
      resp == ServerError(UNBAN_FAILED) && db.users == old(db.users) && db.adminLogs == old(db.adminLogs)
    ensures Truthy(userId) && userId.value in old(db.users) ==>
      && resp == Success
      && db.users == old(db.users)[userId.value := Unban(old(db.users)[userId.value])]
      && db.adminLogs == old(db.adminLogs) + [AdminLog(logId, adminId, "unbanned_user", Some("User"), Some(userId.value),
                                                       NoMetadata, now)]
  {
    if !Truthy(userId) {
      return BadRequest(UNBAN_FIELDS_REQUIRED);
    }
    var id := userId.value;
    if id !in db.users {
      return ServerError(UNBAN_FAILED);
    }
    db.UpdateUser(db.users[id].(isBanned := false, banReason := None));
    db.RecordAdminLog(AdminLog(logId, adminId, "unbanned_user", Some("User"), Some(id), NoMetadata, now));
    resp := Success;
  }

  /** Unbanning is idempotent, and undoes any ban whatever its reason. */
  lemma UnbanUndoesBan(u: User, reason: string)
    ensures Unban(Unban(u)) == Unban(u)
    ensures Unban(AdminBan.Ban(u, reason)) == Unban(u)
    ensures !u.isBanned && u.banReason.None? ==> Unban(AdminBan.Ban(u, reason)) == u
  {
  }

  /** An unbanned user gets the verdict the plan rules give. */
  lemma UnbannedFollowsPlan(u: User, now: int)
    requires !u.isPremium
    ensures CheckAnswer(Unban(u), now).canUse <==> u.freeUsed < FREE_LIMIT
  {
  }
}
