/** The moderation delete of app/api/admin/moderation/delete/route.ts: one
    try-on record is removed, then the action is logged. The stored image
    files are left in storage. */
module AdminModerationDelete {
  import opened Base
  import opened Records
  import opened Admin

  const TRYON_ID_REQUIRED := "tryOnId requis"
  const DELETE_FAILED := "Erreur lors de la suppression"

  /** `POST /api/admin/moderation/delete` by admin `adminId`; deleting a
      missing record throws, which the route answers with 500. */
  method DeleteTryOn(db: Database, adminId: UserId, tryOnId: Option<string>, logId: string, now: int)
    returns (resp: AdminResponse)
    requires db.Valid()
    modifies db`tryOns, db`adminLogs
    ensures db.Valid()
    ensures !Truthy(tryOnId) ==>
      resp == BadRequest(TRYON_ID_REQUIRED) && db.tryOns == old(db.tryOns) && db.adminLogs == old(db.adminLogs)
    ensures Truthy(tryOnId) && tryOnId.value !in old(db.tryOns) ==>
      resp == ServerError(DELETE_FAILED) && db.tryOns == old(db.tryOns) && db.adminLogs == old(db.adminLogs)
    ensures Truthy(tryOnId) && tryOnId.value in old(db.tryOns) ==>
      && resp == Success
      && db.tryOns == old(db.tryOns) - {tryOnId.value}
      && db.adminLogs == old(db.adminLogs) + [AdminLog(logId, adminId, "deleted_tryon", Some("TryOn"), Some(tryOnId.value),
                                                       NoMetadata, now)]
  {
    if !Truthy(tryOnId) {
      return BadRequest(TRYON_ID_REQUIRED);
    }
    var id := tryOnId.value;
    if id !in db.tryOns {
      return ServerError(DELETE_FAILED);
    }
    db.DeleteTryOn(id);
    db.RecordAdminLog(AdminLog(logId, adminId, "deleted_tryon", Some("TryOn"), Some(id), NoMetadata, now));
    resp := Success;
  }

  /** Removing one id leaves every other record as it was. */
  lemma OthersKept(tryOns: map<TryOnId, TryOn>, id: TryOnId, other: TryOnId)
    requires other != id
    ensures other in tryOns - {id} <==> other in tryOns
    ensures other in tryOns ==> (tryOns - {id})[other] == tryOns[other]
  {
  }
}
