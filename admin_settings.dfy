/** The settings update of app/api/admin/settings/route.ts: every entry of the
    request body is upserted as `JSON.stringify(value)`, each followed by one
    `updated_setting` log entry. */
module AdminSettings {
  import opened Base
  import opened Json
  import opened Records
  import opened Admin

  const UPDATE_FAILED := "Erreur lors de la mise à jour"

  /** `Object.entries(body)`: one (key, value) pair per key of the body object. */
  type Entries = seq<(string, Json)>

  /** Object keys are distinct. */
  predicate DistinctKeys(entries: Entries)
  {
    forall i, j :: 0 <= i < j < |entries| ==> entries[i].0 != entries[j].0
  }

  /** The key appears somewhere in the body. */
  predicate HasKey(entries: Entries, key: string)
  {
    exists i :: 0 <= i < |entries| && entries[i].0 == key
  }

  /** The row the upsert of `key` leaves: an update keeps the description, a
      create has none. */
  function Upserted(settings: map<string, Setting>, key: string, value: Json, adminId: UserId): (st: Setting)
    ensures st.key == key && st.value == Stringify(value) && st.updatedBy == Some(adminId)
    ensures key in settings ==> st.description == settings[key].description
    ensures key !in settings ==> st.description.None?
  {
    if key in settings then settings[key].(key := key, value := Stringify(value), updatedBy := Some(adminId))
    else Setting(key, Stringify(value), None, Some(adminId))
  }

  /** The settings table after upserting every entry in order. */
  function ApplyEntries(settings: map<string, Setting>, entries: Entries, adminId: UserId): (r: map<string, Setting>)
    ensures settings.Keys <= r.Keys
    ensures forall k :: k in r && k !in settings ==> r[k].description.None?
  {
    if entries == [] then settings
    else
      var before := ApplyEntries(settings, entries[..|entries| - 1], adminId);
      var (key, value) := entries[|entries| - 1];
      before[key := Upserted(before, key, value, adminId)]
  }

  /** The log entry written after upserting entry `i`. */
  function EntryLog(entries: Entries, i: nat, adminId: UserId, logIds: seq<string>, now: int): AdminLog
    requires i < |entries| && |logIds| == |entries|
  {
    AdminLog(logIds[i], adminId, "updated_setting", Some("SystemSetting"), Some(entries[i].0), NewValue(entries[i].1), now)
  }

  /** The log entries written for the first `n` entries. */
  function EntryLogs(entries: Entries, n: nat, adminId: UserId, logIds: seq<string>, now: int): seq<AdminLog>
    requires n <= |entries| && |logIds| == |entries|
  {
    if n == 0 then [] else EntryLogs(entries, n - 1, adminId, logIds, now) + [EntryLog(entries, n - 1, adminId, logIds, now)]
  }

  /** `POST /api/admin/settings` by admin `adminId`. `body` is None when the
      request body is not JSON; `logIds` are the ids the log entries receive. */
  method UpdateSettings(db: Database, adminId: UserId, body: Option<Entries>, logIds: seq<string>, now: int)
    returns (resp: AdminResponse)
    requires db.Valid()
    requires body.Some? ==> DistinctKeys(body.value) && |logIds| == |body.value|
    modifies db`settings, db`adminLogs
    ensures db.Valid()
    ensures body.None? ==>
      resp == ServerError(UPDATE_FAILED) && db.settings == old(db.settings) && db.adminLogs == old(db.adminLogs)
    ensures body.Some? ==>
      && resp == Success
      && db.settings == ApplyEntries(old(db.settings), body.value, adminId)
      && db.adminLogs == old(db.adminLogs) + EntryLogs(body.value, |body.value|, adminId, logIds, now)
  {
    if body.None? {
      return ServerError(UPDATE_FAILED);
    }
    var entries := body.value;
    var i := 0;
    while i < |entries|
      invariant i <= |entries|
      invariant db.Valid()
      invariant db.settings == ApplyEntries(old(db.settings), entries[..i], adminId)
      invariant db.adminLogs == old(db.adminLogs) + EntryLogs(entries, i, adminId, logIds, now)
    {
      var (key, value) := entries[i];
      var row := if key in db.settings
        then db.settings[key].(key := key, value := Stringify(value), updatedBy := Some(adminId))
        else Setting(key, Stringify(value), None, Some(adminId));
      db.PutSetting(row);
      db.RecordAdminLog(AdminLog(logIds[i], adminId, "updated_setting", Some("SystemSetting"), Some(key), NewValue(value), now));
      assert entries[..i + 1][..i] == entries[..i];
      i := i + 1;
    }
    assert entries[..i] == entries;
    resp := Success;
  }

  /** Every key of the body ends up holding the text of its value, written by
      the admin, whether or not it existed before. */
  lemma {:induction false} EntriesStored(settings: map<string, Setting>, entries: Entries, adminId: UserId, i: nat)
    requires DistinctKeys(entries) && i < |entries|
    ensures entries[i].0 in ApplyEntries(settings, entries, adminId)
    ensures ApplyEntries(settings, entries, adminId)[entries[i].0].value == Stringify(entries[i].1)
    ensures ApplyEntries(settings, entries, adminId)[entries[i].0].updatedBy == Some(adminId)
    decreases |entries|
  {
    if i < |entries| - 1 {
      var init := entries[..|entries| - 1];
      EntriesStored(settings, init, adminId, i);
      assert init[i] == entries[i];
    }
  }

  /** Keys the body does not mention keep their row, or stay absent. */
  lemma {:induction false} OtherKeysUnchanged(settings: map<string, Setting>, entries: Entries, adminId: UserId, key: string)
    requires !HasKey(entries, key)
    ensures key in ApplyEntries(settings, entries, adminId) <==> key in settings
    ensures key in settings ==> ApplyEntries(settings, entries, adminId)[key] == settings[key]
    decreases |entries|
  {
    if entries != [] {
      var init := entries[..|entries| - 1];
      forall j | 0 <= j < |init| ensures init[j].0 != key {
        assert init[j] == entries[j];
      }
      OtherKeysUnchanged(settings, init, adminId, key);
      assert entries[|entries| - 1].0 != key;
    }
  }

  /** The keys of a body, as a set. */
  function BodyKeys(entries: Entries): set<string>
  {
    set i | 0 <= i < |entries| :: entries[i].0
  }

  /** The keys of a body are those of all but its last entry, plus the last one's. */
  lemma BodyKeysStep(entries: Entries)
    requires entries != []
    ensures BodyKeys(entries) == BodyKeys(entries[..|entries| - 1]) + {entries[|entries| - 1].0}
  {
    var init := entries[..|entries| - 1];
    forall k | k in BodyKeys(entries) ensures k in BodyKeys(init) + {entries[|entries| - 1].0} {
      var i :| 0 <= i < |entries| && entries[i].0 == k;
      if i < |init| { assert init[i].0 == k; }
    }
    forall k | k in BodyKeys(init) ensures k in BodyKeys(entries) {
      var i :| 0 <= i < |init| && init[i].0 == k;
      assert entries[i].0 == k;
    }
  }

  /** Only keys of the body are added to the table. */
  lemma {:induction false} OnlyBodyKeysAdded(settings: map<string, Setting>, entries: Entries, adminId: UserId)
    ensures ApplyEntries(settings, entries, adminId).Keys == settings.Keys + BodyKeys(entries)
    decreases |entries|
  {
    if entries != [] {
      OnlyBodyKeysAdded(settings, entries[..|entries| - 1], adminId);
      BodyKeysStep(entries);
    }
  }

  /** One log entry per body key, in the order of the body, each naming its key and value. */
  lemma {:induction false} OneLogPerKey(entries: Entries, n: nat, adminId: UserId, logIds: seq<string>, now: int)
    requires n <= |entries| && |logIds| == |entries|
    ensures |EntryLogs(entries, n, adminId, logIds, now)| == n
    ensures forall i :: 0 <= i < n ==>
      && EntryLogs(entries, n, adminId, logIds, now)[i].action == "updated_setting"
      && EntryLogs(entries, n, adminId, logIds, now)[i].targetId == Some(entries[i].0)
      && EntryLogs(entries, n, adminId, logIds, now)[i].metadata == NewValue(entries[i].1)
    decreases n
  {
    if n > 0 {
      OneLogPerKey(entries, n - 1, adminId, logIds, now);
    }
  }

  /** An empty body writes nothing and logs nothing. */
  lemma EmptyBodyWritesNothing(settings: map<string, Setting>, adminId: UserId, logIds: seq<string>, now: int)
    requires |logIds| == 0
    ensures ApplyEntries(settings, [], adminId) == settings
    ensures EntryLogs([], 0, adminId, logIds, now) == []
  {
  }

  /** The logged metadata is stored as `JSON.parse(JSON.stringify(metadata))`
      (lib/admin.ts), which for a setting value is the value itself. */
  lemma LoggedValueSurvives(value: Json)
    ensures Parse(Stringify(value)) == Some(value)
  {
    ParseStringify(value);
  }
}
