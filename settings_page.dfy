/** The admin settings page of app/admin/settings/page.tsx: the default
    settings are inserted where missing, the table is read back with every
    value parsed as JSON where it parses, and the form shows each setting or
    its fallback. */
module SettingsPage {
  import opened Base
  import opened Json
  import opened Records

  /** The eight settings the page inserts when they are missing. */
  const DEFAULTS: seq<Setting> := [
    Setting("free_quota", "2", Some("Nombre de try-ons gratuits par utilisateur"), None),
    Setting("premium_price", "9.99", Some("Prix mensuel du plan Premium (USD)"), None),
    Setting("premium_daily_limit", "50", Some("Limite quotidienne pour les utilisateurs Premium (anti-abus)"), None),
    Setting("registration_enabled", "true", Some("Autoriser les nouvelles inscriptions"), None),
    Setting("free_resolution", "768x768", Some("Résolution pour les utilisateurs gratuits"), None),
    Setting("premium_resolution", "1024x1024", Some("Résolution pour les utilisateurs Premium"), None),
    Setting("free_expiration_days", "7", Some("Jours avant expiration des try-ons gratuits"), None),
    Setting("ai_cost_per_tryon", "0.10", Some("Coût estimé par try-on (USD)"), None)
  ]

  predicate DistinctSettingKeys(rows: seq<Setting>)
  {
    forall i, j :: 0 <= i < j < |rows| ==> rows[i].key != rows[j].key
  }

  predicate ListsKey(rows: seq<Setting>, key: string)
  {
    exists i :: 0 <= i < |rows| && rows[i].key == key
  }

  /** The table after inserting, in order, each default whose key is missing. */
  function InsertMissing(settings: map<string, Setting>, defaults: seq<Setting>): (r: map<string, Setting>)
    ensures settings.Keys <= r.Keys
    ensures forall k :: k in r && k !in settings ==> r[k].key == k
  {
    if defaults == [] then settings
    else
      var before := InsertMissing(settings, defaults[..|defaults| - 1]);
      var d := defaults[|defaults| - 1];
      if d.key in before then before else before[d.key := d]
  }

  /** `initializeDefaultSettings()`. */
  method InitializeDefaultSettings(db: Database)
    requires db.Valid()
    modifies db`settings
    ensures db.Valid()
    ensures db.settings == InsertMissing(old(db.settings), DEFAULTS)
  {
    var i := 0;
    while i < |DEFAULTS|
      invariant i <= |DEFAULTS|
      invariant db.Valid()
      invariant db.settings == InsertMissing(old(db.settings), DEFAULTS[..i])
    {
      var setting := DEFAULTS[i];
      if setting.key !in db.settings {
        db.PutSetting(setting);
      }
      assert DEFAULTS[..i + 1][..i] == DEFAULTS[..i];
      i := i + 1;
    }
    assert DEFAULTS[..i] == DEFAULTS;
  }

  /** After the initialiser every default key is present. */
  lemma {:induction false} DefaultsPresent(settings: map<string, Setting>, defaults: seq<Setting>, key: string)
    requires ListsKey(defaults, key)
    ensures key in InsertMissing(settings, defaults)
    decreases |defaults|
  {
    var init := defaults[..|defaults| - 1];
    if defaults[|defaults| - 1].key != key {
      var i :| 0 <= i < |defaults| && defaults[i].key == key;
      assert init[i].key == key;
      DefaultsPresent(settings, init, key);
    }
  }

  /** Rows that already exist keep what they hold; keys that are neither
      stored nor defaults stay absent. */
  lemma {:induction false} ExistingKept(settings: map<string, Setting>, defaults: seq<Setting>, key: string)
    ensures key in settings ==> key in InsertMissing(settings, defaults) && InsertMissing(settings, defaults)[key] == settings[key]
    ensures key !in settings && !ListsKey(defaults, key) ==> key !in InsertMissing(settings, defaults)
    decreases |defaults|
  {
    if defaults != [] {
      var init := defaults[..|defaults| - 1];
      ExistingKept(settings, init, key);
      if ListsKey(init, key) {
        var i :| 0 <= i < |init| && init[i].key == key;
        assert defaults[i].key == key;
      }
    }
  }

  /** A missing key receives its default row, value and description included. */
  lemma {:induction false} MissingGetsDefault(settings: map<string, Setting>, defaults: seq<Setting>, i: nat)
    requires DistinctSettingKeys(defaults) && i < |defaults| && defaults[i].key !in settings
    ensures defaults[i].key in InsertMissing(settings, defaults)
    ensures InsertMissing(settings, defaults)[defaults[i].key] == defaults[i]
    decreases |defaults|
  {
    var init := defaults[..|defaults| - 1];
    if i < |defaults| - 1 {
      assert init[i] == defaults[i];
      MissingGetsDefault(settings, init, i);
    } else {
      var key := defaults[i].key;
      forall j | 0 <= j < |init| ensures init[j].key != key {
        assert init[j] == defaults[j];
      }
      ExistingKept(settings, init, key);
    }
  }

  /** When every default key is already stored the initialiser writes nothing. */
  lemma {:induction false} NothingMissingNoWrite(settings: map<string, Setting>, defaults: seq<Setting>)
    requires forall i :: 0 <= i < |defaults| ==> defaults[i].key in settings
    ensures InsertMissing(settings, defaults) == settings
    decreases |defaults|
  {
    if defaults != [] {
      NothingMissingNoWrite(settings, defaults[..|defaults| - 1]);
    }
  }

  /** Running the initialiser twice leaves the table it leaves after once. */
  lemma InitializeIdempotent(settings: map<string, Setting>)
    ensures InsertMissing(InsertMissing(settings, DEFAULTS), DEFAULTS) == InsertMissing(settings, DEFAULTS)
  {
    var once := InsertMissing(settings, DEFAULTS);
    forall i | 0 <= i < |DEFAULTS| ensures DEFAULTS[i].key in once {
      DefaultsPresent(settings, DEFAULTS, DEFAULTS[i].key);
    }
    NothingMissingNoWrite(once, DEFAULTS);
  }

  /** What `getSettings` stores for one row: the parsed value, or the raw
      text where `JSON.parse` throws. */
  datatype SettingValue = Parsed(json: Json) | Raw(text: string)

  function Decode(text: string): (v: SettingValue)
    ensures v.Raw? ==> v.text == text && Parse(text).None?
    ensures v.Parsed? ==> Parse(text) == Some(v.json)
  {
    match Parse(text)
    case Some(j) => Parsed(j)
    case None => Raw(text)
  }

  /** A value written by the settings route reads back as the value posted. */
  lemma DecodeStringify(v: Json)
    ensures Decode(Stringify(v)) == Parsed(v)
  {
    ParseStringify(v);
  }

  /** The object built from the rows, one assignment per row in order. */
  function SettingsObject(rows: seq<Setting>): (obj: map<string, SettingValue>)
    ensures |rows| > 0 ==> rows[|rows| - 1].key in obj && obj[rows[|rows| - 1].key] == Decode(rows[|rows| - 1].value)
  {
    if rows == [] then map[]
    else SettingsObject(rows[..|rows| - 1])[rows[|rows| - 1].key := Decode(rows[|rows| - 1].value)]
  }

  /** The settings table read as one object: every key with its decoded value. */
  function TableObject(settings: map<string, Setting>): (obj: map<string, SettingValue>)
    ensures obj.Keys == settings.Keys
  {
    map k | k in settings :: Decode(settings[k].value)
  }

  /** `getSettings()` over the rows `findMany` returns. */
  method GetSettings(rows: seq<Setting>) returns (obj: map<string, SettingValue>)
    ensures obj == SettingsObject(rows)
  {
    obj := map[];
    var i := 0;
    while i < |rows|
      invariant i <= |rows|
      invariant obj == SettingsObject(rows[..i])
    {
      var setting := rows[i];
      obj := obj[setting.key := Decode(setting.value)];
      assert rows[..i + 1][..i] == rows[..i];
      i := i + 1;
    }
    assert rows[..i] == rows;
  }

  /** `rows` is the whole table, each row once. */
  predicate Lists(rows: seq<Setting>, settings: map<string, Setting>)
  {
    && DistinctSettingKeys(rows)
    && (forall i :: 0 <= i < |rows| ==> rows[i].key in settings && settings[rows[i].key] == rows[i])
    && (forall k :: k in settings ==> ListsKey(rows, k))
  }

  /** Over the rows of a keyed table, the object maps each key to its decoded
      stored value, whatever the order of the rows. */
  lemma {:induction false} ObjectOfListedRows(rows: seq<Setting>, settings: map<string, Setting>)
    requires SettingsKeyed(settings) && Lists(rows, settings)
    ensures SettingsObject(rows) == TableObject(settings)
  {
    ObjectOfRows(rows);
    forall k | k in settings ensures k in SettingsObject(rows) && SettingsObject(rows)[k] == Decode(settings[k].value) {
      var i :| 0 <= i < |rows| && rows[i].key == k;
      RowDecoded(rows, i);
    }
  }

  /** The object's keys are the rows' keys. */
  lemma {:induction false} ObjectOfRows(rows: seq<Setting>)
    ensures forall k :: k in SettingsObject(rows) <==> ListsKey(rows, k)
    decreases |rows|
  {
    if rows != [] {
      var init := rows[..|rows| - 1];
      ObjectOfRows(init);
      forall k ensures ListsKey(rows, k) <==> ListsKey(init, k) || rows[|rows| - 1].key == k {
        if ListsKey(init, k) {
          var i :| 0 <= i < |init| && init[i].key == k;
          assert rows[i].key == k;
        }
        if ListsKey(rows, k) && rows[|rows| - 1].key != k {
          var i :| 0 <= i < |rows| && rows[i].key == k;
          assert init[i].key == k;
        }
      }
    }
  }

  /** With distinct keys each row's key holds that row's decoded value. */
  lemma {:induction false} RowDecoded(rows: seq<Setting>, i: nat)
    requires DistinctSettingKeys(rows) && i < |rows|
    ensures rows[i].key in SettingsObject(rows)
    ensures SettingsObject(rows)[rows[i].key] == Decode(rows[i].value)
    decreases |rows|
  {
    if i < |rows| - 1 {
      var init := rows[..|rows| - 1];
      assert init[i] == rows[i];
      RowDecoded(init, i);
    }
  }

  /** JavaScript truthiness of what `getSettings` stored. */
  predicate ValueTruthy(v: SettingValue)
  {
    match v
    case Parsed(j) => JsonTruthy(j)
    case Raw(t) => t != ""
  }

  /** `settings[key] || fallback`. */
  function OrDefault(obj: map<string, SettingValue>, key: string, fallback: SettingValue): (v: SettingValue)
    ensures v != fallback ==> key in obj && v == obj[key]
  {
    if key in obj && ValueTruthy(obj[key]) then obj[key] else fallback
  }

  /** What the form shows for the settings it lists with an integer or text
      fallback. */
  datatype Shown = Shown(
    freeQuota: SettingValue,
    premiumDailyLimit: SettingValue,
    freeResolution: SettingValue,
    premiumResolution: SettingValue,
    freeExpirationDays: SettingValue,
    registrationEnabled: bool)

  /** `settings.registration_enabled !== false`. */
  predicate RegistrationEnabled(obj: map<string, SettingValue>)
  {
    !("registration_enabled" in obj && obj["registration_enabled"] == Parsed(JBool(false)))
  }

  function Display(obj: map<string, SettingValue>): (s: Shown)
    ensures ValueTruthy(s.freeQuota) && ValueTruthy(s.premiumDailyLimit) && ValueTruthy(s.freeResolution)
    ensures ValueTruthy(s.premiumResolution) && ValueTruthy(s.freeExpirationDays)
    ensures s.registrationEnabled <==> !("registration_enabled" in obj && obj["registration_enabled"] == Parsed(JBool(false)))
  {
    Shown(
      OrDefault(obj, "free_quota", Parsed(JInt(2))),
      OrDefault(obj, "premium_daily_limit", Parsed(JInt(50))),
      OrDefault(obj, "free_resolution", Parsed(JStr("768x768"))),
      OrDefault(obj, "premium_resolution", Parsed(JStr("1024x1024"))),
      OrDefault(obj, "free_expiration_days", Parsed(JInt(7))),
      RegistrationEnabled(obj))
  }

  /** The fallback is shown exactly when the stored value is missing or falsy. */
  lemma OrDefaultCharacterised(obj: map<string, SettingValue>, key: string, fallback: SettingValue)
    requires ValueTruthy(fallback)
    ensures ValueTruthy(OrDefault(obj, key, fallback))
    ensures OrDefault(obj, key, fallback) == fallback <==> key !in obj || !ValueTruthy(obj[key]) || obj[key] == fallback
  {
  }

  /** Registration is shown disabled only for a stored `false`: a stored `0`,
      an empty text or an unparsable value all show it enabled. */
  lemma OnlyFalseDisablesRegistration(settings: map<string, Setting>)
    requires "registration_enabled" in settings
    ensures !RegistrationEnabled(TableObject(settings)) <==> Parse(settings["registration_enabled"].value) == Some(JBool(false))
  {
  }

  /** A stored `0` free quota is falsy and shows the fallback 2. */
  lemma ZeroQuotaShowsFallback(settings: map<string, Setting>)
    requires "free_quota" in settings && settings["free_quota"].value == "0"
    ensures Display(TableObject(settings)).freeQuota == Parsed(JInt(2))
  {
    assert Stringify(JInt(0)) == "0";
    DecodeStringify(JInt(0));
  }

  /** The default keys are distinct. */
  lemma DefaultKeysDistinct()
    ensures DistinctSettingKeys(DEFAULTS)
  {
  }

  /** On a table without a registration row, the page shows registration
      enabled once the defaults are in. */
  lemma FreshTableEnablesRegistration(settings: map<string, Setting>)
    requires "registration_enabled" !in settings
    ensures RegistrationEnabled(TableObject(InsertMissing(settings, DEFAULTS)))
  {
    DefaultKeysDistinct();
    MissingGetsDefault(settings, DEFAULTS, 3);
    var table := InsertMissing(settings, DEFAULTS);
    assert table["registration_enabled"].value == "true";
    DecodeTrue();
    assert TableObject(table)["registration_enabled"] == Parsed(JBool(true));
  }

  /** The stored default of the registration switch reads back as `true`. */
  lemma DecodeTrue()
    ensures Decode("true") == Parsed(JBool(true))
  {
    assert Stringify(JBool(true)) == "true";
    DecodeStringify(JBool(true));
  }

  /** The stored default of the free quota reads back as the number 2. */
  lemma DecodeTwo()
    ensures Decode("2") == Parsed(JInt(2))
  {
    assert Stringify(JInt(2)) == "2";
    DecodeStringify(JInt(2));
  }

  /** On a table without a free-quota row, the page shows the default 2 once
      the defaults are in. */
  lemma FreshTableShowsFreeQuota(settings: map<string, Setting>)
    requires "free_quota" !in settings
    ensures Display(TableObject(InsertMissing(settings, DEFAULTS))).freeQuota == Parsed(JInt(2))
  {
    DefaultKeysDistinct();
    MissingGetsDefault(settings, DEFAULTS, 0);
    var obj := TableObject(InsertMissing(settings, DEFAULTS));
    DecodeTwo();
    assert obj["free_quota"] == Parsed(JInt(2));
    assert OrDefault(obj, "free_quota", Parsed(JInt(2))) == Parsed(JInt(2));
  }
}
