/**
 * The per-user contact permissions (`PermissionConfig`), stored as account data.
 *
 * A document looks like
 *   {"defaultSetting": "block all",
 *    "serverExceptions": {"power.rangers": {}},
 *    "userExceptions": {"@david:hassel.hoff": {}},
 *    "groupExceptions": [{"groupName": "isInsuredPerson"}]}
 * where only `defaultSetting` is required. The contents of the exception entries are
 * not used; only their keys are.
 */
module PermissionConfigs {
  import opened Wrappers
  import opened Json
  import opened UserIds

  datatype DefaultSetting = AllowAll | BlockAll

  /** The groups a user may except; the insured-person group is the only one in use. */
  datatype GroupName = IsInsuredPerson

  datatype PermissionConfig = PermissionConfig(
    defaultSetting: DefaultSetting,
    serverExceptions: set<string>,
    userExceptions: set<string>,
    groupExceptions: seq<GroupName>)

  const AllowAllName := "allow all"
  const BlockAllName := "block all"
  const InsuredPersonName := "isInsuredPerson"

  /** The JSON spelling of a default setting. */
  function DefaultSettingJson(s: DefaultSetting): Json
  {
    match s
    case AllowAll => JStr(AllowAllName)
    case BlockAll => JStr(BlockAllName)
  }

  /** One `groupExceptions` entry as it is dumped. */
  function GroupEntryJson(g: GroupName): Json
  {
    match g
    case IsInsuredPerson => JObject(map["groupName" := JStr(InsuredPersonName)])
  }

  // ---------------------------------------------------------------------------
  // Validation

  function ParseDefaultSetting(j: Json): (r: Result<DefaultSetting, string>)
    ensures r.Ok? <==> j == JStr(AllowAllName) || j == JStr(BlockAllName)
    ensures r.Ok? ==> DefaultSettingJson(r.value) == j
  {
    if j == JStr(AllowAllName) then Ok(AllowAll)
    else if j == JStr(BlockAllName) then Ok(BlockAll)
    else Err("defaultSetting")
  }

  /** One `groupExceptions` entry: an object whose `groupName` is a known group; other keys are ignored. */
  function ParseGroupEntry(j: Json): (r: Result<GroupName, string>)
    ensures r.Ok? <==> j.JObject? && "groupName" in j.fields && j.fields["groupName"] == JStr(InsuredPersonName)
  {
    if j.JObject? && "groupName" in j.fields && j.fields["groupName"] == JStr(InsuredPersonName) then
      Ok(IsInsuredPerson)
    else Err("groupExceptions")
  }

  function ParseGroupEntries(items: seq<Json>): (r: Result<seq<GroupName>, string>)
    ensures r.Ok? <==> forall i :: 0 <= i < |items| ==> ParseGroupEntry(items[i]).Ok?
    ensures r.Ok? ==> |r.value| == |items|
    ensures r.Ok? ==> forall i :: 0 <= i < |items| ==> ParseGroupEntry(items[i]) == Ok(r.value[i])
  {
    if items == [] then Ok([])
    else match (ParseGroupEntry(items[0]), ParseGroupEntries(items[1..]))
      case (Err(e), _) => Err(e)
      case (_, Err(e)) => Err(e)
      case (Ok(g), Ok(gs)) =>
        assert forall i :: 1 <= i < |items| ==> items[i] == items[1..][i - 1];
        Ok([g] + gs)
  }

  function DumpGroupEntries(gs: seq<GroupName>): (r: seq<Json>)
    ensures |r| == |gs|
    ensures ParseGroupEntries(r) == Ok(gs)
  {
    if gs == [] then []
    else
      var r := [GroupEntryJson(gs[0])] + DumpGroupEntries(gs[1..]);
      assert r[1..] == DumpGroupEntries(gs[1..]);
      assert gs[0] == IsInsuredPerson && r[0] == GroupEntryJson(IsInsuredPerson);
      assert ParseGroupEntry(r[0]) == Ok(gs[0]);
      assert ParseGroupEntries(r) == Ok([gs[0]] + gs[1..]);
      assert gs == [gs[0]] + gs[1..];
      r
  }

  /** An optional exception map (`serverExceptions`, `userExceptions`): absent means none. */
  function ParseExceptionKeys(obj: map<string, Json>, key: string): (r: Result<set<string>, string>)
    ensures r.Ok? <==> key !in obj || obj[key].JObject?
    ensures r.Ok? ==> r.value == if key in obj then obj[key].fields.Keys else {}
  {
    if key !in obj then Ok({})
    else if obj[key].JObject? then Ok(obj[key].fields.Keys)
    else Err(key)
  }

  /** The optional `groupExceptions` list: absent means none. */
  function ParseGroupExceptions(obj: map<string, Json>): (r: Result<seq<GroupName>, string>)
    ensures r.Ok? <==> ("groupExceptions" !in obj
      || (obj["groupExceptions"].JArray? && ParseGroupEntries(obj["groupExceptions"].items).Ok?))
    ensures r.Ok? && "groupExceptions" !in obj ==> r.value == []
    ensures r.Ok? && "groupExceptions" in obj ==> ParseGroupEntries(obj["groupExceptions"].items) == r
  {
    if "groupExceptions" !in obj then Ok([])
    else if obj["groupExceptions"].JArray? then ParseGroupEntries(obj["groupExceptions"].items)
    else Err("groupExceptions")
  }

  /** `PermissionConfig.model_validate` on an account-data dictionary. */
  function Validate(obj: map<string, Json>): (r: Result<PermissionConfig, string>)
    ensures r.Ok? <==>
      && "defaultSetting" in obj && ParseDefaultSetting(obj["defaultSetting"]).Ok?
      && ParseExceptionKeys(obj, "serverExceptions").Ok?
      && ParseExceptionKeys(obj, "userExceptions").Ok?
      && ParseGroupExceptions(obj).Ok?
    // a valid document always carries a usable `defaultSetting`
    ensures r.Ok? ==> "defaultSetting" in obj && Truthy(obj["defaultSetting"])
    ensures r.Ok? ==> DefaultSettingJson(r.value.defaultSetting) == obj["defaultSetting"]
    // the exception collections are exactly what their readers give
    ensures r.Ok? ==> ParseExceptionKeys(obj, "serverExceptions") == Ok(r.value.serverExceptions)
    ensures r.Ok? ==> ParseExceptionKeys(obj, "userExceptions") == Ok(r.value.userExceptions)
    ensures r.Ok? ==> ParseGroupExceptions(obj) == Ok(r.value.groupExceptions)
  {
    if "defaultSetting" !in obj then Err("defaultSetting")
    else
      var d := ParseDefaultSetting(obj["defaultSetting"]);
      var servers := ParseExceptionKeys(obj, "serverExceptions");
      var users := ParseExceptionKeys(obj, "userExceptions");
      var groups := ParseGroupExceptions(obj);
      if d.Err? then Err(d.error)
      else if servers.Err? then Err(servers.error)
      else if users.Err? then Err(users.error)
      else if groups.Err? then Err(groups.error)
      else Ok(PermissionConfig(d.value, servers.value, users.value, groups.value))
  }

  // ---------------------------------------------------------------------------
  // Dumping

  /** An exception map as dumped: every key maps to `{}`. */
  function ExceptionMapJson(keys: set<string>): (r: Json)
    ensures r.JObject? && r.fields.Keys == keys
  {
    var m := map k | k in keys :: EmptyObject;
    assert m.Keys == keys;
    JObject(m)
  }

  /**
   * `PermissionConfig.dump()`: the dictionary written to account data. `defaultSetting`
   * is always written; a collection is written only when it is not empty.
   */
  function Dump(p: PermissionConfig): (r: map<string, Json>)
    ensures Validate(r) == Ok(p)
    ensures "serverExceptions" in r <==> p.serverExceptions != {}
    ensures "userExceptions" in r <==> p.userExceptions != {}
    ensures "groupExceptions" in r <==> p.groupExceptions != []
  {
    var withDefault := map["defaultSetting" := DefaultSettingJson(p.defaultSetting)];
    var withServers :=
      if p.serverExceptions == {} then withDefault
      else withDefault["serverExceptions" := ExceptionMapJson(p.serverExceptions)];
    var withUsers :=
      if p.userExceptions == {} then withServers
      else withServers["userExceptions" := ExceptionMapJson(p.userExceptions)];
    var r :=
      if p.groupExceptions == [] then withUsers
      else withUsers["groupExceptions" := JArray(DumpGroupEntries(p.groupExceptions))];
    assert ParseDefaultSetting(r["defaultSetting"]) == Ok(p.defaultSetting);
    assert ParseExceptionKeys(r, "serverExceptions") == Ok(p.serverExceptions);
    assert ParseExceptionKeys(r, "userExceptions") == Ok(p.userExceptions);
    assert ParseGroupExceptions(r) == Ok(p.groupExceptions);
    r
  }

  /** An exception map exactly as `Dump` writes it: non-empty, every value `{}`. */
  predicate IsDumpedExceptionMap(j: Json)
  {
    j.JObject? && j.fields != map[] && forall k :: k in j.fields ==> j.fields[k] == EmptyObject
  }

  /**
   * A permission document in the form `Dump` produces: only the four known keys, a valid
   * `defaultSetting`, and each collection present only when non-empty and written canonically.
   */
  predicate IsCanonicalDocument(obj: map<string, Json>)
  {
    && "defaultSetting" in obj
    && (obj["defaultSetting"] == JStr(AllowAllName) || obj["defaultSetting"] == JStr(BlockAllName))
    && (forall k :: k in obj ==>
          k == "defaultSetting" || k == "serverExceptions" || k == "userExceptions" || k == "groupExceptions")
    && ("serverExceptions" in obj ==> IsDumpedExceptionMap(obj["serverExceptions"]))
    && ("userExceptions" in obj ==> IsDumpedExceptionMap(obj["userExceptions"]))
    && ("groupExceptions" in obj ==>
          && obj["groupExceptions"].JArray?
          && obj["groupExceptions"].items != []
          && forall i :: 0 <= i < |obj["groupExceptions"].items| ==>
               obj["groupExceptions"].items[i] == GroupEntryJson(IsInsuredPerson))
  }

  lemma {:induction false} GroupEntriesRoundTrip(items: seq<Json>)
    requires forall i :: 0 <= i < |items| ==> items[i] == GroupEntryJson(IsInsuredPerson)
    ensures ParseGroupEntries(items).Ok?
    ensures DumpGroupEntries(ParseGroupEntries(items).value) == items
  {
    if items != [] {
      GroupEntriesRoundTrip(items[1..]);
      assert items == [items[0]] + items[1..];
    }
  }

  lemma ExceptionMapRoundTrip(j: Json)
    requires IsDumpedExceptionMap(j)
    ensures ExceptionMapJson(j.fields.Keys) == j
  {
  }

  /** What validating a canonical document gives, part by part. */
  lemma ValidateCanonical(obj: map<string, Json>)
    requires IsCanonicalDocument(obj)
    ensures Validate(obj).Ok?
    ensures DefaultSettingJson(Validate(obj).value.defaultSetting) == obj["defaultSetting"]
    ensures Validate(obj).value.serverExceptions
         == if "serverExceptions" in obj then obj["serverExceptions"].fields.Keys else {}
    ensures Validate(obj).value.userExceptions
         == if "userExceptions" in obj then obj["userExceptions"].fields.Keys else {}
    ensures "groupExceptions" in obj ==>
              DumpGroupEntries(Validate(obj).value.groupExceptions) == obj["groupExceptions"].items
    ensures "groupExceptions" !in obj ==> Validate(obj).value.groupExceptions == []
  {
    if "groupExceptions" in obj {
      GroupEntriesRoundTrip(obj["groupExceptions"].items);
    }
  }

  /** What `Dump` writes under each key. */
  lemma DumpEntries(p: PermissionConfig)
    ensures forall k :: k in Dump(p) ==>
              k == "defaultSetting" || k == "serverExceptions" || k == "userExceptions" || k == "groupExceptions"
    ensures "defaultSetting" in Dump(p) && Dump(p)["defaultSetting"] == DefaultSettingJson(p.defaultSetting)
    ensures "serverExceptions" in Dump(p) ==> Dump(p)["serverExceptions"] == ExceptionMapJson(p.serverExceptions)
    ensures "userExceptions" in Dump(p) ==> Dump(p)["userExceptions"] == ExceptionMapJson(p.userExceptions)
    ensures "groupExceptions" in Dump(p) ==> Dump(p)["groupExceptions"] == JArray(DumpGroupEntries(p.groupExceptions))
  {
  }

  /** Validating a canonical document and dumping the result gives the same document back. */
  lemma {:induction false} DumpOfValidated(obj: map<string, Json>)
    requires IsCanonicalDocument(obj)
    ensures Validate(obj).Ok?
    ensures Dump(Validate(obj).value) == obj
  {
    ValidateCanonical(obj);
    var p := Validate(obj).value;
    DumpEntries(p);
    var d := Dump(p);
    if "serverExceptions" in obj {
      ExceptionMapRoundTrip(obj["serverExceptions"]);
    }
    if "userExceptions" in obj {
      ExceptionMapRoundTrip(obj["userExceptions"]);
    }
    assert d.Keys == obj.Keys;
  }

  // ---------------------------------------------------------------------------
  // The contact rule

  predicate IsAllowAll(p: PermissionConfig)
  {
    p.defaultSetting == AllowAll
  }

  predicate IsGroupExcepted(p: PermissionConfig, g: GroupName)
  {
    g in p.groupExceptions
  }

  /** The remote party is named by one of the exceptions: its group, its server or itself. */
  predicate MatchesException(p: PermissionConfig, mxid: string, isMxidEpa: bool)
    requires ParseUserId(mxid).Some?
  {
    || (isMxidEpa && IsGroupExcepted(p, IsInsuredPerson))
    || ParseUserId(mxid).value.domain in p.serverExceptions
    || mxid in p.userExceptions
  }

  /**
   * `is_mxid_allowed_to_contact`: the exceptions are checked in turn (insured-person group,
   * then server, then user); the first one that applies inverts the default setting.
   */
  function IsMxidAllowedToContact(p: PermissionConfig, mxid: string, isMxidEpa: bool): (r: bool)
    requires ParseUserId(mxid).Some?
    // the default decides unless an exception applies, and any number of exceptions invert it once
    ensures r <==> (IsAllowAll(p) != MatchesException(p, mxid, isMxidEpa))
  {
    if isMxidEpa && IsGroupExcepted(p, IsInsuredPerson) then !IsAllowAll(p)
    else if ParseUserId(mxid).value.domain in p.serverExceptions then !IsAllowAll(p)
    else if mxid in p.userExceptions then !IsAllowAll(p)
    else IsAllowAll(p)
  }
}
