/**
 * The permissions handler: which of a user's two account-data slots holds their
 * `PermissionConfig`, reading it with self-healing defaults, writing it, and deciding
 * whether a local user may be contacted by a remote one.
 */
module Permissions {
  import opened Wrappers
  import opened Json
  import opened Types
  import opened UserIds
  import opened PermissionConfigs

  /** The two account-data types: the insured-person (EPA) slot and the practitioner (PRO) slot. */
  datatype PermissionConfigType = EpaAccountDataType | ProAccountDataType

  /**
   * The injected `is_domain_insurance` callback. `Err` stands for the exception it raises,
   * for instance when the federation list cannot be obtained.
   */
  type InsuranceClassifier = string -> Result<bool, string>

  datatype Failure =
    | InvalidUserId(userId: string)      // `UserID.from_string` raised
    | ClassifierFailed(reason: string)   // the callback raised and nothing caught it

  /** Global account data: one JSON dictionary per user and account-data type. */
  type AccountData = map<(string, PermissionConfigType), map<string, Json>>

  /** What an operation returns, together with the account data it leaves behind. */
  datatype Outcome<T> = Outcome(result: Result<T, Failure>, accountData: AccountData)

  /** `get_global`: the stored dictionary, or `None`. */
  function GetGlobal(data: AccountData, userId: string, t: PermissionConfigType): Option<map<string, Json>>
  {
    if (userId, t) in data then Some(data[(userId, t)]) else None
  }

  /**
   * `get_config_type_from_mxid`: classify the user's own domain. When the classifier
   * raises, fall back to the configured operating mode; an unparsable user id raises.
   */
  function ConfigTypeFromMxid(userId: string, isDomainInsurance: InsuranceClassifier, timType: TimType)
    : (r: Result<PermissionConfigType, Failure>)
    ensures r.Err? <==> ParseUserId(userId).None?
    ensures r.Err? ==> r.error == InvalidUserId(userId)
    ensures r.Ok? && isDomainInsurance(ParseUserId(userId).value.domain).Ok? ==>
      (r.value == EpaAccountDataType <==> isDomainInsurance(ParseUserId(userId).value.domain).value)
    ensures r.Ok? && isDomainInsurance(ParseUserId(userId).value.domain).Err? ==>
      (r.value == EpaAccountDataType <==> timType == EPA)
  {
    match ParseUserId(userId)
    case None => Err(InvalidUserId(userId))
    case Some(user) =>
      match isDomainInsurance(user.domain)
      case Ok(true) => Ok(EpaAccountDataType)
      case Ok(false) => Ok(ProAccountDataType)
      case Err(_) => if timType == EPA then Ok(EpaAccountDataType) else Ok(ProAccountDataType)
  }

  /** The permissions a slot yields, and whether the default has to be written back. */
  datatype SlotRead = SlotRead(permissions: PermissionConfig, reset: bool)

  /**
   * The meaning of reading a slot: stored data that validates is used as it is; anything
   * else (nothing stored, `{}`, no `defaultSetting`, a document that fails validation)
   * is replaced by the configured default.
   */
  function ReadSlot(stored: Option<map<string, Json>>, defaults: PermissionConfig): (r: SlotRead)
    ensures r.reset <==> (stored.None? || Validate(stored.value).Err?)
    ensures r.reset ==> r.permissions == defaults
    ensures !r.reset ==> Validate(stored.value) == Ok(r.permissions)
  {
    if stored.Some? && Validate(stored.value).Ok? then SlotRead(Validate(stored.value).value, false)
    else SlotRead(defaults, true)
  }

  /** What `update_permissions` leaves in account data: the dump, in the user's own slot only. */
  function UpdatePermissionsSpec(
    data: AccountData, userId: string, permissions: PermissionConfig,
    isDomainInsurance: InsuranceClassifier, timType: TimType): (o: Outcome<()>)
    ensures o.result.Ok? <==> ConfigTypeFromMxid(userId, isDomainInsurance, timType).Ok?
    ensures o.result.Err? ==> o.accountData == data
    ensures o.result.Ok? ==>
      var t := ConfigTypeFromMxid(userId, isDomainInsurance, timType).value;
      && (userId, t) in o.accountData
      && Validate(o.accountData[(userId, t)]) == Ok(permissions)
      && o.accountData[(userId, t)] == Dump(permissions)
      // no other slot changes, not even the user's other one
      && forall k :: k != (userId, t) ==>
           (k in o.accountData <==> k in data) && (k in data ==> o.accountData[k] == data[k])
  {
    match ConfigTypeFromMxid(userId, isDomainInsurance, timType)
    case Err(e) => Outcome(Err(e), data)
    case Ok(t) => Outcome(Ok(()), data[(userId, t) := Dump(permissions)])
  }

  /** What `get_permissions` returns and leaves in account data. */
  function GetPermissionsSpec(
    data: AccountData, userId: string,
    isDomainInsurance: InsuranceClassifier, timType: TimType, defaults: PermissionConfig)
    : (o: Outcome<PermissionConfig>)
    ensures o.result.Ok? <==> ConfigTypeFromMxid(userId, isDomainInsurance, timType).Ok?
    // after the call the selected slot holds a valid document, and it is the one returned
    ensures o.result.Ok? ==>
      var t := ConfigTypeFromMxid(userId, isDomainInsurance, timType).value;
      (userId, t) in o.accountData && Validate(o.accountData[(userId, t)]) == Ok(o.result.value)
    // usable stored data is returned as validated and nothing is written; anything else
    // gives the default, which is written to the slot
    ensures o.result.Ok? ==>
      var t := ConfigTypeFromMxid(userId, isDomainInsurance, timType).value;
      var stored := GetGlobal(data, userId, t);
      && (stored.Some? && Validate(stored.value).Ok? ==>
            o.result.value == Validate(stored.value).value && o.accountData == data)
      && (stored.None? || Validate(stored.value).Err? ==>
            o.result.value == defaults && o.accountData[(userId, t)] == Dump(defaults))
    // no other slot changes, not even the user's other one
    ensures o.result.Ok? ==>
      var t := ConfigTypeFromMxid(userId, isDomainInsurance, timType).value;
      forall k :: k != (userId, t) ==>
        (k in o.accountData <==> k in data) && (k in data ==> o.accountData[k] == data[k])
    ensures o.result.Err? ==> o.accountData == data
  {
    match ConfigTypeFromMxid(userId, isDomainInsurance, timType)
    case Err(e) => Outcome(Err(e), data)
    case Ok(t) =>
      var read := ReadSlot(GetGlobal(data, userId, t), defaults);
      Outcome(Ok(read.permissions),
              if read.reset then UpdatePermissionsSpec(data, userId, defaults, isDomainInsurance, timType).accountData
              else data)
  }

  /** Reading twice is reading once: the second read returns the same and writes nothing. */
  lemma GetPermissionsIdempotent(
    data: AccountData, userId: string,
    isDomainInsurance: InsuranceClassifier, timType: TimType, defaults: PermissionConfig)
    ensures var first := GetPermissionsSpec(data, userId, isDomainInsurance, timType, defaults);
      GetPermissionsSpec(first.accountData, userId, isDomainInsurance, timType, defaults) == first
  {
  }

  /**
   * The decision of `is_user_allowed` once the local user's permissions are known:
   * classify the remote user's domain and ask the permissions. Neither an unparsable
   * remote id nor a raising classifier is caught here.
   */
  function ContactDecision(p: PermissionConfig, remoteMxid: string, isDomainInsurance: InsuranceClassifier)
    : (r: Result<bool, Failure>)
    ensures ParseUserId(remoteMxid).None? ==> r == Err(InvalidUserId(remoteMxid))
    ensures ParseUserId(remoteMxid).Some? ==>
      var domain := ParseUserId(remoteMxid).value.domain;
      && (isDomainInsurance(domain).Err? ==> r == Err(ClassifierFailed(isDomainInsurance(domain).error)))
      && (isDomainInsurance(domain).Ok? ==>
            r.Ok? && (r.value <==> (IsAllowAll(p) != MatchesException(p, remoteMxid, isDomainInsurance(domain).value))))
  {
    match ParseUserId(remoteMxid)
    case None => Err(InvalidUserId(remoteMxid))
    case Some(remote) =>
      match isDomainInsurance(remote.domain)
      case Err(e) => Err(ClassifierFailed(e))
      case Ok(isEpa) => Ok(IsMxidAllowedToContact(p, remoteMxid, isEpa))
  }

  /** `InviteCheckerPermissionsHandler`: the account-data store and the handler's configuration. */
  class PermissionsHandler {
    var accountData: AccountData
    const timType: TimType
    const isDomainInsurance: InsuranceClassifier
    const defaultPerms: PermissionConfig

    constructor (timType: TimType, isDomainInsurance: InsuranceClassifier,
                 defaultPerms: PermissionConfig, accountData: AccountData)
      ensures this.timType == timType && this.isDomainInsurance == isDomainInsurance
      ensures this.defaultPerms == defaultPerms && this.accountData == accountData
    {
      this.timType := timType;
      this.isDomainInsurance := isDomainInsurance;
      this.defaultPerms := defaultPerms;
      this.accountData := accountData;
    }

    /** `update_permissions`: `put_global` of the dump under the user's selected slot. */
    method UpdatePermissions(userId: string, permissions: PermissionConfig) returns (r: Result<(), Failure>)
      modifies this
      ensures Outcome(r, accountData) ==
        UpdatePermissionsSpec(old(accountData), userId, permissions, isDomainInsurance, timType)
    {
      var configType := ConfigTypeFromMxid(userId, isDomainInsurance, timType);
      match configType {
        case Err(e) =>
          r := Err(e);
        case Ok(t) =>
          accountData := accountData[(userId, t) := Dump(permissions)];
          r := Ok(());
      }
    }

    /** `get_permissions`: read the selected slot, writing the default back when it is unusable. */
    method GetPermissions(userId: string) returns (r: Result<PermissionConfig, Failure>)
      modifies this
      ensures Outcome(r, accountData) ==
        GetPermissionsSpec(old(accountData), userId, isDomainInsurance, timType, defaultPerms)
    {
      var configType := ConfigTypeFromMxid(userId, isDomainInsurance, timType);
      if configType.Err? {
        return Err(configType.error);
      }
      var stored := GetGlobal(accountData, userId, configType.value);
      var permissions: PermissionConfig;
      if stored.None? || stored.value == map[] || "defaultSetting" !in stored.value
         || !Truthy(stored.value["defaultSetting"]) {
        permissions := defaultPerms;
        var _ := UpdatePermissions(userId, permissions);
      } else {
        var validated := Validate(stored.value);
        if validated.Ok? {
          permissions := validated.value;
        } else {
          permissions := defaultPerms;
          var _ := UpdatePermissions(userId, permissions);
        }
      }
      r := Ok(permissions);
    }

    /** `is_user_allowed`: may the remote user contact this local user? */
    method IsUserAllowed(localUserId: string, remoteMxid: string) returns (r: Result<bool, Failure>)
      modifies this
      ensures var read := GetPermissionsSpec(old(accountData), localUserId, isDomainInsurance, timType, defaultPerms);
        && accountData == read.accountData
        && r == match read.result
                case Err(e) => Err(e)
                case Ok(p) => ContactDecision(p, remoteMxid, isDomainInsurance)
    {
      var permissions := GetPermissions(localUserId);
      if permissions.Err? {
        return Err(permissions.error);
      }
      r := ContactDecision(permissions.value, remoteMxid, isDomainInsurance);
    }
  }
}
