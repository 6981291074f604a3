/**
 * The data types of synapse_invite_checker/types.py and their Pydantic validation.
 *
 * Every model there is configured `strict=True, extra="ignore"`: a field must have
 * exactly its declared JSON type (no coercion of "1" to 1 or of 1 to true), and keys
 * the model does not declare are dropped without error.
 */
module Types {
  import opened Wrappers
  import opened Json

  /** A validation failure names the first offending field. */
  type ValidationError = string

  datatype InviteSettings = InviteSettings(start: int, end: Option<int>)

  datatype Contact = Contact(displayName: string, mxid: string, inviteSettings: InviteSettings)

  datatype Contacts = Contacts(contacts: seq<Contact>)

  datatype FederationDomain = FederationDomain(
    domain: string,
    telematikID: string,
    timAnbieter: Option<string>,
    isInsurance: bool)

  datatype FederationList = FederationList(domainList: seq<FederationDomain>)

  /** The operating mode: practitioner (PRO) or insured person (EPA). */
  datatype TimType = PRO | EPA

  // ---------------------------------------------------------------------------
  // Strict field readers

  /** A required `str` field. */
  function RequiredStr(obj: map<string, Json>, key: string): (r: Result<string, ValidationError>)
    ensures r.Ok? <==> key in obj && obj[key].JStr?
    ensures r.Ok? ==> obj[key] == JStr(r.value)
  {
    if key in obj && obj[key].JStr? then Ok(obj[key].s) else Err(key)
  }

  /** A required `int` field. */
  function RequiredInt(obj: map<string, Json>, key: string): (r: Result<int, ValidationError>)
    ensures r.Ok? <==> key in obj && obj[key].JInt?
    ensures r.Ok? ==> obj[key] == JInt(r.value)
  {
    if key in obj && obj[key].JInt? then Ok(obj[key].i) else Err(key)
  }

  /** A required `bool` field. */
  function RequiredBool(obj: map<string, Json>, key: string): (r: Result<bool, ValidationError>)
    ensures r.Ok? <==> key in obj && obj[key].JBool?
    ensures r.Ok? ==> obj[key] == JBool(r.value)
  {
    if key in obj && obj[key].JBool? then Ok(obj[key].b) else Err(key)
  }

  /** A field declared `str | None` WITHOUT a default: it may be null, but it must be present. */
  function RequiredNullableStr(obj: map<string, Json>, key: string): (r: Result<Option<string>, ValidationError>)
    ensures r.Ok? <==> key in obj && (obj[key].JStr? || obj[key].JNull?)
    ensures r.Ok? ==> (r.value.Some? <==> obj[key].JStr?)
    ensures r.Ok? && r.value.Some? ==> obj[key] == JStr(r.value.value)
  {
    if key !in obj then Err(key)
    else match obj[key]
      case JNull => Ok(None)
      case JStr(s) => Ok(Some(s))
      case _ => Err(key)
  }

  /** A field declared `str | None = None`: absent and null both give `None`. */
  function OptionalStr(obj: map<string, Json>, key: string): (r: Result<Option<string>, ValidationError>)
    ensures r.Ok? <==> key !in obj || obj[key].JStr? || obj[key].JNull?
    ensures r.Ok? ==> (r.value.Some? <==> key in obj && obj[key].JStr?)
    ensures r.Ok? && r.value.Some? ==> obj[key] == JStr(r.value.value)
  {
    if key !in obj then Ok(None)
    else match obj[key]
      case JNull => Ok(None)
      case JStr(s) => Ok(Some(s))
      case _ => Err(key)
  }

  /** A field declared `int | None = None`: absent and null both give `None`. */
  function OptionalInt(obj: map<string, Json>, key: string): (r: Result<Option<int>, ValidationError>)
    ensures r.Ok? <==> key !in obj || obj[key].JInt? || obj[key].JNull?
    ensures r.Ok? ==> (r.value.Some? <==> key in obj && obj[key].JInt?)
    ensures r.Ok? && r.value.Some? ==> obj[key] == JInt(r.value.value)
  {
    if key !in obj then Ok(None)
    else match obj[key]
      case JNull => Ok(None)
      case JInt(i) => Ok(Some(i))
      case _ => Err(key)
  }

  // ---------------------------------------------------------------------------
  // InviteSettings, Contact, Contacts

  /** `InviteSettings.model_validate`: `start` is a required int, `end` an optional int. */
  function ParseInviteSettings(j: Json): (r: Result<InviteSettings, ValidationError>)
    ensures r.Ok? <==>
      && j.JObject?
      && "start" in j.fields && j.fields["start"].JInt?
      && ("end" in j.fields ==> j.fields["end"].JInt? || j.fields["end"].JNull?)
    ensures r.Ok? ==> j.fields["start"] == JInt(r.value.start)
    ensures r.Ok? ==> (r.value.end == None <==> "end" !in j.fields || j.fields["end"] == JNull)
    ensures r.Ok? && r.value.end.Some? ==> j.fields["end"] == JInt(r.value.end.value)
  {
    if !j.JObject? then Err("inviteSettings")
    else match (RequiredInt(j.fields, "start"), OptionalInt(j.fields, "end"))
      case (Ok(start), Ok(end)) => Ok(InviteSettings(start, end))
      case (Err(e), _) => Err(e)
      case (_, Err(e)) => Err(e)
  }

  /** `InviteSettings.model_dump`: both keys, `end` as null when unset. */
  function DumpInviteSettings(s: InviteSettings): (r: Json)
    ensures ParseInviteSettings(r) == Ok(s)
  {
    JObject(map[
      "start" := JInt(s.start),
      "end" := match s.end case Some(e) => JInt(e) case None => JNull])
  }

  /** `Contact.model_validate`: `displayName`, `mxid` and `inviteSettings` are all required. */
  function ParseContact(j: Json): (r: Result<Contact, ValidationError>)
    ensures r.Ok? <==>
      && j.JObject?
      && "displayName" in j.fields && j.fields["displayName"].JStr?
      && "mxid" in j.fields && j.fields["mxid"].JStr?
      && "inviteSettings" in j.fields && ParseInviteSettings(j.fields["inviteSettings"]).Ok?
    ensures r.Ok? ==>
      && j.fields["displayName"] == JStr(r.value.displayName)
      && j.fields["mxid"] == JStr(r.value.mxid)
      && ParseInviteSettings(j.fields["inviteSettings"]) == Ok(r.value.inviteSettings)
  {
    if !j.JObject? then Err("contact")
    else
      match (RequiredStr(j.fields, "displayName"), RequiredStr(j.fields, "mxid"))
      case (Err(e), _) => Err(e)
      case (_, Err(e)) => Err(e)
      case (Ok(name), Ok(mxid)) =>
        if "inviteSettings" !in j.fields then Err("inviteSettings")
        else match ParseInviteSettings(j.fields["inviteSettings"])
          case Err(e) => Err(e)
          case Ok(settings) => Ok(Contact(name, mxid, settings))
  }

  /** `Contact.model_dump`. */
  function DumpContact(c: Contact): (r: Json)
    ensures ParseContact(r) == Ok(c)
  {
    JObject(map[
      "displayName" := JStr(c.displayName),
      "mxid" := JStr(c.mxid),
      "inviteSettings" := DumpInviteSettings(c.inviteSettings)])
  }

  /** Validation of the `contacts` list: every item must be a valid contact. */
  function ParseContactList(items: seq<Json>): (r: Result<seq<Contact>, ValidationError>)
    ensures r.Ok? <==> forall i :: 0 <= i < |items| ==> ParseContact(items[i]).Ok?
    ensures r.Ok? ==> |r.value| == |items|
    ensures r.Ok? ==> forall i :: 0 <= i < |items| ==> ParseContact(items[i]) == Ok(r.value[i])
  {
    if items == [] then Ok([])
    else match (ParseContact(items[0]), ParseContactList(items[1..]))
      case (Err(e), _) => Err(e)
      case (_, Err(e)) => Err(e)
      case (Ok(c), Ok(cs)) =>
        assert forall i :: 1 <= i < |items| ==> items[i] == items[1..][i - 1];
        Ok([c] + cs)
  }

  /** The `contacts` list as `model_dump` writes it, item by item. */
  function DumpContactList(cs: seq<Contact>): (r: seq<Json>)
    ensures |r| == |cs|
    ensures ParseContactList(r) == Ok(cs)
  {
    if cs == [] then []
    else
      var r := [DumpContact(cs[0])] + DumpContactList(cs[1..]);
      assert r[1..] == DumpContactList(cs[1..]);
      assert cs == [cs[0]] + cs[1..];
      r
  }

  /** `Contacts.model_validate`. */
  function ParseContacts(j: Json): (r: Result<Contacts, ValidationError>)
    ensures r.Ok? <==>
      j.JObject? && "contacts" in j.fields && j.fields["contacts"].JArray?
      && ParseContactList(j.fields["contacts"].items).Ok?
    ensures r.Ok? ==> ParseContactList(j.fields["contacts"].items) == Ok(r.value.contacts)
  {
    if j.JObject? && "contacts" in j.fields && j.fields["contacts"].JArray? then
      match ParseContactList(j.fields["contacts"].items)
      case Err(e) => Err(e)
      case Ok(cs) => Ok(Contacts(cs))
    else Err("contacts")
  }

  /** `Contacts.model_dump`: `{"contacts": [...]}`. */
  function DumpContacts(cs: Contacts): (r: Json)
    ensures ParseContacts(r) == Ok(cs)
  {
    JObject(map["contacts" := JArray(DumpContactList(cs.contacts))])
  }

  // ---------------------------------------------------------------------------
  // FederationDomain and FederationList

  /**
   * `FederationDomain.model_validate` exactly as declared: `timAnbieter: str | None` has
   * no default, so Pydantic requires the key even though null is accepted.
   */
  function ParseDomainAsWritten(j: Json): (r: Result<FederationDomain, ValidationError>)
    ensures r.Ok? <==>
      && j.JObject?
      && RequiredStr(j.fields, "domain").Ok?
      && RequiredStr(j.fields, "telematikID").Ok?
      && "timAnbieter" in j.fields && (j.fields["timAnbieter"].JStr? || j.fields["timAnbieter"].JNull?)
      && RequiredBool(j.fields, "isInsurance").Ok?
    ensures r.Ok? ==>
      && j.fields["domain"] == JStr(r.value.domain)
      && j.fields["telematikID"] == JStr(r.value.telematikID)
      && j.fields["isInsurance"] == JBool(r.value.isInsurance)
    ensures r.Ok? ==> (r.value.timAnbieter == None <==> j.fields["timAnbieter"] == JNull)
    ensures r.Ok? && r.value.timAnbieter.Some? ==> j.fields["timAnbieter"] == JStr(r.value.timAnbieter.value)
  {
    if !j.JObject? then Err("domainList")
    else
      match (RequiredStr(j.fields, "domain"), RequiredStr(j.fields, "telematikID"),
             RequiredNullableStr(j.fields, "timAnbieter"), RequiredBool(j.fields, "isInsurance"))
      case (Ok(d), Ok(t), Ok(a), Ok(ins)) => Ok(FederationDomain(d, t, a, ins))
      case (Err(e), _, _, _) => Err(e)
      case (_, Err(e), _, _) => Err(e)
      case (_, _, Err(e), _) => Err(e)
      case (_, _, _, Err(e)) => Err(e)
  }

  /**
   * `FederationDomain.model_validate` as the federation list schema intends it: only
   * `domain`, `telematikID` and `isInsurance` are required; `timAnbieter` may be null
   * or absent. Every other key (such as `ik`) is ignored.
   */
  function ParseDomain(j: Json): (r: Result<FederationDomain, ValidationError>)
    ensures r.Ok? <==>
      && j.JObject?
      && RequiredStr(j.fields, "domain").Ok?
      && RequiredStr(j.fields, "telematikID").Ok?
      && OptionalStr(j.fields, "timAnbieter").Ok?
      && RequiredBool(j.fields, "isInsurance").Ok?
    ensures r.Ok? ==>
      && j.fields["domain"] == JStr(r.value.domain)
      && j.fields["telematikID"] == JStr(r.value.telematikID)
      && j.fields["isInsurance"] == JBool(r.value.isInsurance)
    ensures r.Ok? ==> (r.value.timAnbieter == None <==> "timAnbieter" !in j.fields || j.fields["timAnbieter"] == JNull)
    ensures r.Ok? && r.value.timAnbieter.Some? ==> j.fields["timAnbieter"] == JStr(r.value.timAnbieter.value)
  {
    if !j.JObject? then Err("domainList")
    else
      match (RequiredStr(j.fields, "domain"), RequiredStr(j.fields, "telematikID"),
             OptionalStr(j.fields, "timAnbieter"), RequiredBool(j.fields, "isInsurance"))
      case (Ok(d), Ok(t), Ok(a), Ok(ins)) => Ok(FederationDomain(d, t, a, ins))
      case (Err(e), _, _, _) => Err(e)
      case (_, Err(e), _, _) => Err(e)
      case (_, _, Err(e), _) => Err(e)
      case (_, _, _, Err(e)) => Err(e)
  }

  /** The entry of test_list.py's minimal case: no `timAnbieter` and no `ik`. */
  const MinimalEntry: Json := JObject(map[
    "domain" := JStr("hs1"),
    "isInsurance" := JBool(false),
    "telematikID" := JStr("fake_tid")])

  /** The declared model rejects an entry without `timAnbieter`; the intended one accepts it. */
  lemma MinimalEntryRejectedAsWritten()
    ensures ParseDomainAsWritten(MinimalEntry).Err?
    ensures ParseDomain(MinimalEntry) == Ok(FederationDomain("hs1", "fake_tid", None, false))
  {
  }

  /** The two readings agree on every entry that carries `timAnbieter`. */
  lemma ParseDomainAgreesWhenPresent(j: Json)
    requires j.JObject? && "timAnbieter" in j.fields
    ensures ParseDomainAsWritten(j) == ParseDomain(j)
  {
  }

  /** `domainList` validation: every entry must validate. */
  function ParseDomainList(items: seq<Json>): (r: Result<seq<FederationDomain>, ValidationError>)
    ensures r.Ok? <==> forall i :: 0 <= i < |items| ==> ParseDomain(items[i]).Ok?
    ensures r.Ok? ==> |r.value| == |items|
    ensures r.Ok? ==> forall i :: 0 <= i < |items| ==> ParseDomain(items[i]) == Ok(r.value[i])
  {
    if items == [] then Ok([])
    else match (ParseDomain(items[0]), ParseDomainList(items[1..]))
      case (Err(e), _) => Err(e)
      case (_, Err(e)) => Err(e)
      case (Ok(d), Ok(ds)) =>
        assert forall i :: 1 <= i < |items| ==> items[i] == items[1..][i - 1];
        Ok([d] + ds)
  }

  /** `FederationList.model_validate`: a `domainList` array of valid entries; `version` and other keys are ignored. */
  function ParseFederationList(j: Json): (r: Result<FederationList, ValidationError>)
    ensures r.Ok? <==>
      j.JObject? && "domainList" in j.fields && j.fields["domainList"].JArray?
      && forall i :: 0 <= i < |j.fields["domainList"].items| ==> ParseDomain(j.fields["domainList"].items[i]).Ok?
    ensures r.Ok? ==> |r.value.domainList| == |j.fields["domainList"].items|
    ensures r.Ok? ==> forall i :: 0 <= i < |r.value.domainList| ==>
      ParseDomain(j.fields["domainList"].items[i]) == Ok(r.value.domainList[i])
  {
    if j.JObject? && "domainList" in j.fields && j.fields["domainList"].JArray? then
      match ParseDomainList(j.fields["domainList"].items)
      case Err(e) => Err(e)
      case Ok(ds) => Ok(FederationList(ds))
    else Err("domainList")
  }

  /** `_domains_on_list`: the deduplicated domains of all entries. */
  function DomainsOnList(fl: FederationList): (r: set<string>)
    ensures forall d :: d in r <==> exists i :: 0 <= i < |fl.domainList| && fl.domainList[i].domain == d
  {
    set e | e in fl.domainList :: e.domain
  }

  /** `_insurance_domains_on_list`: the domains of the entries marked `isInsurance`. */
  function InsuranceDomainsOnList(fl: FederationList): (r: set<string>)
    ensures forall d :: d in r <==>
      exists i :: 0 <= i < |fl.domainList| && fl.domainList[i].domain == d && fl.domainList[i].isInsurance
    ensures r <= DomainsOnList(fl)
  {
    set e | e in fl.domainList && e.isInsurance :: e.domain
  }

  /** `FederationList.allowed`: the domain is on the list. */
  function Allowed(fl: FederationList, domain: string): (r: bool)
    ensures r <==> exists i :: 0 <= i < |fl.domainList| && fl.domainList[i].domain == domain
  {
    domain in DomainsOnList(fl)
  }

  /**
   * `FederationList.is_insurance`: some entry for the domain is marked `isInsurance`
   * (one is enough, whatever the other entries for that domain say).
   */
  function IsInsurance(fl: FederationList, domain: string): (r: bool)
    ensures r <==> exists i :: 0 <= i < |fl.domainList| && fl.domainList[i].domain == domain && fl.domainList[i].isInsurance
    ensures r ==> Allowed(fl, domain)
  {
    domain in InsuranceDomainsOnList(fl)
  }

  /** Only the set of entries matters: duplicating or reordering them changes no answer. */
  lemma SameEntriesSameAnswers(a: FederationList, b: FederationList, domain: string)
    requires forall e :: e in a.domainList <==> e in b.domainList
    ensures Allowed(a, domain) == Allowed(b, domain)
    ensures IsInsurance(a, domain) == IsInsurance(b, domain)
  {
  }
}
