/** The module entry point: its configuration, the spam-checker callback and the info payload. */
module InviteChecker {
  import opened Json

  const Version := "0.0.1"
  const DefaultApiPrefix := "/_synapse/client/com.famedly/tim/v1"
  const DefaultTitle := "Invite Checker module by Famedly"
  const DefaultDescription := "Invite Checker module by Famedly"
  const DefaultContact := "info@famedly.com"

  /** The configuration keys `parse_config` reads. */
  const ConfigKeys: set<string> := {"api_prefix", "title", "description", "contact"}

  /**
   * `InviteCheckerConfig`. The dataclass does not check types, so each field holds
   * whatever value the module configuration gave.
   */
  datatype InviteCheckerConfig = InviteCheckerConfig(apiPrefix: Json, title: Json, description: Json, contact: Json)

  /** The dataclass defaults. */
  const DefaultConfig := InviteCheckerConfig(
    JStr(DefaultApiPrefix), JStr(DefaultTitle), JStr(DefaultDescription), JStr(DefaultContact))

  /** What a spam-checker callback answers: admit, or reject with an error code. */
  datatype SpamCheckResult = NotSpam | Rejected(code: string)

  /** `user_may_invite`: in this revision every invite is admitted. */
  function UserMayInvite(inviter: string, invitee: string, roomId: string): (r: SpamCheckResult)
    ensures r == NotSpam
  {
    NotSpam
  }

  /** `config.get(key, fallback)`. */
  function ConfigGet(config: map<string, Json>, key: string, fallback: Json): Json
  {
    if key in config then config[key] else fallback
  }

  /** `parse_config`: each of the four settings comes from the dictionary when present, else its default. */
  function ParseConfig(config: map<string, Json>): (r: InviteCheckerConfig)
    ensures r.apiPrefix == if "api_prefix" in config then config["api_prefix"] else DefaultConfig.apiPrefix
    ensures r.title == if "title" in config then config["title"] else DefaultConfig.title
    ensures r.description == if "description" in config then config["description"] else DefaultConfig.description
    ensures r.contact == if "contact" in config then config["contact"] else DefaultConfig.contact
  {
    InviteCheckerConfig(
      ConfigGet(config, "api_prefix", JStr(DefaultApiPrefix)),
      ConfigGet(config, "title", DefaultConfig.title),
      ConfigGet(config, "description", DefaultConfig.description),
      ConfigGet(config, "contact", DefaultConfig.contact))
  }

  /** A configuration written out as the dictionary `parse_config` reads; parsing it gives the configuration back. */
  function ConfigDict(c: InviteCheckerConfig): (r: map<string, Json>)
    ensures r.Keys == ConfigKeys
    ensures ParseConfig(r) == c
  {
    map["api_prefix" := c.apiPrefix, "title" := c.title, "description" := c.description, "contact" := c.contact]
  }

  /** Keys other than the four settings have no effect. */
  lemma ParseConfigIgnoresOtherKeys(a: map<string, Json>, b: map<string, Json>)
    requires forall k :: k in ConfigKeys ==> (k in a <==> k in b)
    requires forall k :: k in ConfigKeys && k in a ==> a[k] == b[k]
    ensures ParseConfig(a) == ParseConfig(b)
  {
  }

  /** `InfoResource.render_GET`: the title, description and contact of the configuration, and the version. */
  function InfoPayload(config: InviteCheckerConfig): (r: Json)
    ensures r.JObject? && r.fields.Keys == {"title", "description", "contact", "version"}
    ensures r.fields["title"] == config.title && r.fields["description"] == config.description
    ensures r.fields["contact"] == config.contact && r.fields["version"] == JStr(Version)
  {
    JObject(map[
      "title" := config.title,
      "description" := config.description,
      "contact" := config.contact,
      "version" := JStr(Version)])
  }

  /** With an empty configuration the info payload carries the defaults. */
  lemma DefaultInfoPayload()
    ensures ParseConfig(map[]) == DefaultConfig
    ensures InfoPayload(ParseConfig(map[])).fields["title"] == JStr("Invite Checker module by Famedly")
    ensures InfoPayload(ParseConfig(map[])).fields["contact"] == JStr("info@famedly.com")
  {
  }
}
