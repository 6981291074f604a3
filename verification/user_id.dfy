/** Synapse's `UserID.from_string`, as the permissions handler uses it to find a user's domain. */
module UserIds {
  import opened Wrappers

  /** A parsed user identifier `@localpart:domain`. */
  datatype UserId = UserId(localpart: string, domain: string)

  /** Python's `s.split(":", 1)`: the text before the first colon and the text after it. */
  function SplitAtFirstColon(s: string): (r: Option<(string, string)>)
    ensures r.None? <==> ':' !in s
    ensures r.Some? ==> s == r.value.0 + ":" + r.value.1 && ':' !in r.value.0
  {
    if s == [] then None
    else if s[0] == ':' then Some(([], s[1..]))
    else match SplitAtFirstColon(s[1..])
      case None => None
      case Some((before, after)) => Some(([s[0]] + before, after))
  }

  /**
   * `UserID.from_string`: the identifier must start with `@` and contain a colon; the
   * domain is everything after the first colon (so a port stays part of the domain).
   * `None` stands for the `SynapseError` the parser raises otherwise.
   */
  function ParseUserId(s: string): (r: Option<UserId>)
    ensures r.Some? <==> |s| > 0 && s[0] == '@' && ':' in s[1..]
    ensures r.Some? ==> s == "@" + r.value.localpart + ":" + r.value.domain && ':' !in r.value.localpart
  {
    if |s| == 0 || s[0] != '@' then None
    else match SplitAtFirstColon(s[1..])
      case None => None
      case Some((localpart, domain)) => Some(UserId(localpart, domain))
  }
}
