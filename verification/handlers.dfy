/**
 * The REST resources: their URL patterns and the status codes they answer with over
 * the contacts store. Authentication is done by Synapse before these run; `requester`
 * is the authenticated user.
 */
module Handlers {
  import opened Wrappers
  import opened Json
  import opened Types
  import opened Store
  import InviteChecker

  // ---------------------------------------------------------------------------
  // URL patterns

  /** `s.removeprefix("/")`. */
  function RemoveLeadingSlash(s: string): (r: string)
    ensures s == r || s == "/" + r
    ensures |s| > 0 && s[0] == '/' ==> s == "/" + r
  {
    if |s| > 0 && s[0] == '/' then s[1..] else s
  }

  /** `s.removesuffix("/")`. */
  function RemoveTrailingSlash(s: string): (r: string)
    ensures s == r || s == r + "/"
    ensures |s| > 0 && s[|s| - 1] == '/' ==> s == r + "/"
  {
    if |s| > 0 && s[|s| - 1] == '/' then s[..|s| - 1] else s
  }

  predicate EndsWithSlashDollar(s: string)
  {
    |s| >= 2 && s[|s| - 2] == '/' && s[|s| - 1] == '$'
  }

  predicate HasSlashDollarAt(s: string, i: int)
  {
    0 <= i < |s| - 1 && s[i] == '/' && s[i + 1] == '$'
  }

  /**
   * `s.replace("/$", "$")`: every occurrence, scanning left to right. Only slashes are
   * removed; every other character is kept as often as it occurs.
   */
  function ReplaceSlashDollar(s: string): (r: string)
    ensures |r| <= |s|
    ensures forall c :: c != '/' ==> multiset(r)[c] == multiset(s)[c]
  {
    if |s| < 2 then s
    else if s[0] == '/' && s[1] == '$' then
      assert s == [s[0]] + [s[1]] + s[2..];
      assert multiset(s) == multiset{'/'} + multiset{'$'} + multiset(s[2..]);
      "$" + ReplaceSlashDollar(s[2..])
    else
      assert s == [s[0]] + s[1..];
      [s[0]] + ReplaceSlashDollar(s[1..])
  }

  /** A text without `/$` is left as it is. */
  lemma {:induction false} ReplaceWithoutOccurrence(s: string)
    requires forall i :: !HasSlashDollarAt(s, i)
    ensures ReplaceSlashDollar(s) == s
  {
    if |s| >= 2 {
      assert !HasSlashDollarAt(s, 0);
      forall i ensures !HasSlashDollarAt(s[1..], i) {
        assert HasSlashDollarAt(s[1..], i) ==> HasSlashDollarAt(s, i + 1);
      }
      ReplaceWithoutOccurrence(s[1..]);
    }
  }

  /** A text whose only `$` is a final `/$` loses just that slash. */
  lemma {:induction false} ReplaceFinalSlashDollar(s: string)
    requires '$' !in s
    ensures ReplaceSlashDollar(s + "/$") == s + "$"
  {
    if s != [] {
      assert (s + "/$")[1..] == s[1..] + "/$";
      ReplaceFinalSlashDollar(s[1..]);
    }
  }

  /** Every `/$` becomes `$`: replacing across one occurrence is replacing on both sides of it. */
  lemma {:induction false} ReplaceSlashDollarSplits(a: string, b: string)
    ensures ReplaceSlashDollar(a + "/$" + b) == ReplaceSlashDollar(a) + "$" + ReplaceSlashDollar(b)
    decreases |a|
  {
    var s := a + "/$" + b;
    if a == [] {
      assert s == "/$" + b && s[2..] == b;
    } else if |a| == 1 {
      assert s[1..] == [] + "/$" + b;
      ReplaceSlashDollarSplits([], b);
    } else if a[0] == '/' && a[1] == '$' {
      assert s[2..] == a[2..] + "/$" + b;
      ReplaceSlashDollarSplits(a[2..], b);
    } else {
      assert s[1..] == a[1..] + "/$" + b;
      ReplaceSlashDollarSplits(a[1..], b);
    }
  }

  /**
   * `invite_checker_pattern`, up to `re.compile`: the regular expression's source text.
   * The prefix loses one trailing slash and the path one leading slash, and they are
   * joined by a slash after `^`; when that ends in `/$`, every `/$` in it becomes `$`.
   */
  function InviteCheckerPattern(pathRegex: string, apiPrefix: string): (r: string)
    ensures var raw := "^" + RemoveTrailingSlash(apiPrefix) + "/" + RemoveLeadingSlash(pathRegex);
      && (!EndsWithSlashDollar(raw) ==> r == raw)
      && (EndsWithSlashDollar(raw) ==> r == ReplaceSlashDollar(raw[..|raw| - 2]) + "$")
  {
    var path := RemoveLeadingSlash(pathRegex);
    var root := RemoveTrailingSlash(apiPrefix);
    var raw := "^" + root + "/" + path;
    // the trailing "/$" is stripped so that a handler can be registered at the prefix's root
    if EndsWithSlashDollar(raw) then
      assert raw == raw[..|raw| - 2] + "/$" + "";
      ReplaceSlashDollarSplits(raw[..|raw| - 2], "");
      ReplaceSlashDollar(raw)
    else raw
  }

  /** A pattern that does not end in `/$` is the prefix and the path joined by exactly one slash. */
  lemma PatternJoinsPrefixAndPath(pathRegex: string, apiPrefix: string)
    requires !EndsWithSlashDollar("^" + RemoveTrailingSlash(apiPrefix) + "/" + RemoveLeadingSlash(pathRegex))
    ensures InviteCheckerPattern(pathRegex, apiPrefix)
         == "^" + RemoveTrailingSlash(apiPrefix) + "/" + RemoveLeadingSlash(pathRegex)
  {
  }

  /** The info route `$`, for every prefix: the prefix with each `/$` turned into `$`, then `$`. */
  lemma InfoRouteAnyPrefix(apiPrefix: string)
    ensures InviteCheckerPattern("$", apiPrefix) == ReplaceSlashDollar("^" + RemoveTrailingSlash(apiPrefix)) + "$"
  {
    var raw := "^" + RemoveTrailingSlash(apiPrefix) + "/" + RemoveLeadingSlash("$");
    assert RemoveLeadingSlash("$") == "$";
    assert raw[..|raw| - 2] == "^" + RemoveTrailingSlash(apiPrefix);
  }

  /** The info route `$` matches the prefix itself. */
  lemma InfoRoutePattern(apiPrefix: string)
    requires '$' !in apiPrefix
    ensures InviteCheckerPattern("$", apiPrefix) == "^" + RemoveTrailingSlash(apiPrefix) + "$"
  {
    var root := RemoveTrailingSlash(apiPrefix);
    assert '$' !in root;
    assert "^" + root + "/" + "$" == ("^" + root) + "/$";
    ReplaceFinalSlashDollar("^" + root);
  }

  /** The contacts route. */
  lemma ContactsRoutePattern(apiPrefix: string)
    ensures InviteCheckerPattern("/contacts$", apiPrefix) == "^" + RemoveTrailingSlash(apiPrefix) + "/contacts$"
  {
  }

  // ---------------------------------------------------------------------------
  // Responses

  const OK := 200
  const NO_CONTENT := 204
  const BAD_REQUEST := 400
  const NOT_FOUND := 404
  const INTERNAL_SERVER_ERROR := 500

  datatype Response = Response(status: int, body: Json)

  /** The `SynapseError(400, "Missing required field", Codes.BAD_JSON)` response. */
  const BadJson := Response(BAD_REQUEST, JObject(map[
    "errcode" := JStr("M_BAD_JSON"),
    "error" := JStr("Missing required field")]))

  /**
   * What Synapse answers when a servlet raises an exception that is not a `SynapseError`
   * (here: the database refusing a value).
   */
  const InternalError := Response(INTERNAL_SERVER_ERROR, JObject(map[
    "errcode" := JStr("M_UNKNOWN"),
    "error" := JStr("Internal server error")]))

  /** `InfoResource.on_GET`. */
  function InfoResourceOnGet(config: InviteChecker.InviteCheckerConfig): (r: Response)
    ensures r.status == OK && r.body == InviteChecker.InfoPayload(config)
  {
    Response(OK, InviteChecker.InfoPayload(config))
  }

  /** `ContactsResource`: the requester's whole contact list. */
  class ContactsResource {
    const store: InviteCheckerStore

    constructor (store: InviteCheckerStore)
      ensures this.store == store
    {
      this.store := store;
    }

    /** `on_GET`: 200 with every contact of the requester. */
    method OnGet(requester: string) returns (resp: Response)
      requires store.Valid()
      modifies store`dbChecked, store`tableSetups
      ensures store.Valid() && store.rows == old(store.rows)
      ensures resp.status == OK
      ensures ParseContacts(resp.body).Ok?
      ensures IsContactListOf(store.rows, requester, ParseContacts(resp.body).value.contacts)
    {
      var contacts := store.GetContacts(requester);
      resp := Response(OK, DumpContacts(contacts));
    }

    /**
     * `on_PUT`: a body that is not a valid contact is answered 400 `M_BAD_JSON` and
     * stores nothing; a valid one is upserted and echoed back with 200. A start or end
     * the database cannot hold escapes the handler's `except`, so Synapse answers 500.
     */
    method OnPut(requester: string, body: Json) returns (resp: Response)
      requires store.Valid()
      modifies store
      ensures store.Valid()
      ensures ParseContact(body).Err? ==>
        resp == BadJson && store.rows == old(store.rows) && store.dbChecked == old(store.dbChecked)
      ensures ParseContact(body).Ok? && !FitsColumns(ParseContact(body).value) ==>
        resp == InternalError && store.rows == old(store.rows) && store.dbChecked
      ensures ParseContact(body).Ok? && FitsColumns(ParseContact(body).value) ==>
        var contact := ParseContact(body).value;
        && resp == Response(OK, DumpContact(contact))
        && store.rows == old(store.rows)[(requester, contact.mxid) := RowOf(contact)]
        && store.dbChecked
    {
      var parsed := ParseContact(body);
      if parsed.Err? {
        return BadJson;
      }
      var added := store.AddContact(requester, parsed.value);
      if added.Err? {
        return InternalError;
      }
      resp := Response(OK, DumpContact(parsed.value));
    }

    /** `on_POST`: the same as `on_PUT`. */
    method OnPost(requester: string, body: Json) returns (resp: Response)
      requires store.Valid()
      modifies store
      ensures store.Valid()
      ensures ParseContact(body).Err? ==>
        resp == BadJson && store.rows == old(store.rows) && store.dbChecked == old(store.dbChecked)
      ensures ParseContact(body).Ok? && !FitsColumns(ParseContact(body).value) ==>
        resp == InternalError && store.rows == old(store.rows) && store.dbChecked
      ensures ParseContact(body).Ok? && FitsColumns(ParseContact(body).value) ==>
        var contact := ParseContact(body).value;
        && resp == Response(OK, DumpContact(contact))
        && store.rows == old(store.rows)[(requester, contact.mxid) := RowOf(contact)]
        && store.dbChecked
    {
      resp := OnPut(requester, body);
    }
  }

  /** `ContactResource`: one contact of the requester, named by its mxid. */
  class ContactResource {
    const store: InviteCheckerStore

    constructor (store: InviteCheckerStore)
      ensures this.store == store
    {
      this.store := store;
    }

    /** `on_GET`: 200 with the contact as stored (read back), or 404 with `{}`. */
    method OnGet(requester: string, mxid: string) returns (resp: Response)
      requires store.Valid()
      modifies store`dbChecked, store`tableSetups
      ensures store.Valid() && store.rows == old(store.rows)
      ensures (requester, mxid) in store.rows ==>
        resp == Response(OK, DumpContact(ReadBack(mxid, store.rows[(requester, mxid)])))
      ensures (requester, mxid) !in store.rows ==> resp == Response(NOT_FOUND, EmptyObject)
    {
      var contact := store.GetContact(requester, mxid);
      if contact.Some? {
        return Response(OK, DumpContact(contact.value));
      }
      resp := Response(NOT_FOUND, EmptyObject);
    }

    /** `on_DELETE`: an existing contact is removed with 204; a missing one gives 404 and nothing changes. */
    method OnDelete(requester: string, mxid: string) returns (resp: Response)
      requires store.Valid()
      modifies store
      ensures store.Valid()
      ensures (requester, mxid) in old(store.rows) ==>
        resp == Response(NO_CONTENT, EmptyObject) && store.rows == old(store.rows) - {(requester, mxid)}
      ensures (requester, mxid) !in old(store.rows) ==>
        resp == Response(NOT_FOUND, EmptyObject) && store.rows == old(store.rows)
    {
      var contact := store.GetContact(requester, mxid);
      if contact.Some? {
        store.DelContact(requester, mxid);
        return Response(NO_CONTENT, EmptyObject);
      }
      resp := Response(NOT_FOUND, EmptyObject);
    }
  }
}
