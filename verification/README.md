# synapse-invite-checker in Dafny

A model of the core of the Famedly invite-checker module for Synapse, with proofs of
what it promises:

- **Federation list** (`types.py`): the validated list of federation domains and
  the two lookups built on it. `allowed` asks whether a domain is on the list.
  `is_insurance` asks whether some entry for it is an insured-person (EPA) domain.
  The contact models (`Contact`, `InviteSettings`, `Contacts`) are modelled with
  their strict, extra-ignoring validation and their dumps.
- **Contact permissions** (`PermissionConfig`): a default setting (`allow all` or
  `block all`) plus server, user and group exceptions. It is validated from and dumped
  to account data. It decides whether a remote user may contact a local one.
- **Permissions handler** (`permissions.py`): a class over the per-user account data.
  It picks the EPA or PRO slot by classifying the user's own domain, with the
  configured operating mode as the fallback when the classifier raises. It reads the
  slot and writes the configured default back when the stored data is unusable.
- **Contacts store** (`store.py`): a class over the contacts table. The table is a
  map keyed by `(user, contact mxid)`, which is its unique index. The class also keeps
  the one-shot `db_checked` flag.
- **REST resources** (`handlers.py`): the URL-pattern builder, and the status codes
  (200, 204, 400, 404) the contact resources answer with over the store.
- **Entry point** (`invite_checker.py`): the spam-checker callback, which admits every
  invite in this revision. Also the configuration parser and the info payload.

The injected `is_domain_insurance` callback is a function parameter whose `Err`
result stands for the exception it may raise. Synapse's `UserID.from_string` is
modelled by its parsing rule: a leading `@`, and the domain after the first colon.
Account data and the SQL table are maps. Async calls run one after another.

Files: `wrappers.dfy` (Option/Result), `json.dfy` (decoded JSON values and Python
truthiness), `types.dfy`, `user_id.dfy`, `permission_config.dfy`, `permissions.dfy`,
`store.dfy`, `handlers.dfy`, `invite_checker.dfy`.

`PermissionConfig`, `DefaultPermissionConfig`, `GroupName` and `PermissionConfigType`
are imported by `permissions.py`, but they are not defined in the `types.py` of this
revision. Their behaviour is taken from the assertions in `tests/test_permissions.py`:

- validation requires `defaultSetting` to be `"allow all"` or `"block all"`;
- the exception maps are read for their keys only;
- `groupExceptions` is a list of `{"groupName": "isInsuredPerson"}` entries;
- the dump writes a collection only when it is non-empty, and every exception value
  as `{}`.

A contact rule in which the exceptions are tried in turn (group, then server, then
user) gives the same answer as "allow-all XOR some exception matches". So several
matching exceptions invert the default only once.

## Model

| member | source | states |
|---|---|---|
| `Types.ParseInviteSettings` | synapse_invite_checker/types.py:21-27 | valid exactly when `start` is an int and `end`, if present, is an int or null; the result holds that start, and that end when it is an int; absent or null `end` gives None |
| `Types.DumpInviteSettings` | synapse_invite_checker/types.py:21-27 | validating the dump gives the same settings back |
| `Types.ParseContact` | synapse_invite_checker/types.py:30-37 | valid exactly when `displayName` and `mxid` are strings and `inviteSettings` is valid; other keys ignored; the fields are those of the input |
| `Types.DumpContact` | synapse_invite_checker/types.py:30-37 | validating the dump gives the same contact back |
| `Types.ParseContactList` | synapse_invite_checker/types.py:45 | valid exactly when every item is a valid contact; the result is item-by-item the parsed contacts |
| `Types.DumpContactList` | synapse_invite_checker/types.py:45 | same length as the list, and validating it gives the list back |
| `Types.ParseContacts` | synapse_invite_checker/types.py:40-45 | valid exactly when `contacts` is an array of valid contacts; the result's contacts are those items, validated one by one |
| `Types.DumpContacts` | synapse_invite_checker/types.py:40-45 | validating the dump gives the same contacts back |
| `Types.ParseDomainAsWritten` | synapse_invite_checker/types.py:48-56 | the declared model: `domain`, `telematikID` strings and `isInsurance` bool required, and `timAnbieter` required but nullable; the result holds those values, `timAnbieter` None exactly when it is null |
| `Types.MinimalEntryRejectedAsWritten` | synapse_invite_checker/types.py:55 | the declared model rejects the entry with no `timAnbieter`; the intended one accepts it with `timAnbieter` None |
| `Types.ParseDomainAgreesWhenPresent` | synapse_invite_checker/types.py:55 | when `timAnbieter` is present, the declared and the intended validation agree |
| `Types.ParseDomain` | synapse_invite_checker/types.py:48-56 | corrected reading, see Findings: valid exactly when `domain`, `telematikID` are strings, `isInsurance` is a bool and `timAnbieter` is absent, null or a string; `ik` and other keys ignored; the result holds those values, `timAnbieter` None exactly when absent or null |
| `Types.ParseDomainList` | synapse_invite_checker/types.py:64 | valid exactly when every entry is valid; one domain per entry, in order |
| `Types.ParseFederationList` | synapse_invite_checker/types.py:59-64 | built on the corrected `ParseDomain`, see Findings: valid exactly when `domainList` is an array of valid entries; entry i of the result is item i validated; `version` and other keys ignored |
| `Types.DomainsOnList` | synapse_invite_checker/types.py:66-72 | a domain is in the set iff some entry has that domain |
| `Types.InsuranceDomainsOnList` | synapse_invite_checker/types.py:74-84 | a domain is in the set iff some entry with that domain is marked insurance; a subset of all domains |
| `Types.Allowed` | synapse_invite_checker/types.py:86-90 | true iff some entry has the domain |
| `Types.IsInsurance` | synapse_invite_checker/types.py:92-96 | true iff some entry for the domain is marked insurance (one is enough); implies `Allowed` |
| `Types.SameEntriesSameAnswers` | synapse_invite_checker/types.py:66-84 | lists with the same entries (reordered or duplicated) give the same `allowed` and `is_insurance` answers |
| `UserIds.SplitAtFirstColon` | synapse_invite_checker/permissions.py:102 | the text is the part before the first colon, a colon, and the rest |
| `UserIds.ParseUserId` | synapse_invite_checker/permissions.py:102 | parses iff the id starts with `@` and has a colon; the id is `@` + localpart + `:` + domain with no colon in the localpart |
| `PermissionConfigs.ParseDefaultSetting` | tests/test_permissions.py:96-117 | accepts exactly `"allow all"` and `"block all"`, and maps each back to its spelling |
| `PermissionConfigs.ParseGroupEntries` | tests/test_permissions.py:134-137 | valid exactly when every entry names the insured-person group |
| `PermissionConfigs.DumpGroupEntries` | tests/test_permissions.py:164-175 | validating the dumped group list gives the list back |
| `PermissionConfigs.ParseExceptionKeys` | tests/test_permissions.py:130-141 | an absent map means no exceptions; an object gives its keys; anything else is rejected |
| `PermissionConfigs.ParseGroupExceptions` | tests/test_permissions.py:134-137 | an absent list means no groups; otherwise valid exactly when it is an array of insured-person entries, validated item by item |
| `PermissionConfigs.Validate` | tests/test_permissions.py:119-175 | valid exactly when each part is; a valid document always has a truthy `defaultSetting` matching the result; the server and user exceptions are the keys of their maps (none when absent), the groups those of the list |
| `PermissionConfigs.Dump` | tests/test_permissions.py:164-175 | validating the dump gives the config back; each collection key is present iff the collection is non-empty |
| `PermissionConfigs.DumpOfValidated` | tests/test_permissions.py:225-236 | a complete canonical document validates, and dumping the result gives the same document |
| `PermissionConfigs.GroupEntriesRoundTrip` | tests/test_permissions.py:164-175 | a list of insured-person group entries validates and dumps back to itself |
| `PermissionConfigs.IsMxidAllowedToContact` | tests/test_permissions.py:328-353 | allowed iff the default is `allow all` XOR some exception (insured group when the remote is EPA, its server, or itself) matches |
| `Permissions.ConfigTypeFromMxid` | synapse_invite_checker/permissions.py:96-120 | EPA slot iff the user's domain is insurance; when the classifier raises, EPA iff `tim_type` is EPA; only an unparsable user id fails |
| `Permissions.ReadSlot` | synapse_invite_checker/permissions.py:61-79 | the default is used (and written) exactly when nothing is stored or the stored data does not validate; otherwise the validated data is returned |
| `Permissions.UpdatePermissionsSpec` | synapse_invite_checker/permissions.py:83-94 | fails only for an unparsable user id, changing nothing; otherwise the selected slot holds the dump, which validates to the given permissions, and every other slot, the user's other one included, is unchanged |
| `Permissions.GetPermissionsSpec` | synapse_invite_checker/permissions.py:55-81 | stored data that validates is returned as validated and nothing is written; missing or invalid data gives the default, whose dump is written to the slot; afterwards the slot validates to the result; no other slot changes |
| `Permissions.GetPermissionsIdempotent` | synapse_invite_checker/permissions.py:55-81 | a second read returns the same permissions and writes nothing |
| `Permissions.ContactDecision` | synapse_invite_checker/permissions.py:122-132 | classifies the remote domain and applies the contact rule; an unparsable remote id or a raising classifier is an error |
| `Permissions.PermissionsHandler.constructor` | synapse_invite_checker/permissions.py:42-53 | keeps the operating mode, the classifier, the default permissions and the account data it is given |
| `Permissions.PermissionsHandler.UpdatePermissions` | synapse_invite_checker/permissions.py:83-94 | the new account data is `UpdatePermissionsSpec` of the old |
| `Permissions.PermissionsHandler.GetPermissions` | synapse_invite_checker/permissions.py:55-81 | the result and the new account data are `GetPermissionsSpec` of the old |
| `Permissions.PermissionsHandler.IsUserAllowed` | synapse_invite_checker/permissions.py:122-132 | reads (and heals) the local user's permissions, then returns `ContactDecision` for the remote user |
| `Store.RowOf` | synapse_invite_checker/store.py:98-111 | the row keeps the contact's end; reading it back gives the contact's name, mxid and start with `end` equal to `start`, so the contact itself exactly when its end equals its start |
| `Store.ReadBack` | synapse_invite_checker/store.py:119-129 | the returned contact has the row's mxid, name and start, and `end` equal to `start` |
| `Store.ContactMxids` | synapse_invite_checker/store.py:74 | exactly the mxids stored for the user |
| `Store.ExtendPartialList` | synapse_invite_checker/store.py:83-88 | appending a row not yet listed keeps the list exact for the rows seen |
| `Store.CompletePartialList` | synapse_invite_checker/store.py:83-88 | once every mxid is listed, the list is the user's whole contact list |
| `Store.SelectContacts` | synapse_invite_checker/store.py:72-88 | one read-back contact per row of the user, no mxid twice, none missing |
| `Store.InviteCheckerStore.constructor` | synapse_invite_checker/store.py:28-36 | `db_checked` starts false over the existing rows |
| `Store.InviteCheckerStore.EnsureTableExists` | synapse_invite_checker/store.py:38-68 | `db_checked` is set afterwards; table creation runs at most once per store; rows unchanged |
| `Store.InviteCheckerStore.GetContacts` | synapse_invite_checker/store.py:70-88 | returns exactly the user's rows, read back; rows unchanged |
| `Store.InviteCheckerStore.DelContact` | synapse_invite_checker/store.py:90-96 | removes only the `(user, mxid)` row; a missing row is a no-op |
| `Store.InviteCheckerStore.AddContact` | synapse_invite_checker/store.py:98-111 | a contact whose start and end fit `BIGINT` is upserted at `(user, mxid)` and every other row is unchanged; otherwise the driver fails and nothing is stored |
| `Store.InviteCheckerStore.GetContact` | synapse_invite_checker/store.py:113-130 | None iff no row for the pair, else the read-back row |
| `Store.UpsertReplaces` | tests/test_contacts_api.py:119-147 | adding the same mxid twice leaves one row with the second contact's values, and reading it gives the second start |
| `Handlers.RemoveLeadingSlash` | synapse_invite_checker/handlers.py:31 | removes at most one leading slash, and removes it when there is one |
| `Handlers.RemoveTrailingSlash` | synapse_invite_checker/handlers.py:32 | removes at most one trailing slash, and removes it when there is one |
| `Handlers.ReplaceSlashDollar` | synapse_invite_checker/handlers.py:37 | never longer than its input, and only slashes are removed: every other character keeps its count |
| `Handlers.ReplaceSlashDollarSplits` | synapse_invite_checker/handlers.py:37 | every `/$` becomes `$`: replacing in `a + "/$" + b` is replacing in `a`, then `$`, then replacing in `b` |
| `Handlers.ReplaceWithoutOccurrence` | synapse_invite_checker/handlers.py:36-37 | a text without `/$` is left unchanged |
| `Handlers.ReplaceFinalSlashDollar` | synapse_invite_checker/handlers.py:35-37 | a final `/$` in a text with no other `$` becomes `$` |
| `Handlers.InviteCheckerPattern` | synapse_invite_checker/handlers.py:30-39 | `^` + prefix without one trailing slash + `/` + path without one leading slash; when that ends in `/$`, the rest with every `/$` turned into `$`, then `$` |
| `Handlers.PatternJoinsPrefixAndPath` | synapse_invite_checker/handlers.py:30-33 | a pattern not ending in `/$` is `^` + prefix without one trailing slash + `/` + path without one leading slash |
| `Handlers.InfoRouteAnyPrefix` | synapse_invite_checker/handlers.py:46 | for every prefix, the info route is `^` + prefix (each `/$` in it turned into `$`) + `$` |
| `Handlers.InfoRoutePattern` | synapse_invite_checker/handlers.py:46 | the info route `$` becomes `^{root}$` for a prefix without `$` |
| `Handlers.ContactsRoutePattern` | synapse_invite_checker/handlers.py:61 | the contacts route becomes `^{root}/contacts$` |
| `Handlers.InfoResourceOnGet` | synapse_invite_checker/handlers.py:49-55 | 200 with the info payload |
| `Handlers.ContactsResource.OnGet` | synapse_invite_checker/handlers.py:64-66 | 200 with a body that validates as exactly the requester's contacts |
| `Handlers.ContactsResource.OnPut` | synapse_invite_checker/handlers.py:71-84 | invalid body: 400 `M_BAD_JSON`, nothing stored; valid but outside `BIGINT`: 500, nothing stored; otherwise upsert and 200 echoing the contact |
| `Handlers.ContactsResource.OnPost` | synapse_invite_checker/handlers.py:68-69 | the same outcome as `OnPut` |
| `Handlers.ContactResource.OnGet` | synapse_invite_checker/handlers.py:93-100 | 200 with the read-back contact if the pair exists, else 404 `{}`; store rows unchanged |
| `Handlers.ContactResource.OnDelete` | synapse_invite_checker/handlers.py:103-111 | existing: row removed and 204; missing: 404 and rows unchanged |
| `InviteChecker.UserMayInvite` | synapse_invite_checker/invite_checker.py:51-57 | `NOT_SPAM` for every inviter, invitee and room |
| `InviteChecker.ParseConfig` | synapse_invite_checker/invite_checker.py:59-71 | each of the four settings comes from the dictionary when its key is present, else its default |
| `InviteChecker.ConfigDict` | synapse_invite_checker/invite_checker.py:59-71 | parsing a configuration's dictionary gives that configuration back |
| `InviteChecker.ParseConfigIgnoresOtherKeys` | synapse_invite_checker/invite_checker.py:64-69 | dictionaries that agree on the four keys parse to the same configuration |
| `InviteChecker.InfoPayload` | synapse_invite_checker/invite_checker.py:79-85 | exactly `title`, `description`, `contact` from the configuration and version `0.0.1` |
| `InviteChecker.DefaultInfoPayload` | synapse_invite_checker/invite_checker.py:29-34 | an empty configuration gives the defaults, and the info payload carries them |

## Left out

- Authentication: `get_user_by_req` and its 401 answers. The requester is a parameter.
- Decoding request bodies and serialising responses. Bodies are decoded JSON values. JSON
  floats, NaN and infinities are not modelled. A body that is not JSON at all (also a 400
  in the source) is not modelled.
- Pydantic's error reports: a validation failure carries only the first offending field name.
- `re.compile`: a pattern is modelled as its source text.
- Row order: `get_contacts` may return the rows in any order, as an SQL select does.
- Table DDL, indexes, `db_pool` transactions and logging. Of the column types only the
  `BIGINT` range of start and end is modelled (`Store.FitsColumns`); the body of the 500
  answer follows Synapse's generic handler for unexpected exceptions, which is not part of
  this model.
- Concurrency: every async call runs to completion before the next one starts.
- Registration glue: `InviteChecker.__init__` callbacks, web resources and `register_handlers`.
- `synapse_invite_checker/config.py` is not part of this model. `tim_type` and the handlers'
  `api_prefix` are parameters. The string values of the two account-data types are not
  modelled; the types are two tags.
- `DefaultPermissionConfig.maybe_update_server_exceptions` (the `@LOCAL_SERVER@`
  template). Only the tests show it, and the handler treats the default as a plain
  `PermissionConfig`.
- `tests/test_config.py` exercises a later `parse_config` (with `tim_type` and more).
  The model follows the `parse_config` of this revision.
- In this revision `user_may_invite` admits every invite; its block-all check is commented out.
  The signed federation-list download, the list cache, the localization lookup and the
  room-creation, room-version and room-scan logic are not in this revision's core files.
- `synapse_invite_checker/rest/contacts.py` and `rest/messenger_info.py`: the first
  repeats the servlet logic of `handlers.py`, the second is HTTP glue around an
  injected callback.
- `Permissions.GetPermissionsSpec`: the classifier is a function, so the two
  classifications in one `get_permissions` (permissions.py:56 for the read, :89 inside
  `update_permissions` for the write) always agree. In the source the callback can raise
  on one call and not the other, and the default is then written to the other slot.
  `Permissions.GetPermissionsIdempotent` and the handler methods rely on the two agreeing.
- `Store.InviteCheckerStore.GetContacts`, `Store.InviteCheckerStore.GetContact`:
  `ensure_table_exists` is assumed never to fail. A failing database is not modelled.

## Findings

| source | as written | input that shows it | evidently intended | confidence | as-written member | corrected member |
|---|---|---|---|---|---|---|
| synapse_invite_checker/types.py:55 | `timAnbieter: str \| None` has no default, so Pydantic v2 requires the key (null is accepted, absence is not) | the entry `{"domain": "hs1", "isInsurance": false, "telematikID": "fake_tid"}` of tests/test_list.py:157-173, rejected as shown by `Types.MinimalEntryRejectedAsWritten` | `timAnbieter` optional, defaulting to None, as that test and tests/test_list.py:87-103 expect | not executed; high, from Pydantic v2's required-field rule | `Types.ParseDomainAsWritten` | `Types.ParseDomain` |
