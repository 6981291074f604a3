/**
 * The contacts table `famedly_invite_checker`, with a unique index on
 * `(user, contact_mxid)`, as a map from that pair to the rest of the row.
 */
module Store {
  import opened Wrappers
  import opened Types

  /** The non-key columns of a row. */
  datatype Row = Row(displayName: string, start: int, end: Option<int>)

  /** The primary identification of a row: the owning user and the contact's mxid. */
  type RowKey = (string, string)

  /** The columns `contact_invite_settings_start` and `_end` are `BIGINT`: signed 64-bit. */
  const BigintMin: int := -0x8000_0000_0000_0000
  const BigintMax: int := 0x7FFF_FFFF_FFFF_FFFF

  predicate IsBigint(x: int)
  {
    BigintMin <= x <= BigintMax
  }

  /** The database accepts the contact's row: its start and end fit their `BIGINT` columns. */
  predicate FitsColumns(c: Contact)
  {
    IsBigint(c.inviteSettings.start) && (c.inviteSettings.end.Some? ==> IsBigint(c.inviteSettings.end.value))
  }

  /** The row `add_contact` writes for a contact. */
  function RowOf(c: Contact): (r: Row)
    // the stored end is the contact's own, although it is never read back
    ensures r.end == c.inviteSettings.end
    // reading the row back keeps name, mxid and start, and reports the start as the end
    ensures ReadBack(c.mxid, r)
         == Contact(c.displayName, c.mxid, InviteSettings(c.inviteSettings.start, Some(c.inviteSettings.start)))
    // so the contact comes back unchanged exactly when its end equals its start
    ensures ReadBack(c.mxid, r) == c <==> c.inviteSettings.end == Some(c.inviteSettings.start)
  {
    Row(c.displayName, c.inviteSettings.start, c.inviteSettings.end)
  }

  /**
   * A row as `get_contact` and `get_contacts` return it. Both select the start column
   * twice, so the returned `end` is always the start and the stored end is never read.
   */
  function ReadBack(mxid: string, row: Row): (c: Contact)
    ensures c.mxid == mxid && c.displayName == row.displayName
    ensures c.inviteSettings.start == row.start
    ensures c.inviteSettings.end == Some(c.inviteSettings.start)
  {
    Contact(row.displayName, mxid, InviteSettings(row.start, Some(row.start)))
  }

  /** The mxids of the given user's contacts. */
  function ContactMxids(rows: map<RowKey, Row>, user: string): (r: set<string>)
    ensures forall mxid :: mxid in r <==> (user, mxid) in rows
  {
    set k | k in rows && k.0 == user :: k.1
  }

  /**
   * `contacts` is the read-back of exactly the given user's rows, one entry per stored
   * contact mxid, in some order.
   */
  ghost predicate IsContactListOf(rows: map<RowKey, Row>, user: string, contacts: seq<Contact>)
  {
    && (forall i :: 0 <= i < |contacts| ==>
          (user, contacts[i].mxid) in rows && contacts[i] == ReadBack(contacts[i].mxid, rows[(user, contacts[i].mxid)]))
    && (forall mxid :: (user, mxid) in rows ==> exists i :: 0 <= i < |contacts| && contacts[i].mxid == mxid)
    && (forall i, j :: 0 <= i < j < |contacts| ==> contacts[i].mxid != contacts[j].mxid)
  }

  /** `contacts` is the read-back of the rows of `user` whose mxids are `done`, each once. */
  ghost predicate IsPartialListOf(rows: map<RowKey, Row>, user: string, done: set<string>, contacts: seq<Contact>)
  {
    && done == (set i | 0 <= i < |contacts| :: contacts[i].mxid)
    && |contacts| == |done|
    && (forall i :: 0 <= i < |contacts| ==>
          (user, contacts[i].mxid) in rows && contacts[i] == ReadBack(contacts[i].mxid, rows[(user, contacts[i].mxid)]))
    && (forall i, j :: 0 <= i < j < |contacts| ==> contacts[i].mxid != contacts[j].mxid)
  }

  /** The mxids of a list with one more contact appended. */
  lemma AppendedMxids(contacts: seq<Contact>, c: Contact)
    ensures (set i | 0 <= i < |contacts + [c]| :: (contacts + [c])[i].mxid)
         == (set i | 0 <= i < |contacts| :: contacts[i].mxid) + {c.mxid}
  {
    var next := contacts + [c];
    var before := set i | 0 <= i < |contacts| :: contacts[i].mxid;
    forall m | m in before
      ensures m in (set i | 0 <= i < |next| :: next[i].mxid)
    {
      var i :| 0 <= i < |contacts| && contacts[i].mxid == m;
      assert next[i].mxid == m;
    }
    assert next[|contacts|].mxid == c.mxid;
  }

  /** Appending the read-back of a row not yet listed keeps the list partial-but-exact. */
  lemma ExtendPartialList(rows: map<RowKey, Row>, user: string, done: set<string>, contacts: seq<Contact>, mxid: string)
    requires IsPartialListOf(rows, user, done, contacts)
    requires (user, mxid) in rows && mxid !in done
    ensures IsPartialListOf(rows, user, done + {mxid}, contacts + [ReadBack(mxid, rows[(user, mxid)])])
  {
    AppendedMxids(contacts, ReadBack(mxid, rows[(user, mxid)]));
  }

  /** Taking one pending mxid of `user` and appending its read-back row. */
  lemma TakePending(rows: map<RowKey, Row>, user: string, pending: set<string>, contacts: seq<Contact>, mxid: string)
    requires pending <= ContactMxids(rows, user) && mxid in pending
    requires IsPartialListOf(rows, user, ContactMxids(rows, user) - pending, contacts)
    ensures (user, mxid) in rows
    ensures IsPartialListOf(rows, user, ContactMxids(rows, user) - (pending - {mxid}),
                            contacts + [ReadBack(mxid, rows[(user, mxid)])])
  {
    var done := ContactMxids(rows, user) - pending;
    ExtendPartialList(rows, user, done, contacts, mxid);
    assert ContactMxids(rows, user) - (pending - {mxid}) == done + {mxid};
  }

  /** Once every mxid of `user` is listed, the list is the user's whole contact list. */
  lemma CompletePartialList(rows: map<RowKey, Row>, user: string, contacts: seq<Contact>)
    requires IsPartialListOf(rows, user, ContactMxids(rows, user), contacts)
    ensures IsContactListOf(rows, user, contacts)
    ensures |contacts| == |ContactMxids(rows, user)|
  {
  }

  /** The select-and-build of `get_contacts`: one read-back contact per row of `user`. */
  method SelectContacts(rows: map<RowKey, Row>, user: string) returns (contacts: seq<Contact>)
    ensures IsContactListOf(rows, user, contacts)
    ensures |contacts| == |ContactMxids(rows, user)|
  {
    var all := ContactMxids(rows, user);
    var pending := all;
    contacts := [];
    assert all - pending == {};
    while pending != {}
      invariant pending <= all
      invariant IsPartialListOf(rows, user, all - pending, contacts)
      decreases pending
    {
      var mxid :| mxid in pending;
      TakePending(rows, user, pending, contacts, mxid);
      contacts := contacts + [ReadBack(mxid, rows[(user, mxid)])];
      pending := pending - {mxid};
    }
    assert all - pending == all;
    CompletePartialList(rows, user, contacts);
  }

  /** `InviteCheckerStore`: the table and the one-shot `db_checked` flag. */
  class InviteCheckerStore {
    var rows: map<RowKey, Row>
    var dbChecked: bool
    /** How many times the table-creation transaction has run. */
    ghost var tableSetups: nat

    /** The creation transaction has run once exactly when `db_checked` is set, and never twice. */
    ghost predicate Valid()
      reads this
    {
      tableSetups == if dbChecked then 1 else 0
    }

    /** A fresh store over a database that already holds `rows`. */
    constructor (rows: map<RowKey, Row>)
      ensures Valid() && !dbChecked && this.rows == rows
    {
      this.rows := rows;
      dbChecked := false;
      tableSetups := 0;
    }

    /** `ensure_table_exists`: create the table and its indexes on the first call only. */
    method EnsureTableExists()
      requires Valid()
      modifies this`dbChecked, this`tableSetups
      ensures Valid() && dbChecked
      ensures old(dbChecked) ==> tableSetups == old(tableSetups)
    {
      if !dbChecked {
        tableSetups := tableSetups + 1;
        dbChecked := true;
      }
    }

    /** `get_contacts`: every contact of `user`, read back. */
    method GetContacts(user: string) returns (r: Contacts)
      requires Valid()
      modifies this`dbChecked, this`tableSetups
      ensures Valid() && dbChecked && rows == old(rows)
      ensures IsContactListOf(rows, user, r.contacts)
    {
      EnsureTableExists();
      var contacts := SelectContacts(rows, user);
      r := Contacts(contacts);
    }

    /** `del_contact`: remove the row of `(user, mxid)`, if there is one. */
    method DelContact(user: string, mxid: string)
      requires Valid()
      modifies this
      ensures Valid() && dbChecked
      ensures rows == old(rows) - {(user, mxid)}
    {
      EnsureTableExists();
      rows := rows - {(user, mxid)};
    }

    /**
     * `add_contact`: upsert the row of `(user, contact.mxid)`. A start or end outside
     * the `BIGINT` range makes the database driver raise, and nothing is stored.
     */
    method AddContact(user: string, contact: Contact) returns (r: Result<(), string>)
      requires Valid()
      modifies this
      ensures Valid() && dbChecked
      ensures r.Ok? <==> FitsColumns(contact)
      ensures r.Ok? ==> rows == old(rows)[(user, contact.mxid) := RowOf(contact)]
      ensures r.Err? ==> rows == old(rows)
    {
      EnsureTableExists();
      if !FitsColumns(contact) {
        return Err("integer out of range for BIGINT");
      }
      rows := rows[(user, contact.mxid) := RowOf(contact)];
      r := Ok(());
    }

    /** `get_contact`: the read-back contact of `(user, mxid)`, or `None`. */
    method GetContact(user: string, mxid: string) returns (r: Option<Contact>)
      requires Valid()
      modifies this`dbChecked, this`tableSetups
      ensures Valid() && dbChecked && rows == old(rows)
      ensures r.None? <==> (user, mxid) !in rows
      ensures r.Some? ==> r.value == ReadBack(mxid, rows[(user, mxid)])
    {
      EnsureTableExists();
      if (user, mxid) in rows {
        r := Some(ReadBack(mxid, rows[(user, mxid)]));
      } else {
        r := None;
      }
    }
  }

  /**
   * Re-adding a contact replaces it: there is still one row for the pair, holding the
   * new values, and reading it gives the new start.
   */
  method UpsertReplaces(store: InviteCheckerStore, user: string, first: Contact, second: Contact)
    returns (found: Option<Contact>)
    requires store.Valid() && first.mxid == second.mxid
    modifies store
    ensures store.Valid()
    ensures FitsColumns(second) ==> store.rows == old(store.rows)[(user, second.mxid) := RowOf(second)]
    ensures FitsColumns(second) ==> found.Some? && found.value.inviteSettings.start == second.inviteSettings.start
  {
    var _ := store.AddContact(user, first);
    var _ := store.AddContact(user, second);
    found := store.GetContact(user, second.mxid);
  }
}
