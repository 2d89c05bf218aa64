/** repository/PasswordRepository.kt: the mapping between stored
    `PasswordEntity` rows, which hold encrypted passwords, and the
    `PasswordEntry` values the screens use, which hold plaintext.

    The Room table is a map from id to row. Queries that return lists
    (`getAllPasswords`, `searchPasswords`) are given the rows the DAO
    returned, in the DAO's order; each `Date()` read is a parameter; the IV the
    cipher picks and the random source for salts are parameters too. */
module Repository {
  import opened Results
  import opened Encryption

  /** A `Date`, as milliseconds since the epoch. */
  type Date = int

  /** A row of the `passwords` table. */
  datatype PasswordEntity = PasswordEntity(
    id: int,
    title: string,
    username: Option<string>,
    encryptedPassword: seq<byte>,
    websiteUrl: Option<string>,
    notes: Option<string>,
    createdAt: Date,
    updatedAt: Date,
    salt: seq<byte>)

  /** A decrypted record. */
  datatype PasswordEntry = PasswordEntry(
    id: int,
    title: string,
    username: Option<string>,
    password: string,
    websiteUrl: Option<string>,
    notes: Option<string>,
    createdAt: Date,
    updatedAt: Date)

  /** The table, keyed by primary key. */
  type Table = map<int, PasswordEntity>

  /** Room's primary key: every row is stored under its own id. */
  predicate KeysAreIds(table: Table)
  {
    forall id :: id in table ==> table[id].id == id
  }

  /** What the repository hands to `decryptPassword` for a row: the stored
      blob, an empty IV (the real one is inside the blob) and the row's salt. */
  function Sealed(row: PasswordEntity): (d: EncryptedData)
    ensures d.ciphertext == row.encryptedPassword && d.iv == [] && d.salt == row.salt
  {
    EncryptedData(row.encryptedPassword, [], row.salt)
  }

  /** The body of each `mapNotNull` lambda: the row as an entry when its
      password decrypts, `None` when decryption throws. */
  function ToEntry(m: Manager, row: PasswordEntity): (r: Option<PasswordEntry>)
    ensures r.Some? <==> DecryptPassword(m, Sealed(row)).Ok?
    ensures r.Some? ==>
              r.value.password == DecryptPassword(m, Sealed(row)).value
              && r.value.id == row.id && r.value.title == row.title
              && r.value.username == row.username && r.value.websiteUrl == row.websiteUrl
              && r.value.notes == row.notes
              && r.value.createdAt == row.createdAt && r.value.updatedAt == row.updatedAt
  {
    match DecryptPassword(m, Sealed(row))
    case Err(_) => None
    case Ok(pw) =>
      Some(PasswordEntry(row.id, row.title, row.username, pw, row.websiteUrl, row.notes, row.createdAt, row.updatedAt))
  }

  /** `rows.mapNotNull { ... }`: the entries of the rows that decrypt, in
      order. */
  function DecryptRows(m: Manager, rows: seq<PasswordEntity>): (r: seq<PasswordEntry>)
    ensures |r| <= |rows|
  {
    if rows == [] then []
    else
      var rest := DecryptRows(m, rows[1..]);
      match ToEntry(m, rows[0])
      case None => rest
      case Some(e) => [e] + rest
  }

  /** The mapping works row by row: it distributes over concatenation. */
  lemma {:induction false} DecryptRowsAppend(m: Manager, a: seq<PasswordEntity>, b: seq<PasswordEntity>)
    ensures DecryptRows(m, a + b) == DecryptRows(m, a) + DecryptRows(m, b)
  {
    if a == [] {
      assert a + b == b;
    } else {
      assert (a + b)[1..] == a[1..] + b;
      DecryptRowsAppend(m, a[1..], b);
    }
  }

  /** One row that fails to decrypt is dropped and nothing else is lost. */
  lemma DropsOnlyFailure(m: Manager, before: seq<PasswordEntity>, row: PasswordEntity, after: seq<PasswordEntity>)
    requires DecryptPassword(m, Sealed(row)).Err?
    ensures DecryptRows(m, before + [row] + after) == DecryptRows(m, before) + DecryptRows(m, after)
  {
    DecryptRowsAppend(m, before + [row], after);
    DecryptRowsAppend(m, before, [row]);
  }

  /** An entry is in the result exactly when some row decrypts to it. */
  lemma {:induction false} DecryptRowsMembers(m: Manager, rows: seq<PasswordEntity>, e: PasswordEntry)
    ensures e in DecryptRows(m, rows) <==> exists i :: 0 <= i < |rows| && ToEntry(m, rows[i]) == Some(e)
  {
    if rows != [] {
      DecryptRowsMembers(m, rows[1..], e);
      if exists i :: 0 <= i < |rows| && ToEntry(m, rows[i]) == Some(e) {
        var i :| 0 <= i < |rows| && ToEntry(m, rows[i]) == Some(e);
        if i > 0 {
          assert rows[1..][i - 1] == rows[i];
        }
      }
      if exists j :: 0 <= j < |rows[1..]| && ToEntry(m, rows[1..][j]) == Some(e) {
        var j :| 0 <= j < |rows[1..]| && ToEntry(m, rows[1..][j]) == Some(e);
        assert rows[j + 1] == rows[1..][j];
      }
    }
  }

  /** When every row decrypts, nothing is dropped and the i-th entry is the
      i-th row's. */
  lemma {:induction false} DecryptRowsAllSucceed(m: Manager, rows: seq<PasswordEntity>)
    requires forall i :: 0 <= i < |rows| ==> ToEntry(m, rows[i]).Some?
    ensures |DecryptRows(m, rows)| == |rows|
    ensures forall i :: 0 <= i < |rows| ==> DecryptRows(m, rows)[i] == ToEntry(m, rows[i]).value
  {
    if rows != [] {
      assert forall i :: 0 <= i < |rows[1..]| ==> rows[1..][i] == rows[i + 1];
      DecryptRowsAllSucceed(m, rows[1..]);
    }
  }

  /** `getAllPasswords`, as the loop `mapNotNull` runs: the rows the DAO
      returned, mapped one at a time, failures skipped. */
  method GetAllPasswords(m: Manager, rows: seq<PasswordEntity>) returns (entries: seq<PasswordEntry>)
    ensures entries == DecryptRows(m, rows)
    ensures forall e :: e in entries <==> exists i :: 0 <= i < |rows| && ToEntry(m, rows[i]) == Some(e)
  {
    entries := [];
    var i := 0;
    while i < |rows|
      invariant 0 <= i <= |rows|
      invariant entries == DecryptRows(m, rows[..i])
    {
      DecryptRowsAppend(m, rows[..i], [rows[i]]);
      assert rows[..i + 1] == rows[..i] + [rows[i]];
      var entry := ToEntry(m, rows[i]);
      if entry.Some? {
        entries := entries + [entry.value];
      }
      i := i + 1;
    }
    assert rows[..i] == rows;
    forall e ensures e in entries <==> exists i :: 0 <= i < |rows| && ToEntry(m, rows[i]) == Some(e) {
      DecryptRowsMembers(m, rows, e);
    }
  }

  /** When the DAO returns the table's rows, in whatever order, every row
      whose password decrypts shows up in the bulk read, and nothing else
      does. */
  lemma BulkReadHasTable(m: Manager, table: Table, rows: seq<PasswordEntity>, e: PasswordEntry)
    requires multiset(rows) == multiset(table.Values)
    ensures e in DecryptRows(m, rows) <==> exists id :: id in table && ToEntry(m, table[id]) == Some(e)
  {
    DecryptRowsMembers(m, rows, e);
    if exists id :: id in table && ToEntry(m, table[id]) == Some(e) {
      var id :| id in table && ToEntry(m, table[id]) == Some(e);
      assert table[id] in table.Values;
      assert table[id] in multiset(rows);
      var i :| 0 <= i < |rows| && rows[i] == table[id];
    }
    if e in DecryptRows(m, rows) {
      var i :| 0 <= i < |rows| && ToEntry(m, rows[i]) == Some(e);
      assert rows[i] in multiset(table.Values);
      assert rows[i] in table.Values;
      assert exists id :: id in table && table[id] == rows[i] by {
        if forall id :: id in table ==> table[id] != rows[i] {
          assert false;
        }
      }
      var id :| id in table && table[id] == rows[i];
      assert ToEntry(m, table[id]) == Some(e);
    }
  }

  /** The LIKE pattern `searchPasswords` passes to the DAO. */
  function SearchPattern(query: string): (pattern: string)
    ensures |pattern| == |query| + 2
    ensures pattern[0] == '%' && pattern[|pattern| - 1] == '%'
    ensures pattern[1..|pattern| - 1] == query
  {
    "%" + query + "%"
  }

  /** `searchPasswords`: the DAO's matches for the pattern, mapped as in
      `getAllPasswords`. `search` is the DAO's query. */
  function SearchPasswords(m: Manager, query: string, search: string -> seq<PasswordEntity>): (r: seq<PasswordEntry>)
    ensures r == DecryptRows(m, search(SearchPattern(query)))
    ensures forall e :: e in r <==>
              exists i :: 0 <= i < |search(SearchPattern(query))| && ToEntry(m, search(SearchPattern(query))[i]) == Some(e)
  {
    var rows := search(SearchPattern(query));
    var r := DecryptRows(m, rows);
    assert forall e :: e in r <==> exists i :: 0 <= i < |rows| && ToEntry(m, rows[i]) == Some(e) by {
      forall e ensures e in r <==> exists i :: 0 <= i < |rows| && ToEntry(m, rows[i]) == Some(e) {
        DecryptRowsMembers(m, rows, e);
      }
    }
    r
  }

  /** `getPasswordById`: `None` when the id is absent or the password does
      not decrypt. */
  function GetPasswordById(m: Manager, table: Table, id: int): (r: Option<PasswordEntry>)
    ensures id !in table ==> r == None
    ensures id in table ==> r == ToEntry(m, table[id])
    ensures r.Some? ==> r.value.id == table[id].id
    ensures KeysAreIds(table) && r.Some? ==> r.value.id == id
  {
    if id in table then ToEntry(m, table[id]) else None
  }

  /** A finite non-empty set of ids has a largest element. */
  lemma {:induction false} LargestExists(ids: set<int>)
    requires ids != {}
    ensures exists k :: k in ids && forall j :: j in ids ==> j <= k
    decreases |ids|
  {
    assert exists y :: y in ids by {
      if forall y :: y !in ids {
        assert false;
      }
    }
    var x :| x in ids;
    var rest := ids - {x};
    assert forall j :: j in ids ==> j == x || j in rest;
    if rest != {} {
      LargestExists(rest);
      var k :| k in rest && forall j :: j in rest ==> j <= k;
      if x > k {
        assert forall j :: j in ids ==> j <= x;
      } else {
        assert k in ids && forall j :: j in ids ==> j <= k;
      }
    }
  }

  /** The id Room's auto-generated key gives a new row: one past the
      largest id present, and at least 1. */
  function NextId(table: Table): (id: int)
    ensures id !in table && id >= 1
    ensures forall j :: j in table ==> j < id
  {
    if table == map[] then 1
    else
      LargestExists(table.Keys);
      var k :| k in table && forall j :: j in table ==> j <= k;
      if k < 1 then 1 else k + 1
  }

  /** `insertPassword`: a fresh salt from the random source, the password
      encrypted under it with the cipher's IV `iv`, and the two `Date()`
      reads `created` and `updated` as the timestamps; the new row goes in
      under a new id, which is returned. */
  function InsertPassword(m: Manager, table: Table, entry: PasswordEntry, rng: nat -> nat, k: nat, iv: seq<byte>,
                          created: Date, updated: Date): (r: (int, Table))
    ensures r.0 !in table
    ensures r.1.Keys == table.Keys + {r.0}
    ensures forall j :: j in table ==> r.1[j] == table[j]
    ensures KeysAreIds(table) ==> KeysAreIds(r.1)
    ensures var row := r.1[r.0];
            row.id == r.0 && row.salt == GenerateSalt(rng, k) && |row.salt| == SaltLength
            && row.encryptedPassword == EncryptPassword(m, entry.password, row.salt, iv).ciphertext
            && row.title == entry.title && row.username == entry.username
            && row.websiteUrl == entry.websiteUrl && row.notes == entry.notes
            && row.createdAt == created && row.updatedAt == updated
  {
    var salt := GenerateSalt(rng, k);
    var data := EncryptPassword(m, entry.password, salt, iv);
    var id := NextId(table);
    var row := PasswordEntity(id, entry.title, entry.username, data.ciphertext, entry.websiteUrl, entry.notes, created, updated, salt);
    (id, table[id := row])
  }

  /** `updatePassword`: nothing when the id is absent; otherwise the row
      keeps its id, salt and creation date, takes the entry's title,
      username, website and notes and a blob encrypted under the old salt,
      and its update date becomes `now`. */
  function UpdatePassword(m: Manager, table: Table, entry: PasswordEntry, iv: seq<byte>, now: Date): (r: Table)
    ensures entry.id !in table ==> r == table
    ensures r.Keys == table.Keys
    ensures KeysAreIds(table) ==> KeysAreIds(r)
    ensures forall j :: j in table && j != entry.id ==> r[j] == table[j]
    ensures entry.id in table ==>
              var before, after := table[entry.id], r[entry.id];
              after.id == before.id && after.salt == before.salt && after.createdAt == before.createdAt
              && after.title == entry.title && after.username == entry.username
              && after.websiteUrl == entry.websiteUrl && after.notes == entry.notes
              && after.encryptedPassword == EncryptPassword(m, entry.password, before.salt, iv).ciphertext
              && after.updatedAt == now
  {
    if entry.id !in table then table
    else
      var existing := table[entry.id];
      var data := EncryptPassword(m, entry.password, existing.salt, iv);
      var updated := existing.(title := entry.title, username := entry.username, encryptedPassword := data.ciphertext,
                               websiteUrl := entry.websiteUrl, notes := entry.notes, updatedAt := now);
      table[entry.id := updated]
  }

  /** `deletePassword`: removes the row with the entry's id; only the id is read. */
  function DeletePassword(table: Table, entry: PasswordEntry): (r: Table)
    ensures entry.id !in r
    ensures r.Keys == table.Keys - {entry.id}
    ensures forall j :: j in r ==> r[j] == table[j]
    ensures KeysAreIds(table) ==> KeysAreIds(r)
  {
    table - {entry.id}
  }

  /** `getPasswordCount`: the number of rows. */
  function GetPasswordCount(table: Table): (n: nat)
  {
    |table|
  }

  // ---- the operations together ----

  /** What was inserted reads back: same fields, the new id, the two dates
      read at insertion, and the password in plaintext, given a sound cipher
      and codec and a 12-byte IV. */
  lemma InsertThenGet(m: Manager, table: Table, entry: PasswordEntry, rng: nat -> nat, k: nat, iv: seq<byte>,
                      created: Date, updated: Date)
    requires AeadSound(m.platform) && Utf8Sound(m.platform) && |iv| == IvLength
    ensures var (id, t) := InsertPassword(m, table, entry, rng, k, iv, created, updated);
            GetPasswordById(m, t, id) == Some(entry.(id := id, createdAt := created, updatedAt := updated))
  {
    var (id, t) := InsertPassword(m, table, entry, rng, k, iv, created, updated);
    var row := t[id];
    EncryptThenDecrypt(m, entry.password, row.salt, iv, [], row.salt);
  }

  /** An update of a present record reads back as the entry with the
      stored creation date and update date `now`. */
  lemma UpdateThenGet(m: Manager, table: Table, entry: PasswordEntry, iv: seq<byte>, now: Date)
    requires AeadSound(m.platform) && Utf8Sound(m.platform) && |iv| == IvLength
    requires KeysAreIds(table) && entry.id in table
    ensures GetPasswordById(m, UpdatePassword(m, table, entry, iv, now), entry.id)
            == Some(entry.(createdAt := table[entry.id].createdAt, updatedAt := now))
  {
    var salt := table[entry.id].salt;
    EncryptThenDecrypt(m, entry.password, salt, iv, [], salt);
  }

  /** After a delete the record is gone; the others read as before. */
  lemma DeleteThenGet(m: Manager, table: Table, entry: PasswordEntry, id: int)
    ensures GetPasswordById(m, DeletePassword(table, entry), id)
            == if id == entry.id then None else GetPasswordById(m, table, id)
  {
  }

  /** Inserting adds one row. */
  lemma CountAfterInsert(m: Manager, table: Table, entry: PasswordEntry, rng: nat -> nat, k: nat, iv: seq<byte>,
                         created: Date, updated: Date)
    ensures GetPasswordCount(InsertPassword(m, table, entry, rng, k, iv, created, updated).1) == GetPasswordCount(table) + 1
  {
    var r := InsertPassword(m, table, entry, rng, k, iv, created, updated);
    assert r.1 == table[r.0 := r.1[r.0]];
  }

  /** Deleting a present record removes one row, an absent one none. */
  lemma CountAfterDelete(table: Table, entry: PasswordEntry)
    ensures GetPasswordCount(DeletePassword(table, entry))
            == if entry.id in table then GetPasswordCount(table) - 1 else GetPasswordCount(table)
  {
    var d := DeletePassword(table, entry);
    if entry.id in table {
      assert table == d[entry.id := table[entry.id]];
    } else {
      assert d == table;
    }
  }
}
