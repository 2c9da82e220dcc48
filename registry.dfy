/**
 * The table of enrolled tags, uid -> label. RFIDsystem.py keeps it in an
 * SQLite table whose `uid` column is UNIQUE; RFIDtest-nosql.py keeps it in
 * the dict `known_tags`. The enrollment time stamp is not modelled.
 */
module Registry {
  import opened Types

  type Table = map<string, string>

  /** `SELECT * FROM rfid_tags WHERE uid = ?` / `uid_str in known_tags`: the label, if the uid is enrolled. */
  function Lookup(t: Table, uid: string): (r: Option<string>)
    ensures r.Some? <==> uid in t
    ensures r.Some? ==> r.value == t[uid]
  {
    if uid in t then Some(t[uid]) else None
  }

  datatype Inserted = Created | AlreadyExists

  /** `INSERT INTO rfid_tags (uid, label)`: a uid already present raises IntegrityError and leaves the row alone. */
  function Insert(t: Table, uid: string, tagLabel: string): (r: (Inserted, Table))
    ensures r.0 == AlreadyExists <==> uid in t
    ensures uid in t ==> r.1 == t
    ensures uid !in t ==> r.1.Keys == t.Keys + {uid} && r.1[uid] == tagLabel
  {
    if uid in t then (AlreadyExists, t) else (Created, t[uid := tagLabel])
  }

  /** `known_tags[uid] = label`: dict assignment, which would overwrite. */
  function Assign(t: Table, uid: string, tagLabel: string): (r: Table)
    ensures r.Keys == t.Keys + {uid} && r[uid] == tagLabel
  {
    t[uid := tagLabel]
  }

  /** An insert never removes or relabels a row; a dict assignment keeps every other key's label. */
  lemma InsertKeepsRows(t: Table, uid: string, tagLabel: string)
    ensures var t' := Insert(t, uid, tagLabel).1;
      forall k :: k in t ==> k in t' && t'[k] == t[k]
    ensures var t' := Assign(t, uid, tagLabel);
      forall k :: k in t && k != uid ==> t'[k] == t[k]
  {
  }

  /** At most one insert of a uid succeeds: a second one is rejected and the first label stays. */
  lemma InsertOnce(t: Table, uid: string, first: string, second: string)
    requires uid !in t
    ensures var (r1, t1) := Insert(t, uid, first);
      var (r2, t2) := Insert(t1, uid, second);
      r1 == Created && r2 == AlreadyExists && t2 == t1 && Lookup(t2, uid) == Some(first)
  {
  }

  /** For a uid not yet enrolled, the table and the dict end in the same state. */
  lemma InsertAgreesWithAssign(t: Table, uid: string, tagLabel: string)
    requires uid !in t
    ensures Insert(t, uid, tagLabel) == (Created, Assign(t, uid, tagLabel))
  {
  }
}
