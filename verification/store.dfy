/** A database table with a unique key, as the job writes to it: every
    statement is `INSERT … ON CONFLICT (key) DO UPDATE SET existed = true`.
    A table maps each key to the row stored under it and its `existed`
    flag; the first row written under a key stays, and a later write of
    the same key only raises the flag. */
module Store {

  datatype Stored<R> = Stored(row: R, existed: bool)

  type Table<R> = map<string, Stored<R>>

  /** One `INSERT … ON CONFLICT … DO UPDATE SET existed = true`. */
  function Upsert<R>(t: Table<R>, key: string, row: R): (r: Table<R>)
    ensures r.Keys == t.Keys + {key}
    ensures r[key].existed <==> key in t
  {
    if key in t then t[key := Stored(t[key].row, true)] else t[key := Stored(row, false)]
  }

  /** The statements of a transaction, applied in order. */
  function UpsertAll<R>(t: Table<R>, entries: seq<(string, R)>): (r: Table<R>)
    ensures t.Keys <= r.Keys
  {
    if entries == [] then t
    else
      var last := entries[|entries| - 1];
      Upsert(UpsertAll(t, entries[..|entries| - 1]), last.0, last.1)
  }

  /** One more entry is one more upsert after the others. */
  lemma UpsertAllSnoc<R>(t: Table<R>, entries: seq<(string, R)>, key: string, row: R)
    ensures UpsertAll(t, entries + [(key, row)]) == Upsert(UpsertAll(t, entries), key, row)
  {
    assert (entries + [(key, row)])[..|entries|] == entries;
  }

  /** The keys of a sequence of entries. */
  function EntryKeys<R>(entries: seq<(string, R)>): set<string>
  {
    set i | 0 <= i < |entries| :: entries[i].0
  }

  /** The stored values of a table, without the `existed` flags. */
  function Rows<R>(t: Table<R>): map<string, R>
  {
    map k | k in t :: t[k].row
  }

  /** An upsert adds its key, and changes no other key. A row already
      stored under the key stays and is flagged as existing; otherwise the
      new row is stored unflagged. */
  lemma UpsertSpec<R>(t: Table<R>, key: string, row: R)
    ensures Upsert(t, key, row).Keys == t.Keys + {key}
    ensures key in t ==> Upsert(t, key, row)[key] == Stored(t[key].row, true)
    ensures key !in t ==> Upsert(t, key, row)[key] == Stored(row, false)
    ensures forall k :: k in t && k != key ==> Upsert(t, key, row)[k] == t[k]
  {
  }

  /** After a transaction the table holds exactly the keys it held before
      and the keys of the transaction. */
  lemma {:induction false} UpsertAllKeys<R>(t: Table<R>, entries: seq<(string, R)>)
    ensures UpsertAll(t, entries).Keys == t.Keys + EntryKeys(entries)
  {
    if entries != [] {
      var init := entries[..|entries| - 1];
      UpsertAllKeys(t, init);
      EntryKeysSnoc(entries);
    }
  }

  /** A key the transaction does not write keeps its stored row and flag. */
  lemma {:induction false} UpsertAllUntouched<R>(t: Table<R>, entries: seq<(string, R)>, k: string)
    requires k in t
    requires forall i :: 0 <= i < |entries| ==> entries[i].0 != k
    ensures k in UpsertAll(t, entries) && UpsertAll(t, entries)[k] == t[k]
  {
    if entries != [] {
      var init := entries[..|entries| - 1];
      UpsertAllUntouched(t, init, k);
    }
  }

  /** A row stored before the transaction is never overwritten: the
      transaction can only raise its `existed` flag. */
  lemma {:induction false} UpsertAllKeepsStored<R>(t: Table<R>, entries: seq<(string, R)>, k: string)
    requires k in t
    ensures k in UpsertAll(t, entries) && UpsertAll(t, entries)[k].row == t[k].row
    ensures UpsertAll(t, entries)[k].existed <==> t[k].existed || k in EntryKeys(entries)
  {
    if entries != [] {
      var init := entries[..|entries| - 1];
      UpsertAllKeepsStored(t, init, k);
      EntryKeysSnoc(entries);
    }
  }

  /** The keys of a non-empty sequence of entries: those of all but the last
      entry, and the last entry's key. */
  lemma EntryKeysSnoc<R>(entries: seq<(string, R)>)
    requires entries != []
    ensures EntryKeys(entries) == EntryKeys(entries[..|entries| - 1]) + {entries[|entries| - 1].0}
  {
    var init := entries[..|entries| - 1];
    forall k | k in EntryKeys(entries) ensures k in EntryKeys(init) + {entries[|entries| - 1].0} {
      var i :| 0 <= i < |entries| && entries[i].0 == k;
      if i < |entries| - 1 { assert init[i] == entries[i]; }
    }
    forall k | k in EntryKeys(init) ensures k in EntryKeys(entries) {
      var i :| 0 <= i < |init| && init[i].0 == k;
      assert entries[i] == init[i];
    }
  }

  /** First write wins: for a key the table did not hold, the stored row
      is that of the key's first entry in the transaction, and the key is
      flagged exactly when a later entry repeats it. */
  lemma {:induction false} UpsertAllFirstWins<R>(t: Table<R>, entries: seq<(string, R)>, i: int)
    requires 0 <= i < |entries| && entries[i].0 !in t
    requires forall j :: 0 <= j < i ==> entries[j].0 != entries[i].0
    ensures entries[i].0 in UpsertAll(t, entries)
    ensures UpsertAll(t, entries)[entries[i].0].row == entries[i].1
    ensures UpsertAll(t, entries)[entries[i].0].existed
            <==> exists j :: i < j < |entries| && entries[j].0 == entries[i].0
  {
    var k := entries[i].0;
    var init := entries[..|entries| - 1];
    var last := entries[|entries| - 1];
    if i == |entries| - 1 {
      assert k !in UpsertAll(t, init) by {
        UpsertAllKeys(t, init);
        forall j | 0 <= j < |init| ensures init[j].0 != k {
          assert init[j] == entries[j];
        }
      }
    } else {
      assert init[i] == entries[i];
      UpsertAllFirstWins(t, init, i);
      if last.0 == k {
        assert i < |entries| - 1 && entries[|entries| - 1].0 == k;
      } else {
        assert (exists j :: i < j < |entries| && entries[j].0 == k)
           <==> (exists j :: i < j < |init| && init[j].0 == k) by {
          if j :| i < j < |entries| && entries[j].0 == k {
            assert j < |init| && init[j] == entries[j];
          }
          if j :| i < j < |init| && init[j].0 == k {
            assert entries[j] == init[j];
          }
        }
      }
    }
  }

  /** Running a transaction a second time changes no stored row, and
      afterwards every key it writes is flagged as existing. */
  lemma UpsertAllIdempotentRows<R>(t: Table<R>, entries: seq<(string, R)>)
    ensures Rows(UpsertAll(UpsertAll(t, entries), entries)) == Rows(UpsertAll(t, entries))
    ensures forall k :: k in EntryKeys(entries)
              ==> k in UpsertAll(UpsertAll(t, entries), entries) && UpsertAll(UpsertAll(t, entries), entries)[k].existed
  {
    var once := UpsertAll(t, entries);
    var twice := UpsertAll(once, entries);
    UpsertAllKeys(t, entries);
    UpsertAllKeys(once, entries);
    forall k | k in once ensures k in twice && twice[k].row == once[k].row {
      UpsertAllKeepsStored(once, entries, k);
    }
    forall k | k in EntryKeys(entries) ensures twice[k].existed {
      UpsertAllKeepsStored(once, entries, k);
    }
  }
}
