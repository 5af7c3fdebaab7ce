/** Tables of encoded rows: what it means for a table to hold a map, and writing to both alike. */
module Tabled {
  import opened Common

  type Bits = seq<Byte>
  type Table = map<Bits, Bits>

  /** A key or a value that may have no encoding. */
  type Code<!T> = T -> Option<Bits>

  ghost predicate RowKept<K, V>(table: Table, key: Code<K>, value: Code<V>, k: K, v: V) {
    && key(k).Some? && value(v).Some?
    && key(k).value in table && table[key(k).value] == value(v).value
  }

  ghost predicate IsKeyOf<K(!new), V>(rows: map<K, V>, key: Code<K>, t: Bits) {
    exists k :: k in rows && key(k) == Some(t)
  }

  /** The table holds these rows under their keys, and nothing else. */
  ghost predicate Agrees<K(!new), V(!new)>(table: Table, rows: map<K, V>, key: Code<K>, value: Code<V>) {
    && (forall k :: k in rows ==> RowKept(table, key, value, k, rows[k]))
    && (forall t :: t in table ==> IsKeyOf(rows, key, t))
  }

  ghost predicate Injective<K(!new)>(key: Code<K>) {
    forall a, b :: key(a).Some? && key(a) == key(b) ==> a == b
  }

  lemma RowInserted<K(!new), V(!new)>(table: Table, rows: map<K, V>, key: Code<K>, value: Code<V>, k: K, v: V)
    requires Agrees(table, rows, key, value) && Injective(key) && key(k).Some? && value(v).Some?
    ensures Agrees(table[key(k).value := value(v).value], rows[k := v], key, value)
  {
    var after, more := table[key(k).value := value(v).value], rows[k := v];
    forall other | other in more ensures RowKept(after, key, value, other, more[other]) {
      assert other != k ==> RowKept(table, key, value, other, rows[other]);
    }
    forall t | t in after ensures IsKeyOf(more, key, t) {
      if t == key(k).value {
        assert k in more;
      } else {
        var other :| other in rows && key(other) == Some(t);
        assert other in more;
      }
    }
  }

  lemma RowRemoved<K(!new), V(!new)>(table: Table, rows: map<K, V>, key: Code<K>, value: Code<V>, k: K)
    requires Agrees(table, rows, key, value) && Injective(key) && key(k).Some?
    ensures Agrees(table - {key(k).value}, rows - {k}, key, value)
  {
    var after, fewer := table - {key(k).value}, rows - {k};
    forall other | other in fewer ensures RowKept(after, key, value, other, fewer[other]) {
      assert RowKept(table, key, value, other, rows[other]);
    }
    forall t | t in after ensures IsKeyOf(fewer, key, t) {
      var other :| other in rows && key(other) == Some(t);
      assert other in fewer;
    }
  }

  lemma RowsFiltered<K(!new), V(!new)>(
    table: Table, rows: map<K, V>, key: Code<K>, value: Code<V>, fewer: Table, left: map<K, V>)
    requires Agrees(table, rows, key, value)
    requires left.Keys <= rows.Keys && forall k :: k in left ==> left[k] == rows[k]
    requires fewer.Keys <= table.Keys && forall t :: t in fewer ==> fewer[t] == table[t]
    requires forall k :: k in rows && key(k).Some? ==> (k in left <==> key(k).value in fewer)
    ensures Agrees(fewer, left, key, value)
  {
    forall k | k in left ensures RowKept(fewer, key, value, k, left[k]) {
      assert RowKept(table, key, value, k, rows[k]);
    }
    forall t | t in fewer ensures IsKeyOf(left, key, t) {
      var k :| k in rows && key(k) == Some(t);
      assert k in left;
    }
  }

  /** Remove the rows with these keys. */
  method DropAll<K(!new, ==), V(!new)>(table: Table, dropped: set<K>, key: Code<K>, ghost value: Code<V>, ghost rows: map<K, V>)
    returns (after: Table)
    requires Agrees(table, rows, key, value) && Injective(key) && forall k :: k in dropped ==> key(k).Some?
    ensures Agrees(after, rows - dropped, key, value)
    decreases |dropped|
  {
    if dropped == {} {
      assert rows - dropped == rows;
      return table;
    }
    var k :| k in dropped;
    RowRemoved(table, rows, key, value, k);
    after := DropAll(table - {key(k).value}, dropped - {k}, key, value, rows - {k});
    assert rows - {k} - (dropped - {k}) == rows - dropped;
  }

  predicate Changes<K, V>(key: Code<K>, value: Code<V>, k: K, v: Option<V>) {
    key(k).Some? && (v.Some? ==> value(v.value).Some?)
  }

  ghost predicate AllEncoded<K(!new), V>(changes: map<K, Option<V>>, key: Code<K>, value: Code<V>) {
    forall k :: k in changes ==> Changes(key, value, k, changes[k])
  }

  function AfterChanges<K, V>(rows: map<K, V>, changes: map<K, Option<V>>): map<K, V> {
    map k | k in rows.Keys + changes.Keys && (k in changes ==> changes[k].Some?) ::
      if k in changes then changes[k].value else rows[k]
  }

  function ChangedAt<K, V>(rows: map<K, V>, k: K, v: Option<V>): map<K, V> {
    if v.Some? then rows[k := v.value] else rows - {k}
  }

  function WrittenAt<K, V>(table: Table, key: Code<K>, value: Code<V>, k: K, v: Option<V>): Table
    requires Changes(key, value, k, v)
  {
    if v.Some? then table[key(k).value := value(v.value).value] else table - {key(k).value}
  }

  lemma RowWritten<K(!new), V(!new)>(table: Table, rows: map<K, V>, key: Code<K>, value: Code<V>, k: K, v: Option<V>)
    requires Agrees(table, rows, key, value) && Injective(key) && Changes(key, value, k, v)
    ensures Agrees(WrittenAt(table, key, value, k, v), ChangedAt(rows, k, v), key, value)
  {
    match v {
      case Some(novel) => RowInserted(table, rows, key, value, k, novel);
      case None => RowRemoved(table, rows, key, value, k);
    }
  }

  lemma ChangedByOne<K, V>(rows: map<K, V>, changes: map<K, Option<V>>, k: K)
    requires k in changes
    ensures AfterChanges(ChangedAt(rows, k, changes[k]), changes - {k}) == AfterChanges(rows, changes)
  {}

  lemma EncodedByOne<K(!new), V>(changes: map<K, Option<V>>, key: Code<K>, value: Code<V>, k: K)
    requires k in changes
    ensures AllEncoded(changes, key, value) <==>
      Changes(key, value, k, changes[k]) && AllEncoded(changes - {k}, key, value)
  {
    assert forall other :: other in changes <==> other == k || other in changes - {k};
  }

  /** Insert or remove rows, unless one of them has no encoding. */
  method WriteAll<K(!new, ==), V(!new)>(table: Table, changes: map<K, Option<V>>, key: Code<K>, value: Code<V>, ghost rows: map<K, V>)
    returns (after: Option<Table>)
    requires Agrees(table, rows, key, value) && Injective(key)
    ensures after.Some? <==> AllEncoded(changes, key, value)
    ensures after.Some? ==> Agrees(after.value, AfterChanges(rows, changes), key, value)
    decreases |changes|
  {
    if changes == map[] {
      assert AfterChanges(rows, changes) == rows;
      return Some(table);
    }
    var k :| k in changes;
    EncodedByOne(changes, key, value, k);
    if !Changes(key, value, k, changes[k]) {
      return None;
    }
    RowWritten(table, rows, key, value, k, changes[k]);
    after := WriteAll(WrittenAt(table, key, value, k, changes[k]), changes - {k}, key, value, ChangedAt(rows, k, changes[k]));
    ChangedByOne(rows, changes, k);
  }

  /** What has been read when some keys of a table are still to be read. */
  ghost function ReadSoFar<K(!new), V>(rows: map<K, V>, key: Code<K>, todo: set<Bits>): map<K, V> {
    map k | k in rows && key(k).Some? && key(k).value !in todo :: rows[k]
  }

  ghost function KeyedBy<K(!new), V(!new)>(table: Table, rows: map<K, V>, key: Code<K>, value: Code<V>, t: Bits): (k: K)
    requires Agrees(table, rows, key, value) && t in table
    ensures k in rows && key(k) == Some(t) && RowKept(table, key, value, k, rows[k])
  {
    assert IsKeyOf(rows, key, t);
    var k :| k in rows && key(k) == Some(t);
    k
  }

  lemma OneMoreRead<K(!new), V(!new)>(table: Table, rows: map<K, V>, key: Code<K>, value: Code<V>, todo: set<Bits>, t: Bits)
    returns (k: K)
    requires Agrees(table, rows, key, value) && Injective(key) && t in todo && todo <= table.Keys
    ensures k in rows && key(k) == Some(t) && value(rows[k]) == Some(table[t])
    ensures k !in ReadSoFar(rows, key, todo)
    ensures ReadSoFar(rows, key, todo - {t}) == ReadSoFar(rows, key, todo)[k := rows[k]]
  {
    k := KeyedBy(table, rows, key, value, t);
  }

  lemma AllRead<K(!new), V(!new)>(table: Table, rows: map<K, V>, key: Code<K>, value: Code<V>)
    requires Agrees(table, rows, key, value)
    ensures ReadSoFar(rows, key, {}) == rows
    ensures ReadSoFar(rows, key, table.Keys) == map[]
  {
    forall k | k in rows ensures key(k).Some? && key(k).value in table {
      assert RowKept(table, key, value, k, rows[k]);
    }
  }
}
