/** Reading and replacing the general settings of one mall inside the legacy configuration table. */
module MallSettings {
  import opened Basics
  import opened Metadata
  import opened Sorting

  const CONFIG_NAME := "appConfig"

  datatype Row = Row(id: string, created: int, updated: int, deleted: bool, tenant: string, name: string,
                     metadata: Text)

  /** The table, by primary key. */
  type Table = map<string, Row>

  predicate ValidTable(table: Table) {
    forall id :: id in table ==> table[id].id == id
  }

  datatype Failure = MutationDisabled | Persistence | Conflict | LegacyMetadata

  /** What the database or the random source may refuse during one call. */
  datatype Faults = Faults(lock: bool, firstRead: bool, newId: bool, write: bool, secondRead: bool, commit: bool)

  predicate IsActive(row: Row, tenant: string) {
    row.tenant == tenant && row.name == CONFIG_NAME && !row.deleted
  }

  function Active(table: Table, tenant: string): set<string> {
    set id | id in table && table[id].tenant == tenant && table[id].name == "appConfig" && !table[id].deleted
  }

  function RowId(row: Row): Key { [row.id] }

  /** The answer of the query: the first two active rows by id. */
  ghost predicate Found(table: Table, tenant: string, rows: seq<Row>) {
    && SortedBy(RowId, rows) && DistinctBy(RowId, rows)
    && (forall k :: 0 <= k < |rows| ==> rows[k].id in Active(table, tenant) && rows[k] == table[rows[k].id])
    && |rows| == (if |Active(table, tenant)| < 2 then |Active(table, tenant)| else 2)
  }

  lemma {:induction false} IdsInSet(rows: seq<Row>, ids: set<string>)
    requires DistinctBy(RowId, rows) && (forall k :: 0 <= k < |rows| ==> rows[k].id in ids)
    requires forall id :: id in ids ==> exists k :: 0 <= k < |rows| && rows[k].id == id
    ensures |rows| == |ids|
  {
    if rows == [] {
      assert ids == {};
    } else {
      var n := |rows| - 1;
      var last := rows[n];
      assert forall k :: 0 <= k < n ==> RowId(rows[k]) != RowId(last);
      forall id | id in ids - {last.id} ensures exists k :: 0 <= k < n && rows[..n][k].id == id {
        var k :| 0 <= k < |rows| && rows[k].id == id;
        assert rows[..n][k].id == id;
      }
      IdsInSet(rows[..n], ids - {last.id});
    }
  }

  /** The active rows among those looked at so far, in any order. */
  ghost predicate Scanned(table: Table, tenant: string, all: seq<Row>, remaining: set<string>) {
    && DistinctBy(RowId, all)
    && (forall k :: 0 <= k < |all| ==>
          all[k].id in Active(table, tenant) && all[k].id !in remaining && all[k] == table[all[k].id])
    && (forall id :: id in Active(table, tenant) && id !in remaining ==> exists k :: 0 <= k < |all| && all[k].id == id)
  }

  lemma ScanOne(table: Table, tenant: string, all: seq<Row>, remaining: set<string>, id: string)
    requires ValidTable(table) && Scanned(table, tenant, all, remaining) && id in remaining && remaining <= table.Keys
    ensures Scanned(table, tenant, if IsActive(table[id], tenant) then all + [table[id]] else all, remaining - {id})
  {
    var longer := if IsActive(table[id], tenant) then all + [table[id]] else all;
    forall other | other in Active(table, tenant) && other !in remaining - {id}
      ensures exists k :: 0 <= k < |longer| && longer[k].id == other {
      if other == id {
        assert longer[|all|].id == other;
      } else {
        var k :| 0 <= k < |all| && all[k].id == other;
        assert longer[k].id == other;
      }
    }
  }

  lemma NothingScanned(table: Table, tenant: string)
    ensures Scanned(table, tenant, [], table.Keys)
  {
  }

  method FindRows(table: Table, tenant: string) returns (rows: seq<Row>)
    requires ValidTable(table)
    ensures Found(table, tenant, rows)
  {
    hide Scanned, Found, Active;
    var all: seq<Row> := [];
    var remaining := table.Keys;
    NothingScanned(table, tenant);
    while remaining != {}
      invariant remaining <= table.Keys && Scanned(table, tenant, all, remaining)
    {
      var id :| id in remaining;
      ScanOne(table, tenant, all, remaining, id);
      if IsActive(table[id], tenant) { all := all + [table[id]]; }
      remaining := remaining - {id};
    }
    FirstTwo(table, tenant, all);
    var sorted := Sort(RowId, all);
    rows := if |sorted| < 2 then sorted else sorted[..2];
  }

  lemma FirstTwo(table: Table, tenant: string, all: seq<Row>)
    requires Scanned(table, tenant, all, {})
    ensures var sorted := Sort(RowId, all); Found(table, tenant, if |sorted| < 2 then sorted else sorted[..2])
  {
    hide Active, Sort, SortedBy, DistinctBy;
    var sorted := Sort(RowId, all);
    AllCounted(all, table, tenant);
    SortIsSorted(RowId, all);
    DistinctIsOrderless(RowId, all, sorted);
    forall k | 0 <= k < |sorted| ensures sorted[k] in all { assert sorted[k] in multiset(sorted); }
    if |sorted| >= 2 { BeginningSorted(sorted, 2); }
  }

  lemma AllCounted(all: seq<Row>, table: Table, tenant: string)
    requires Scanned(table, tenant, all, {})
    ensures |all| == |Active(table, tenant)|
  {
    hide Active;
    IdsInSet(all, Active(table, tenant));
  }

  lemma BeginningSorted(rows: seq<Row>, n: nat)
    requires SortedBy(RowId, rows) && DistinctBy(RowId, rows) && n <= |rows|
    ensures SortedBy(RowId, rows[..n]) && DistinctBy(RowId, rows[..n])
  {
    hide RowId, Before;
  }

  /** What a reader gets: the empty settings before the first write, a conflict when two rows are active. */
  ghost predicate Reads(codec: Codec, table: Table, tenant: string, r: Result<Settings, Failure>) {
    if |Active(table, tenant)| > 1 then r == Err(Conflict)
    else if |Active(table, tenant)| == 0 then r == Ok(Settings("", "", "", ""))
    else
      forall id :: id in Active(table, tenant) ==>
        r == match GeneralOf(codec, table[id].metadata)
             case Some(settings) => Ok(settings)
             case None => Err(LegacyMetadata)
  }

  lemma OneActive(table: Table, tenant: string, id: string)
    requires |Active(table, tenant)| == 1 && id in Active(table, tenant)
    ensures Active(table, tenant) == {id}
  {
    var rest := Active(table, tenant) - {id};
    assert |rest| == 0;
  }

  /** A committed write: the one active row gets the merged document, or a fresh row is added. */
  ghost predicate Commits(
    codec: Codec, before: Table, after: Table, tenant: string, settings: Settings, newId: string, now: int)
  {
    exists metadata: Text ::
      && GeneralOf(codec, metadata) == Some(settings)
      && (if |Active(before, tenant)| == 1 then
            exists id :: id in Active(before, tenant) && MergedText(codec, before[id].metadata, settings, metadata)
                         && after == before[id := before[id].(metadata := metadata, updated := now)]
          else
            && |Active(before, tenant)| == 0 && newId !in before && MergedText(codec, "", settings, metadata)
            && after == before[newId := Row(newId, now, now, false, tenant, "appConfig", metadata)])
  }

  ghost predicate MergedText(codec: Codec, before: Text, settings: Settings, metadata: Text) {
    && Decoded(codec, before).Some?
    && exists merged :: Merges(codec, Decoded(codec, before).value, settings, merged)
        && Encodes(codec, merged, Some(metadata))
  }

  /** When a write commits: nothing fails, at most one row is active, its document decodes, the new
      values are ones JSON can carry, and a new row gets an unused id. */
  ghost predicate CanCommit(
    codec: Codec, table: Table, tenant: string, writable: bool, settings: Settings, newId: string, faults: Faults)
  {
    && writable && !faults.lock && !faults.firstRead && !faults.write && !faults.secondRead && !faults.commit
    && |Active(table, tenant)| <= 1
    && (|Active(table, tenant)| == 0 ==> !faults.newId && newId !in table)
    && (forall id :: id in Active(table, tenant) ==> Decoded(codec, table[id].metadata).Some?)
    && Representable(codec, settings)
  }

  /** Which error a write that does not commit reports. */
  ghost predicate Refuses(
    codec: Codec, table: Table, tenant: string, writable: bool, settings: Settings, newId: string, faults: Faults,
    error: Failure)
  {
    var admitted := writable && !faults.lock && !faults.firstRead;
    var unreadable := exists id :: id in Active(table, tenant) && Decoded(codec, table[id].metadata).None?;
    && (error == MutationDisabled <==> !writable)
    && (error == Conflict <==> admitted && |Active(table, tenant)| > 1)
    && (admitted && |Active(table, tenant)| == 1 && unreadable ==> error == LegacyMetadata)
    && (error == LegacyMetadata ==> admitted && |Active(table, tenant)| <= 1
                                    && (unreadable || !Representable(codec, settings)))
    && (error == Persistence ==>
          || faults != Faults(false, false, false, false, false, false)
          || !Representable(codec, settings) || (newId in table && |Active(table, tenant)| == 0))
  }

  class Repository {
    const codec: Codec
    const tenant: string
    const writable: bool
    var table: Table

    ghost predicate Valid()
      reads this
    {
      ValidTable(table)
    }

    constructor (codec: Codec, tenant: string, writable: bool, table: Table)
      requires ValidTable(table)
      ensures Valid() && this.codec == codec && this.tenant == tenant && this.writable == writable
      ensures this.table == table
    {
      this.codec, this.tenant, this.writable, this.table := codec, tenant, writable, table;
    }

    method GetGeneral(readFails: bool) returns (r: Result<Settings, Failure>)
      requires Valid()
      ensures readFails ==> r == Err(Persistence)
      ensures !readFails ==> Reads(codec, table, tenant, r)
    {
      hide GeneralOf;
      if readFails { return Err(Persistence); }
      var rows := FindRows(table, tenant);
      if |rows| > 1 { return Err(Conflict); }
      if |rows| == 0 { return Ok(Settings("", "", "", "")); }
      OneActive(table, tenant, rows[0].id);
      var decoded := GeneralOf(codec, rows[0].metadata);
      return match decoded case Some(settings) => Ok(settings) case None => Err(LegacyMetadata);
    }

    /** One transaction; any error puts the table back. */
    method PutGeneral(settings: Settings, newId: string, now: int, faults: Faults)
      returns (r: Result<Settings, Failure>)
      requires Valid()
      modifies this
      ensures Valid()
      ensures r.Err? ==> table == old(table)
      ensures r.Ok? ==> r.value == settings && Commits(codec, old(table), table, tenant, settings, newId, now)
      ensures Lawful(codec) ==> (r.Ok? <==> CanCommit(codec, old(table), tenant, writable, settings, newId, faults))
      ensures !writable ==> r == Err(MutationDisabled)
      ensures Lawful(codec) && r.Err? ==>
                Refuses(codec, old(table), tenant, writable, settings, newId, faults, r.error)
    {
      hide GeneralOf, Decoded, Encodes, Merges, Representable, Lawful, Found, Reads;
      if !writable { return Err(MutationDisabled); }
      ghost var before := table;
      var saved := table;
      if faults.lock || faults.firstRead { return Err(Persistence); }
      var active := FindRows(table, tenant);
      FoundCount(table, tenant, active);
      if |active| > 1 { return Err(Conflict); }
      var metadata: Option<Text>;
      if |active| == 1 {
        metadata := MergeGeneral(codec, active[0].metadata, settings);
        WriteOutcome(codec, active[0].metadata, settings, metadata);
        if metadata.None? { return Err(LegacyMetadata); }
        if faults.write { return Err(Persistence); }
        table := table[active[0].id := active[0].(metadata := metadata.value, updated := now)];
        ActiveStays(saved, tenant, active[0].id, table[active[0].id]);
      } else {
        metadata := MergeGeneral(codec, "", settings);
        EmptyDecodes(codec);
        WriteOutcome(codec, "", settings, metadata);
        if metadata.None? { return Err(LegacyMetadata); }
        if faults.newId { return Err(Persistence); }
        if faults.write || newId in table { return Err(Persistence); }
        table := table[newId := Row(newId, now, now, false, tenant, CONFIG_NAME, metadata.value)];
        ActiveGains(saved, tenant, newId, table[newId]);
      }
      var failure, persisted := None, None;
      if faults.secondRead {
        failure := Some(Persistence);
      } else {
        var confirmed := FindRows(table, tenant);
        FoundCount(table, tenant, confirmed);
        if |confirmed| != 1 {
          failure := Some(Conflict);
        } else {
          persisted := GeneralOf(codec, confirmed[0].metadata);
          if persisted.None? {
            failure := Some(LegacyMetadata);
          } else if persisted.value != settings || faults.commit {
            failure := Some(Persistence);
          }
        }
      }
      if failure.Some? {
        table := saved;
        return Err(failure.value);
      }
      return Ok(persisted.value);
    }
  }

  lemma FoundCount(table: Table, tenant: string, rows: seq<Row>)
    requires Found(table, tenant, rows)
    ensures (|rows| == 0 <==> |Active(table, tenant)| == 0) && (|rows| > 1 <==> |Active(table, tenant)| > 1)
    ensures |rows| == 1 ==> rows[0].id in table && Active(table, tenant) == {rows[0].id} && table[rows[0].id] == rows[0]
  {
    if |rows| == 1 { OneActive(table, tenant, rows[0].id); }
  }

  lemma ActiveStays(table: Table, tenant: string, id: string, row: Row)
    requires Active(table, tenant) == {id} && IsActive(row, tenant)
    ensures Active(table[id := row], tenant) == {id}
  {
  }

  lemma ActiveGains(table: Table, tenant: string, id: string, row: Row)
    requires |Active(table, tenant)| == 0 && id !in table && IsActive(row, tenant)
    ensures Active(table[id := row], tenant) == {id}
  {
    assert Active(table, tenant) == {};
  }

  lemma EmptyDecodes(codec: Codec)
    ensures Decoded(codec, "") == Some(map[])
  {
  }

  /** What a merge yields, and when the result reads back as the new settings. */
  lemma WriteOutcome(codec: Codec, before: Text, settings: Settings, metadata: Option<Text>)
    requires Decoded(codec, before).None? ==> metadata.None?
    requires Decoded(codec, before).Some? ==>
               exists merged :: Merges(codec, Decoded(codec, before).value, settings, merged)
                   && Encodes(codec, merged, metadata)
    ensures metadata.Some? ==> MergedText(codec, before, settings, metadata.value)
    ensures Lawful(codec) ==> metadata.Some? == Decoded(codec, before).Some?
    ensures Lawful(codec) && metadata.Some? ==>
              (GeneralOf(codec, metadata.value) == Some(settings) <==> Representable(codec, settings))
  {
    hide GeneralOf, Decoded, Encodes, Merges, Representable, Lawful;
    if Decoded(codec, before).Some? && Lawful(codec) {
      var merged :| Merges(codec, Decoded(codec, before).value, settings, merged) && Encodes(codec, merged, metadata);
      MergeSetsOnlyReviewed(codec, before, settings, merged, metadata);
    }
  }

  // ----- any run of transactions -----

  /** One attempt to write, with everything outside the table chosen freely. */
  datatype Call = Call(settings: Settings, newId: string, now: int, committed: bool)

  /** A run: the tables between the calls, each call committing or leaving the table as it was. */
  ghost predicate Run(codec: Codec, tenant: string, tables: seq<Table>, calls: seq<Call>) {
    && |tables| == |calls| + 1
    && forall k :: 0 <= k < |calls| ==>
         if calls[k].committed then Commits(codec, tables[k], tables[k + 1], tenant, calls[k].settings, calls[k].newId,
                                            calls[k].now)
         else tables[k + 1] == tables[k]
  }

  lemma CommitKeepsOthers(
    codec: Codec, before: Table, after: Table, tenant: string, settings: Settings, newId: string, now: int)
    requires ValidTable(before) && Commits(codec, before, after, tenant, settings, newId, now)
    ensures ValidTable(after) && |Active(after, tenant)| == 1 && Reads(codec, after, tenant, Ok(settings))
    ensures forall id :: id in before && !IsActive(before[id], tenant) ==> id in after && after[id] == before[id]
    ensures forall id :: id in after && !IsActive(after[id], tenant) ==> id in before && before[id] == after[id]
  {
    hide MergedText, GeneralOf;
    var metadata: Text :|
      && GeneralOf(codec, metadata) == Some(settings)
      && (if |Active(before, tenant)| == 1 then
            exists id :: id in Active(before, tenant) && MergedText(codec, before[id].metadata, settings, metadata)
                         && after == before[id := before[id].(metadata := metadata, updated := now)]
          else
            && |Active(before, tenant)| == 0 && newId !in before && MergedText(codec, "", settings, metadata)
            && after == before[newId := Row(newId, now, now, false, tenant, "appConfig", metadata)]);
    if |Active(before, tenant)| == 1 {
      var id :| id in Active(before, tenant) && MergedText(codec, before[id].metadata, settings, metadata)
                && after == before[id := before[id].(metadata := metadata, updated := now)];
      OneActive(before, tenant, id);
      ActiveStays(before, tenant, id, after[id]);
    } else {
      ActiveGains(before, tenant, newId, after[newId]);
    }
  }

  /** The settings of the last committed call. */
  function LastCommitted(calls: seq<Call>): Option<Settings> {
    if calls == [] then None
    else if calls[|calls| - 1].committed then Some(calls[|calls| - 1].settings)
    else LastCommitted(calls[..|calls| - 1])
  }

  /** Over any run at most one row stays active; soft-deleted rows and those of other tenants and
      names never change; and a reader gets the last committed settings. */
  lemma {:induction false} EveryRunKeeps(codec: Codec, tenant: string, tables: seq<Table>, calls: seq<Call>)
    requires Run(codec, tenant, tables, calls) && ValidTable(tables[0]) && |Active(tables[0], tenant)| <= 1
    ensures var first, last := tables[0], tables[|calls|];
            && ValidTable(last) && |Active(last, tenant)| <= 1
            && (forall id :: id in first && !IsActive(first[id], tenant) ==> id in last && last[id] == first[id])
            && (forall id :: id in last && !IsActive(last[id], tenant) ==> id in first && first[id] == last[id])
            && (LastCommitted(calls).Some? ==> Reads(codec, last, tenant, Ok(LastCommitted(calls).value)))
            && (LastCommitted(calls).None? ==> last == first)
  {
    hide Commits, Reads, Active;
    if calls != [] {
      var n := |calls| - 1;
      EveryRunKeeps(codec, tenant, tables[..n + 1], calls[..n]);
      if calls[n].committed {
        CommitKeepsOthers(codec, tables[n], tables[n + 1], tenant, calls[n].settings, calls[n].newId, calls[n].now);
      }
    }
  }
}
