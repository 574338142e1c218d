/** The import of transaction log entries from a file (controller/src/command.rs:28-81). The log stores an entry under its
    account and its id (impls/src/backends/lmdb.rs:804-820). */
module ImportTx {
  import opened Wrappers

  type Account = nat
  type SlateId = nat

  datatype Entry = Entry(account: Account, id: nat, slateId: Option<SlateId>, rest: string) {
    function Key(): (Account, nat) {
      (account, id)
    }
  }

  type Log = map<(Account, nat), Entry>

  predicate Keyed(log: Log) {
    forall k :: k in log ==> log[k].Key() == k
  }

  predicate HasId(log: Log, id: nat) {
    exists k :: k in log && log[k].id == id
  }

  predicate HasSlate(log: Log, slateId: Option<SlateId>) {
    slateId.Some? && exists k :: k in log && log[k].slateId == slateId
  }

  /** Whether the import leaves an entry of the file out: its id or its slate is in the log already. */
  predicate Skipped(log: Log, t: Entry) {
    HasId(log, t.id) || HasSlate(log, t.slateId)
  }

  /** The entries of the file that are saved. They are compared with the log as it was before, not with one another. */
  function Fresh(log: Log, file: seq<Entry>): seq<Entry> {
    if file == [] then []
    else
      var before, t := Fresh(log, file[..|file| - 1]), file[|file| - 1];
      if Skipped(log, t) then before else before + [t]
  }

  function Saved(log: Log, entries: seq<Entry>): Log {
    if entries == [] then log
    else
      var t := entries[|entries| - 1];
      Saved(log, entries[..|entries| - 1])[t.Key() := t]
  }

  function Imported(log: Log, file: seq<Entry>): Log {
    Saved(log, Fresh(log, file))
  }

  class TxLog {
    var entries: Log

    constructor ()
      ensures entries == map[]
    {
      entries := map[];
    }

    method ExistingIds() returns (ids: set<nat>, slateIds: set<SlateId>)
      ensures forall id :: id in ids <==> HasId(entries, id)
      ensures forall s :: s in slateIds <==> HasSlate(entries, Some(s))
    {
      ids, slateIds := {}, {};
      var left := entries.Keys;
      while left != {}
        invariant left <= entries.Keys
        invariant forall id :: id in ids <==> exists k :: k in entries && k !in left && entries[k].id == id
        invariant forall s :: s in slateIds <==> exists k :: k in entries && k !in left && entries[k].slateId == Some(s)
      {
        var k :| k in left;
        ids := ids + {entries[k].id};
        if entries[k].slateId.Some? {
          slateIds := slateIds + {entries[k].slateId.value};
        }
        left := left - {k};
      }
    }

    /** `saves` and `commits` say which writes to the database succeed. None: the import failed. */
    method Import(file: seq<Entry>, saves: Entry -> bool, commits: bool) returns (imported: Option<nat>)
      modifies this
      ensures imported.Some? <==> commits && forall t :: t in Fresh(old(entries), file) ==> saves(t)
      ensures imported.Some? ==> entries == Imported(old(entries), file) && imported.value == |Fresh(old(entries), file)|
      ensures imported.None? ==> entries == old(entries)
    {
      var existingIds, existingSlateIds := ExistingIds();
      var count, batch := 0, entries;
      for i := 0 to |file|
        invariant batch == Saved(entries, Fresh(entries, file[..i]))
        invariant count == |Fresh(entries, file[..i])|
        invariant forall t :: t in Fresh(entries, file[..i]) ==> saves(t)
        invariant entries == old(entries)
      {
        var t := file[i];
        assert file[..i + 1][..i] == file[..i];
        if !(t.id in existingIds || (t.slateId.Some? && t.slateId.value in existingSlateIds)) {
          if !saves(t) {
            FreshGoesOn(entries, file, i);
            return None;
          }
          batch := batch[t.Key() := t];
          count := count + 1;
          assert Fresh(entries, file[..i + 1])[..count - 1] == Fresh(entries, file[..i]);
        }
      }
      assert file[..|file|] == file;
      if !commits {
        return None;
      }
      entries := batch;
      imported := Some(count);
    }
  }

  lemma {:induction false} FreshGoesOn(log: Log, file: seq<Entry>, i: nat)
    requires i < |file| && !Skipped(log, file[i])
    ensures file[i] in Fresh(log, file)
  {
    if i < |file| - 1 {
      FreshGoesOn(log, file[..|file| - 1], i);
    }
  }

  lemma {:induction false} FreshIs(log: Log, file: seq<Entry>)
    ensures forall t :: t in Fresh(log, file) <==> t in file && !Skipped(log, t)
    ensures (forall t :: t in file ==> Skipped(log, t)) ==> Fresh(log, file) == []
  {
    if file != [] {
      var init, last := file[..|file| - 1], file[|file| - 1];
      FreshIs(log, init);
      assert file == init + [last];
      assert forall t :: t in file <==> t in init || t == last;
    }
  }

  lemma {:induction false} SavedIs(log: Log, entries: seq<Entry>)
    requires Keyed(log)
    ensures Keyed(Saved(log, entries))
    ensures forall k :: k in Saved(log, entries) <==> k in log || exists t :: t in entries && t.Key() == k
    ensures forall k :: k in Saved(log, entries) ==>
      (k in log && Saved(log, entries)[k] == log[k] && forall t :: t in entries ==> t.Key() != k) || Saved(log, entries)[k] in entries
  {
    if entries != [] {
      var before, t := entries[..|entries| - 1], entries[|entries| - 1];
      SavedIs(log, before);
      assert entries == before + [t];
    }
  }

  // ---------- Properties ----------

  /** What a successful import saves: the entries of the file that share neither their id nor, if they have one, their slate
      with an entry of the log, each as often and in the order in which it stands in the file. */
  lemma {:induction false} SavedAreTheNew(log: Log, file: seq<Entry>) returns (at: seq<nat>)
    ensures |at| == |Fresh(log, file)| && forall n :: 0 <= n < |at| ==> at[n] < |file| && file[at[n]] == Fresh(log, file)[n]
    ensures forall m, n :: 0 <= m < n < |at| ==> at[m] < at[n]
    ensures forall i: nat :: i < |file| ==>
      (i in at <==> (forall k :: k in log ==> log[k].id != file[i].id)
                    && (file[i].slateId.Some? ==> forall k :: k in log ==> log[k].slateId != file[i].slateId))
  {
    at := [];
    if file != [] {
      var last := |file| - 1;
      at := SavedAreTheNew(log, file[..last]);
      if !Skipped(log, file[last]) {
        at := at + [last];
      }
    }
  }

  /** No entry that was there is changed or lost, and what is new comes from the file. */
  lemma NothingIsOverwritten(log: Log, file: seq<Entry>)
    requires Keyed(log)
    ensures Keyed(Imported(log, file))
    ensures forall k :: k in log ==> k in Imported(log, file) && Imported(log, file)[k] == log[k]
    ensures forall k :: k in Imported(log, file) && k !in log ==> Imported(log, file)[k] in file && !Skipped(log, Imported(log, file)[k])
  {
    SavedIs(log, Fresh(log, file));
    FreshIs(log, file);
  }

  /** Nothing of the file is forgotten: each entry is now in the log by its id, or its slate was there before. */
  lemma NothingIsForgotten(log: Log, file: seq<Entry>)
    requires Keyed(log)
    ensures forall t :: t in file ==> HasId(Imported(log, file), t.id) || HasSlate(log, t.slateId)
  {
    NothingIsOverwritten(log, file);
    SavedIs(log, Fresh(log, file));
    FreshIs(log, file);
    var after := Imported(log, file);
    forall t | t in file
      ensures HasId(after, t.id) || HasSlate(log, t.slateId)
    {
      if !Skipped(log, t) {
        assert t.Key() in after && after[t.Key()].id == t.id;
      } else if HasId(log, t.id) {
        var k :| k in log && log[k].id == t.id;
        assert after[k].id == t.id;
      }
    }
  }

  /** Importing the same file again does nothing, even if the file repeats ids. */
  lemma SecondImportIsNothing(log: Log, file: seq<Entry>)
    requires Keyed(log)
    ensures Fresh(Imported(log, file), file) == [] && Imported(Imported(log, file), file) == Imported(log, file)
  {
    var after := Imported(log, file);
    NothingIsOverwritten(log, file);
    NothingIsForgotten(log, file);
    FreshIs(after, file);
    forall t | t in file
      ensures Skipped(after, t)
    {
      if HasSlate(log, t.slateId) {
        var k :| k in log && log[k].slateId == t.slateId;
        assert after[k].slateId == t.slateId;
      }
    }
  }

  ghost predicate UniqueIds(log: Log) {
    forall j, k :: j in log && k in log && log[j].id == log[k].id ==> j == k
  }

  ghost predicate UniqueSlates(log: Log) {
    forall j, k :: j in log && k in log && log[j].slateId.Some? && log[j].slateId == log[k].slateId ==> j == k
  }

  /** The log's ids stay unique, exactly if entries of the file that are saved and share an id share the account too: the
      file's entries are not checked against one another. */
  lemma IdsStayUniqueIff(log: Log, file: seq<Entry>)
    requires Keyed(log) && UniqueIds(log)
    ensures UniqueIds(Imported(log, file)) <==>
            forall t, u :: t in file && u in file && !Skipped(log, t) && !Skipped(log, u) && t.id == u.id ==> t.account == u.account
  {
    var after := Imported(log, file);
    NothingIsOverwritten(log, file);
    SavedIs(log, Fresh(log, file));
    FreshIs(log, file);
    if UniqueIds(after) {
      forall t, u | t in file && u in file && !Skipped(log, t) && !Skipped(log, u) && t.id == u.id
        ensures t.account == u.account
      {
        assert t in Fresh(log, file) && u in Fresh(log, file);
        assert t.Key() in after && u.Key() in after;
      }
    }
    if forall t, u :: t in file && u in file && !Skipped(log, t) && !Skipped(log, u) && t.id == u.id ==> t.account == u.account {
      forall j, k | j in after && k in after && after[j].id == after[k].id
        ensures j == k
      {
        assert j in log ==> HasId(log, after[k].id);
        assert k in log ==> HasId(log, after[j].id);
      }
    }
  }

  /** Entry `i` of the file is saved, and no later entry that is saved replaces it under the same key. */
  predicate Survives(log: Log, file: seq<Entry>, i: nat)
    requires i < |file|
  {
    !Skipped(log, file[i]) && forall j :: i < j < |file| && file[j].Key() == file[i].Key() ==> Skipped(log, file[j])
  }

  lemma ImportedOneMore(log: Log, file: seq<Entry>)
    requires file != []
    ensures var (before, t) := (Imported(log, file[..|file| - 1]), file[|file| - 1]);
            Imported(log, file) == if Skipped(log, t) then before else before[t.Key() := t]
  {
    var kept, t := Fresh(log, file[..|file| - 1]), file[|file| - 1];
    assert (kept + [t])[..|kept|] == kept;
  }

  lemma {:induction false} SurvivorIsImported(log: Log, file: seq<Entry>, i: nat)
    requires i < |file| && Survives(log, file, i)
    ensures file[i].Key() in Imported(log, file) && Imported(log, file)[file[i].Key()] == file[i]
  {
    ImportedOneMore(log, file);
    if i < |file| - 1 {
      SurvivorIsImported(log, file[..|file| - 1], i);
    }
  }

  lemma {:induction false} NewEntrySurvives(log: Log, file: seq<Entry>, k: (Account, nat)) returns (i: nat)
    requires k in Imported(log, file) && k !in log
    ensures i < |file| && Survives(log, file, i) && file[i].Key() == k && Imported(log, file)[k] == file[i]
  {
    assert file != [];
    ImportedOneMore(log, file);
    i := |file| - 1;
    if Skipped(log, file[i]) || file[i].Key() != k {
      i := NewEntrySurvives(log, file[..|file| - 1], k);
    }
  }

  /** Two entries of the file that both survive belong to one slate. */
  ghost predicate KeepsASlateTwice(log: Log, file: seq<Entry>) {
    exists i: nat, j: nat :: i < j < |file| && Survives(log, file, i) && Survives(log, file, j)
      && file[i].slateId.Some? && file[i].slateId == file[j].slateId
  }

  /** The log's slates stay unique, exactly if no two surviving entries of the file share one. */
  lemma SlatesStayUniqueIff(log: Log, file: seq<Entry>)
    requires Keyed(log) && UniqueSlates(log)
    ensures UniqueSlates(Imported(log, file)) <==> !KeepsASlateTwice(log, file)
  {
    if KeepsASlateTwice(log, file) {
      TwiceKeptIsTwiceThere(log, file);
    } else {
      var after := Imported(log, file);
      NothingIsOverwritten(log, file);
      forall j, k | j in after && k in after && after[j].slateId.Some? && after[j].slateId == after[k].slateId
        ensures j == k
      {
        OncePerSlate(log, file, j, k);
      }
    }
  }

  lemma TwiceKeptIsTwiceThere(log: Log, file: seq<Entry>)
    requires KeepsASlateTwice(log, file)
    ensures !UniqueSlates(Imported(log, file))
  {
    var i: nat, j: nat :| i < j < |file| && Survives(log, file, i) && Survives(log, file, j)
      && file[i].slateId.Some? && file[i].slateId == file[j].slateId;
    SurvivorIsImported(log, file, i);
    SurvivorIsImported(log, file, j);
    assert file[i].Key() != file[j].Key();
  }

  lemma OncePerSlate(log: Log, file: seq<Entry>, j: (Account, nat), k: (Account, nat))
    requires Keyed(log) && UniqueSlates(log) && !KeepsASlateTwice(log, file)
    requires j in Imported(log, file) && k in Imported(log, file)
    requires Imported(log, file)[j].slateId.Some? && Imported(log, file)[j].slateId == Imported(log, file)[k].slateId
    ensures j == k
  {
    var after := Imported(log, file);
    NothingIsOverwritten(log, file);
    assert j in log ==> HasSlate(log, after[k].slateId);
    assert k in log ==> HasSlate(log, after[j].slateId);
    if j !in log && k !in log {
      var a := NewEntrySurvives(log, file, j);
      var b := NewEntrySurvives(log, file, k);
    }
  }

  /** A file with one slate under two ids puts that slate into the log twice. */
  lemma RepeatedSlateIsImportedTwice(slateId: SlateId, rest: string)
    ensures var file := [Entry(0, 1, Some(slateId), rest), Entry(0, 2, Some(slateId), rest)];
            !UniqueSlates(Imported(map[], file)) && |Imported(map[], file)| == 2
  {
    var t, u := Entry(0, 1, Some(slateId), rest), Entry(0, 2, Some(slateId), rest);
    var empty: Log := map[];
    assert !Skipped(empty, t) && !Skipped(empty, u);
    assert [t, u][..1] == [t] && [t][..0] == [];
    assert Fresh(empty, [t]) == [t] && Fresh(empty, [t, u]) == [t, u];
    assert Saved(empty, [t]) == map[t.Key() := t];
    var after := Saved(empty, [t, u]);
    assert after == map[t.Key() := t, u.Key() := u];
    assert after.Keys == {t.Key(), u.Key()} && t.Key() != u.Key();
    assert after[t.Key()] == t && after[u.Key()] == u;
  }
}
