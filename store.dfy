/** What running a generated batch does to the tables of schema `wf_base`,
    seen as lists of rows. Each guarded insert adds its row unless the table
    already holds a row whose UniqueName equals the guard's key; in SQL a
    comparison with NULL is never true, so a NULL key never finds its row.
    Two literals are taken to denote the same value when their texts are
    equal, which for quoted strings is exact (`SqlLiteral.QuoteInjective`). */
module Store {
  import opened Collections
  import opened Json
  import opened SqlLiteral
  import opened Load

  /** A stored row: the column names of its insert and the literals under
      them. */
  datatype Row = Row(columns: seq<string>, values: seq<string>)

  type Database = map<string, seq<Row>>

  function Rows(db: Database, table: string): seq<Row>
  {
    if table in db then db[table] else []
  }

  /** The literal under `column`, the first one if it is listed twice. */
  function Lookup(columns: seq<string>, values: seq<string>, column: string): Option<string>
  {
    if columns == [] || values == [] then None
    else if columns[0] == column then Some(values[0])
    else Lookup(columns[1..], values[1..], column)
  }

  function KeyOf(r: Row): Option<string>
  {
    Lookup(r.columns, r.values, "UniqueName")
  }

  /** `EXISTS (SELECT 1 FROM [wf_base].[table] WHERE UniqueName = key)`. */
  predicate Exists(db: Database, table: string, key: string)
  {
    key != "NULL" && exists i :: 0 <= i < |Rows(db, table)| && KeyOf(Rows(db, table)[i]) == Some(key)
  }

  function Execute(db: Database, s: Statement): Database
  {
    match s
    case Guarded(ins) =>
      if Exists(db, ins.table, ins.key) then db
      else db[ins.table := Rows(db, ins.table) + [Row(ins.columns, ins.values)]]
    case _ => db
  }

  function ExecuteAll(db: Database, batch: seq<Statement>): Database
    decreases |batch|
  {
    if batch == [] then db else ExecuteAll(Execute(db, batch[0]), batch[1..])
  }

  /** The guard looks for the very value the insert writes under UniqueName. */
  predicate WellFormed(ins: Insert)
  {
    Lookup(ins.columns, ins.values, "UniqueName") == Some(ins.key)
  }

  /** ... and that value is not NULL, so the guard can find the row. */
  predicate Keyed(ins: Insert)
  {
    WellFormed(ins) && ins.key != "NULL"
  }

  predicate KeyedBatch(batch: seq<Statement>)
  {
    forall i :: 0 <= i < |batch| && batch[i].Guarded? ==> Keyed(batch[i].insert)
  }

  predicate WellFormedBatch(batch: seq<Statement>)
  {
    forall i :: 0 <= i < |batch| && batch[i].Guarded? ==> WellFormed(batch[i].insert)
  }

  /** No two rows of a table share a non-NULL UniqueName. */
  predicate UniqueKeys(db: Database)
  {
    forall t, i, j :: t in db && 0 <= i < j < |db[t]| && KeyOf(db[t][i]).Some? && KeyOf(db[t][i]) != Some("NULL")
      ==> KeyOf(db[t][i]) != KeyOf(db[t][j])
  }

  /** A statement only ever appends: every row stays where it was. */
  lemma ExecuteGrows(db: Database, s: Statement, table: string)
    ensures var before, after := Rows(db, table), Rows(Execute(db, s), table);
      |before| <= |after| && after[..|before|] == before
  {
  }

  lemma {:induction false} ExecuteAllGrows(db: Database, batch: seq<Statement>, table: string)
    ensures var before, after := Rows(db, table), Rows(ExecuteAll(db, batch), table);
      |before| <= |after| && after[..|before|] == before
    decreases |batch|
  {
    if batch != [] {
      ExecuteGrows(db, batch[0], table);
      ExecuteAllGrows(Execute(db, batch[0]), batch[1..], table);
      var mid := Rows(Execute(db, batch[0]), table);
      var after := Rows(ExecuteAll(db, batch), table);
      assert after[..|Rows(db, table)|] == mid[..|Rows(db, table)|];
    }
  }

  /** Once a key is present it stays present. */
  lemma ExecuteAllKeeps(db: Database, batch: seq<Statement>, table: string, key: string)
    requires Exists(db, table, key)
    ensures Exists(ExecuteAll(db, batch), table, key)
  {
    ExecuteAllGrows(db, batch, table);
    var i :| 0 <= i < |Rows(db, table)| && KeyOf(Rows(db, table)[i]) == Some(key);
    var after := Rows(ExecuteAll(db, batch), table);
    assert after[i] == after[..|Rows(db, table)|][i];
  }

  /** After a keyed insert runs, its key is present, whether it added the row
      or found one already there. */
  lemma ExecuteEstablishes(db: Database, ins: Insert)
    requires Keyed(ins)
    ensures Exists(Execute(db, Guarded(ins)), ins.table, ins.key)
  {
    if !Exists(db, ins.table, ins.key) {
      var after := Rows(Execute(db, Guarded(ins)), ins.table);
      assert KeyOf(after[|after| - 1]) == Some(ins.key);
    }
  }

  /** After a keyed batch runs, the key of every one of its inserts is
      present. */
  lemma {:induction false} BatchEstablishes(db: Database, batch: seq<Statement>)
    requires KeyedBatch(batch)
    ensures forall i :: 0 <= i < |batch| && batch[i].Guarded? ==>
      Exists(ExecuteAll(db, batch), batch[i].insert.table, batch[i].insert.key)
    decreases |batch|
  {
    if batch != [] {
      var next := Execute(db, batch[0]);
      assert KeyedBatch(batch[1..]) by {
        forall i | 0 <= i < |batch[1..]| && batch[1..][i].Guarded?
          ensures Keyed(batch[1..][i].insert)
        {
          assert batch[1..][i] == batch[i + 1];
        }
      }
      BatchEstablishes(next, batch[1..]);
      forall i | 0 <= i < |batch| && batch[i].Guarded?
        ensures Exists(ExecuteAll(db, batch), batch[i].insert.table, batch[i].insert.key)
      {
        if i == 0 {
          ExecuteEstablishes(db, batch[0].insert);
          ExecuteAllKeeps(next, batch[1..], batch[0].insert.table, batch[0].insert.key);
        } else {
          assert batch[1..][i - 1] == batch[i];
        }
      }
    }
  }

  /** A batch all of whose keys are already present changes nothing. */
  lemma {:induction false} BatchNoop(db: Database, batch: seq<Statement>)
    requires forall i :: 0 <= i < |batch| && batch[i].Guarded? ==>
      Exists(db, batch[i].insert.table, batch[i].insert.key)
    ensures ExecuteAll(db, batch) == db
  {
    if batch != [] {
      assert Execute(db, batch[0]) == db;
      forall i | 0 <= i < |batch[1..]| && batch[1..][i].Guarded?
        ensures Exists(db, batch[1..][i].insert.table, batch[1..][i].insert.key)
      {
        assert batch[1..][i] == batch[i + 1];
      }
      BatchNoop(db, batch[1..]);
    }
  }

  /** The guarded inserts make a keyed batch idempotent: running it a second
      time leaves the tables as the first run left them. */
  lemma BatchIdempotent(db: Database, batch: seq<Statement>)
    requires KeyedBatch(batch)
    ensures ExecuteAll(ExecuteAll(db, batch), batch) == ExecuteAll(db, batch)
  {
    BatchEstablishes(db, batch);
    BatchNoop(ExecuteAll(db, batch), batch);
  }

  /** A record without a UniqueName defeats the guard: its insert adds a row
      on every run, so running it twice stores two rows. */
  lemma NullKeyDuplicates(db: Database, ins: Insert)
    requires ins.key == "NULL"
    ensures var once := ExecuteAll(db, [Guarded(ins)]);
      && |Rows(once, ins.table)| == |Rows(db, ins.table)| + 1
      && |Rows(ExecuteAll(once, [Guarded(ins)]), ins.table)| == |Rows(db, ins.table)| + 2
      && ExecuteAll(once, [Guarded(ins)]) != once
  {
    var once := ExecuteAll(db, [Guarded(ins)]);
    assert once == Execute(db, Guarded(ins));
    assert ExecuteAll(once, [Guarded(ins)]) == Execute(once, Guarded(ins));
  }

  /** A well-formed insert keeps UniqueName unique among the non-NULL keys of
      every table. */
  lemma ExecuteKeepsUnique(db: Database, s: Statement)
    requires UniqueKeys(db)
    requires s.Guarded? ==> WellFormed(s.insert)
    ensures UniqueKeys(Execute(db, s))
  {
    if s.Guarded? && !Exists(db, s.insert.table, s.insert.key) {
      var ins, after := s.insert, Execute(db, s);
      var t := ins.table;
      forall u, i, j | u in after && 0 <= i < j < |after[u]| && KeyOf(after[u][i]).Some? && KeyOf(after[u][i]) != Some("NULL")
        ensures KeyOf(after[u][i]) != KeyOf(after[u][j])
      {
        if u == t && j == |after[u]| - 1 {
          assert after[u][i] == Rows(db, t)[i];
        }
      }
    }
  }

  lemma {:induction false} BatchKeepsUnique(db: Database, batch: seq<Statement>)
    requires UniqueKeys(db) && WellFormedBatch(batch)
    ensures UniqueKeys(ExecuteAll(db, batch))
    decreases |batch|
  {
    if batch != [] {
      ExecuteKeepsUnique(db, batch[0]);
      assert WellFormedBatch(batch[1..]) by {
        forall i | 0 <= i < |batch[1..]| && batch[1..][i].Guarded?
          ensures WellFormed(batch[1..][i].insert)
        {
          assert batch[1..][i] == batch[i + 1];
        }
      }
      BatchKeepsUnique(Execute(db, batch[0]), batch[1..]);
    }
  }

  /** A record whose UniqueName is present and not null; the empty string
      counts, since it is written `''`, which the guard can find. */
  predicate HasKey(row: Item)
  {
    !Get(row, "UniqueName").Null?
  }

  lemma InsertForKeyed(table: string, columns: seq<string>, row: Item, pyStr: PyStr)
    requires |columns| > 0 && columns[0] == "UniqueName"
    ensures WellFormed(InsertFor(table, columns, row, pyStr))
    ensures NeverNull(pyStr) ==> (Keyed(InsertFor(table, columns, row, pyStr)) <==> HasKey(row))
  {
  }

  /** Every insert of a generated batch is well formed: its guard looks for
      the value it writes under UniqueName. So running a batch never stores
      two rows with the same non-NULL UniqueName in one table. */
  lemma LoadBatchWellFormed(warframes: seq<Item>, weapons: seq<Item>, mods: seq<Item>, arcanes: seq<Item>, pyStr: PyStr)
    ensures WellFormedBatch(LoadBatch(warframes, weapons, mods, arcanes, pyStr))
  {
    var b := LoadBatch(warframes, weapons, mods, arcanes, pyStr);
    forall i | 0 <= i < |b| && b[i].Guarded?
      ensures WellFormed(b[i].insert)
    {
      BatchEntry(warframes, weapons, mods, arcanes, pyStr, i);
    }
  }

  lemma LoadBatchKeepsUnique(db: Database, warframes: seq<Item>, weapons: seq<Item>, mods: seq<Item>, arcanes: seq<Item>, pyStr: PyStr)
    requires UniqueKeys(db)
    ensures UniqueKeys(ExecuteAll(db, LoadBatch(warframes, weapons, mods, arcanes, pyStr)))
  {
    LoadBatchWellFormed(warframes, weapons, mods, arcanes, pyStr);
    BatchKeepsUnique(db, LoadBatch(warframes, weapons, mods, arcanes, pyStr));
  }

  /** When every record carries a non-null UniqueName, the generated batch
      is keyed, so loading it twice leaves the tables as loading it once. */
  lemma LoadBatchIdempotent(db: Database, warframes: seq<Item>, weapons: seq<Item>, mods: seq<Item>, arcanes: seq<Item>, pyStr: PyStr)
    requires NeverNull(pyStr)
    requires forall k :: 0 <= k < |warframes| ==> HasKey(warframes[k])
    requires forall k :: 0 <= k < |weapons| ==> HasKey(weapons[k])
    requires forall k :: 0 <= k < |mods| ==> HasKey(mods[k])
    requires forall k :: 0 <= k < |arcanes| ==> HasKey(arcanes[k])
    ensures var b := LoadBatch(warframes, weapons, mods, arcanes, pyStr);
      KeyedBatch(b) && ExecuteAll(ExecuteAll(db, b), b) == ExecuteAll(db, b)
  {
    var b := LoadBatch(warframes, weapons, mods, arcanes, pyStr);
    forall i | 0 <= i < |b| && b[i].Guarded?
      ensures Keyed(b[i].insert)
    {
      BatchEntryKeyed(warframes, weapons, mods, arcanes, pyStr, i);
    }
    BatchIdempotent(db, b);
  }

  /** An entry inside the section a generator emitted is that generator's
      insert for the matching record. */
  lemma SectionEntry(b: seq<Statement>, lo: nat, table: string, columns: seq<string>, data: seq<Item>,
                     pyStr: PyStr, i: nat)
    requires lo <= i < lo + |data| <= |b|
    requires b[lo..lo + |data|] == Inserts(table, columns, data, pyStr)
    ensures b[i] == Guarded(InsertFor(table, columns, data[i - lo], pyStr))
  {
    assert b[i] == b[lo..lo + |data|][i - lo];
  }

  /** Every guarded insert of a batch comes from a record of one of the four
      lists, rendered for its table with UniqueName first, so it is well
      formed ... */
  lemma BatchEntry(warframes: seq<Item>, weapons: seq<Item>, mods: seq<Item>, arcanes: seq<Item>, pyStr: PyStr, i: nat)
    requires i < |LoadBatch(warframes, weapons, mods, arcanes, pyStr)|
    requires LoadBatch(warframes, weapons, mods, arcanes, pyStr)[i].Guarded?
    ensures WellFormed(LoadBatch(warframes, weapons, mods, arcanes, pyStr)[i].insert)
  {
    var b := LoadBatch(warframes, weapons, mods, arcanes, pyStr);
    BatchFraming(warframes, weapons, mods, arcanes, pyStr);
    ColumnCounts();
    var w, p, m := 2 + |warframes|, 2 + |warframes| + |weapons|, 2 + |warframes| + |weapons| + |mods|;
    if 2 <= i < w {
      SectionEntry(b, 2, "Warframes", WarframeColumns, warframes, pyStr, i);
      InsertForKeyed("Warframes", WarframeColumns, warframes[i - 2], pyStr);
    } else if w <= i < p {
      SectionEntry(b, w, "Weapons", WeaponColumns, weapons, pyStr, i);
      InsertForKeyed("Weapons", WeaponColumns, weapons[i - w], pyStr);
    } else if p <= i < m {
      SectionEntry(b, p, "Mods", ModColumns, mods, pyStr, i);
      InsertForKeyed("Mods", ModColumns, mods[i - p], pyStr);
    } else if m <= i < |b| - 2 {
      SectionEntry(b, m, "Arcanes", ArcaneColumns, arcanes, pyStr, i);
      InsertForKeyed("Arcanes", ArcaneColumns, arcanes[i - m], pyStr);
    }
  }

  /** ... and keyed when its record carries a non-null UniqueName. */
  lemma BatchEntryKeyed(warframes: seq<Item>, weapons: seq<Item>, mods: seq<Item>, arcanes: seq<Item>, pyStr: PyStr, i: nat)
    requires NeverNull(pyStr)
    requires i < |LoadBatch(warframes, weapons, mods, arcanes, pyStr)|
    requires LoadBatch(warframes, weapons, mods, arcanes, pyStr)[i].Guarded?
    ensures var ins := LoadBatch(warframes, weapons, mods, arcanes, pyStr)[i].insert;
      && (2 <= i < 2 + |warframes| && HasKey(warframes[i - 2]) ==> Keyed(ins))
      && (var o := 2 + |warframes|; o <= i < o + |weapons| && HasKey(weapons[i - o]) ==> Keyed(ins))
      && (var o := 2 + |warframes| + |weapons|; o <= i < o + |mods| && HasKey(mods[i - o]) ==> Keyed(ins))
      && (var o := 2 + |warframes| + |weapons| + |mods|; o <= i < o + |arcanes| && HasKey(arcanes[i - o]) ==> Keyed(ins))
  {
    var b := LoadBatch(warframes, weapons, mods, arcanes, pyStr);
    BatchFraming(warframes, weapons, mods, arcanes, pyStr);
    ColumnCounts();
    var w, p, m := 2 + |warframes|, 2 + |warframes| + |weapons|, 2 + |warframes| + |weapons| + |mods|;
    if 2 <= i < w {
      SectionEntry(b, 2, "Warframes", WarframeColumns, warframes, pyStr, i);
      InsertForKeyed("Warframes", WarframeColumns, warframes[i - 2], pyStr);
    } else if w <= i < p {
      SectionEntry(b, w, "Weapons", WeaponColumns, weapons, pyStr, i);
      InsertForKeyed("Weapons", WeaponColumns, weapons[i - w], pyStr);
    } else if p <= i < m {
      SectionEntry(b, p, "Mods", ModColumns, mods, pyStr, i);
      InsertForKeyed("Mods", ModColumns, mods[i - p], pyStr);
    } else if m <= i < |b| - 2 {
      SectionEntry(b, m, "Arcanes", ArcaneColumns, arcanes, pyStr, i);
      InsertForKeyed("Arcanes", ArcaneColumns, arcanes[i - m], pyStr);
    }
  }
}
