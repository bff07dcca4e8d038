/** The Load stage: turns the processed records of the four categories into
    one SQL batch of guarded inserts, framed by a transaction. Reading the
    processed files and writing the batch to disk are left to the caller;
    Python's `str()` of a float, list or dict is passed in as `pyStr`. */
module Load {
  import opened Collections
  import opened Json
  import opened SqlLiteral
  import opened Transform

  const WarframeColumns: seq<string> :=
    ["UniqueName", "Name", "Armor", "Health", "Shields", "Energy", "SprintSpeed", "RawJson"]

  const WeaponColumns: seq<string> :=
    ["UniqueName", "Name", "Type", "MasteryRank", "Impact", "Puncture", "Slash",
     "CritChance", "CritMultiplier", "StatusChance", "FireRate", "MagazineSize",
     "ReloadTime", "Multishot", "RawJson"]

  const ModColumns: seq<string> :=
    ["UniqueName", "Name", "ModType", "Polarity", "MaxRank", "RawJson"]

  const ArcaneColumns: seq<string> :=
    ["UniqueName", "Name", "ItemType", "MaxRank", "RawJson"]

  const Header := "-- Auto-generated by ETL/Scripts/load.py"
  const Farewell := "PRINT 'Data loaded successfully';"

  /** One idempotent insert: the target table of schema `wf_base`, the column
      list, the escaped values in column order and the escaped UniqueName the
      `IF NOT EXISTS` guard looks for. */
  datatype Insert = Insert(table: string, columns: seq<string>, values: seq<string>, key: string)

  /** One statement of the generated batch. */
  datatype Statement =
    | BeginTransaction
    | Note(text: string)
    | Guarded(insert: Insert)
    | CommitTransaction
    | PrintMessage(text: string)

  /** `escape_sql(item.get(column))`. */
  function ColumnValue(row: Item, pyStr: PyStr): string -> string
  {
    column => Escape(Get(row, column), pyStr)
  }

  /** The insert one loop iteration of a `generate_insert_*` builds for a
      record. */
  function InsertFor(table: string, columns: seq<string>, row: Item, pyStr: PyStr): Insert
  {
    Insert(table, columns, MapSeq(columns, ColumnValue(row, pyStr)), Escape(Get(row, "UniqueName"), pyStr))
  }

  /** The `IF NOT EXISTS` test that opens a guarded insert. */
  function GuardText(table: string, key: string): string
  {
    "\n        IF NOT EXISTS (SELECT 1 FROM [wf_base].[" + table + "] WHERE UniqueName = " + key + ")"
  }

  const EndText := "\n        END\n        "

  /** The f-string of the generators, whitespace included: the statement
      opens with the test for its own key in its own table and closes the
      block with `END`. */
  function InsertText(ins: Insert): (r: string)
    ensures |r| >= |GuardText(ins.table, ins.key)| + |EndText|
    ensures r[..|GuardText(ins.table, ins.key)|] == GuardText(ins.table, ins.key)
    ensures r[|r| - |EndText|..] == EndText
  {
    "\n        IF NOT EXISTS (SELECT 1 FROM [wf_base].[" + ins.table + "] WHERE UniqueName = " + ins.key + ")"
    + "\n        BEGIN"
    + "\n            INSERT INTO [wf_base].[" + ins.table + "] (" + Join(ins.columns, ", ") + ")"
    + "\n            VALUES (" + Join(ins.values, ", ") + ");"
    + "\n        END\n        "
  }

  function StatementText(s: Statement): string
  {
    match s
    case BeginTransaction => "BEGIN TRANSACTION;"
    case Note(text) => text
    case Guarded(ins) => InsertText(ins)
    case CommitTransaction => "COMMIT TRANSACTION;"
    case PrintMessage(text) => text
  }

  function Guard(table: string, columns: seq<string>, pyStr: PyStr): Item -> Statement
  {
    row => Guarded(InsertFor(table, columns, row, pyStr))
  }

  /** The statements one generator emits for a list of records. */
  function Inserts(table: string, columns: seq<string>, data: seq<Item>, pyStr: PyStr): seq<Statement>
  {
    MapSeq(data, Guard(table, columns, pyStr))
  }

  /** The loop shared by the four `generate_insert_*` functions: one statement
      per record, in record order. */
  method GenerateInserts(table: string, columns: seq<string>, data: seq<Item>, pyStr: PyStr)
    returns (statements: seq<string>)
    ensures |statements| == |data|
    ensures forall k :: 0 <= k < |data| ==>
      statements[k] == InsertText(InsertFor(table, columns, data[k], pyStr))
    ensures statements == MapSeq(Inserts(table, columns, data, pyStr), StatementText)
  {
    statements := [];
    for i := 0 to |data|
      invariant |statements| == i
      invariant forall k :: 0 <= k < i ==> statements[k] == InsertText(InsertFor(table, columns, data[k], pyStr))
    {
      var item := data[i];
      var vals := MapSeq(columns, ColumnValue(item, pyStr));
      var uniqueName := Escape(Get(item, "UniqueName"), pyStr);
      statements := statements + [InsertText(Insert(table, columns, vals, uniqueName))];
    }
  }

  method GenerateInsertWarframes(data: seq<Item>, pyStr: PyStr) returns (statements: seq<string>)
    ensures statements == MapSeq(Inserts("Warframes", WarframeColumns, data, pyStr), StatementText)
  {
    statements := GenerateInserts("Warframes", WarframeColumns, data, pyStr);
  }

  method GenerateInsertWeapons(data: seq<Item>, pyStr: PyStr) returns (statements: seq<string>)
    ensures statements == MapSeq(Inserts("Weapons", WeaponColumns, data, pyStr), StatementText)
  {
    statements := GenerateInserts("Weapons", WeaponColumns, data, pyStr);
  }

  method GenerateInsertMods(data: seq<Item>, pyStr: PyStr) returns (statements: seq<string>)
    ensures statements == MapSeq(Inserts("Mods", ModColumns, data, pyStr), StatementText)
  {
    statements := GenerateInserts("Mods", ModColumns, data, pyStr);
  }

  method GenerateInsertArcanes(data: seq<Item>, pyStr: PyStr) returns (statements: seq<string>)
    ensures statements == MapSeq(Inserts("Arcanes", ArcaneColumns, data, pyStr), StatementText)
  {
    statements := GenerateInserts("Arcanes", ArcaneColumns, data, pyStr);
  }

  /** The whole batch `run_load` assembles from the four processed lists. */
  function LoadBatch(warframes: seq<Item>, weapons: seq<Item>, mods: seq<Item>, arcanes: seq<Item>, pyStr: PyStr)
    : seq<Statement>
  {
    [BeginTransaction, Note(Header)]
    + Inserts("Warframes", WarframeColumns, warframes, pyStr)
    + Inserts("Weapons", WeaponColumns, weapons, pyStr)
    + Inserts("Mods", ModColumns, mods, pyStr)
    + Inserts("Arcanes", ArcaneColumns, arcanes, pyStr)
    + [CommitTransaction, PrintMessage(Farewell)]
  }

  /** `run_load` without its file I/O: the lines it joins and writes. */
  method RunLoad(warframes: seq<Item>, weapons: seq<Item>, mods: seq<Item>, arcanes: seq<Item>, pyStr: PyStr)
    returns (allStatements: seq<string>)
    ensures allStatements == MapSeq(LoadBatch(warframes, weapons, mods, arcanes, pyStr), StatementText)
  {
    allStatements := [];
    allStatements := allStatements + ["BEGIN TRANSACTION;"];
    allStatements := allStatements + [Header];
    var w := GenerateInsertWarframes(warframes, pyStr);
    allStatements := allStatements + w;
    var p := GenerateInsertWeapons(weapons, pyStr);
    allStatements := allStatements + p;
    var m := GenerateInsertMods(mods, pyStr);
    allStatements := allStatements + m;
    var a := GenerateInsertArcanes(arcanes, pyStr);
    allStatements := allStatements + a;
    allStatements := allStatements + ["COMMIT TRANSACTION;"];
    allStatements := allStatements + [Farewell];
    MapSeqConcat6([BeginTransaction, Note(Header)],
      Inserts("Warframes", WarframeColumns, warframes, pyStr),
      Inserts("Weapons", WeaponColumns, weapons, pyStr),
      Inserts("Mods", ModColumns, mods, pyStr),
      Inserts("Arcanes", ArcaneColumns, arcanes, pyStr),
      [CommitTransaction, PrintMessage(Farewell)], StatementText);
  }

  lemma MapSeqConcat6<A, B>(a: seq<A>, b: seq<A>, c: seq<A>, d: seq<A>, e: seq<A>, f: seq<A>, g: A -> B)
    ensures MapSeq(a + b + c + d + e + f, g)
         == MapSeq(a, g) + MapSeq(b, g) + MapSeq(c, g) + MapSeq(d, g) + MapSeq(e, g) + MapSeq(f, g)
  {
  }

  /** The value list of an insert has one entry per column: the escaped field
      of the record under that column name, `NULL` where the record lacks it;
      the guard's key is the first value whenever UniqueName is the first
      column, as it is for all four tables. */
  lemma InsertShape(table: string, columns: seq<string>, row: Item, pyStr: PyStr)
    ensures var ins := InsertFor(table, columns, row, pyStr);
      && ins.table == table && ins.columns == columns
      && |ins.values| == |columns|
      && (forall i :: 0 <= i < |columns| ==> ins.values[i] == Escape(Get(row, columns[i]), pyStr))
      && (forall i :: 0 <= i < |columns| && columns[i] !in row ==> ins.values[i] == "NULL")
      && ("UniqueName" !in row ==> ins.key == "NULL")
      && (|columns| > 0 && columns[0] == "UniqueName" ==> ins.values[0] == ins.key)
  {
  }

  lemma ColumnCounts()
    ensures |WarframeColumns| == 8 && |WeaponColumns| == 15 && |ModColumns| == 6 && |ArcaneColumns| == 5
    ensures WarframeColumns[0] == WeaponColumns[0] == ModColumns[0] == ArcaneColumns[0] == "UniqueName"
  {
  }

  /** The batch framing: BEGIN and the header comment first, then the
      guarded inserts of the warframes, weapons, mods and arcanes, each
      section exactly what its generator emits, then COMMIT and the closing
      message. An empty category adds nothing and leaves the framing in
      place. */
  lemma BatchFraming(warframes: seq<Item>, weapons: seq<Item>, mods: seq<Item>, arcanes: seq<Item>, pyStr: PyStr)
    ensures var b := LoadBatch(warframes, weapons, mods, arcanes, pyStr);
      var w, p, m := 2 + |warframes|, 2 + |warframes| + |weapons|, 2 + |warframes| + |weapons| + |mods|;
      && |b| == 4 + |warframes| + |weapons| + |mods| + |arcanes|
      && b[..2] == [BeginTransaction, Note(Header)]
      && b[2..w] == Inserts("Warframes", WarframeColumns, warframes, pyStr)
      && b[w..p] == Inserts("Weapons", WeaponColumns, weapons, pyStr)
      && b[p..m] == Inserts("Mods", ModColumns, mods, pyStr)
      && b[m..|b| - 2] == Inserts("Arcanes", ArcaneColumns, arcanes, pyStr)
      && b[|b| - 2..] == [CommitTransaction, PrintMessage(Farewell)]
  {
    Sections([BeginTransaction, Note(Header)], Inserts("Warframes", WarframeColumns, warframes, pyStr),
      Inserts("Weapons", WeaponColumns, weapons, pyStr), Inserts("Mods", ModColumns, mods, pyStr),
      Inserts("Arcanes", ArcaneColumns, arcanes, pyStr), [CommitTransaction, PrintMessage(Farewell)]);
  }

  /** Where each of six consecutive sections sits in their concatenation. */
  lemma Sections<T>(s0: seq<T>, s1: seq<T>, s2: seq<T>, s3: seq<T>, s4: seq<T>, s5: seq<T>)
    ensures var s := s0 + s1 + s2 + s3 + s4 + s5;
      var o1, o2, o3 := |s0|, |s0| + |s1|, |s0| + |s1| + |s2|;
      var o4, o5 := o3 + |s3|, o3 + |s3| + |s4|;
      && |s| == o5 + |s5|
      && s[..o1] == s0 && s[o1..o2] == s1 && s[o2..o3] == s2
      && s[o3..o4] == s3 && s[o4..o5] == s4 && s[o5..] == s5
  {
    var s := s0 + s1 + s2 + s3 + s4 + s5;
    assert s == s0 + (s1 + (s2 + (s3 + (s4 + s5))));
  }

  /** `escape_sql` as a function of the value alone. */
  function EscapeWith(pyStr: PyStr): Value -> string
  {
    v => Escape(v, pyStr)
  }

  /** The Transform and Load stages agree on the record shape: each
      generator's column list is the key list of the dict its transform
      builds, and no column is listed twice. */
  lemma KeysMatchColumns()
    ensures WarframeKeys == WarframeColumns && WeaponKeys == WeaponColumns
    ensures ModKeys == ModColumns && ArcaneKeys == ArcaneColumns
    ensures Distinct(WarframeColumns) && Distinct(WeaponColumns)
    ensures Distinct(ModColumns) && Distinct(ArcaneColumns)
  {
  }

  /** The insert generated for a dict display with distinct keys, listed in
      column order: its values are the displayed values escaped, in order,
      and its key is the escaped first value when that is UniqueName. */
  lemma {:induction false} RecordInsert(table: string, columns: seq<string>, values: seq<Value>, pyStr: PyStr)
    requires |columns| == |values| && Distinct(columns)
    ensures InsertFor(table, columns, Record(columns, values), pyStr).values == MapSeq(values, EscapeWith(pyStr))
    ensures |columns| > 0 && columns[0] == "UniqueName" ==>
      InsertFor(table, columns, Record(columns, values), pyStr).key == Escape(values[0], pyStr)
  {
    var row := Record(columns, values);
    forall i | 0 <= i < |columns|
      ensures Get(row, columns[i]) == values[i]
    {
      RecordAt(columns, values, i);
    }
  }

  /** So no value turns `NULL` for want of a key: a processed record holds
      exactly the columns its generator reads. */
  lemma WarframeRecordColumns(w: Warframe)
    ensures WarframeRow(w).Keys == set c | c in WarframeColumns
  {
    KeysMatchColumns();
    RecordKeys(WarframeKeys, WarframeFields(w));
  }

  lemma WeaponRecordColumns(w: Weapon)
    ensures WeaponRow(w).Keys == set c | c in WeaponColumns
  {
    KeysMatchColumns();
    RecordKeys(WeaponKeys, WeaponFields(w));
  }

  lemma ModRecordColumns(m: Mod)
    ensures ModRow(m).Keys == set c | c in ModColumns
  {
    KeysMatchColumns();
    RecordKeys(ModKeys, ModFields(m));
  }

  lemma ArcaneRecordColumns(a: Arcane)
    ensures ArcaneRow(a).Keys == set c | c in ArcaneColumns
  {
    KeysMatchColumns();
    RecordKeys(ArcaneKeys, ArcaneFields(a));
  }

  /** The values of a processed warframe's insert are its fields escaped in
      column order, the guard's key is its escaped UniqueName, and RawJson is
      a quoted literal that reads back to the serialised item. */
  lemma WarframeRecordLoads(w: Warframe, pyStr: PyStr)
    ensures var ins := InsertFor("Warframes", WarframeColumns, WarframeRow(w), pyStr);
      && ins.key == Escape(w.uniqueName, pyStr)
      && ins.values == MapSeq(WarframeFields(w), EscapeWith(pyStr))
      && ins.values[7] == Quote(w.rawJson) && Unquote(ins.values[7]) == Some(w.rawJson)
  {
    KeysMatchColumns();
    RecordInsert("Warframes", WarframeColumns, WarframeFields(w), pyStr);
    UnquoteQuote(w.rawJson);
  }

  /** The same for a weapon ... */
  lemma WeaponRecordLoads(w: Weapon, pyStr: PyStr)
    ensures var ins := InsertFor("Weapons", WeaponColumns, WeaponRow(w), pyStr);
      && ins.key == Escape(w.uniqueName, pyStr)
      && ins.values == MapSeq(WeaponFields(w), EscapeWith(pyStr))
      && ins.values[14] == Quote(w.rawJson) && Unquote(ins.values[14]) == Some(w.rawJson)
  {
    KeysMatchColumns();
    RecordInsert("Weapons", WeaponColumns, WeaponFields(w), pyStr);
    UnquoteQuote(w.rawJson);
  }

  /** ... whose damage figures are floats and so are written as `str()` of
      the float, unquoted. */
  lemma WeaponDamageLoads(w: Weapon, pyStr: PyStr)
    ensures var ins := InsertFor("Weapons", WeaponColumns, WeaponRow(w), pyStr);
      ins.values[4..7] == [pyStr(Number(w.impact)), pyStr(Number(w.puncture)), pyStr(Number(w.slash))]
  {
    WeaponRecordLoads(w, pyStr);
  }

  lemma ModRecordLoads(m: Mod, pyStr: PyStr)
    ensures var ins := InsertFor("Mods", ModColumns, ModRow(m), pyStr);
      && ins.key == Escape(m.uniqueName, pyStr)
      && ins.values == MapSeq(ModFields(m), EscapeWith(pyStr))
      && ins.values[5] == Quote(m.rawJson) && Unquote(ins.values[5]) == Some(m.rawJson)
  {
    KeysMatchColumns();
    RecordInsert("Mods", ModColumns, ModFields(m), pyStr);
    UnquoteQuote(m.rawJson);
  }

  /** MaxRank of an arcane is an integer and is written as its decimal text. */
  lemma ArcaneRecordLoads(a: Arcane, pyStr: PyStr)
    ensures var ins := InsertFor("Arcanes", ArcaneColumns, ArcaneRow(a), pyStr);
      && ins.key == Escape(a.uniqueName, pyStr)
      && ins.values == MapSeq(ArcaneFields(a), EscapeWith(pyStr))
      && ins.values[3] == IntText(a.maxRank)
      && ins.values[4] == Quote(a.rawJson) && Unquote(ins.values[4]) == Some(a.rawJson)
  {
    KeysMatchColumns();
    RecordInsert("Arcanes", ArcaneColumns, ArcaneFields(a), pyStr);
    UnquoteQuote(a.rawJson);
  }
}
