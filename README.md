# Warframe analytics platform: ETL pipeline and weapons query, modelled in Dafny

This project models the data path of the warframe-analytics-platform
repository and proves properties of it:

- **Extract** (`extract.dfy`, module `Extract`). `fetch_data` is a bounded
  retry loop over the public Warframe API, and `run_extraction` fetches four
  collections in order. The arcanes are picked out of the general item list.
  Each request is an abstract outcome, so the model has no network. A sleep
  between attempts is a counted event.
- **Transform** (`transform.dfy`, module `Transform`). The four
  `transform_*` loops keep the raw items of their category and map each one
  to a fixed-shape record. The damage extraction of weapons handles three
  source shapes. Arcanes derive their maximum rank from `levelStats`. Each
  loop is a method proved equal to a filter-then-map over the raw sequence.
- **Load** (`sql_literal.dfy`, `load.dfy`, `store.dfy`; modules
  `SqlLiteral`, `Load`, `Store`).
  - `escape_sql` renders values as literals of the generated SQL. A string
    becomes a character-string literal of ISO/IEC 9075-2, subclause 5.3, with
    each embedded quote doubled.
  - The four `generate_insert_*` functions emit one guarded
    `IF NOT EXISTS … INSERT` per record.
  - `run_load` frames the batch in a transaction.
  - `Store` gives the batch a meaning over an abstract key-to-rows database.
    With it, the batch is proved idempotent for records whose UniqueName is
    not null. An empty-string UniqueName counts: it is written `''` and the
    guard finds it.
- **Weapons query** (`weapons_query.dfy`, module `WeaponsQuery`).
  `read_weapons` of the HTTP API builds SQL text and bound parameters. The
  inputs are optional filters, a whitelisted sort key and fixed pagination.
- Shared vocabulary lives in `collections.dfy` (`Collections`) and
  `json.dfy` (`Json`). It covers Option/Result, order-preserving filter, map
  and map-until-error, loosely typed JSON values, `dict.get`, `float()`,
  `len()` and dict displays.

Where the repository's description and its code differ, the model follows
the code:

- `escape_sql` tests for `int`/`float` before `bool`. A Python bool is an
  int, so booleans are written `True`/`False`, never `1`/`0`, and the `1`/`0`
  branch cannot be reached (`SqlLiteral.Escape`, `SqlLiteral.EscapeCases`).
- No stage drops a record whose UniqueName is missing or null. It passes
  through Transform and yields a guard `WHERE UniqueName = NULL`. That guard
  never matches, so such a record is inserted again on every run
  (`Store.NullKeyDuplicates`). Idempotence is therefore proved only for
  records with a non-null UniqueName.
- A failed fetch does not abort the run with a failure status.
  `run_extraction` logs the exception and returns normally, and the files
  saved before the failure stay saved (`Extract.RunExtraction`).
- Damage figures are whatever `float()` makes of the source value. Nothing
  keeps them non-negative.

## Model

| member | source | states |
|---|---|---|
| Json.RecordAt | ETL/Scripts/transform.py:51-60 | In a dict display with distinct keys, each key maps to the value written beside it. |
| Json.RecordKeys | ETL/Scripts/transform.py:51-60 | A dict display holds exactly the keys it lists. |
| Transform.TransformWarframes | ETL/Scripts/transform.py:40-61 | The loop's `processed` list equals the selection of warframe items mapped through the warframe renames. |
| Transform.WarframesFromSource | ETL/Scripts/transform.py:43-60 | An item is kept iff its category is `Warframes` or its type is `Warframe`, and it has `health`. The k-th record comes from the k-th kept item, in source order, and no kept item is dropped. Fields are renamed (`shield`→Shields, `power`→Energy, `sprint`→SprintSpeed, …), with `None` for an absent key. RawJson is the serialisation of the whole item. |
| Transform.WeaponDamage | ETL/Scripts/transform.py:76-95 | The step-by-step reassignment of `damage_dict`, `impact`, `puncture` and `slash` yields `DamageOf(item)`, or the error `float()` raises. |
| Transform.TransformWeapons | ETL/Scripts/transform.py:63-114 | The loop returns the records of the weapon items in order, or the first error raised by `float()`. |
| Transform.WeaponsSucceedIff | ETL/Scripts/transform.py:92-95 | `transform_weapons` succeeds iff the damage figures of every weapon item convert with `float()`. |
| Transform.WeaponsFromSource | ETL/Scripts/transform.py:68-113 | An item is kept iff its category is Primary, Secondary or Melee, in source order. Type is that category and MasteryRank is `masteryReq`. Impact, Puncture and Slash come from the damage shape. The other fields are renamed, with `None` for an absent key. RawJson serialises the item. |
| Transform.WeaponsFirstError | ETL/Scripts/transform.py:92-95 | A failed transform fails on the first weapon item whose damage does not convert, with that item's error. |
| Transform.DamageShapes | ETL/Scripts/transform.py:85-95 | With `damage` absent, all three figures are 0.0 whatever `damagePerShot` holds. A dict under `damage` is used as the damage dict. `damagePerShot` is read only when `damage` is present and not a dict. When neither is a dict, all three are 0.0. |
| Transform.DamagePerShotIgnored | ETL/Scripts/transform.py:85-88 | When `damage` is a dict, changing or removing `damagePerShot` changes nothing. |
| Transform.DamageFromDict | ETL/Scripts/transform.py:92-95 | From a damage dict, each figure is `float()` of its key's value, or 0.0 when the key is missing. Extraction succeeds iff every present key converts. |
| Transform.TransformMods | ETL/Scripts/transform.py:116-131 | The loop's `processed` list equals the selection of `Mods` items mapped through the mod renames. |
| Transform.ModsFromSource | ETL/Scripts/transform.py:120-130 | An item is kept iff its category is `Mods`, in order. ModType comes from `type`, Polarity from `polarity` and MaxRank from `fusionLimit`. RawJson serialises the item. |
| Transform.TransformArcanes | ETL/Scripts/transform.py:133-154 | The loop returns the records of the `Arcanes` items in order, or the error `len()` raises. |
| Transform.ArcanesSucceedIff | ETL/Scripts/transform.py:143-145 | `transform_arcanes` succeeds iff every arcane item lacks `levelStats` or has one whose `len()` is defined. |
| Transform.ArcanesFromSource | ETL/Scripts/transform.py:138-153 | An item is kept iff its category is `Arcanes`, in order. ItemType comes from `type` and MaxRank from `MaxRankOf`. RawJson serialises the item. |
| Transform.ArcanesFirstError | ETL/Scripts/transform.py:144-145 | A failed transform fails on the first arcane item whose `levelStats` has no length. |
| Json.ToFloat | ETL/Scripts/transform.py:93-95 | `float()` succeeds iff its argument is a bool, a float, an int within the double range, or text the parser accepts. A bool gives 1.0 or 0.0, an int or float keeps its value, and accepted text gives the parser's value. None, a list or a dict raise `TypeError`, a larger int raises `OverflowError`, and text the parser rejects raises `ValueError`. |
| Json.Len | ETL/Scripts/transform.py:145 | `len()` is defined iff its argument is a string, list or dict. It gives the number of characters, items or keys; anything else raises `TypeError`. |
| Transform.MaxRankFromLevelStats | ETL/Scripts/transform.py:143-145 | MaxRank is 0 without `levelStats`. Otherwise it is its length minus one, so 4 entries give 3 and an empty list gives -1. |
| SqlLiteral.UndoubledDoubled | ETL/Scripts/load.py:36 | Reading a doubled body back gives the original text. |
| SqlLiteral.DoubledUndoubled | ETL/Scripts/load.py:36 | A body that reads back to `s` is exactly the doubled form of `s`, so a body has one reading and no lone quote. |
| SqlLiteral.UnquoteQuote | ETL/Scripts/load.py:36 | Stripping the outer quotes of a quoted string and replacing `''` by `'` gives back the original string. |
| SqlLiteral.QuoteInjective | ETL/Scripts/load.py:36 | Two strings with the same literal are equal. |
| SqlLiteral.QuoteShape | ETL/Scripts/load.py:36 | A literal starts and ends with a quote. Its length is `len(s) + 2` plus one per embedded quote. |
| SqlLiteral.EscapeCases | ETL/Scripts/load.py:28-36 | None is written `NULL`. A bool is written `True`/`False`, never `1`/`0`. An int is written as its decimal text. A string is written as a quoted literal that reads back to it. |
| SqlLiteral.Escape | ETL/Scripts/load.py:28-36 | The literal is `NULL` exactly for None, or for a float whose `str()` text is `NULL`. No bool, int, string, list or dict is written `NULL`. |
| SqlLiteral.QuotePlain | ETL/Scripts/load.py:36 | A string without quotes is written between two quotes, unchanged. |
| Load.InsertText | ETL/Scripts/load.py:55-61 | Each statement opens with the `IF NOT EXISTS` test for its own key in its own table, and closes with `END`. |
| Load.GenerateInserts | ETL/Scripts/load.py:39-63 | The generator loop emits one statement per record, in record order. The k-th statement is the guarded insert of the k-th record. |
| Load.GenerateInsertWarframes | ETL/Scripts/load.py:38-63 | The statements are the guarded inserts into `Warframes` with its eight columns. |
| Load.GenerateInsertWeapons | ETL/Scripts/load.py:65-98 | The statements are the guarded inserts into `Weapons` with its fifteen columns. |
| Load.GenerateInsertMods | ETL/Scripts/load.py:100-122 | The statements are the guarded inserts into `Mods` with its six columns. |
| Load.GenerateInsertArcanes | ETL/Scripts/load.py:124-145 | The statements are the guarded inserts into `Arcanes` with its five columns. |
| Load.RunLoad | ETL/Scripts/load.py:147-175 | `all_statements`, built by append and extend, is the text of `LoadBatch`. |
| Load.BatchFraming | ETL/Scripts/load.py:150-175 | The batch opens with `BEGIN TRANSACTION;` and the comment, then holds the warframe, weapon, mod and arcane inserts in that order, then closes with `COMMIT TRANSACTION;` and the PRINT. Its length is 4 plus the record counts, and an empty category leaves the framing intact. |
| Load.InsertShape | ETL/Scripts/load.py:42-54 | An insert has as many values as columns, and each value is the escaped `item.get(column)`. A missing column becomes `NULL`. The guard key is the escaped UniqueName, which is also the first value. |
| Load.RecordInsert | ETL/Scripts/load.py:42-54 | For a record built as a dict display over the table's columns, the insert's values are the record's fields escaped in order. |
| Load.WarframeRecordColumns | ETL/Scripts/load.py:41-50 | A transformed warframe holds exactly the keys the warframe insert reads. |
| Load.WeaponRecordColumns | ETL/Scripts/load.py:68-86 | A transformed weapon holds exactly the keys the weapon insert reads. |
| Load.ModRecordColumns | ETL/Scripts/load.py:103-110 | A transformed mod holds exactly the keys the mod insert reads. |
| Load.ArcaneRecordColumns | ETL/Scripts/load.py:127-133 | A transformed arcane holds exactly the keys the arcane insert reads. |
| Load.WarframeRecordLoads | ETL/Scripts/load.py:42-54 | Loading a transformed warframe writes each field escaped, guards on its UniqueName, and stores RawJson as a literal that reads back to it. |
| Load.WeaponRecordLoads | ETL/Scripts/load.py:71-89 | The same for a weapon. |
| Load.WeaponDamageLoads | ETL/Scripts/load.py:71-89 | Impact, Puncture and Slash are written as the unquoted `str()` text of their floats. |
| Load.ModRecordLoads | ETL/Scripts/load.py:104-113 | The same for a mod. |
| Load.ArcaneRecordLoads | ETL/Scripts/load.py:128-136 | The same for an arcane. MaxRank is written as its decimal text. |
| Store.ExecuteGrows | ETL/Scripts/load.py:55-61 | Running a statement never removes or changes existing rows. |
| Store.ExecuteAllGrows | ETL/Scripts/load.py:55-61 | Running a batch never removes or changes existing rows. |
| Store.ExecuteAllKeeps | ETL/Scripts/load.py:55-61 | A row found under a key is still found after any batch. |
| Store.ExecuteEstablishes | ETL/Scripts/load.py:55-61 | After a keyed guarded insert, its table holds a row under its key. |
| Store.BatchEstablishes | ETL/Scripts/load.py:53-61 | After a keyed batch, every guarded insert's key is present. |
| Store.BatchNoop | ETL/Scripts/load.py:55-61 | A batch whose keys are all present already changes nothing. |
| Store.BatchIdempotent | ETL/Scripts/load.py:53-61 | Running a keyed batch twice equals running it once. |
| Store.NullKeyDuplicates | ETL/Scripts/load.py:54-56 | An insert keyed by `NULL` adds its row on every run, so running it twice differs from running it once. |
| Store.ExecuteKeepsUnique | ETL/Scripts/load.py:55-61 | A well-formed guarded insert never creates a second row under a non-NULL key. |
| Store.BatchKeepsUnique | ETL/Scripts/load.py:55-61 | The same for a whole batch of well-formed statements. |
| Store.InsertForKeyed | ETL/Scripts/load.py:54-59 | Each generated insert's key is its first value, under UniqueName. When `str()` never writes `NULL` for a float, the insert is keyed iff the record's UniqueName is not null. |
| Store.LoadBatchWellFormed | ETL/Scripts/load.py:150-175 | Every insert of the `run_load` batch is well formed. |
| Store.LoadBatchKeepsUnique | ETL/Scripts/load.py:150-175 | Running the batch keeps at most one row per non-NULL UniqueName per table. |
| Store.LoadBatchIdempotent | ETL/Scripts/load.py:147-175 | When every record's UniqueName is not null, and `str()` never writes `NULL` for a float, running the `run_load` batch twice equals running it once. |
| WeaponsQuery.NameTypeMasteryFilters | API/app/routers/weapons.py:52-68 | A truthy name adds `Name LIKE :name` and binds `%name%`. A truthy type adds `Type = :type`. Each given mastery bound adds its condition and binds its value. |
| WeaponsQuery.DamageFilters | API/app/routers/weapons.py:70-76 | Each given damage bound, zero included, adds its condition and binds its value. |
| WeaponsQuery.ChanceFilters | API/app/routers/weapons.py:78-92 | The same for the critical and status chance bounds. |
| WeaponsQuery.CollectFilters | API/app/routers/weapons.py:48-92 | The conditions and parameters built filter by filter are `Conditions(f)` and `Params(f)`. |
| WeaponsQuery.ChooseOrder | API/app/routers/weapons.py:107-120 | The sorting block yields `OrderClause(sort)`. |
| WeaponsQuery.ReadWeapons | API/app/routers/weapons.py:47-125 | The SQL text is `Query(f)` and the parameters are `Params(f)`. |
| WeaponsQuery.QueryFrame | API/app/routers/weapons.py:47-125 | The query starts with the fixed SELECT and ends with the fixed OFFSET/FETCH suffix. |
| WeaponsQuery.WhereIff | API/app/routers/weapons.py:94-95 | There are conditions iff some filter is in effect. Then ` WHERE ` is followed by the conditions joined by ` AND `; otherwise nothing is added. |
| WeaponsQuery.ConditionsByShape | API/app/routers/weapons.py:52-91 | The conditions depend only on which filters are in effect, not on their values. |
| WeaponsQuery.ValuesStayOutOfQuery | API/app/routers/weapons.py:52-122 | Two requests that differ only in filter values build the same SQL text, so filter values travel only as parameters. |
| WeaponsQuery.EmptyNameAddsNoCondition | API/app/routers/weapons.py:52-54 | An empty name adds the same conditions as an absent one. |
| WeaponsQuery.EmptyNameBindsNothing | API/app/routers/weapons.py:52-54 | An empty name binds the same parameters as an absent one. |
| WeaponsQuery.EmptyTypeAddsNoCondition | API/app/routers/weapons.py:56-58 | An empty type adds the same conditions as an absent one. |
| WeaponsQuery.EmptyTypeBindsNothing | API/app/routers/weapons.py:56-58 | An empty type binds the same parameters as an absent one. |
| WeaponsQuery.ZeroBoundFilters | API/app/routers/weapons.py:62-64 | A minimum mastery of 0 still adds its condition and binds 0. |
| WeaponsQuery.BoundAt | API/app/routers/weapons.py:49-92 | After the first n keys have had their turn, exactly those among them with a binding are bound, each to its binding. A later filter never overwrites an earlier key. |
| WeaponsQuery.ParamsAt | API/app/routers/weapons.py:49-92 | `params` holds a key iff `Binding` binds it, and then holds the binding's value. |
| WeaponsQuery.ParamsMatchBinding | API/app/routers/weapons.py:49-92 | The same for all keys at once. |
| WeaponsQuery.ConditionPlaceholder | API/app/routers/weapons.py:52-92 | Each filter's condition ends with `:` and the name of the parameter that filter binds. |
| WeaponsQuery.PaginationPlaceholders | API/app/routers/weapons.py:125 | The pagination suffix refers to `:skip` and `:limit`. |
| WeaponsQuery.ConditionsOfActive | API/app/routers/weapons.py:52-95 | The conditions are those of the filters in effect, one each, in the order the code tests them. |
| WeaponsQuery.ParamsMatchConditions | API/app/routers/weapons.py:49-92 | `params` holds `skip`, `limit` and exactly the filters whose conditions are added. |
| WeaponsQuery.ConditionOfInjective | API/app/routers/weapons.py:52-92 | Distinct filters add distinct conditions. |
| WeaponsQuery.ParamsIffCondition | API/app/routers/weapons.py:49-92 | A filter's key is in `params` iff that filter's condition is in the WHERE list. |
| WeaponsQuery.ParamsByBinding | API/app/routers/weapons.py:49-92 | Filters that bind every key alike give equal `params`. |
| WeaponsQuery.OrderWhitelisted | API/app/routers/weapons.py:98-122 | The ORDER BY clause is the default, or names a column of the six-entry whitelist with ASC or DESC, so caller text never enters it. |
| WeaponsQuery.SortRules | API/app/routers/weapons.py:107-120 | No sort key or an empty one keeps ` ORDER BY Name`. A whitelisted key sorts ASC, and DESC behind one `-`. Only one `-` is stripped, so a key with two is unknown. An unknown key keeps the default. |
| Extract.UrlShape | ETL/Scripts/extract.py:28 | Every URL is the base address, a `/`, then the endpoint, and distinct endpoints get distinct URLs. |
| Extract.FirstSuccess | ETL/Scripts/extract.py:31-37 | The result is the least successful attempt among the first n, and every earlier attempt failed. None means all n failed. |
| Extract.FetchData | ETL/Scripts/extract.py:24-44 | The retry loop ends as `FetchOutcome`. It makes no request when `retries` ≤ 0, and otherwise between 1 and `retries`. A success is returned at its first occurrence with no later request. Exhaustion re-raises after exactly `retries` requests. There is one `delay` sleep per failed attempt that has a next attempt. A negative delay makes `time.sleep` raise `ValueError` after the first failure, which the loop does not catch: no sleep happens and no further request is made. |
| Extract.FetchCases | ETL/Scripts/extract.py:31-44 | For a delay of zero or more: with `retries` ≤ 0 the result is `None`. Otherwise it is the data of the first successful attempt, or, if every attempt fails, the last attempt's exception re-raised. |
| Extract.NegativeDelay | ETL/Scripts/extract.py:31-41 | With a negative delay the first attempt decides. A success returns its data. A failure re-raises when it was the only attempt, and otherwise ends in the `ValueError` of `time.sleep`. |
| Extract.MoreRetriesKeepSuccess | ETL/Scripts/extract.py:31-37 | Allowing one more attempt never changes a successful result. |
| Extract.ArcanesExact | ETL/Scripts/extract.py:83 | An item is among the arcanes iff it is in the list and its `category` is `Arcanes`. |
| Extract.ArcanesInOrder | ETL/Scripts/extract.py:83 | The arcanes keep the order of the item list and skip no arcane. |
| Extract.RunExtraction | ETL/Scripts/extract.py:59-91 | The straight-line run with its early exit on an exception ends as `Extraction(network, 4)`. |
| Extract.ExtractionOrder | ETL/Scripts/extract.py:65-91 | Endpoints are requested in the order warframes, weapons, mods, items, up to and including the first that fails. A failure stops all later requests and writes, and the exception is that of the failing fetch. The run reports no failure iff all four files were written. |
| Extract.ExtractionWrites | ETL/Scripts/extract.py:65-84 | Every file written holds the data its own fetch returned. The earlier files stay written after a failure. The last file holds only the arcanes of the item list. |
| Extract.FailureIsFinal | ETL/Scripts/extract.py:88-91 | Once a step has failed, the later steps change nothing. |

## Left out

- Network, clock and files. `requests.get`, `raise_for_status` and `response.json()` are one abstract outcome per attempt. `time.sleep` is a recorded delay. `load_json`, `save_json`, directory creation and writing `load_data.sql` are left out, and the lists they read or write are passed in or handed back as values.
- Logging and the debug `print` calls in `read_weapons`. They have no effect on the results.
- `json.dumps`, `json.load`, Python's `str()` of a float, list or dict, and the parsing of numeric text by `float()`. They are library code, passed in as functions (`Serializer`, `PyStr`, `FloatParser`). No property of them is assumed, except where a lemma requires that `str()` of a float is never the text `NULL`.
- Json.ToFloat: floats are exact reals. Rounding to the nearest double is not modelled, neither for ints above 2**53 nor for decimal text, and `FloatParser` yields no inf or nan.
- Extract.RunExtraction: a `save_json` that fails with `IOError` is not modelled; every save succeeds. Such a failure would end the run just as a fetch failure does.
- Extract.FetchData: the body of a successful response is taken to be a list of JSON objects. A body of another shape, or one whose `len()` raises in the log line, is not modelled.
- `run_transformation` is not modelled. It only reads each raw file, calls one transform and writes the result. The transforms themselves are modelled.
- `db.execute`, `fetchall` and the `HTTPException` of `read_weapons` are not modelled; the model stops at the SQL text and its parameters.
- WeaponsQuery.Lower: `str.lower()` is modelled for ASCII letters only. Python also lowercases other scripts, which can only turn a key into one of the six ASCII whitelist keys if it was already ASCII.
- The other routers, `pipeline.py`, `db.py`, `config.py`, `main.py` and the pydantic models are not part of this model.
- Store: the SQL engine's semantics is an abstract database of rows. It models only what the `IF NOT EXISTS … INSERT` guard relies on, and literals are compared as text.
