/** The Transform stage: four per-category normalisers that keep the raw items
    of their category and map each into a fixed-shape record. Each normaliser
    is a loop that skips rejected items and appends the others to a local
    list; its specification is a filter-then-map over the raw sequence.
    Library serialisation (`json.dumps`) and the parsing of numeric text by
    `float()` are passed in as functions. */
module Transform {
  import opened Collections
  import opened Json

  /** `json.dumps(item)`. */
  type Serializer = Item -> string

  /** What `float(text)` yields for a string, or None where it raises. */
  type FloatParser = string -> Option<real>

  datatype Warframe = Warframe(
    uniqueName: Value, name: Value, armor: Value, health: Value,
    shields: Value, energy: Value, sprintSpeed: Value, rawJson: string)

  datatype Weapon = Weapon(
    uniqueName: Value, name: Value, weaponType: Value, masteryRank: Value,
    impact: real, puncture: real, slash: real,
    critChance: Value, critMultiplier: Value, statusChance: Value,
    fireRate: Value, magazineSize: Value, reloadTime: Value, multishot: Value,
    rawJson: string)

  datatype Mod = Mod(
    uniqueName: Value, name: Value, modType: Value, polarity: Value,
    maxRank: Value, rawJson: string)

  datatype Arcane = Arcane(
    uniqueName: Value, name: Value, itemType: Value, maxRank: int, rawJson: string)

  datatype Damage = Damage(impact: real, puncture: real, slash: real)

  // ---------------------------------------------------------------- Warframes

  /** A warframe is an item classified as one (by category or by type) that
      carries a `health` key; skins and helmets have none. */
  predicate IsWarframeItem(item: Item)
  {
    (HasCategory(item, "Warframes") || Get(item, "type") == Str("Warframe"))
    && "health" in item
  }

  function NormalizeWarframe(item: Item, serialize: Serializer): Warframe
  {
    Warframe(
      uniqueName := Get(item, "uniqueName"),
      name := Get(item, "name"),
      armor := Get(item, "armor"),
      health := Get(item, "health"),
      shields := Get(item, "shield"),
      energy := Get(item, "power"),
      sprintSpeed := Get(item, "sprint"),
      rawJson := serialize(item))
  }

  function WarframeNormalizer(serialize: Serializer): Item -> Warframe
  {
    item => NormalizeWarframe(item, serialize)
  }

  /** What `transform_warframes` returns. */
  function Warframes(raw: seq<Item>, serialize: Serializer): seq<Warframe>
  {
    MapSeq(Filter(raw, IsWarframeItem), WarframeNormalizer(serialize))
  }

  method TransformWarframes(raw: seq<Item>, serialize: Serializer) returns (processed: seq<Warframe>)
    ensures processed == Warframes(raw, serialize)
  {
    processed := [];
    var i := 0;
    while i < |raw|
      invariant 0 <= i <= |raw|
      invariant processed == Warframes(raw[..i], serialize)
    {
      var item := raw[i];
      MapFilterStep(raw, i, IsWarframeItem, WarframeNormalizer(serialize));
      if !HasCategory(item, "Warframes") && Get(item, "type") != Str("Warframe") {
        i := i + 1;
        continue;
      }
      if "health" !in item {
        i := i + 1;
        continue;
      }
      processed := processed + [Warframe(
        uniqueName := Get(item, "uniqueName"),
        name := Get(item, "name"),
        armor := Get(item, "armor"),
        health := Get(item, "health"),
        shields := Get(item, "shield"),
        energy := Get(item, "power"),
        sprintSpeed := Get(item, "sprint"),
        rawJson := serialize(item))];
      i := i + 1;
    }
    assert raw[..i] == raw;
  }

  /** The k-th warframe comes from the k-th raw item that passes the inclusion
      test, in source order, with the fields renamed and a missing key read as
      null; every item that passes the test yields a record, duplicates
      included. */
  lemma WarframesFromSource(raw: seq<Item>, serialize: Serializer)
    ensures var out, p := Warframes(raw, serialize), KeptPositions(raw, IsWarframeItem);
      && |out| == |p| <= |raw|
      && (forall k, l :: 0 <= k < l < |p| ==> p[k] < p[l])
      && (forall i :: 0 <= i < |raw| && IsWarframeItem(raw[i]) ==> i in p)
      && forall k :: 0 <= k < |out| ==>
           var item := raw[p[k]];
           && IsWarframeItem(item)
           && out[k].uniqueName == Get(item, "uniqueName")
           && out[k].name == Get(item, "name")
           && out[k].armor == Get(item, "armor")
           && out[k].health == item["health"]
           && out[k].shields == Get(item, "shield")
           && out[k].energy == Get(item, "power")
           && out[k].sprintSpeed == Get(item, "sprint")
           && out[k].rawJson == serialize(item)
  {
    FilterAtKeptPositions(raw, IsWarframeItem);
    KeptPositionsComplete(raw, IsWarframeItem);
  }

  // ------------------------------------------------------------------ Weapons

  const WeaponCategories: seq<string> := ["Primary", "Secondary", "Melee"]

  predicate IsWeaponItem(item: Item)
  {
    Get(item, "category") in [Str("Primary"), Str("Secondary"), Str("Melee")]
  }

  /** The damage mapping consulted: `damage` (an empty mapping when the key is
      missing) if it is a mapping, otherwise `damagePerShot` (again an empty
      mapping when missing) if that is a mapping, otherwise none. */
  function DamageDict(item: Item): Option<map<string, Value>>
  {
    var first := GetOr(item, "damage", Object(map[]));
    var chosen := if first.Object? then first else GetOr(item, "damagePerShot", Object(map[]));
    if chosen.Object? then Some(chosen.fields) else None
  }

  /** `float(d.get(key, 0.0))`. */
  function DamageValue(d: map<string, Value>, key: string, parseFloat: FloatParser): Result<real, PyError>
  {
    ToFloat(GetOr(d, key, Number(0.0)), parseFloat)
  }

  function DamageOf(item: Item, parseFloat: FloatParser): Result<Damage, PyError>
  {
    match DamageDict(item)
    case None => Ok(Damage(0.0, 0.0, 0.0))
    case Some(d) =>
      var impact :- DamageValue(d, "impact", parseFloat);
      var puncture :- DamageValue(d, "puncture", parseFloat);
      var slash :- DamageValue(d, "slash", parseFloat);
      Ok(Damage(impact, puncture, slash))
  }

  function NormalizeWeapon(item: Item, parseFloat: FloatParser, serialize: Serializer): Result<Weapon, PyError>
  {
    var damage :- DamageOf(item, parseFloat);
    Ok(Weapon(
      uniqueName := Get(item, "uniqueName"),
      name := Get(item, "name"),
      weaponType := Get(item, "category"),
      masteryRank := Get(item, "masteryReq"),
      impact := damage.impact,
      puncture := damage.puncture,
      slash := damage.slash,
      critChance := Get(item, "critChance"),
      critMultiplier := Get(item, "critMult"),
      statusChance := Get(item, "procChance"),
      fireRate := Get(item, "fireRate"),
      magazineSize := Get(item, "magazineSize"),
      reloadTime := Get(item, "reloadTime"),
      multishot := Get(item, "multishot"),
      rawJson := serialize(item)))
  }

  function WeaponNormalizer(parseFloat: FloatParser, serialize: Serializer): Item -> Result<Weapon, PyError>
  {
    item => NormalizeWeapon(item, parseFloat, serialize)
  }

  /** What `transform_weapons` returns, or the error it raises. */
  function Weapons(raw: seq<Item>, parseFloat: FloatParser, serialize: Serializer): Result<seq<Weapon>, PyError>
  {
    TryMap(Filter(raw, IsWeaponItem), WeaponNormalizer(parseFloat, serialize))
  }

  /** The damage block of `transform_weapons`: the three figures, zero when
      no damage mapping applies, or the error `float()` raises. */
  method WeaponDamage(item: Item, parseFloat: FloatParser) returns (r: Result<Damage, PyError>)
    ensures r == DamageOf(item, parseFloat)
  {
    var impact, puncture, slash := 0.0, 0.0, 0.0;
    var damageDict := GetOr(item, "damage", Object(map[]));
    if !damageDict.Object? {
      damageDict := GetOr(item, "damagePerShot", Object(map[]));
    }
    if damageDict.Object? {
      var d := damageDict.fields;
      var x := ToFloat(GetOr(d, "impact", Number(0.0)), parseFloat);
      if x.Err? {
        return Err(x.error);
      }
      impact := x.value;
      x := ToFloat(GetOr(d, "puncture", Number(0.0)), parseFloat);
      if x.Err? {
        return Err(x.error);
      }
      puncture := x.value;
      x := ToFloat(GetOr(d, "slash", Number(0.0)), parseFloat);
      if x.Err? {
        return Err(x.error);
      }
      slash := x.value;
    }
    r := Ok(Damage(impact, puncture, slash));
  }

  method TransformWeapons(raw: seq<Item>, parseFloat: FloatParser, serialize: Serializer)
    returns (r: Result<seq<Weapon>, PyError>)
    ensures r == Weapons(raw, parseFloat, serialize)
  {
    var processed: seq<Weapon> := [];
    var i := 0;
    while i < |raw|
      invariant 0 <= i <= |raw|
      invariant Weapons(raw[..i], parseFloat, serialize) == Ok(processed)
    {
      var item := raw[i];
      TryMapFilterStep(raw, i, IsWeaponItem, WeaponNormalizer(parseFloat, serialize));
      if Get(item, "category") !in [Str("Primary"), Str("Secondary"), Str("Melee")] {
        i := i + 1;
        continue;
      }

      var damage := WeaponDamage(item, parseFloat);
      if damage.Err? {
        r := Err(damage.error);
        TryMapFilterStops(raw, i + 1, IsWeaponItem, WeaponNormalizer(parseFloat, serialize));
        return;
      }
      processed := processed + [Weapon(
        uniqueName := Get(item, "uniqueName"),
        name := Get(item, "name"),
        weaponType := Get(item, "category"),
        masteryRank := Get(item, "masteryReq"),
        impact := damage.value.impact,
        puncture := damage.value.puncture,
        slash := damage.value.slash,
        critChance := Get(item, "critChance"),
        critMultiplier := Get(item, "critMult"),
        statusChance := Get(item, "procChance"),
        fireRate := Get(item, "fireRate"),
        magazineSize := Get(item, "magazineSize"),
        reloadTime := Get(item, "reloadTime"),
        multishot := Get(item, "multishot"),
        rawJson := serialize(item))];
      i := i + 1;
    }
    assert raw[..i] == raw;
    r := Ok(processed);
  }

  /** `transform_weapons` succeeds exactly when the damage figures of every
      weapon item convert with `float()`. */
  lemma WeaponsSucceedIff(raw: seq<Item>, parseFloat: FloatParser, serialize: Serializer)
    ensures Weapons(raw, parseFloat, serialize).Ok?
        <==> forall i :: 0 <= i < |raw| && IsWeaponItem(raw[i]) ==> DamageOf(raw[i], parseFloat).Ok?
  {
    TryMapFilterOk(raw, IsWeaponItem, WeaponNormalizer(parseFloat, serialize));
  }

  /** When `transform_weapons` succeeds, the k-th record comes from the k-th
      weapon item in source order: its Type is that item's category (one of
      the three weapon categories), MasteryRank is `masteryReq`, the damage
      figures are those of `DamageOf`, the other fields are renamed with a
      missing key read as null, and RawJson serialises the whole item. */
  lemma WeaponsFromSource(raw: seq<Item>, parseFloat: FloatParser, serialize: Serializer)
    requires Weapons(raw, parseFloat, serialize).Ok?
    ensures var out, p := Weapons(raw, parseFloat, serialize).value, KeptPositions(raw, IsWeaponItem);
      && |out| == |p| <= |raw|
      && (forall k, l :: 0 <= k < l < |p| ==> p[k] < p[l])
      && (forall i :: 0 <= i < |raw| && IsWeaponItem(raw[i]) ==> i in p)
      && forall k :: 0 <= k < |out| ==>
           var item := raw[p[k]];
           && DamageOf(item, parseFloat).Ok?
           && out[k].weaponType == Get(item, "category")
           && out[k].weaponType.Str? && out[k].weaponType.s in WeaponCategories
           && out[k].uniqueName == Get(item, "uniqueName")
           && out[k].name == Get(item, "name")
           && out[k].masteryRank == Get(item, "masteryReq")
           && out[k].impact == DamageOf(item, parseFloat).value.impact
           && out[k].puncture == DamageOf(item, parseFloat).value.puncture
           && out[k].slash == DamageOf(item, parseFloat).value.slash
           && out[k].critChance == Get(item, "critChance")
           && out[k].critMultiplier == Get(item, "critMult")
           && out[k].statusChance == Get(item, "procChance")
           && out[k].fireRate == Get(item, "fireRate")
           && out[k].magazineSize == Get(item, "magazineSize")
           && out[k].reloadTime == Get(item, "reloadTime")
           && out[k].multishot == Get(item, "multishot")
           && out[k].rawJson == serialize(item)
  {
    TryMapFilterOk(raw, IsWeaponItem, WeaponNormalizer(parseFloat, serialize));
    KeptPositionsComplete(raw, IsWeaponItem);
  }

  /** When `transform_weapons` raises, it raises the error of the first weapon
      item whose damage figures do not convert; no record is returned. */
  lemma WeaponsFirstError(raw: seq<Item>, parseFloat: FloatParser, serialize: Serializer)
    returns (i: nat)
    requires Weapons(raw, parseFloat, serialize).Err?
    ensures i < |raw| && IsWeaponItem(raw[i])
    ensures DamageOf(raw[i], parseFloat) == Err(Weapons(raw, parseFloat, serialize).error)
    ensures forall j :: 0 <= j < i && IsWeaponItem(raw[j]) ==> DamageOf(raw[j], parseFloat).Ok?
  {
    i := TryMapFilterFirstError(raw, IsWeaponItem, WeaponNormalizer(parseFloat, serialize));
  }

  /** The damage shape rules: a missing `damage` key means the empty default
      mapping and all three figures are 0.0; a `damage` mapping is used and
      `damagePerShot` is then never consulted; only a present `damage` that is
      not a mapping falls through to `damagePerShot`, and when that is not a
      mapping either (a list, say) all three figures stay 0.0. */
  lemma DamageShapes(item: Item, parseFloat: FloatParser)
    ensures "damage" !in item ==>
      DamageOf(item, parseFloat) == DamageOf(item["damagePerShot" := Null], parseFloat) == Ok(Damage(0.0, 0.0, 0.0))
    ensures "damage" in item && item["damage"].Object? ==> DamageDict(item) == Some(item["damage"].fields)
    ensures DamageDict(item).Some? <==>
      !("damage" in item && !item["damage"].Object? && "damagePerShot" in item && !item["damagePerShot"].Object?)
    ensures "damage" in item && !item["damage"].Object? && "damagePerShot" in item && !item["damagePerShot"].Object? ==>
      DamageOf(item, parseFloat) == Ok(Damage(0.0, 0.0, 0.0))
  {
    if "damage" !in item {
      var m := item["damagePerShot" := Null];
      assert "damage" !in m;
      assert DamageDict(m) == Some(map[]);
    }
  }

  /** A `damage` mapping makes `damagePerShot` irrelevant: whatever that key
      holds, or whether it is there at all, the figures are the same. */
  lemma DamagePerShotIgnored(item: Item, v: Value, parseFloat: FloatParser)
    requires "damage" in item && item["damage"].Object?
    ensures DamageOf(item["damagePerShot" := v], parseFloat) == DamageOf(item, parseFloat)
    ensures DamageOf(item - {"damagePerShot"}, parseFloat) == DamageOf(item, parseFloat)
  {
    var m, n := item["damagePerShot" := v], item - {"damagePerShot"};
    assert m["damage"] == item["damage"] && n["damage"] == item["damage"];
  }

  /** With a damage mapping in hand, each figure is that key's value converted
      by `float()`, and 0.0 when the key is missing. */
  lemma DamageFromDict(item: Item, parseFloat: FloatParser)
    requires DamageDict(item).Some?
    ensures var d := DamageDict(item).value;
      && (DamageOf(item, parseFloat).Ok? <==>
           forall key :: key in ["impact", "puncture", "slash"] && key in d ==> ToFloat(d[key], parseFloat).Ok?)
      && (DamageOf(item, parseFloat).Ok? ==>
           && DamageOf(item, parseFloat).value.impact == (if "impact" in d then ToFloat(d["impact"], parseFloat).value else 0.0)
           && DamageOf(item, parseFloat).value.puncture == (if "puncture" in d then ToFloat(d["puncture"], parseFloat).value else 0.0)
           && DamageOf(item, parseFloat).value.slash == (if "slash" in d then ToFloat(d["slash"], parseFloat).value else 0.0))
  {
  }

  // --------------------------------------------------------------------- Mods

  predicate IsModItem(item: Item)
  {
    HasCategory(item, "Mods")
  }

  function NormalizeMod(item: Item, serialize: Serializer): Mod
  {
    Mod(
      uniqueName := Get(item, "uniqueName"),
      name := Get(item, "name"),
      modType := Get(item, "type"),
      polarity := Get(item, "polarity"),
      maxRank := Get(item, "fusionLimit"),
      rawJson := serialize(item))
  }

  function ModNormalizer(serialize: Serializer): Item -> Mod
  {
    item => NormalizeMod(item, serialize)
  }

  /** What `transform_mods` returns. */
  function Mods(raw: seq<Item>, serialize: Serializer): seq<Mod>
  {
    MapSeq(Filter(raw, IsModItem), ModNormalizer(serialize))
  }

  method TransformMods(raw: seq<Item>, serialize: Serializer) returns (processed: seq<Mod>)
    ensures processed == Mods(raw, serialize)
  {
    processed := [];
    var i := 0;
    while i < |raw|
      invariant 0 <= i <= |raw|
      invariant processed == Mods(raw[..i], serialize)
    {
      var item := raw[i];
      MapFilterStep(raw, i, IsModItem, ModNormalizer(serialize));
      if Get(item, "category") != Str("Mods") {
        i := i + 1;
        continue;
      }
      processed := processed + [Mod(
        uniqueName := Get(item, "uniqueName"),
        name := Get(item, "name"),
        modType := Get(item, "type"),
        polarity := Get(item, "polarity"),
        maxRank := Get(item, "fusionLimit"),
        rawJson := serialize(item))];
      i := i + 1;
    }
    assert raw[..i] == raw;
  }

  /** The k-th mod comes from the k-th raw item of category `Mods`, in source
      order: ModType from `type`, Polarity from `polarity`, MaxRank from
      `fusionLimit`, a missing key read as null. */
  lemma ModsFromSource(raw: seq<Item>, serialize: Serializer)
    ensures var out, p := Mods(raw, serialize), KeptPositions(raw, IsModItem);
      && |out| == |p| <= |raw|
      && (forall k, l :: 0 <= k < l < |p| ==> p[k] < p[l])
      && (forall i :: 0 <= i < |raw| && IsModItem(raw[i]) ==> i in p)
      && forall k :: 0 <= k < |out| ==>
           var item := raw[p[k]];
           && Get(item, "category") == Str("Mods")
           && out[k].uniqueName == Get(item, "uniqueName")
           && out[k].name == Get(item, "name")
           && out[k].modType == Get(item, "type")
           && out[k].polarity == Get(item, "polarity")
           && out[k].maxRank == Get(item, "fusionLimit")
           && out[k].rawJson == serialize(item)
  {
    FilterAtKeptPositions(raw, IsModItem);
    KeptPositionsComplete(raw, IsModItem);
  }

  // ------------------------------------------------------------------ Arcanes

  predicate IsArcaneItem(item: Item)
  {
    HasCategory(item, "Arcanes")
  }

  /** `len(item['levelStats']) - 1` when the key is present, else 0. */
  function MaxRankOf(item: Item): Result<int, PyError>
  {
    if "levelStats" in item then
      var n :- Len(item["levelStats"]);
      Ok(n - 1)
    else Ok(0)
  }

  function NormalizeArcane(item: Item, serialize: Serializer): Result<Arcane, PyError>
  {
    var maxRank :- MaxRankOf(item);
    Ok(Arcane(
      uniqueName := Get(item, "uniqueName"),
      name := Get(item, "name"),
      itemType := Get(item, "type"),
      maxRank := maxRank,
      rawJson := serialize(item)))
  }

  function ArcaneNormalizer(serialize: Serializer): Item -> Result<Arcane, PyError>
  {
    item => NormalizeArcane(item, serialize)
  }

  /** What `transform_arcanes` returns, or the error it raises. */
  function Arcanes(raw: seq<Item>, serialize: Serializer): Result<seq<Arcane>, PyError>
  {
    TryMap(Filter(raw, IsArcaneItem), ArcaneNormalizer(serialize))
  }

  method TransformArcanes(raw: seq<Item>, serialize: Serializer) returns (r: Result<seq<Arcane>, PyError>)
    ensures r == Arcanes(raw, serialize)
  {
    var processed: seq<Arcane> := [];
    var i := 0;
    while i < |raw|
      invariant 0 <= i <= |raw|
      invariant Arcanes(raw[..i], serialize) == Ok(processed)
    {
      var item := raw[i];
      TryMapFilterStep(raw, i, IsArcaneItem, ArcaneNormalizer(serialize));
      if Get(item, "category") != Str("Arcanes") {
        i := i + 1;
        continue;
      }
      var maxRank: int := 0;
      if "levelStats" in item {
        var n := Len(item["levelStats"]);
        if n.Err? {
          r := Err(n.error);
          TryMapFilterStops(raw, i + 1, IsArcaneItem, ArcaneNormalizer(serialize));
          return;
        }
        maxRank := n.value as int - 1;
      }
      processed := processed + [Arcane(
        uniqueName := Get(item, "uniqueName"),
        name := Get(item, "name"),
        itemType := Get(item, "type"),
        maxRank := maxRank,
        rawJson := serialize(item))];
      i := i + 1;
    }
    assert raw[..i] == raw;
    r := Ok(processed);
  }

  /** `transform_arcanes` succeeds exactly when every arcane item either has
      no `levelStats` or has one whose `len()` is defined. */
  lemma ArcanesSucceedIff(raw: seq<Item>, serialize: Serializer)
    ensures Arcanes(raw, serialize).Ok?
        <==> forall i :: 0 <= i < |raw| && IsArcaneItem(raw[i]) ==> MaxRankOf(raw[i]).Ok?
  {
    TryMapFilterOk(raw, IsArcaneItem, ArcaneNormalizer(serialize));
  }

  /** When `transform_arcanes` succeeds, the k-th record comes from the k-th
      item of category `Arcanes`, in source order, ItemType from `type` and
      MaxRank as `MaxRankOf` derives it. */
  lemma ArcanesFromSource(raw: seq<Item>, serialize: Serializer)
    requires Arcanes(raw, serialize).Ok?
    ensures var out, p := Arcanes(raw, serialize).value, KeptPositions(raw, IsArcaneItem);
      && |out| == |p| <= |raw|
      && (forall k, l :: 0 <= k < l < |p| ==> p[k] < p[l])
      && (forall i :: 0 <= i < |raw| && IsArcaneItem(raw[i]) ==> i in p)
      && forall k :: 0 <= k < |out| ==>
           var item := raw[p[k]];
           && Get(item, "category") == Str("Arcanes")
           && MaxRankOf(item).Ok?
           && out[k].uniqueName == Get(item, "uniqueName")
           && out[k].name == Get(item, "name")
           && out[k].itemType == Get(item, "type")
           && out[k].maxRank == MaxRankOf(item).value
           && out[k].rawJson == serialize(item)
  {
    TryMapFilterOk(raw, IsArcaneItem, ArcaneNormalizer(serialize));
    KeptPositionsComplete(raw, IsArcaneItem);
  }

  /** When `transform_arcanes` raises, it raises the error of the first
      arcane item whose `levelStats` has no length. */
  lemma ArcanesFirstError(raw: seq<Item>, serialize: Serializer) returns (i: nat)
    requires Arcanes(raw, serialize).Err?
    ensures i < |raw| && IsArcaneItem(raw[i]) && "levelStats" in raw[i]
    ensures Len(raw[i]["levelStats"]) == Err(Arcanes(raw, serialize).error)
    ensures forall j :: 0 <= j < i && IsArcaneItem(raw[j]) ==> MaxRankOf(raw[j]).Ok?
  {
    i := TryMapFilterFirstError(raw, IsArcaneItem, ArcaneNormalizer(serialize));
  }

  /** MaxRank counts the per-rank stat entries after the base entry: a list of
      n entries gives n - 1 (so 4 give 3 and an empty list gives -1), and an
      item without `levelStats` gives 0. */
  lemma MaxRankFromLevelStats(item: Item, stats: seq<Value>)
    ensures "levelStats" !in item ==> MaxRankOf(item) == Ok(0)
    ensures MaxRankOf(item["levelStats" := List(stats)]) == Ok(|stats| - 1)
    ensures |stats| == 4 ==> MaxRankOf(item["levelStats" := List(stats)]) == Ok(3)
    ensures MaxRankOf(item["levelStats" := List([])]) == Ok(-1)
  {
  }

  // -------------------------------------------------------- Processed records

  /** The dictionaries the transforms append: each a dict display whose keys
      are the column names the Load stage reads back from the interchange
      files, beside the record's fields in the same order. */
  const WarframeKeys: seq<string> :=
    ["UniqueName", "Name", "Armor", "Health", "Shields", "Energy", "SprintSpeed", "RawJson"]

  function WarframeFields(w: Warframe): seq<Value>
  {
    [w.uniqueName, w.name, w.armor, w.health, w.shields, w.energy, w.sprintSpeed, Str(w.rawJson)]
  }

  function WarframeRow(w: Warframe): Item
  {
    Record(WarframeKeys, WarframeFields(w))
  }

  const WeaponKeys: seq<string> :=
    ["UniqueName", "Name", "Type", "MasteryRank", "Impact", "Puncture", "Slash", "CritChance",
     "CritMultiplier", "StatusChance", "FireRate", "MagazineSize", "ReloadTime", "Multishot", "RawJson"]

  function WeaponFields(w: Weapon): seq<Value>
  {
    [w.uniqueName, w.name, w.weaponType, w.masteryRank, Number(w.impact), Number(w.puncture),
     Number(w.slash), w.critChance, w.critMultiplier, w.statusChance, w.fireRate, w.magazineSize,
     w.reloadTime, w.multishot, Str(w.rawJson)]
  }

  function WeaponRow(w: Weapon): Item
  {
    Record(WeaponKeys, WeaponFields(w))
  }

  const ModKeys: seq<string> := ["UniqueName", "Name", "ModType", "Polarity", "MaxRank", "RawJson"]

  function ModFields(m: Mod): seq<Value>
  {
    [m.uniqueName, m.name, m.modType, m.polarity, m.maxRank, Str(m.rawJson)]
  }

  function ModRow(m: Mod): Item
  {
    Record(ModKeys, ModFields(m))
  }

  const ArcaneKeys: seq<string> := ["UniqueName", "Name", "ItemType", "MaxRank", "RawJson"]

  function ArcaneFields(a: Arcane): seq<Value>
  {
    [a.uniqueName, a.name, a.itemType, Int(a.maxRank), Str(a.rawJson)]
  }

  function ArcaneRow(a: Arcane): Item
  {
    Record(ArcaneKeys, ArcaneFields(a))
  }
}
