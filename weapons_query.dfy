/** The SQL text and bound parameters that the `GET /weapons/` endpoint of the
    API builds from its optional query filters, before the database runs
    them. Filter values only ever travel as bound parameters; the text is
    made of fixed pieces chosen by which filters are present and by the sort
    key, which must be one of six whitelisted names. */
module WeaponsQuery {
  import opened Collections

  /** A bound parameter value. */
  datatype Param = PInt(i: int) | PReal(r: real) | PText(s: string)

  /** The names under which `params` binds values; `Placeholder` gives the
      name each stands for in the SQL text (`:name`, `:min_mastery`, ...). */
  datatype Key = Skip | Limit | Name | Type | MinMastery | MaxMastery
               | MinDamage | MaxDamage | MinCrit | MaxCrit | MinStatus | MaxStatus

  function Placeholder(k: Key): string
  {
    match k
    case Skip => "skip"
    case Limit => "limit"
    case Name => "name"
    case Type => "type"
    case MinMastery => "min_mastery"
    case MaxMastery => "max_mastery"
    case MinDamage => "min_damage"
    case MaxDamage => "max_damage"
    case MinCrit => "min_crit"
    case MaxCrit => "max_crit"
    case MinStatus => "min_status"
    case MaxStatus => "max_status"
  }

  /** The endpoint's query parameters; `None` stands for an absent one. */
  datatype Filters = Filters(
    skip: int, limit: int,
    name: Option<string>, weaponType: Option<string>,
    minMastery: Option<int>, maxMastery: Option<int>,
    minDamage: Option<real>, maxDamage: Option<real>,
    minCrit: Option<real>, maxCrit: Option<real>,
    minStatus: Option<real>, maxStatus: Option<real>,
    sort: Option<string>)

  const Base := "SELECT * FROM [wf_base].[Weapons]"
  const DefaultOrder := " ORDER BY Name"
  const Pagination := " OFFSET :skip ROWS FETCH NEXT :limit ROWS ONLY"

  /** `allowed_sort_fields`: sort key to column. */
  const SortFields: map<string, string> := map[
    "name" := "Name", "type" := "Type", "mastery" := "MasteryReq",
    "damage" := "TotalDamage", "crit" := "CritChance", "status" := "StatusChance"]

  /** The condition each filter adds to the WHERE clause. */
  const NameLike := "Name LIKE :name"
  const TypeIs := "Type = :type"
  const MasteryAtLeast := "MasteryReq >= :min_mastery"
  const MasteryAtMost := "MasteryReq <= :max_mastery"
  const DamageAtLeast := "TotalDamage >= :min_damage"
  const DamageAtMost := "TotalDamage <= :max_damage"
  const CritAtLeast := "CritChance >= :min_crit"
  const CritAtMost := "CritChance <= :max_crit"
  const StatusAtLeast := "StatusChance >= :min_status"
  const StatusAtMost := "StatusChance <= :max_status"

  /** The condition each filter key stands for; skip and limit add none, as
      they stand for the pagination suffix instead. */
  function ConditionOf(k: Key): string
  {
    match k
    case Skip => ""
    case Limit => ""
    case Name => NameLike
    case Type => TypeIs
    case MinMastery => MasteryAtLeast
    case MaxMastery => MasteryAtMost
    case MinDamage => DamageAtLeast
    case MaxDamage => DamageAtMost
    case MinCrit => CritAtLeast
    case MaxCrit => CritAtMost
    case MinStatus => StatusAtLeast
    case MaxStatus => StatusAtMost
  }

  /** Python truthiness of an optional string: present and non-empty. */
  predicate Truthy(s: Option<string>)
  {
    s.Some? && s.value != ""
  }

  /** Appends `condition` when its filter is in effect. */
  function AddIf(conditions: seq<string>, active: bool, condition: string): seq<string>
  {
    if active then conditions + [condition] else conditions
  }

  /** The conditions in effect, in the order the endpoint tests them: name and
      type when truthy, each numeric bound whenever given, zero included. */
  function Conditions(f: Filters): seq<string>
  {
    var c := AddIf([], Truthy(f.name), NameLike);
    var c := AddIf(c, Truthy(f.weaponType), TypeIs);
    var c := AddIf(c, f.minMastery.Some?, MasteryAtLeast);
    var c := AddIf(c, f.maxMastery.Some?, MasteryAtMost);
    var c := AddIf(c, f.minDamage.Some?, DamageAtLeast);
    var c := AddIf(c, f.maxDamage.Some?, DamageAtMost);
    var c := AddIf(c, f.minCrit.Some?, CritAtLeast);
    var c := AddIf(c, f.maxCrit.Some?, CritAtMost);
    var c := AddIf(c, f.minStatus.Some?, StatusAtLeast);
    AddIf(c, f.maxStatus.Some?, StatusAtMost)
  }

  /** What each placeholder is bound to, key by key: skip and limit always;
      the name searched for wrapped in `%` wildcards and the type as given
      when truthy; each numeric bound as given whenever present; `None` for a
      key left unbound. */
  function Binding(f: Filters, k: Key): Option<Param>
  {
    match k
    case Skip => Some(PInt(f.skip))
    case Limit => Some(PInt(f.limit))
    case Name => if Truthy(f.name) then Some(PText("%" + f.name.value + "%")) else None
    case Type => if Truthy(f.weaponType) then Some(PText(f.weaponType.value)) else None
    case MinMastery => if f.minMastery.Some? then Some(PInt(f.minMastery.value)) else None
    case MaxMastery => if f.maxMastery.Some? then Some(PInt(f.maxMastery.value)) else None
    case MinDamage => if f.minDamage.Some? then Some(PReal(f.minDamage.value)) else None
    case MaxDamage => if f.maxDamage.Some? then Some(PReal(f.maxDamage.value)) else None
    case MinCrit => if f.minCrit.Some? then Some(PReal(f.minCrit.value)) else None
    case MaxCrit => if f.maxCrit.Some? then Some(PReal(f.maxCrit.value)) else None
    case MinStatus => if f.minStatus.Some? then Some(PReal(f.minStatus.value)) else None
    case MaxStatus => if f.maxStatus.Some? then Some(PReal(f.maxStatus.value)) else None
  }

  /** The order in which `read_weapons` binds its parameters: skip and limit
      first, then one key per filter in the order the filters are tested. */
  function KeyAt(i: nat): Key
    requires i < 12
  {
    match i
    case 0 => Skip
    case 1 => Limit
    case 2 => Name
    case 3 => Type
    case 4 => MinMastery
    case 5 => MaxMastery
    case 6 => MinDamage
    case 7 => MaxDamage
    case 8 => MinCrit
    case 9 => MaxCrit
    case 10 => MinStatus
    case _ => MaxStatus
  }

  /** The position of a key in that order. */
  function Rank(k: Key): nat
  {
    match k
    case Skip => 0
    case Limit => 1
    case Name => 2
    case Type => 3
    case MinMastery => 4
    case MaxMastery => 5
    case MinDamage => 6
    case MaxDamage => 7
    case MinCrit => 8
    case MaxCrit => 9
    case MinStatus => 10
    case MaxStatus => 11
  }

  /** One filter's step: binds `key` when its filter is in effect. */
  function Bind(m: map<Key, Param>, key: Key, b: Option<Param>): map<Key, Param>
  {
    if b.Some? then m[key := b.value] else m
  }

  /** `params` after the first `n` keys have had their turn. */
  function Bound(f: Filters, n: nat): map<Key, Param>
    requires n <= 12
  {
    if n == 0 then map[] else Bind(Bound(f, n - 1), KeyAt(n - 1), Binding(f, KeyAt(n - 1)))
  }

  /** `params` once every filter has bound its value. */
  function Params(f: Filters): map<Key, Param>
  {
    Bound(f, 12)
  }

  function WhereClause(conditions: seq<string>): string
  {
    if conditions == [] then "" else " WHERE " + Join(conditions, " AND ")
  }

  /** ASCII lower case. */
  function Lower(s: string): string
  {
    seq(|s|, i requires 0 <= i < |s| => if 'A' <= s[i] <= 'Z' then (s[i] as int + 32) as char else s[i])
  }

  /** `allowed_sort_fields.get(field_key.lower())`. */
  function SortColumn(key: string): Option<string>
  {
    var k := Lower(key);
    if k in SortFields then Some(SortFields[k]) else None
  }

  function OrderClause(sort: Option<string>): string
  {
    if sort.None? || sort.value == "" then DefaultOrder
    else
      var s := sort.value;
      var direction := if s[0] == '-' then "DESC" else "ASC";
      var key := if s[0] == '-' then s[1..] else s;
      match SortColumn(key)
      case Some(column) => if column != "" then " ORDER BY " + column + " " + direction else DefaultOrder
      case None => DefaultOrder
  }

  function Query(f: Filters): string
  {
    Base + WhereClause(Conditions(f)) + OrderClause(f.sort) + Pagination
  }

  /** The sorting block of `read_weapons`. */
  method ChooseOrder(sort: Option<string>) returns (orderClause: string)
    ensures orderClause == OrderClause(sort)
  {
    orderClause := DefaultOrder;
    if sort.Some? && sort.value != "" {
      var direction := "ASC";
      var fieldKey := sort.value;
      if sort.value[0] == '-' {
        direction := "DESC";
        fieldKey := sort.value[1..];
      }
      var column := SortColumn(fieldKey);
      if column.Some? && column.value != "" {
        orderClause := " ORDER BY " + column.value + " " + direction;
      }
    }
  }

  /** `Conditions` and `Params` taken in the two parts `CollectFilters`
      works through. */
  lemma ConditionsChain(f: Filters, c4: seq<string>, c6: seq<string>, c10: seq<string>)
    requires c4 == AddIf(AddIf(AddIf(AddIf([], Truthy(f.name), NameLike), Truthy(f.weaponType), TypeIs), f.minMastery.Some?, MasteryAtLeast), f.maxMastery.Some?, MasteryAtMost)
    requires c6 == AddIf(AddIf(c4, f.minDamage.Some?, DamageAtLeast), f.maxDamage.Some?, DamageAtMost)
    requires c10 == AddIf(AddIf(AddIf(AddIf(c6, f.minCrit.Some?, CritAtLeast), f.maxCrit.Some?, CritAtMost), f.minStatus.Some?, StatusAtLeast), f.maxStatus.Some?, StatusAtMost)
    ensures c10 == Conditions(f)
  {
  }

  lemma ParamsChain(f: Filters, p0: map<Key, Param>, p4: map<Key, Param>, p6: map<Key, Param>, p10: map<Key, Param>)
    requires p0 == map[Skip := PInt(f.skip), Limit := PInt(f.limit)]
    requires p4 == Bind(Bind(Bind(Bind(p0, Name, Binding(f, Name)), Type, Binding(f, Type)), MinMastery, Binding(f, MinMastery)), MaxMastery, Binding(f, MaxMastery))
    requires p6 == Bind(Bind(p4, MinDamage, Binding(f, MinDamage)), MaxDamage, Binding(f, MaxDamage))
    requires p10 == Bind(Bind(Bind(Bind(p6, MinCrit, Binding(f, MinCrit)), MaxCrit, Binding(f, MaxCrit)), MinStatus, Binding(f, MinStatus)), MaxStatus, Binding(f, MaxStatus))
    ensures p10 == Params(f)
  {
    assert Bound(f, 1) == map[Skip := PInt(f.skip)];
    assert Bound(f, 2) == p0;
    assert Bound(f, 3) == Bind(p0, Name, Binding(f, Name));
    assert Bound(f, 4) == Bind(Bound(f, 3), Type, Binding(f, Type));
    assert Bound(f, 5) == Bind(Bound(f, 4), MinMastery, Binding(f, MinMastery));
    assert Bound(f, 6) == p4;
    assert Bound(f, 7) == Bind(p4, MinDamage, Binding(f, MinDamage));
    assert Bound(f, 8) == p6;
    assert Bound(f, 9) == Bind(p6, MinCrit, Binding(f, MinCrit));
    assert Bound(f, 10) == Bind(Bound(f, 9), MaxCrit, Binding(f, MaxCrit));
    assert Bound(f, 11) == Bind(Bound(f, 10), MinStatus, Binding(f, MinStatus));
  }

  /** The name, type and mastery filters of `read_weapons`: the name and the
      type count when truthy, a mastery bound whenever given. */
  method NameTypeMasteryFilters(f: Filters, conditions0: seq<string>, params0: map<Key, Param>)
    returns (conditions: seq<string>, params: map<Key, Param>)
    ensures conditions == AddIf(AddIf(AddIf(AddIf(conditions0, Truthy(f.name), NameLike), Truthy(f.weaponType), TypeIs), f.minMastery.Some?, MasteryAtLeast), f.maxMastery.Some?, MasteryAtMost)
    ensures params == Bind(Bind(Bind(Bind(params0, Name, Binding(f, Name)), Type, Binding(f, Type)), MinMastery, Binding(f, MinMastery)), MaxMastery, Binding(f, MaxMastery))
  {
    conditions, params := conditions0, params0;
    if f.name.Some? && f.name.value != "" {
      conditions := conditions + [NameLike];
      params := params[Name := PText("%" + f.name.value + "%")];
    }
    if f.weaponType.Some? && f.weaponType.value != "" {
      conditions := conditions + [TypeIs];
      params := params[Type := PText(f.weaponType.value)];
    }
    if f.minMastery.Some? {
      conditions := conditions + [MasteryAtLeast];
      params := params[MinMastery := PInt(f.minMastery.value)];
    }
    if f.maxMastery.Some? {
      conditions := conditions + [MasteryAtMost];
      params := params[MaxMastery := PInt(f.maxMastery.value)];
    }
  }

  /** The damage filters of `read_weapons`, each bound counting whenever
      given, zero included. */
  method DamageFilters(f: Filters, conditions0: seq<string>, params0: map<Key, Param>)
    returns (conditions: seq<string>, params: map<Key, Param>)
    ensures conditions == AddIf(AddIf(conditions0, f.minDamage.Some?, DamageAtLeast), f.maxDamage.Some?, DamageAtMost)
    ensures params == Bind(Bind(params0, MinDamage, Binding(f, MinDamage)), MaxDamage, Binding(f, MaxDamage))
  {
    conditions, params := conditions0, params0;
    if f.minDamage.Some? {
      conditions := conditions + [DamageAtLeast];
      params := params[MinDamage := PReal(f.minDamage.value)];
    }
    if f.maxDamage.Some? {
      conditions := conditions + [DamageAtMost];
      params := params[MaxDamage := PReal(f.maxDamage.value)];
    }
  }

  /** The critical and status chance filters, likewise. */
  method ChanceFilters(f: Filters, conditions0: seq<string>, params0: map<Key, Param>)
    returns (conditions: seq<string>, params: map<Key, Param>)
    ensures conditions == AddIf(AddIf(AddIf(AddIf(conditions0, f.minCrit.Some?, CritAtLeast), f.maxCrit.Some?, CritAtMost), f.minStatus.Some?, StatusAtLeast), f.maxStatus.Some?, StatusAtMost)
    ensures params == Bind(Bind(Bind(Bind(params0, MinCrit, Binding(f, MinCrit)), MaxCrit, Binding(f, MaxCrit)), MinStatus, Binding(f, MinStatus)), MaxStatus, Binding(f, MaxStatus))
  {
    conditions, params := conditions0, params0;
    if f.minCrit.Some? {
      conditions := conditions + [CritAtLeast];
      params := params[MinCrit := PReal(f.minCrit.value)];
    }
    if f.maxCrit.Some? {
      conditions := conditions + [CritAtMost];
      params := params[MaxCrit := PReal(f.maxCrit.value)];
    }
    if f.minStatus.Some? {
      conditions := conditions + [StatusAtLeast];
      params := params[MinStatus := PReal(f.minStatus.value)];
    }
    if f.maxStatus.Some? {
      conditions := conditions + [StatusAtMost];
      params := params[MaxStatus := PReal(f.maxStatus.value)];
    }
  }

  /** The filter block of `read_weapons`: the conditions and the bound
      parameters, one filter after the other. */
  method CollectFilters(f: Filters) returns (conditions: seq<string>, params: map<Key, Param>)
    ensures conditions == Conditions(f)
    ensures params == Params(f)
  {
    conditions := [];
    params := map[Skip := PInt(f.skip), Limit := PInt(f.limit)];
    ghost var p0 := params;
    conditions, params := NameTypeMasteryFilters(f, conditions, params);
    ghost var c4, p4 := conditions, params;
    conditions, params := DamageFilters(f, conditions, params);
    ghost var c6, p6 := conditions, params;
    conditions, params := ChanceFilters(f, conditions, params);
    ConditionsChain(f, c4, c6, conditions);
    ParamsChain(f, p0, p4, p6, params);
  }

  /** `read_weapons` up to `db.execute`: the SQL text and its parameters. */
  method ReadWeapons(f: Filters) returns (query: string, params: map<Key, Param>)
    ensures query == Query(f)
    ensures params == Params(f)
  {
    query := Base;
    var conditions;
    conditions, params := CollectFilters(f);
    if |conditions| > 0 {
      query := query + " WHERE " + Join(conditions, " AND ");
    } else {
      assert query == Base + "";
    }
    assert query == Base + WhereClause(conditions);

    var orderClause := ChooseOrder(f.sort);
    query := query + orderClause;
    query := query + Pagination;
  }

  // ------------------------------------------------------------- Properties

  lemma Frame(a: string, b: string, c: string, d: string)
    ensures |a| + |d| <= |a + b + c + d|
    ensures (a + b + c + d)[..|a|] == a && (a + b + c + d)[|a + b + c + d| - |d|..] == d
  {
  }

  /** The query always opens with the fixed SELECT and closes with the fixed
      pagination suffix. */
  lemma QueryFrame(f: Filters)
    ensures |Base| + |Pagination| <= |Query(f)|
    ensures Query(f)[..|Base|] == Base
    ensures Query(f)[|Query(f)| - |Pagination|..] == Pagination
  {
    Frame(Base, WhereClause(Conditions(f)), OrderClause(f.sort), Pagination);
  }

  /** Some filter is in effect: a truthy name or type, or any numeric bound. */
  predicate AnyFilter(f: Filters)
  {
    Truthy(f.name) || Truthy(f.weaponType)
    || f.minMastery.Some? || f.maxMastery.Some?
    || f.minDamage.Some? || f.maxDamage.Some?
    || f.minCrit.Some? || f.maxCrit.Some?
    || f.minStatus.Some? || f.maxStatus.Some?
  }

  lemma AddIfFacts(conditions: seq<string>, active: bool, condition: string)
    ensures |AddIf(conditions, active, condition)| == |conditions| + if active then 1 else 0
    ensures forall c :: c in conditions ==> c in AddIf(conditions, active, condition)
    ensures active ==> condition in AddIf(conditions, active, condition)
  {
  }

  /** A WHERE clause is added exactly when some filter is in effect, and it
      joins the conditions with AND. */
  lemma {:induction false} WhereIff(f: Filters)
    ensures Conditions(f) != [] <==> AnyFilter(f)
    ensures !AnyFilter(f) ==> WhereClause(Conditions(f)) == ""
    ensures AnyFilter(f) ==> WhereClause(Conditions(f)) == " WHERE " + Join(Conditions(f), " AND ")
  {
    var c1 := AddIf([], Truthy(f.name), NameLike);
    var c2 := AddIf(c1, Truthy(f.weaponType), TypeIs);
    var c3 := AddIf(c2, f.minMastery.Some?, MasteryAtLeast);
    var c4 := AddIf(c3, f.maxMastery.Some?, MasteryAtMost);
    var c5 := AddIf(c4, f.minDamage.Some?, DamageAtLeast);
    var c6 := AddIf(c5, f.maxDamage.Some?, DamageAtMost);
    var c7 := AddIf(c6, f.minCrit.Some?, CritAtLeast);
    var c8 := AddIf(c7, f.maxCrit.Some?, CritAtMost);
    var c9 := AddIf(c8, f.minStatus.Some?, StatusAtLeast);
    AddIfFacts([], Truthy(f.name), NameLike);
    AddIfFacts(c1, Truthy(f.weaponType), TypeIs);
    AddIfFacts(c2, f.minMastery.Some?, MasteryAtLeast);
    AddIfFacts(c3, f.maxMastery.Some?, MasteryAtMost);
    AddIfFacts(c4, f.minDamage.Some?, DamageAtLeast);
    AddIfFacts(c5, f.maxDamage.Some?, DamageAtMost);
    AddIfFacts(c6, f.minCrit.Some?, CritAtLeast);
    AddIfFacts(c7, f.maxCrit.Some?, CritAtMost);
    AddIfFacts(c8, f.minStatus.Some?, StatusAtLeast);
    AddIfFacts(c9, f.maxStatus.Some?, StatusAtMost);
  }

  /** Which filters are in effect, and the sort key: all the query text
      depends on. */
  predicate SameShape(f: Filters, g: Filters)
  {
    && Truthy(f.name) == Truthy(g.name) && Truthy(f.weaponType) == Truthy(g.weaponType)
    && f.minMastery.Some? == g.minMastery.Some? && f.maxMastery.Some? == g.maxMastery.Some?
    && f.minDamage.Some? == g.minDamage.Some? && f.maxDamage.Some? == g.maxDamage.Some?
    && f.minCrit.Some? == g.minCrit.Some? && f.maxCrit.Some? == g.maxCrit.Some?
    && f.minStatus.Some? == g.minStatus.Some? && f.maxStatus.Some? == g.maxStatus.Some?
    && f.sort == g.sort
  }

  /** Filter values never reach the SQL text: two requests that differ only
      in the values of their filters (the name searched for, the bounds, skip
      and limit) build the same query and differ only in the parameters. */
  lemma ValuesStayOutOfQuery(f: Filters, g: Filters)
    requires SameShape(f, g)
    ensures Query(f) == Query(g)
  {
    ConditionsByShape(f, g);
  }

  lemma ConditionsByShape(f: Filters, g: Filters)
    requires SameShape(f, g)
    ensures Conditions(f) == Conditions(g)
  {
  }

  /** An empty name is ignored like an absent one: it adds no condition ... */
  lemma EmptyNameAddsNoCondition(f: Filters)
    requires f.name == Some("")
    ensures Conditions(f) == Conditions(f.(name := None))
  {
    ConditionsByShape(f, f.(name := None));
  }

  /** ... and binds nothing ... */
  lemma EmptyNameBindsNothing(f: Filters)
    requires f.name == Some("")
    ensures Params(f) == Params(f.(name := None))
  {
    var g := f.(name := None);
    assert forall k :: Binding(f, k) == Binding(g, k);
    ParamsByBinding(f, g);
  }

  /** ... and so is an empty type. */
  lemma EmptyTypeAddsNoCondition(f: Filters)
    requires f.weaponType == Some("")
    ensures Conditions(f) == Conditions(f.(weaponType := None))
  {
    ConditionsByShape(f, f.(weaponType := None));
  }

  lemma EmptyTypeBindsNothing(f: Filters)
    requires f.weaponType == Some("")
    ensures Params(f) == Params(f.(weaponType := None))
  {
    var g := f.(weaponType := None);
    assert forall k :: Binding(f, k) == Binding(g, k);
    ParamsByBinding(f, g);
  }

  /** ... while a numeric bound of zero does filter. */
  lemma ZeroBoundFilters(f: Filters)
    requires f.minMastery == Some(0)
    ensures MasteryAtLeast in Conditions(f)
    ensures MinMastery in Params(f) && Params(f)[MinMastery] == PInt(0)
  {
    ParamsAt(f, MinMastery);
    var c2 := AddIf(AddIf([], Truthy(f.name), NameLike), Truthy(f.weaponType), TypeIs);
    var c3 := AddIf(c2, true, MasteryAtLeast);
    var c4 := AddIf(c3, f.maxMastery.Some?, MasteryAtMost);
    var c5 := AddIf(c4, f.minDamage.Some?, DamageAtLeast);
    var c6 := AddIf(c5, f.maxDamage.Some?, DamageAtMost);
    var c7 := AddIf(c6, f.minCrit.Some?, CritAtLeast);
    var c8 := AddIf(c7, f.maxCrit.Some?, CritAtMost);
    var c9 := AddIf(c8, f.minStatus.Some?, StatusAtLeast);
    AddIfFacts(c2, true, MasteryAtLeast);
    AddIfFacts(c3, f.maxMastery.Some?, MasteryAtMost);
    AddIfFacts(c4, f.minDamage.Some?, DamageAtLeast);
    AddIfFacts(c5, f.maxDamage.Some?, DamageAtMost);
    AddIfFacts(c6, f.minCrit.Some?, CritAtLeast);
    AddIfFacts(c7, f.maxCrit.Some?, CritAtMost);
    AddIfFacts(c8, f.minStatus.Some?, StatusAtLeast);
    AddIfFacts(c9, f.maxStatus.Some?, StatusAtMost);
  }

  lemma RankKeyAt(i: nat)
    requires i < 12
    ensures Rank(KeyAt(i)) == i
  {
  }

  lemma KeyAtRank(k: Key)
    ensures Rank(k) < 12 && KeyAt(Rank(k)) == k
  {
  }

  /** After `n` turns, exactly the keys among the first `n` that have a
      binding are bound, each to its binding: a later turn never rebinds an
      earlier key. */
  lemma {:induction false} BoundAt(f: Filters, n: nat, k: Key)
    requires n <= 12
    ensures k in Bound(f, n) <==> Rank(k) < n && Binding(f, k).Some?
    ensures k in Bound(f, n) ==> Bound(f, n)[k] == Binding(f, k).value
  {
    if n > 0 {
      BoundAt(f, n - 1, k);
      RankKeyAt(n - 1);
      KeyAtRank(k);
    }
  }

  /** `params` binds exactly the keys `Binding` binds, to the same values. */
  lemma ParamsAt(f: Filters, k: Key)
    ensures k in Params(f) <==> Binding(f, k).Some?
    ensures k in Params(f) ==> Params(f)[k] == Binding(f, k).value
  {
    BoundAt(f, 12, k);
    KeyAtRank(k);
  }

  /** The same for every key at once. */
  lemma ParamsMatchBinding(f: Filters)
    ensures forall k :: k in Params(f) <==> Binding(f, k).Some?
    ensures forall k :: k in Params(f) ==> Params(f)[k] == Binding(f, k).value
  {
    forall k {
      ParamsAt(f, k);
    }
  }

  /** The text of a condition before its placeholder: column and
      comparison. */
  function ConditionHead(k: Key): string
    requires k != Skip && k != Limit
  {
    match k
    case Name => "Name LIKE "
    case Type => "Type = "
    case MinMastery => "MasteryReq >= "
    case MaxMastery => "MasteryReq <= "
    case MinDamage => "TotalDamage >= "
    case MaxDamage => "TotalDamage <= "
    case MinCrit => "CritChance >= "
    case MaxCrit => "CritChance <= "
    case MinStatus => "StatusChance >= "
    case MaxStatus => "StatusChance <= "
  }

  /** Each condition refers to its value by the placeholder of its own key,
      so every placeholder of the WHERE clause names an entry of `params`. */
  lemma ConditionPlaceholder(k: Key)
    requires k != Skip && k != Limit
    ensures ConditionOf(k) == ConditionHead(k) + ":" + Placeholder(k)
  {
    TextConditionTexts();
    DamageConditionTexts();
    ChanceConditionTexts();
  }

  lemma TextConditionTexts()
    ensures ConditionOf(Name) == ConditionHead(Name) + ":" + Placeholder(Name)
    ensures ConditionOf(Type) == ConditionHead(Type) + ":" + Placeholder(Type)
    ensures ConditionOf(MinMastery) == ConditionHead(MinMastery) + ":" + Placeholder(MinMastery)
    ensures ConditionOf(MaxMastery) == ConditionHead(MaxMastery) + ":" + Placeholder(MaxMastery)
  {
  }

  lemma DamageConditionTexts()
    ensures ConditionOf(MinDamage) == ConditionHead(MinDamage) + ":" + Placeholder(MinDamage)
    ensures ConditionOf(MaxDamage) == ConditionHead(MaxDamage) + ":" + Placeholder(MaxDamage)
  {
  }

  lemma ChanceConditionTexts()
    ensures ConditionOf(MinCrit) == ConditionHead(MinCrit) + ":" + Placeholder(MinCrit)
    ensures ConditionOf(MaxCrit) == ConditionHead(MaxCrit) + ":" + Placeholder(MaxCrit)
    ensures ConditionOf(MinStatus) == ConditionHead(MinStatus) + ":" + Placeholder(MinStatus)
    ensures ConditionOf(MaxStatus) == ConditionHead(MaxStatus) + ":" + Placeholder(MaxStatus)
  {
  }

  /** The pagination suffix refers to `:skip` and `:limit`, which are always
      bound. */
  lemma PaginationPlaceholders()
    ensures Pagination == " OFFSET :" + Placeholder(Skip) + " ROWS FETCH NEXT :" + Placeholder(Limit) + " ROWS ONLY"
  {
    assert Placeholder(Skip) == "skip" && Placeholder(Limit) == "limit";
  }

  /** The filter keys in effect among the first `n` in binding order, skip
      and limit excluded. */
  function ActiveUpTo(f: Filters, n: nat): seq<Key>
    requires n <= 12
  {
    if n <= 2 then []
    else ActiveUpTo(f, n - 1) + (if Binding(f, KeyAt(n - 1)).Some? then [KeyAt(n - 1)] else [])
  }

  function Active(f: Filters): seq<Key>
  {
    ActiveUpTo(f, 12)
  }

  lemma {:induction false} ActiveAt(f: Filters, n: nat, k: Key)
    requires n <= 12
    ensures k in ActiveUpTo(f, n) <==> 2 <= Rank(k) < n && Binding(f, k).Some?
  {
    if n > 2 {
      ActiveAt(f, n - 1, k);
      RankKeyAt(n - 1);
      KeyAtRank(k);
    }
  }

  lemma ActiveStep(f: Filters, n: nat)
    requires 2 < n <= 12
    ensures MapSeq(ActiveUpTo(f, n), ConditionOf)
         == AddIf(MapSeq(ActiveUpTo(f, n - 1), ConditionOf), Binding(f, KeyAt(n - 1)).Some?, ConditionOf(KeyAt(n - 1)))
  {
    if Binding(f, KeyAt(n - 1)).Some? {
      MapSeqSnoc(ActiveUpTo(f, n - 1), KeyAt(n - 1), ConditionOf);
    } else {
      assert ActiveUpTo(f, n) == ActiveUpTo(f, n - 1);
    }
  }

  /** The conditions of the first `n` keys in binding order, the same
      fold as `Bound`. */
  function ConditionsUpTo(f: Filters, n: nat): seq<string>
    requires n <= 12
  {
    if n <= 2 then []
    else AddIf(ConditionsUpTo(f, n - 1), Binding(f, KeyAt(n - 1)).Some?, ConditionOf(KeyAt(n - 1)))
  }

  lemma {:induction false} ConditionsUpToActive(f: Filters, n: nat)
    requires n <= 12
    ensures ConditionsUpTo(f, n) == MapSeq(ActiveUpTo(f, n), ConditionOf)
  {
    if n > 2 {
      ConditionsUpToActive(f, n - 1);
      ActiveStep(f, n);
    }
  }

  /** `ConditionsUpTo` unrolled key by key. */
  lemma ConditionsUnrolled(f: Filters)
    ensures ConditionsUpTo(f, 12) == AddIf(AddIf(AddIf(AddIf(AddIf(AddIf(AddIf(AddIf(AddIf(AddIf([], Binding(f, Name).Some?, ConditionOf(Name)), Binding(f, Type).Some?, ConditionOf(Type)), Binding(f, MinMastery).Some?, ConditionOf(MinMastery)), Binding(f, MaxMastery).Some?, ConditionOf(MaxMastery)), Binding(f, MinDamage).Some?, ConditionOf(MinDamage)), Binding(f, MaxDamage).Some?, ConditionOf(MaxDamage)), Binding(f, MinCrit).Some?, ConditionOf(MinCrit)), Binding(f, MaxCrit).Some?, ConditionOf(MaxCrit)), Binding(f, MinStatus).Some?, ConditionOf(MinStatus)), Binding(f, MaxStatus).Some?, ConditionOf(MaxStatus))
  {
    assert ConditionsUpTo(f, 3) == AddIf([], Binding(f, Name).Some?, ConditionOf(Name));
    assert ConditionsUpTo(f, 4) == AddIf(ConditionsUpTo(f, 3), Binding(f, Type).Some?, ConditionOf(Type));
    assert ConditionsUpTo(f, 5) == AddIf(ConditionsUpTo(f, 4), Binding(f, MinMastery).Some?, ConditionOf(MinMastery));
    assert ConditionsUpTo(f, 6) == AddIf(ConditionsUpTo(f, 5), Binding(f, MaxMastery).Some?, ConditionOf(MaxMastery));
    assert ConditionsUpTo(f, 7) == AddIf(ConditionsUpTo(f, 6), Binding(f, MinDamage).Some?, ConditionOf(MinDamage));
    assert ConditionsUpTo(f, 8) == AddIf(ConditionsUpTo(f, 7), Binding(f, MaxDamage).Some?, ConditionOf(MaxDamage));
    assert ConditionsUpTo(f, 9) == AddIf(ConditionsUpTo(f, 8), Binding(f, MinCrit).Some?, ConditionOf(MinCrit));
    assert ConditionsUpTo(f, 10) == AddIf(ConditionsUpTo(f, 9), Binding(f, MaxCrit).Some?, ConditionOf(MaxCrit));
    assert ConditionsUpTo(f, 11) == AddIf(ConditionsUpTo(f, 10), Binding(f, MinStatus).Some?, ConditionOf(MinStatus));
  }

  /** Which filter is in effect for each key, and the condition it adds. */
  lemma KeyGuards(f: Filters)
    ensures Binding(f, Name).Some? == Truthy(f.name)
    ensures Binding(f, Type).Some? == Truthy(f.weaponType)
    ensures Binding(f, MinMastery).Some? == f.minMastery.Some?
    ensures Binding(f, MaxMastery).Some? == f.maxMastery.Some?
    ensures Binding(f, MinDamage).Some? == f.minDamage.Some?
    ensures Binding(f, MaxDamage).Some? == f.maxDamage.Some?
    ensures Binding(f, MinCrit).Some? == f.minCrit.Some?
    ensures Binding(f, MaxCrit).Some? == f.maxCrit.Some?
    ensures Binding(f, MinStatus).Some? == f.minStatus.Some?
    ensures Binding(f, MaxStatus).Some? == f.maxStatus.Some?
  {
  }

  lemma KeyConditions()
    ensures ConditionOf(Name) == NameLike
    ensures ConditionOf(Type) == TypeIs
    ensures ConditionOf(MinMastery) == MasteryAtLeast
    ensures ConditionOf(MaxMastery) == MasteryAtMost
    ensures ConditionOf(MinDamage) == DamageAtLeast
    ensures ConditionOf(MaxDamage) == DamageAtMost
    ensures ConditionOf(MinCrit) == CritAtLeast
    ensures ConditionOf(MaxCrit) == CritAtMost
    ensures ConditionOf(MinStatus) == StatusAtLeast
    ensures ConditionOf(MaxStatus) == StatusAtMost
  {
  }

  /** The WHERE list is the condition of each filter key in effect, one per
      key, in binding order. */
  lemma ConditionsOfActive(f: Filters)
    ensures Conditions(f) == MapSeq(Active(f), ConditionOf)
  {
    ConditionsUnrolled(f);
    KeyGuards(f);
    KeyConditions();
    ConditionsUpToActive(f, 12);
  }

  /** So `params` holds `skip`, `limit` and one entry for each condition in
      effect, under the key whose placeholder that condition names. */
  lemma ParamsMatchConditions(f: Filters)
    ensures Conditions(f) == MapSeq(Active(f), ConditionOf)
    ensures forall k :: k in Params(f) <==> k == Skip || k == Limit || k in Active(f)
  {
    ConditionsOfActive(f);
    forall k
      ensures k in Params(f) <==> k == Skip || k == Limit || k in Active(f)
    {
      ParamsAt(f, k);
      ActiveAt(f, 12, k);
    }
  }

  /** Distinct filters add distinct conditions. */
  lemma ConditionOfInjective(a: Key, b: Key)
    requires a != Skip && a != Limit && b != Skip && b != Limit
    requires ConditionOf(a) == ConditionOf(b)
    ensures a == b
  {
    KeyConditions();
  }

  /** A filter key is bound in `params` iff its condition is in the WHERE
      list. */
  lemma ParamsIffCondition(f: Filters, k: Key)
    requires k != Skip && k != Limit
    ensures k in Params(f) <==> ConditionOf(k) in Conditions(f)
  {
    ParamsMatchConditions(f);
    if ConditionOf(k) in Conditions(f) {
      var j :| 0 <= j < |Active(f)| && Conditions(f)[j] == ConditionOf(k);
      ActiveAt(f, 12, Active(f)[j]);
      ConditionOfInjective(Active(f)[j], k);
    }
  }

  /** Two sets of filters that bind every key alike get the same `params`. */
  lemma ParamsByBinding(f: Filters, g: Filters)
    requires forall k :: Binding(f, k) == Binding(g, k)
    ensures Params(f) == Params(g)
  {
    ParamsMatchBinding(f);
    ParamsMatchBinding(g);
  }

  /** An ORDER BY clause names a whitelisted column or is the default, so no
      caller text enters it. */
  lemma OrderWhitelisted(sort: Option<string>)
    ensures OrderClause(sort) == DefaultOrder
         || exists c :: c in SortFields.Values
              && (OrderClause(sort) == " ORDER BY " + c + " ASC" || OrderClause(sort) == " ORDER BY " + c + " DESC")
  {
    if OrderClause(sort) != DefaultOrder {
      var s := sort.value;
      var key := if s[0] == '-' then s[1..] else s;
      var c := SortColumn(key).value;
      assert c == SortFields[Lower(key)];
      assert c in SortFields.Values;
    }
  }

  /** The sort rules: no key or an empty one keeps the default; a whitelisted
      key sorts ascending, and descending behind a `-`; the `-` is stripped
      once only, so a key with two is unknown; an unknown key keeps the
      default. */
  lemma SortRules(key: string)
    ensures OrderClause(None) == DefaultOrder && OrderClause(Some("")) == DefaultOrder
    ensures SortColumn(key).Some? ==> OrderClause(Some(key)) == " ORDER BY " + SortColumn(key).value + " ASC"
    ensures SortColumn(key).Some? ==> OrderClause(Some("-" + key)) == " ORDER BY " + SortColumn(key).value + " DESC"
    ensures |key| > 0 && key[0] == '-' ==> SortColumn(key).None?
    ensures SortColumn(key).None? ==> OrderClause(Some("-" + key)) == DefaultOrder
    ensures SortColumn(key).None? && (key == [] || key[0] != '-') ==> OrderClause(Some(key)) == DefaultOrder
  {
    var s := "-" + key;
    assert s[0] == '-' && s[1..] == key;
    if SortColumn(key).Some? {
      var k := Lower(key);
      assert k in SortFields;
      assert |k| > 0 && k[0] != '-';
      assert SortFields[k] != "";
    }
    if |key| > 0 && key[0] == '-' {
      assert Lower(key)[0] == '-';
    }
  }
}
