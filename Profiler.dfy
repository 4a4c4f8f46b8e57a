/** profiler.py: turning a hero's API data into gear, stats, skills and the
    intro line.  The item requests and the SQLite multiplier table are
    abstracted: an item request is an oracle, and the table is a map from
    attribute name to multiplier that the gear loop extends. */
module Profiler {
  import opened Wrappers
  import opened Strings
  import opened Lookup

  // ---------------------------------------------------------------------------
  // The attribute min/max rule of get_gear

  /** An attribute's raw `min` and `max` from the API. */
  datatype Range = Range(min: int, max: int)

  /** An item's `attributesRaw`. */
  type Raw = map<string, Range>

  /** The multiplier table: attribute name to multiplier. */
  type Table = map<string, int>

  /** One entry of a slot's `stats` list. */
  datatype StatEntry = StatEntry(name: string, min: int, max: int)

  const BleedChance := "Weapon_On_Hit_Percent_Bleed_Proc_Chance"
  const BleedDamage := "Weapon_On_Hit_Percent_Bleed_Proc_Damage"

  /** The attributes whose max is rebuilt from the matching `Delta` attribute. */
  predicate IsDamageMin(attr: string) {
    Contains(attr, "Damage_Weapon_Min") || Contains(attr, "_Weapon_Bonus_Min") || attr == "Damage_Min"
  }

  /** The name of the `Delta` attribute that goes with a damage-min attribute. */
  function DeltaOf(attr: string): string {
    Replace(attr, "Min", "Delta")
  }

  /** The table once `attr` has been looked up: a missing attribute is
      inserted with multiplier 1, every other row stays. */
  function WithAttr(table: Table, attr: string): (r: Table)
    ensures attr in r && r[attr] == (if attr in table then table[attr] else 1)
    ensures r.Keys == table.Keys + {attr}
    ensures forall a :: a in table ==> r[a] == table[a]
  {
    if attr in table then table else table[attr := 1]
  }

  /** The stat entry for `attr`, scaled by the multipliers of `table`.  A
      damage-min attribute without its `Delta` raises `KeyError`; a bleed
      chance whose bleed damage is present but has no table row raises
      `TypeError`. */
  function StatOf(attr: string, raw: Raw, table: Table): (r: Result<StatEntry>)
    requires attr in table
    ensures r.Raised? <==> attr !in raw
                           || (IsDamageMin(attr) && DeltaOf(attr) !in raw)
                           || (!IsDamageMin(attr) && attr == BleedChance && BleedDamage in raw && BleedDamage !in table)
    ensures r.Ok? ==> r.value.name == attr && r.value.min == raw[attr].min * table[attr]
    ensures r.Ok? && !IsDamageMin(attr) && attr != BleedChance ==> r.value.max == raw[attr].max * table[attr]
  {
    if attr !in raw then Raised(KeyError)
    else
      var m := table[attr];
      var lo := raw[attr].min * m;
      if IsDamageMin(attr) then
        if DeltaOf(attr) !in raw then Raised(KeyError)
        else Ok(StatEntry(attr, lo, raw[DeltaOf(attr)].max * m + lo))
      else if attr == BleedChance then
        if BleedDamage !in raw then Ok(StatEntry(attr, lo, 0))
        else if BleedDamage !in table then Raised(TypeError)
        else Ok(StatEntry(attr, lo, raw[BleedDamage].min * table[BleedDamage]))
      else Ok(StatEntry(attr, lo, raw[attr].max * m))
  }

  /** A damage-min attribute spans from its scaled min to its scaled min plus
      the scaled `Delta` max. */
  lemma DamageSpan(attr: string, raw: Raw, table: Table)
    requires attr in table && attr in raw && IsDamageMin(attr) && DeltaOf(attr) in raw
    ensures StatOf(attr, raw, table).Ok?
    ensures var s := StatOf(attr, raw, table).value;
            s.max - s.min == raw[DeltaOf(attr)].max * table[attr]
  {
  }

  /** A bleed chance reports the scaled bleed damage as its max, or 0 when the
      item has no bleed damage. */
  lemma BleedMax(raw: Raw, table: Table)
    requires BleedChance in table && BleedChance in raw
    ensures BleedDamage !in raw ==> StatOf(BleedChance, raw, table) == Ok(StatEntry(BleedChance, raw[BleedChance].min * table[BleedChance], 0))
    ensures BleedDamage in raw && BleedDamage in table ==>
              StatOf(BleedChance, raw, table) == Ok(StatEntry(BleedChance, raw[BleedChance].min * table[BleedChance],
                                                              raw[BleedDamage].min * table[BleedDamage]))
  {
    BleedIsNotDamageMin();
  }

  /** The bleed chance is not one of the damage-min attributes. */
  lemma BleedIsNotDamageMin()
    ensures !IsDamageMin(BleedChance)
  {
    assert 'M' !in BleedChance;
    MissingChar(BleedChance, "Damage_Weapon_Min", 'M');
    MissingChar(BleedChance, "_Weapon_Bonus_Min", 'M');
  }

  /** Any other attribute keeps its range, scaled; with multiplier 1 (a newly
      inserted attribute) the raw values come through unchanged. */
  lemma PlainScaled(attr: string, raw: Raw, table: Table)
    requires attr in raw && attr !in table && !IsDamageMin(attr) && attr != BleedChance
    ensures StatOf(attr, raw, WithAttr(table, attr)) == Ok(StatEntry(attr, raw[attr].min, raw[attr].max))
  {
  }

  /** The stats of one item: each attribute in turn is looked up (inserted when
      missing) and scaled; the first failure ends the item.  Returns the
      stats and the table after the lookups. */
  function StatsRun(attrs: seq<string>, raw: Raw, table: Table): (Result<seq<StatEntry>>, Table)
    decreases |attrs|
  {
    if |attrs| == 0 then (Ok([]), table)
    else
      var t := WithAttr(table, attrs[0]);
      match StatOf(attrs[0], raw, t)
      case Raised(e) => (Raised(e), t)
      case Ok(s) =>
        var rest := StatsRun(attrs[1..], raw, t);
        (if rest.0.Raised? then rest.0 else Ok([s] + rest.0.value), rest.1)
  }

  /** Successful stats list the attributes in order, each scaled by the final
      table's multiplier. */
  lemma {:induction false} StatsInOrder(attrs: seq<string>, raw: Raw, table: Table)
    requires StatsRun(attrs, raw, table).0.Ok?
    ensures |StatsRun(attrs, raw, table).0.value| == |attrs|
    ensures forall i :: 0 <= i < |attrs| ==> StatsRun(attrs, raw, table).0.value[i].name == attrs[i]
    ensures forall i :: 0 <= i < |attrs| ==>
              (attrs[i] in raw && attrs[i] in StatsRun(attrs, raw, table).1 &&
               StatsRun(attrs, raw, table).0.value[i].min == raw[attrs[i]].min * StatsRun(attrs, raw, table).1[attrs[i]])
    ensures forall i :: 0 <= i < |attrs| && !IsDamageMin(attrs[i]) && attrs[i] != BleedChance ==>
              StatsRun(attrs, raw, table).0.value[i].max == raw[attrs[i]].max * StatsRun(attrs, raw, table).1[attrs[i]]
    decreases |attrs|
  {
    if |attrs| > 0 {
      var t1 := WithAttr(table, attrs[0]);
      var s := StatOf(attrs[0], raw, t1).value;
      var rest := StatsRun(attrs[1..], raw, t1);
      var r := StatsRun(attrs, raw, table);
      assert r.0.value == [s] + rest.0.value && r.1 == rest.1;
      StatsInOrder(attrs[1..], raw, t1);
      TableKeeps(attrs[1..], raw, t1);
      forall i | 0 <= i < |attrs|
        ensures r.0.value[i].name == attrs[i] && attrs[i] in raw && attrs[i] in r.1 &&
                r.0.value[i].min == raw[attrs[i]].min * r.1[attrs[i]]
        ensures !IsDamageMin(attrs[i]) && attrs[i] != BleedChance ==> r.0.value[i].max == raw[attrs[i]].max * r.1[attrs[i]]
      {
        if i > 0 {
          assert r.0.value[i] == rest.0.value[i - 1] && attrs[i] == attrs[1..][i - 1];
        } else {
          assert r.0.value[0] == s && r.1[attrs[0]] == t1[attrs[0]];
        }
      }
    }
  }

  /** The lookups only add rows: every attribute read is in the table
      afterwards, earlier rows keep their multipliers, and new rows hold 1. */
  lemma {:induction false} TableKeeps(attrs: seq<string>, raw: Raw, table: Table)
    ensures var t := StatsRun(attrs, raw, table).1;
            table.Keys <= t.Keys && (forall a :: a in table ==> t[a] == table[a]) &&
            (forall a :: a in t && a !in table ==> t[a] == 1)
    ensures StatsRun(attrs, raw, table).0.Ok? ==> forall i :: 0 <= i < |attrs| ==> attrs[i] in StatsRun(attrs, raw, table).1
    decreases |attrs|
  {
    if |attrs| > 0 {
      TableKeeps(attrs[1..], raw, WithAttr(table, attrs[0]));
    }
  }

  /** The result of running the attributes from `i` on, with `done` already
      computed. */
  function Resume(done: seq<StatEntry>, rest: (Result<seq<StatEntry>>, Table)): (Result<seq<StatEntry>>, Table) {
    (if rest.0.Raised? then rest.0 else Ok(done + rest.0.value), rest.1)
  }

  lemma ResumeNothing(rest: (Result<seq<StatEntry>>, Table))
    ensures Resume([], rest) == rest
  {
    if rest.0.Ok? {
      assert [] + rest.0.value == rest.0.value;
    }
  }

  lemma ResumeStep(done: seq<StatEntry>, s: StatEntry, rest: (Result<seq<StatEntry>>, Table))
    ensures Resume(done, (if rest.0.Raised? then rest.0 else Ok([s] + rest.0.value), rest.1)) == Resume(done + [s], rest)
  {
    if rest.0.Ok? {
      assert done + ([s] + rest.0.value) == done + [s] + rest.0.value;
    }
  }

  /** One attribute of the fold: the stat fails, or leads the rest. */
  lemma StatsRunStep(attrs: seq<string>, raw: Raw, table: Table)
    requires |attrs| > 0
    ensures var t := WithAttr(table, attrs[0]);
            StatOf(attrs[0], raw, t).Raised? ==> StatsRun(attrs, raw, table) == (Raised(StatOf(attrs[0], raw, t).error), t)
    ensures var t := WithAttr(table, attrs[0]);
            var rest := StatsRun(attrs[1..], raw, t);
            StatOf(attrs[0], raw, t).Ok? ==>
              StatsRun(attrs, raw, table) == (if rest.0.Raised? then rest.0 else Ok([StatOf(attrs[0], raw, t).value] + rest.0.value), rest.1)
  {
  }

  /** The attribute loop of `get_gear` for one item. */
  method ItemStats(attrs: seq<string>, raw: Raw, table: Table) returns (r: Result<seq<StatEntry>>, rows: Table)
    ensures (r, rows) == StatsRun(attrs, raw, table)
  {
    var stats: seq<StatEntry> := [];
    rows := table;
    var i := 0;
    assert attrs[0..] == attrs;
    ResumeNothing(StatsRun(attrs, raw, table));
    while i < |attrs|
      invariant 0 <= i <= |attrs|
      invariant StatsRun(attrs, raw, table) == Resume(stats, StatsRun(attrs[i..], raw, rows))
    {
      var attr := attrs[i];
      assert attrs[i..][0] == attr && attrs[i..][1..] == attrs[i + 1..];
      StatsRunStep(attrs[i..], raw, rows);
      rows := WithAttr(rows, attr);
      var s := StatOf(attr, raw, rows);
      if s.Raised? {
        return Raised(s.error), rows;
      }
      ResumeStep(stats, s.value, StatsRun(attrs[i + 1..], raw, rows));
      stats := stats + [s.value];
      i := i + 1;
    }
    assert attrs[i..] == [];
    assert stats + [] == stats;
    r := Ok(stats);
  }

  // ---------------------------------------------------------------------------
  // Gems and the gear loop

  /** One gem: the names of its `attributesRaw` in order, and their values. */
  datatype Gem = Gem(attrs: seq<string>, raw: Raw)

  /** One reported gem value. */
  datatype GemValue = GemValue(attr: string, val: int)

  /** The item answer as the gear loop reads it. */
  datatype ItemData = ItemData(name: string, typeName: string, passives: seq<string>,
                               attrs: seq<string>, raw: Raw, gems: seq<Gem>)

  /** One slot of the result of `get_gear`. */
  datatype GearItem = GearItem(name: string, typeName: string, url: Option<string>, passives: seq<string>,
                               stats: seq<StatEntry>, gems: Option<seq<GemValue>>)

  /** A passive text with every whitespace run turned into one space. */
  function Normalised(text: string): (r: string)
    ensures Words(r) == Words(text)
  {
    WordsJoin(Words(text));
    Join(Words(text), " ")
  }

  /** Normalising twice is normalising once. */
  lemma NormalisedIdempotent(text: string)
    ensures Normalised(Normalised(text)) == Normalised(text)
  {
  }

  /** The values of one gem's attributes: max times the multiplier; an
      attribute without a table row raises `TypeError` (no row is inserted). */
  function GemRun(attrs: seq<string>, raw: Raw, table: Table): (r: Result<seq<GemValue>>)
    ensures r.Ok? ==> |r.value| == |attrs| &&
                      forall i :: 0 <= i < |attrs| ==> attrs[i] in raw && attrs[i] in table && r.value[i] == GemValue(attrs[i], raw[attrs[i]].max * table[attrs[i]])
    ensures r.Raised? <==> exists i :: 0 <= i < |attrs| && (attrs[i] !in raw || attrs[i] !in table)
    decreases |attrs|
  {
    if |attrs| == 0 then Ok([])
    else if attrs[0] !in raw then Raised(KeyError)
    else if attrs[0] !in table then Raised(TypeError)
    else
      var rest := GemRun(attrs[1..], raw, table);
      assert forall i :: 1 <= i < |attrs| ==> attrs[i] == attrs[1..][i - 1];
      if rest.Raised? then rest
      else Ok([GemValue(attrs[0], raw[attrs[0]].max * table[attrs[0]])] + rest.value)
  }

  /** All gems of an item, in order. */
  function GemsRun(gems: seq<Gem>, table: Table): Result<seq<GemValue>>
    decreases |gems|
  {
    if |gems| == 0 then Ok([])
    else
      match GemRun(gems[0].attrs, gems[0].raw, table)
      case Raised(e) => Raised(e)
      case Ok(vs) =>
        match GemsRun(gems[1..], table)
        case Raised(e) => Raised(e)
        case Ok(ws) => Ok(vs + ws)
  }

  /** A legendary or set item gets its page url, any other item none. */
  function ItemUrl(item: ItemData, urlOf: ItemData -> string): (r: Option<string>)
    ensures r.Some? <==> Contains(item.typeName, "Legendary") || Contains(item.typeName, "Set")
  {
    if Contains(item.typeName, "Legendary") || Contains(item.typeName, "Set") then Some(urlOf(item)) else None
  }

  /** The gear entry of one item, and the table after it. */
  function GearOf(item: ItemData, urlOf: ItemData -> string, table: Table): (Result<GearItem>, Table) {
    var (stats, t) := StatsRun(item.attrs, item.raw, table);
    if stats.Raised? then (Raised(stats.error), t)
    else if |item.gems| == 0 then
      (Ok(GearItem(item.name, item.typeName, ItemUrl(item, urlOf), seq(|item.passives|, i requires 0 <= i < |item.passives| => Normalised(item.passives[i])),
                   stats.value, None)), t)
    else
      match GemsRun(item.gems, t)
      case Raised(e) => (Raised(e), t)
      case Ok(vs) =>
        (Ok(GearItem(item.name, item.typeName, ItemUrl(item, urlOf), seq(|item.passives|, i requires 0 <= i < |item.passives| => Normalised(item.passives[i])),
                     stats.value, Some(vs))), t)
  }

  /** `get_gear` over the slots in iteration order (slot name and tooltip
      string): the first item request that gives nothing makes the result
      `None`; a failure while reading an item raises. */
  function GearRun(slots: seq<(string, string)>, lookup: string -> Option<ItemData>, urlOf: ItemData -> string,
                   table: Table, gear: map<string, GearItem>): (Result<Option<map<string, GearItem>>>, Table)
    decreases |slots|
  {
    if |slots| == 0 then (Ok(Some(gear)), table)
    else
      var (slot, tooltip) := slots[0];
      match lookup(tooltip)
      case None => (Ok(None), table)
      case Some(item) =>
        var (g, t) := GearOf(item, urlOf, table);
        if g.Raised? then (Raised(g.error), t)
        else GearRun(slots[1..], lookup, urlOf, t, gear[slot := g.value])
  }

  /** A failed item request anywhere makes the gear `None` (or an earlier
      item raised). */
  lemma {:induction false} FailedLookupGivesNone(slots: seq<(string, string)>, lookup: string -> Option<ItemData>, urlOf: ItemData -> string,
                                                 table: Table, gear: map<string, GearItem>, k: nat)
    requires k < |slots| && lookup(slots[k].1).None?
    ensures GearRun(slots, lookup, urlOf, table, gear).0.Ok? ==> GearRun(slots, lookup, urlOf, table, gear).0.value.None?
    decreases |slots|
  {
    if k > 0 && lookup(slots[0].1).Some? {
      var (g, t) := GearOf(lookup(slots[0].1).value, urlOf, table);
      if g.Ok? {
        FailedLookupGivesNone(slots[1..], lookup, urlOf, t, gear[slots[0].0 := g.value], k - 1);
      }
    }
  }

  /** The slot names of a slot list. */
  function SlotNames(slots: seq<(string, string)>): set<string> {
    set i | 0 <= i < |slots| :: slots[i].0
  }

  lemma SlotNamesCons(slots: seq<(string, string)>)
    requires |slots| > 0
    ensures SlotNames(slots) == {slots[0].0} + SlotNames(slots[1..])
  {
    forall x | x in SlotNames(slots) ensures x in {slots[0].0} + SlotNames(slots[1..]) {
      var i :| 0 <= i < |slots| && slots[i].0 == x;
      if i > 0 {
        assert slots[1..][i - 1].0 == x;
      }
    }
    forall x | x in SlotNames(slots[1..]) ensures x in SlotNames(slots) {
      var i :| 0 <= i < |slots[1..]| && slots[1..][i].0 == x;
      assert slots[i + 1].0 == x;
    }
  }

  /** Gear that comes back holds every slot it was given (and those it
      started with). */
  lemma {:induction false} GearHasEverySlot(slots: seq<(string, string)>, lookup: string -> Option<ItemData>, urlOf: ItemData -> string,
                                            table: Table, gear: map<string, GearItem>)
    requires GearRun(slots, lookup, urlOf, table, gear).0.Ok? && GearRun(slots, lookup, urlOf, table, gear).0.value.Some?
    ensures GearRun(slots, lookup, urlOf, table, gear).0.value.value.Keys == gear.Keys + SlotNames(slots)
    decreases |slots|
  {
    if |slots| > 0 {
      var (g, t) := GearOf(lookup(slots[0].1).value, urlOf, table);
      var gear1 := gear[slots[0].0 := g.value];
      GearHasEverySlot(slots[1..], lookup, urlOf, t, gear1);
      SlotNamesCons(slots);
    }
  }

  /** The slot loop of `get_gear`. */
  method GetGear(slots: seq<(string, string)>, lookup: string -> Option<ItemData>, urlOf: ItemData -> string, table: Table)
    returns (r: Result<Option<map<string, GearItem>>>, rows: Table)
    ensures (r, rows) == GearRun(slots, lookup, urlOf, table, map[])
  {
    var gear: map<string, GearItem> := map[];
    rows := table;
    var i := 0;
    while i < |slots|
      invariant 0 <= i <= |slots|
      invariant GearRun(slots, lookup, urlOf, table, map[]) == GearRun(slots[i..], lookup, urlOf, rows, gear)
    {
      var (slot, tooltip) := slots[i];
      assert slots[i..][0] == slots[i] && slots[i..][1..] == slots[i + 1..];
      var item := lookup(tooltip);
      if item.None? {
        return Ok(None), rows;
      }
      var entry, t2 := GearEntry(item.value, urlOf, rows);
      rows := t2;
      if entry.Raised? {
        return Raised(entry.error), rows;
      }
      gear := gear[slot := entry.value];
      i := i + 1;
    }
    return Ok(Some(gear)), rows;
  }

  /** The body of the slot loop for one item: stats, then gems. */
  method GearEntry(item: ItemData, urlOf: ItemData -> string, table: Table) returns (r: Result<GearItem>, rows: Table)
    ensures (r, rows) == GearOf(item, urlOf, table)
  {
    var stats;
    stats, rows := ItemStats(item.attrs, item.raw, table);
    if stats.Raised? {
      return Raised(stats.error), rows;
    }
    var passives := seq(|item.passives|, i requires 0 <= i < |item.passives| => Normalised(item.passives[i]));
    var url := ItemUrl(item, urlOf);
    if |item.gems| == 0 {
      return Ok(GearItem(item.name, item.typeName, url, passives, stats.value, None)), rows;
    }
    var gems := GemsRun(item.gems, rows);
    if gems.Raised? {
      return Raised(gems.error), rows;
    }
    return Ok(GearItem(item.name, item.typeName, url, passives, stats.value, Some(gems.value))), rows;
  }

  // ---------------------------------------------------------------------------
  // get_stats_from_gear

  /** The sum of `min` over the stats named `name` in one slot. */
  function RowSum(stats: seq<StatEntry>, name: string): int
    decreases |stats|
  {
    if |stats| == 0 then 0 else (if stats[0].name == name then stats[0].min else 0) + RowSum(stats[1..], name)
  }

  /** The sum of `min` over the stats named `name` in all slots. */
  function GearSum(slots: seq<seq<StatEntry>>, name: string): int
    decreases |slots|
  {
    if |slots| == 0 then 0 else RowSum(slots[0], name) + GearSum(slots[1..], name)
  }

  lemma {:induction false} RowSumSnoc(stats: seq<StatEntry>, s: StatEntry, name: string)
    ensures RowSum(stats + [s], name) == RowSum(stats, name) + (if s.name == name then s.min else 0)
    decreases |stats|
  {
    if |stats| == 0 {
      assert stats + [s] == [s];
    } else {
      assert (stats + [s])[1..] == stats[1..] + [s];
      RowSumSnoc(stats[1..], s, name);
    }
  }

  /** Adding the slots in two groups gives the sum of the groups, so the order
      in which the slots are visited does not matter. */
  lemma {:induction false} GearSumAppend(a: seq<seq<StatEntry>>, b: seq<seq<StatEntry>>, name: string)
    ensures GearSum(a + b, name) == GearSum(a, name) + GearSum(b, name)
    decreases |a|
  {
    if |a| == 0 {
      assert a + b == b;
    } else {
      assert (a + b)[1..] == a[1..] + b;
      GearSumAppend(a[1..], b, name);
    }
  }

  /** A slot with no stat of that name adds nothing. */
  lemma {:induction false} RowSumOther(stats: seq<StatEntry>, name: string)
    requires forall i :: 0 <= i < |stats| ==> stats[i].name != name
    ensures RowSum(stats, name) == 0
    decreases |stats|
  {
    if |stats| > 0 {
      RowSumOther(stats[1..], name);
    }
  }

  /** The configured stat names: the `gear_stats` setting split on commas. */
  function StatNames(setting: string): set<string> {
    set i | 0 <= i < |Split(setting, ',')| :: Split(setting, ',')[i]
  }

  /** `get_stats_from_gear`: for each configured name, the sum of `min` over
      all slots' stats with that name; `slots` are the slots' stats lists in
      iteration order. */
  method GetStatsFromGear(slots: seq<seq<StatEntry>>, setting: string) returns (r: map<string, int>)
    ensures r.Keys == StatNames(setting)
    ensures forall k :: k in r ==> r[k] == GearSum(slots, k)
  {
    var names := StatNames(setting);
    r := map k | k in names :: 0;
    var i := 0;
    while i < |slots|
      invariant 0 <= i <= |slots|
      invariant r.Keys == names
      invariant forall k :: k in r ==> r[k] == GearSum(slots[..i], k)
    {
      var row := slots[i];
      var j := 0;
      while j < |row|
        invariant 0 <= j <= |row|
        invariant r.Keys == names
        invariant forall k :: k in r ==> r[k] == GearSum(slots[..i], k) + RowSum(row[..j], k)
      {
        var stat := row[j];
        assert row[..j + 1] == row[..j] + [stat];
        forall k ensures RowSum(row[..j + 1], k) == RowSum(row[..j], k) + (if stat.name == k then stat.min else 0) {
          RowSumSnoc(row[..j], stat, k);
        }
        if stat.name in r {
          r := r[stat.name := r[stat.name] + stat.min];
        }
        j := j + 1;
      }
      assert row[..j] == row;
      assert slots[..i + 1] == slots[..i] + [row];
      forall k ensures GearSum(slots[..i + 1], k) == GearSum(slots[..i], k) + RowSum(row, k) {
        GearSumAppend(slots[..i], [row], k);
      }
      i := i + 1;
    }
    assert slots[..i] == slots;
  }

  // ---------------------------------------------------------------------------
  // Skills

  /** A skill reference: its name and its tooltip url `skill/<class>/<skill>`. */
  datatype Skill = Skill(name: string, tooltipUrl: string)

  /** One active slot: the skill, and the rune when the slot has one. */
  datatype Active = Active(skill: Skill, rune: Option<string>)

  /** One entry of the skills result; every part is `None` for an empty slot. */
  datatype SkillEntry = SkillEntry(name: Option<string>, rune: Option<string>, url: Option<string>)

  datatype Skills = Skills(active: seq<SkillEntry>, passive: seq<SkillEntry>)

  /** `_get_skill_url`: the base, `/class/`, the class segment of the tooltip,
      the skill type and the skill segment; a tooltip with fewer than three
      `/`-separated parts raises `IndexError`. */
  function SkillUrl(baseUrl: string, region: string, tooltip: string, kind: string): (r: Result<string>)
    ensures r.Raised? <==> |Split(tooltip, '/')| < 3
    ensures r.Raised? ==> r.error == IndexError
  {
    var parts := Split(tooltip, '/');
    if |parts| < 3 then Raised(IndexError)
    else Ok(ApiUrl(baseUrl, region, "/class/" + parts[1] + "/" + kind + "/" + parts[2]))
  }

  /** A tooltip of the documented form `skill/<class>/<skill>` gives the class
      and skill pages back. */
  lemma SkillUrlOfTooltip(baseUrl: string, region: string, head: string, cls: string, skill: string, kind: string)
    requires '/' !in head && '/' !in cls && '/' !in skill
    ensures SkillUrl(baseUrl, region, head + "/" + cls + "/" + skill, kind)
            == Ok(ApiUrl(baseUrl, region, "/class/" + cls + "/" + kind + "/" + skill))
  {
    var t := head + "/" + cls + "/" + skill;
    assert t == head + ['/'] + (cls + ['/'] + skill);
    SplitAfterFirst(head, '/', cls + ['/'] + skill);
    SplitAfterFirst(cls, '/', skill);
    SplitNone(skill, '/');
  }

  /** The entry of an active slot. */
  function ActiveEntry(a: Option<Active>, baseUrl: string, region: string): (r: Result<SkillEntry>)
    ensures a.None? ==> r == Ok(SkillEntry(None, None, None))
    ensures a.Some? && r.Ok? ==> r.value.name == Some(a.value.skill.name) && r.value.rune == a.value.rune && r.value.url.Some?
  {
    match a
    case None => Ok(SkillEntry(None, None, None))
    case Some(x) =>
      match SkillUrl(baseUrl, region, x.skill.tooltipUrl, "active")
      case Raised(e) => Raised(e)
      case Ok(u) => Ok(SkillEntry(Some(x.skill.name), x.rune, Some(u)))
  }

  /** The entry of a passive slot (passives have no rune). */
  function PassiveEntry(p: Option<Skill>, baseUrl: string, region: string): (r: Result<SkillEntry>)
    ensures p.None? ==> r == Ok(SkillEntry(None, None, None))
    ensures p.Some? && r.Ok? ==> r.value.name == Some(p.value.name) && r.value.rune.None? && r.value.url.Some?
  {
    match p
    case None => Ok(SkillEntry(None, None, None))
    case Some(x) =>
      match SkillUrl(baseUrl, region, x.tooltipUrl, "passive")
      case Raised(e) => Raised(e)
      case Ok(u) => Ok(SkillEntry(Some(x.name), None, Some(u)))
  }

  /** `get_skills`: one entry per active slot and per passive slot, in order;
      an empty slot gives an entry of `None`s.  The first slot whose url
      cannot be built raises. */
  method GetSkills(active: seq<Option<Active>>, passive: seq<Option<Skill>>, baseUrl: string, region: string)
    returns (r: Result<Skills>)
    ensures r.Ok? ==> |r.value.active| == |active| && |r.value.passive| == |passive|
    ensures r.Ok? ==> forall i :: 0 <= i < |active| ==> Ok(r.value.active[i]) == ActiveEntry(active[i], baseUrl, region)
    ensures r.Ok? ==> forall i :: 0 <= i < |passive| ==> Ok(r.value.passive[i]) == PassiveEntry(passive[i], baseUrl, region)
    ensures r.Raised? <==> (exists i :: 0 <= i < |active| && ActiveEntry(active[i], baseUrl, region).Raised?)
                           || (exists i :: 0 <= i < |passive| && PassiveEntry(passive[i], baseUrl, region).Raised?)
  {
    var acts: seq<SkillEntry> := [];
    var i := 0;
    while i < |active|
      invariant 0 <= i <= |active| && |acts| == i
      invariant forall j :: 0 <= j < i ==> Ok(acts[j]) == ActiveEntry(active[j], baseUrl, region)
    {
      var e := ActiveEntry(active[i], baseUrl, region);
      if e.Raised? {
        return Raised(e.error);
      }
      acts := acts + [e.value];
      i := i + 1;
    }
    var pass: seq<SkillEntry> := [];
    i := 0;
    while i < |passive|
      invariant 0 <= i <= |passive| && |pass| == i
      invariant forall j :: 0 <= j < i ==> Ok(pass[j]) == PassiveEntry(passive[j], baseUrl, region)
    {
      var e := PassiveEntry(passive[i], baseUrl, region);
      if e.Raised? {
        return Raised(e.error);
      }
      pass := pass + [e.value];
      i := i + 1;
    }
    return Ok(Skills(acts, pass));
  }

  // ---------------------------------------------------------------------------
  // The hero page and the intro

  /** The hero fields the intro reads. */
  datatype HeroData = HeroData(name: string, profile: string, id: string, heroClass: string,
                               hardcore: bool, level: int, paragonLevel: int)

  datatype Intro = Intro(name: string, url: string, heroClass: string, hardcore: string, level: int, paragonLevel: int)

  /** `_get_hero_url`: the base, then `/profile/<profile>/hero/<id>`. */
  function HeroUrl(baseUrl: string, region: string, hero: HeroData): (r: string)
    ensures var path := "/profile/" + hero.profile + "/hero/" + hero.id;
      |path| <= |r| && r[|r| - |path|..] == path
    ensures var path := "/profile/" + hero.profile + "/hero/" + hero.id;
      !Contains(baseUrl, "{region}") ==> r == baseUrl + path
    ensures var path := "/profile/" + hero.profile + "/hero/" + hero.id;
      forall i: nat :: MatchAt(baseUrl, "{region}", i) && '{' !in baseUrl[..i] && '{' !in baseUrl[i + 8..] ==>
        r == baseUrl[..i] + region + baseUrl[i + 8..] + path
  {
    ApiUrl(baseUrl, region, "/profile/" + hero.profile + "/hero/" + hero.id)
  }

  /** The class as displayed: title case with hyphens turned into spaces. */
  function DisplayClass(heroClass: string): (r: string)
    ensures '-' !in r
  {
    Replace(Title(heroClass), "-", " ")
  }

  /** Displaying a class keeps its length and puts a space exactly where the
      title-cased class had a hyphen. */
  lemma DisplayClassShape(heroClass: string)
    ensures DisplayClass(heroClass) == SwapChar(Title(heroClass), '-', ' ')
    ensures |DisplayClass(heroClass)| == |heroClass|
  {
    ReplaceChar(Title(heroClass), '-', ' ');
  }

  /** `get_intro_info`. */
  function IntroInfo(baseUrl: string, region: string, hero: HeroData): (r: Intro)
    ensures r.hardcore == "Hardcore" <==> hero.hardcore
    ensures !hero.hardcore ==> r.hardcore == ""
    ensures r.name == hero.name && r.level == hero.level && r.paragonLevel == hero.paragonLevel
    ensures r.heroClass == DisplayClass(hero.heroClass) && '-' !in r.heroClass
    ensures r.url == HeroUrl(baseUrl, region, hero)
  {
    Intro(hero.name, HeroUrl(baseUrl, region, hero), DisplayClass(hero.heroClass),
          if hero.hardcore then "Hardcore" else "", hero.level, hero.paragonLevel)
  }
}
