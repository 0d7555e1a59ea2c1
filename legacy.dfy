/**
 * The older single-file layout. A group does not stack below the groups
 * already shown; it takes a slot: its category's anchor plus `group_index`
 * fixed strides, where `group_index` counts the retained groups with the
 * same (category, monster name). Slots therefore come free again once the
 * groups holding them fade out. The rows and the totals row are placed as
 * in the modular layout; the totals row does not advance the running height.
 */
module Legacy {
  import opened Wrappers
  import opened Events
  import opened Layout
  import opened Grouping

  // ---------------------------------------------------------------------
  // Slots
  // ---------------------------------------------------------------------

  /**
   * The fixed distance between two slots of a category: an icon row, the
   * totals font size and the name label font size, with three paddings.
   */
  function Stride(style: CategoryStyle, padding: nat): (s: nat)
    ensures s >= style.iconHeight + style.totalFontSize + style.monsterNameFontSize
    ensures s >= 3 * padding
  {
    style.iconHeight + padding + style.totalFontSize + style.monsterNameFontSize + 2 * padding
  }

  /** The name label's height in slot `index` of `category`. */
  function SlotTop(config: Config, category: string, index: nat): (y: int)
    requires category in config.spellCategories
    ensures y >= Anchor(config, category).y
  {
    Anchor(config, category).y + index * Stride(config.spellCategories[category], config.padding)
  }

  /** Slot 0 is the anchor itself, and each next slot lies one stride lower. */
  lemma SlotsAreStrideApart(config: Config, category: string, index: nat)
    requires category in config.spellCategories
    ensures SlotTop(config, category, 0) == Anchor(config, category).y
    ensures SlotTop(config, category, index + 1)
      == SlotTop(config, category, index) + Stride(config.spellCategories[category], config.padding)
  {
    var s := Stride(config.spellCategories[category], config.padding);
    assert (index + 1) * s == index * s + s;
  }

  /** Higher slots lie strictly lower on screen whenever the stride is not zero. */
  lemma {:induction false} SlotsAreOrdered(config: Config, category: string, i: nat, j: nat)
    requires category in config.spellCategories
    requires Stride(config.spellCategories[category], config.padding) > 0
    requires i < j
    ensures SlotTop(config, category, i) < SlotTop(config, category, j)
    decreases j - i
  {
    SlotsAreStrideApart(config, category, i);
    if i + 1 < j {
      SlotsAreOrdered(config, category, i + 1, j);
    }
  }

  /** The number of `groups` with key `k`. */
  function SameKeyCount(groups: seq<GroupIndicator>, k: Key): (n: nat)
  {
    if groups == [] then 0
    else
      var g := groups[|groups| - 1];
      SameKeyCount(groups[..|groups| - 1], k) + (if g.category == k.category && g.monsterName == k.monsterName then 1 else 0)
  }

  /** Groups of other keys do not change the count. */
  lemma {:induction false} SameKeyCountOtherKeys(groups: seq<GroupIndicator>, others: seq<GroupIndicator>, k: Key)
    requires forall j | 0 <= j < |others| :: others[j].category != k.category || others[j].monsterName != k.monsterName
    ensures SameKeyCount(groups + others, k) == SameKeyCount(groups, k)
    decreases |others|
  {
    if others == [] {
      assert groups + others == groups;
    } else {
      var n := |others| - 1;
      assert (groups + others)[..|groups + others| - 1] == groups + others[..n];
      SameKeyCountOtherKeys(groups, others[..n], k);
    }
  }

  /** A key none of whose groups is retained starts again at slot 0. */
  lemma {:induction false} NoSameKeyGroupMeansSlotZero(groups: seq<GroupIndicator>, k: Key)
    requires forall j | 0 <= j < |groups| :: groups[j].category != k.category || groups[j].monsterName != k.monsterName
    ensures SameKeyCount(groups, k) == 0
  {
    if groups != [] {
      NoSameKeyGroupMeansSlotZero(groups[..|groups| - 1], k);
    }
  }

  /** The summing loop of `init_group`: the damage of the group's damage events. */
  method SumDamage(events: seq<Event>) returns (total: int)
    ensures total == TotalDamage(events)
  {
    total := 0;
    for i := 0 to |events|
      invariant total == TotalDamage(events[..i])
    {
      assert events[..i + 1][..i] == events[..i];
      if events[i].Damage? {
        total := total + events[i].damage;
      }
    }
    assert events[..|events|] == events;
  }

  /** The comprehension behind `group_index`: how many of `groups` carry key `k`. */
  method CountSameKey(groups: seq<GroupIndicator>, k: Key) returns (n: nat)
    ensures n == SameKeyCount(groups, k)
  {
    n := 0;
    for i := 0 to |groups|
      invariant n == SameKeyCount(groups[..i], k)
    {
      assert groups[..i + 1][..i] == groups[..i];
      if groups[i].category == k.category && groups[i].monsterName == k.monsterName {
        n := n + 1;
      }
    }
    assert groups[..|groups|] == groups;
  }

  // ---------------------------------------------------------------------
  // The group object
  // ---------------------------------------------------------------------

  class GroupIndicator {
    const damageEvents: seq<Event>
    const groupIndex: nat
    const config: Config
    const metrics: Metrics
    const category: string
    const monsterName: string
    const monsterLabel: Widget
    const indicators: seq<Widget>
    const totalLabel: Option<Widget>

    /** Where the group's elements stand, as `init_group` placed them. */
    ghost predicate Valid() {
      category in config.spellCategories &&
      var anchor := Anchor(config, category);
      var top := SlotTop(config, category, groupIndex);
      var rowsTop := top + monsterLabel.height + config.padding;
      var rows := Rows(damageEvents, category, config, metrics);
      && monsterLabel.content == MonsterName(monsterName, category)
      && monsterLabel.x == anchor.x
      && monsterLabel.y == top
      && monsterLabel.height == metrics.heightOf(MonsterName(monsterName, category))
      && Stacked(indicators, rows, anchor.x, rowsTop, config.padding, metrics)
      && (totalLabel.Some? <==> DamageCount(damageEvents) >= 2)
      && (totalLabel.Some? ==>
        && totalLabel.value.content == TotalRow(TotalDamage(damageEvents), monsterName, category)
        && totalLabel.value.x == anchor.x
        && totalLabel.value.y == rowsTop + RowsSpan(rows, metrics, config.padding)
        && totalLabel.value.height == metrics.heightOf(totalLabel.value.content))
    }

    /** The widgets the group owns. */
    ghost function Elements(): set<Widget> {
      {monsterLabel} + (set w | w in indicators) + (if totalLabel.Some? then {totalLabel.value} else {})
    }

    /** The group is alive while every element it owns is still shown. */
    ghost predicate Active()
      reads Elements()
    {
      AllShown(monsterLabel, indicators, totalLabel)
    }

    /** `init_group`: the name label in slot `groupIndex`, then the rows, then the totals row. */
    constructor (damageEvents: seq<Event>, groupIndex: nat, config: Config, category: string,
                 monsterName: string, metrics: Metrics)
      requires category in config.spellCategories
      ensures Valid()
      ensures this.damageEvents == damageEvents && this.groupIndex == groupIndex
      ensures this.config == config && this.metrics == metrics
      ensures this.category == category && this.monsterName == monsterName
      ensures fresh(Elements()) && Active()
    {
      var anchor := Anchor(config, category);
      var style := config.spellCategories[category];
      var labelY := anchor.y + groupIndex * Stride(style, config.padding);
      var nameLabel := new Widget.Show(MonsterName(monsterName, category), anchor.x, labelY, metrics.heightOf(MonsterName(monsterName, category)));
      var currentY := labelY + nameLabel.height + config.padding;
      var rows;
      rows, currentY := PlaceRows(damageEvents, category, config, metrics, anchor.x, currentY);
      var categoryDamage := SumDamage(damageEvents);
      var total: Option<Widget> := None;
      if DamageCount(damageEvents) >= 2 {
        var content := TotalRow(categoryDamage, monsterName, category);
        var t := new Widget.Show(content, anchor.x, currentY, metrics.heightOf(content));
        total := Some(t);
      }
      this.damageEvents := damageEvents;
      this.groupIndex := groupIndex;
      this.config := config;
      this.metrics := metrics;
      this.category := category;
      this.monsterName := monsterName;
      monsterLabel := nameLabel;
      indicators := rows;
      totalLabel := total;
    }

    /** `is_active`: true exactly when every element is still visible. */
    method IsActive() returns (active: bool)
      ensures active == Active()
    {
      active := CheckActive(monsterLabel, indicators, totalLabel);
    }
  }

  /**
   * The slot depends on the category and the index only: groups of
   * different subjects with the same index in one category put their name
   * labels at the same place.
   */
  lemma SameSlotSamePlace(g: GroupIndicator, h: GroupIndicator)
    requires g.Valid() && h.Valid()
    requires g.config == h.config && g.category == h.category && g.groupIndex == h.groupIndex
    ensures g.monsterLabel.x == h.monsterLabel.x && g.monsterLabel.y == h.monsterLabel.y
  {
  }

  /**
   * Two subjects of one category in the same batch, neither with a retained
   * group, both get index 0: their name labels land on the same spot.
   */
  lemma BatchLabelsCollide(groups0: seq<GroupIndicator>, placed: seq<GroupIndicator>, keys: seq<Key>,
                           events: seq<Event>, config: Config, m: Metrics, i: nat, j: nat)
    requires BatchState(groups0 + placed, groups0, placed, keys, events)
    requires AllPlaced(groups0 + placed, config, m)
    requires Distinct(keys) && i < j < |placed| && keys[i].category == keys[j].category
    requires forall n | 0 <= n < |groups0| :: groups0[n].category != keys[i].category
    ensures placed[i].category == placed[j].category && placed[i].monsterName != placed[j].monsterName
    ensures placed[i].monsterLabel.x == placed[j].monsterLabel.x
    ensures placed[i].monsterLabel.y == placed[j].monsterLabel.y
  {
    NoSameKeyGroupMeansSlotZero(groups0, keys[i]);
    NoSameKeyGroupMeansSlotZero(groups0, keys[j]);
    assert (groups0 + placed)[|groups0| + i] == placed[i];
    assert (groups0 + placed)[|groups0| + j] == placed[j];
    SameSlotSamePlace(placed[i], placed[j]);
  }

  // ---------------------------------------------------------------------
  // Clean-up
  // ---------------------------------------------------------------------

  /** The widgets the groups own. */
  ghost function Elems(gs: seq<GroupIndicator>): set<Widget> {
    if gs == [] then {} else Elems(gs[..|gs| - 1]) + gs[|gs| - 1].Elements()
  }

  lemma {:induction false} ElemsAllocated(gs: seq<GroupIndicator>)
    ensures forall w | w in Elems(gs) :: allocated(w)
  {
    if gs != [] {
      ElemsAllocated(gs[..|gs| - 1]);
    }
  }

  /** The groups of `gs` whose elements are all still shown, in order. */
  ghost function ActiveGroups(gs: seq<GroupIndicator>): seq<GroupIndicator>
    reads Elems(gs)
  {
    if gs == [] then []
    else
      assert Elems(gs[..|gs| - 1]) <= Elems(gs);
      ActiveGroups(gs[..|gs| - 1]) + (if gs[|gs| - 1].Active() then [gs[|gs| - 1]] else [])
  }

  /** A group survives clean-up exactly when it is active, and survivors come from `gs`. */
  lemma {:induction false} ActiveGroupsMembers(gs: seq<GroupIndicator>)
    ensures forall g :: g in ActiveGroups(gs) <==> g in gs && g.Active()
    ensures forall i | 0 <= i < |ActiveGroups(gs)| :: ActiveGroups(gs)[i] in gs
  {
    if gs != [] {
      var prefix := gs[..|gs| - 1];
      ActiveGroupsMembers(prefix);
      assert gs == prefix + [gs[|gs| - 1]];
    }
  }

  /** The clean-up loop: the groups whose `is_active` holds, in order. */
  method FilterActive(gs: seq<GroupIndicator>) returns (active: seq<GroupIndicator>)
    ensures active == ActiveGroups(gs)
  {
    active := [];
    for i := 0 to |gs|
      invariant active == ActiveGroups(gs[..i])
    {
      assert gs[..i + 1][..i] == gs[..i];
      assert gs[..i + 1][i] == gs[i];
      ElemsAllocated(gs[..i]);
      var isActive := gs[i].IsActive();
      if isActive {
        active := active + [gs[i]];
      }
    }
    assert gs[..|gs|] == gs;
  }

  // ---------------------------------------------------------------------
  // The window
  // ---------------------------------------------------------------------

  /** Every group is placed as `init_group` places it, with the window's configuration. */
  ghost predicate AllPlaced(groups: seq<GroupIndicator>, config: Config, m: Metrics) {
    forall i | 0 <= i < |groups| :: groups[i].Valid() && groups[i].config == config && groups[i].metrics == m
  }

  /**
   * Halfway through a batch: the window's groups are those from before plus
   * the ones `placed` so far, which follow the batch's keys and sit in the
   * slot after their key's retained groups.
   */
  ghost predicate BatchState(groups: seq<GroupIndicator>, groups0: seq<GroupIndicator>,
                             placed: seq<GroupIndicator>, keys: seq<Key>, events: seq<Event>) {
    && groups == groups0 + placed
    && |placed| <= |keys|
    && forall j | 0 <= j < |placed| ::
      && placed[j].category == keys[j].category
      && placed[j].monsterName == keys[j].monsterName
      && placed[j].damageEvents == Bucket(events, keys[j])
      && placed[j].groupIndex == SameKeyCount(groups0, keys[j])
  }

  /** The next key's group, in the slot after its key's retained groups, keeps the batch state. */
  lemma BatchStep(groups: seq<GroupIndicator>, groups0: seq<GroupIndicator>,
                  placed: seq<GroupIndicator>, keys: seq<Key>, events: seq<Event>, g: GroupIndicator)
    requires BatchState(groups, groups0, placed, keys, events)
    requires Distinct(keys) && |placed| < |keys|
    requires g.category == keys[|placed|].category && g.monsterName == keys[|placed|].monsterName
    requires g.damageEvents == Bucket(events, keys[|placed|])
    requires g.groupIndex == SameKeyCount(groups, keys[|placed|])
    ensures BatchState(groups + [g], groups0, placed + [g], keys, events)
  {
    SameKeyCountOtherKeys(groups0, placed, keys[|placed|]);
  }

  class OverlayWindow {
    const config: Config
    const metrics: Metrics
    var groups: seq<GroupIndicator>

    ghost predicate Valid()
      reads this
    {
      AllPlaced(groups, config, metrics)
    }

    /** A window with no groups. */
    constructor (config: Config, metrics: Metrics)
      ensures this.config == config && this.metrics == metrics
      ensures groups == []
      ensures Valid()
    {
      this.config := config;
      this.metrics := metrics;
      groups := [];
    }

    /**
     * `show_damage`: an empty batch changes nothing. Otherwise one group per
     * (category, monster name) bucket is placed, in first-appearance order,
     * in the slot after the retained groups of its key, and the groups no
     * longer active are dropped. `placed` names the new groups.
     */
    method ShowDamage(damageEvents: seq<Event>) returns (ghost placed: seq<GroupIndicator>)
      requires Valid()
      requires forall e | e in damageEvents :: e.category in config.spellCategories
      modifies this
      ensures Valid()
      ensures damageEvents == [] ==> groups == old(groups)
      ensures |placed| == |GroupKeys(damageEvents)|
      ensures BatchState(old(groups) + placed, old(groups), placed, GroupKeys(damageEvents), damageEvents)
      ensures forall j | 0 <= j < |placed| :: fresh(placed[j])
      ensures forall j | 0 <= j < |placed| ::
        placed[j].Valid() && placed[j].config == config && placed[j].metrics == metrics
      ensures damageEvents != [] ==> groups == ActiveGroups(old(groups) + placed)
      ensures forall j | 0 <= j < |placed| :: placed[j] in groups
    {
      placed := [];
      if damageEvents == [] {
        return;
      }
      placed := PlaceBatch(damageEvents);
      assert forall j | 0 <= j < |placed| :: placed[j] == groups[|old(groups)| + j] && groups[|old(groups)| + j].Active();
      CleanupGroups();
    }

    /** The placement loop of `show_damage`. */
    method PlaceBatch(damageEvents: seq<Event>) returns (ghost placed: seq<GroupIndicator>)
      requires Valid()
      requires forall e | e in damageEvents :: e.category in config.spellCategories
      modifies this
      ensures Valid()
      ensures |placed| == |GroupKeys(damageEvents)|
      ensures BatchState(groups, old(groups), placed, GroupKeys(damageEvents), damageEvents)
      ensures fresh(placed)
      ensures forall j | 0 <= j < |placed| :: placed[j].Active()
    {
      placed := [];
      var keys, buckets := Categorize(damageEvents);
      GroupKeysSound(damageEvents);
      assert forall k | k in keys :: k.category in config.spellCategories;
      for i := 0 to |keys|
        invariant Valid()
        invariant |placed| == i
        invariant BatchState(groups, old(groups), placed, keys, damageEvents)
        invariant fresh(placed)
        invariant forall j | 0 <= j < |placed| :: placed[j].Active()
      {
        var k := keys[i];
        assert k in keys;
        var g := PlaceGroup(buckets[k], k, placed, keys, damageEvents, old(groups));
        placed := placed + [g];
      }
    }

    /**
     * One turn of the placement loop: the group for the next key's bucket,
     * its index the number of retained groups with that key. The ghost
     * parameters name the batch so far.
     */
    method PlaceGroup(events: seq<Event>, k: Key, ghost placed: seq<GroupIndicator>, ghost keys: seq<Key>,
                      ghost batch: seq<Event>, ghost groups0: seq<GroupIndicator>)
      returns (g: GroupIndicator)
      requires Valid()
      requires BatchState(groups, groups0, placed, keys, batch)
      requires Distinct(keys) && |placed| < |keys| && k == keys[|placed|] && events == Bucket(batch, k)
      requires k.category in config.spellCategories
      requires forall j | 0 <= j < |placed| :: placed[j].Active()
      modifies this
      ensures Valid()
      ensures BatchState(groups, groups0, placed + [g], keys, batch)
      ensures fresh(g)
      ensures forall j | 0 <= j < |placed + [g]| :: (placed + [g])[j].Active()
    {
      var groupIndex := CountSameKey(groups, k);
      g := new GroupIndicator(events, groupIndex, config, k.category, k.monsterName, metrics);
      assert forall j | 0 <= j < |placed + [g]| :: (placed + [g])[j].Active();
      BatchStep(groups, groups0, placed, keys, batch, g);
      groups := groups + [g];
    }

    /** `cleanup_groups`: only the active groups remain, in order. */
    method CleanupGroups()
      requires Valid()
      modifies this
      ensures groups == ActiveGroups(old(groups))
      ensures forall j | 0 <= j < |old(groups)| && old(groups[j].Active()) :: old(groups[j]) in groups
      ensures Valid()
    {
      var active := FilterActive(groups);
      ActiveGroupsMembers(groups);
      ElemsAllocated(groups);
      groups := active;
    }
  }
}
