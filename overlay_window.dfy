/**
 * The overlay window: it receives batches of events, buckets each batch by
 * (category, monster name), places one group per bucket in its category's
 * column below the groups already there, and forgets the groups whose
 * elements have faded out.
 *
 * Each category keeps a running vertical offset: a new group starts at its
 * category's anchor plus that offset, and the offset then grows by the
 * group's height and one more padding.
 */
module Overlay {
  import opened Events
  import opened Layout
  import opened Grouping

  // ---------------------------------------------------------------------
  // The offsets and the arrangement as functions and predicates
  // ---------------------------------------------------------------------

  /**
   * The vertical space the groups `gs` take in category `c`: each group of
   * that category its height and the padding after it.
   */
  function Consumed(c: string, gs: seq<GroupIndicator>, padding: nat): int {
    if gs == [] then 0
    else
      var g := gs[|gs| - 1];
      Consumed(c, gs[..|gs| - 1], padding) + (if g.category == c then g.usedHeight + padding else 0)
  }

  /** One more group adds its height and padding to its own category and nothing to the others. */
  lemma ConsumedStep(gs: seq<GroupIndicator>, g: GroupIndicator, padding: nat)
    ensures forall c :: Consumed(c, gs + [g], padding) == Consumed(c, gs, padding) + (if g.category == c then g.usedHeight + padding else 0)
  {
    assert (gs + [g])[..|gs|] == gs;
  }

  /**
   * A category without a group consumes nothing, and one with groups
   * consumes at least each of them with its padding.
   */
  lemma {:induction false} ConsumedBounds(c: string, gs: seq<GroupIndicator>, padding: nat)
    requires forall i | 0 <= i < |gs| :: gs[i].usedHeight >= 0
    ensures Consumed(c, gs, padding) >= 0
    ensures (forall i | 0 <= i < |gs| :: gs[i].category != c) ==> Consumed(c, gs, padding) == 0
    ensures forall i | 0 <= i < |gs| && gs[i].category == c :: gs[i].usedHeight + padding <= Consumed(c, gs, padding)
  {
    if gs != [] {
      ConsumedBounds(c, gs[..|gs| - 1], padding);
    }
  }

  /**
   * `placed` are the groups of the first `|placed|` keys, in key order: each
   * shows its key's bucket and starts at its category's offset from before
   * the batch plus the space the earlier groups of the batch consumed there.
   */
  ghost predicate Placement(placed: seq<GroupIndicator>, keys: seq<Key>, events: seq<Event>,
                            offsets: map<string, int>, padding: nat) {
    && |placed| <= |keys|
    && forall j | 0 <= j < |placed| ::
      && placed[j].category == keys[j].category
      && placed[j].monsterName == keys[j].monsterName
      && placed[j].damageEvents == Bucket(events, keys[j])
      && placed[j].category in offsets
      && placed[j].categoryOffset == offsets[placed[j].category] + Consumed(placed[j].category, placed[..j], padding)
  }

  lemma PlacementExtend(placed: seq<GroupIndicator>, g: GroupIndicator, keys: seq<Key>, events: seq<Event>,
                        offsets: map<string, int>, padding: nat)
    requires Placement(placed, keys, events, offsets, padding) && |placed| < |keys|
    requires g.category == keys[|placed|].category && g.monsterName == keys[|placed|].monsterName
    requires g.damageEvents == Bucket(events, keys[|placed|])
    requires g.category in offsets && g.categoryOffset == offsets[g.category] + Consumed(g.category, placed, padding)
    ensures Placement(placed + [g], keys, events, offsets, padding)
  {
    var all := placed + [g];
    assert all[..|placed|] == placed;
    forall j | 0 <= j < |placed|
      ensures all[..j] == placed[..j]
    {
    }
  }

  /**
   * Halfway through a batch: the window's groups are those from before plus
   * the ones `placed` so far, each category's offset has grown by what they
   * consumed there, and they follow the batch's keys.
   */
  ghost predicate BatchState(groups: seq<GroupIndicator>, offsets: map<string, int>,
                             groups0: seq<GroupIndicator>, offsets0: map<string, int>,
                             placed: seq<GroupIndicator>, keys: seq<Key>, events: seq<Event>, padding: nat) {
    && groups == groups0 + placed
    && offsets.Keys == offsets0.Keys
    && (forall c | c in offsets :: offsets[c] == offsets0[c] + Consumed(c, placed, padding))
    && Placement(placed, keys, events, offsets0, padding)
  }

  /** Placing the next key's group at its category's offset, which then grows, keeps the batch state. */
  lemma BatchStep(groups: seq<GroupIndicator>, offsets: map<string, int>,
                  groups0: seq<GroupIndicator>, offsets0: map<string, int>,
                  placed: seq<GroupIndicator>, keys: seq<Key>, events: seq<Event>, padding: nat,
                  g: GroupIndicator)
    requires BatchState(groups, offsets, groups0, offsets0, placed, keys, events, padding)
    requires |placed| < |keys| && keys[|placed|].category in offsets0
    requires g.category == keys[|placed|].category && g.monsterName == keys[|placed|].monsterName
    requires g.damageEvents == Bucket(events, keys[|placed|])
    requires g.categoryOffset == offsets[g.category]
    ensures BatchState(groups + [g], offsets[g.category := offsets[g.category] + g.usedHeight + padding],
                       groups0, offsets0, placed + [g], keys, events, padding)
  {
    ConsumedStep(placed, g, padding);
    PlacementExtend(placed, g, keys, events, offsets0, padding);
  }

  /**
   * The groups stand in their categories' columns: each lies above its
   * category's current offset, and each lies above every later group of its
   * category with one padding between them.
   */
  ghost predicate Arranged(groups: seq<GroupIndicator>, offsets: map<string, int>, config: Config, m: Metrics) {
    Placed(groups, offsets, config, m) && Spaced(groups, config.padding)
  }

  /** Each group is drawn with the window's configuration and lies above its category's offset. */
  ghost predicate Placed(groups: seq<GroupIndicator>, offsets: map<string, int>, config: Config, m: Metrics) {
    forall i | 0 <= i < |groups| ::
      && groups[i].Valid()
      && groups[i].config == config
      && groups[i].metrics == m
      && groups[i].category in offsets
      && 0 <= groups[i].categoryOffset
      && groups[i].categoryOffset + groups[i].usedHeight + config.padding <= offsets[groups[i].category]
  }

  /** Each group lies above every later group of its category, with one padding between them. */
  ghost predicate Spaced(groups: seq<GroupIndicator>, padding: nat) {
    forall i, j | 0 <= i < j < |groups| && groups[i].category == groups[j].category ::
      groups[i].categoryOffset + groups[i].usedHeight + padding <= groups[j].categoryOffset
  }

  /** A group placed at its category's offset, which then grows by its height and padding, keeps the arrangement. */
  lemma ArrangedPlace(groups: seq<GroupIndicator>, offsets: map<string, int>, config: Config, m: Metrics,
                      g: GroupIndicator, next: map<string, int>)
    requires Arranged(groups, offsets, config, m)
    requires g.Valid() && g.config == config && g.metrics == m
    requires g.category in offsets && 0 <= offsets[g.category] == g.categoryOffset
    requires next == offsets[g.category := offsets[g.category] + g.usedHeight + config.padding]
    ensures Arranged(groups + [g], next, config, m)
  {
    var gs := groups + [g];
    forall i, j | 0 <= i < j < |gs| && gs[i].category == gs[j].category
      ensures gs[i].categoryOffset + gs[i].usedHeight + config.padding <= gs[j].categoryOffset
    {
      if j == |groups| {
        assert gs[i] == groups[i];
      }
    }
  }

  /** The groups after the first `n` of an arranged list are placed with the window's configuration. */
  lemma NewGroupsPlaced(groups: seq<GroupIndicator>, n: nat, offsets: map<string, int>, config: Config, m: Metrics)
    requires Arranged(groups, offsets, config, m) && n <= |groups|
    ensures forall j | 0 <= j < |groups| - n ::
      groups[n..][j].Valid() && groups[n..][j].config == config && groups[n..][j].metrics == m
  {
    assert forall j | 0 <= j < |groups| - n :: groups[n..][j] == groups[n + j];
  }

  /** The widgets the groups own. */
  ghost function Elems(gs: seq<GroupIndicator>): set<Widget> {
    if gs == [] then {} else Elems(gs[..|gs| - 1]) + gs[|gs| - 1].Elements()
  }

  lemma {:induction false} ElemsAllocated(gs: seq<GroupIndicator>)
    ensures forall w | w in Elems(gs) :: allocated(w)
  {
    if gs != [] {
      ElemsAllocated(gs[..|gs| - 1]);
    }
  }

  /** The groups of `gs` whose elements are all still shown, in order. */
  ghost function ActiveGroups(gs: seq<GroupIndicator>): seq<GroupIndicator>
    reads Elems(gs)
  {
    if gs == [] then []
    else
      assert Elems(gs[..|gs| - 1]) <= Elems(gs);
      ActiveGroups(gs[..|gs| - 1]) + (if gs[|gs| - 1].Active() then [gs[|gs| - 1]] else [])
  }

  /** A group survives clean-up exactly when it is active. */
  lemma {:induction false} ActiveGroupsMembers(gs: seq<GroupIndicator>)
    ensures forall g :: g in ActiveGroups(gs) <==> g in gs && g.Active()
    ensures forall i | 0 <= i < |ActiveGroups(gs)| :: ActiveGroups(gs)[i] in gs
  {
    if gs != [] {
      var prefix := gs[..|gs| - 1];
      ActiveGroupsMembers(prefix);
      assert gs == prefix + [gs[|gs| - 1]];
    }
  }

  /** Every group of `gs` is still shown in full. */
  ghost predicate AllActive(gs: seq<GroupIndicator>)
    reads Elems(gs)
  {
    gs != [] ==>
      assert Elems(gs[..|gs| - 1]) <= Elems(gs);
      AllActive(gs[..|gs| - 1]) && gs[|gs| - 1].Active()
  }

  /** Groups that are all still active, appended after any others, all survive clean-up. */
  lemma {:induction false} NewGroupsSurvive(gs: seq<GroupIndicator>, placed: seq<GroupIndicator>)
    requires AllActive(placed)
    ensures forall j | 0 <= j < |placed| :: placed[j] in ActiveGroups(gs + placed)
  {
    if placed != [] {
      var n := |placed| - 1;
      NewGroupsSurvive(gs, placed[..n]);
      assert (gs + placed)[..|gs + placed| - 1] == gs + placed[..n];
      assert forall j | 0 <= j < n :: placed[..n][j] == placed[j];
    }
  }

  /** Clean-up keeps the arrangement of the surviving groups. */
  lemma ArrangedActive(gs: seq<GroupIndicator>, offsets: map<string, int>, config: Config, m: Metrics)
    requires Arranged(gs, offsets, config, m)
    ensures Arranged(ActiveGroups(gs), offsets, config, m)
  {
    ActiveGroupsMembers(gs);
    SpacedActive(gs, config.padding);
  }

  lemma {:induction false} SpacedActive(gs: seq<GroupIndicator>, padding: nat)
    requires Spaced(gs, padding)
    ensures Spaced(ActiveGroups(gs), padding)
  {
    if gs != [] {
      var n := |gs| - 1;
      var prefix := gs[..n];
      SpacedActive(prefix, padding);
      if gs[n].Active() {
        var kept := ActiveGroups(prefix);
        var all := kept + [gs[n]];
        ActiveGroupsMembers(prefix);
        forall i, j | 0 <= i < j < |all| && all[i].category == all[j].category
          ensures all[i].categoryOffset + all[i].usedHeight + padding <= all[j].categoryOffset
        {
          if j == |kept| {
            assert all[i] == kept[i];
            var p :| 0 <= p < n && prefix[p] == all[i];
            assert gs[p] == all[i];
          }
        }
      }
    }
  }

  /** The clean-up loop: the groups whose `is_active` holds, in order. */
  method FilterActive(gs: seq<GroupIndicator>) returns (active: seq<GroupIndicator>)
    ensures active == ActiveGroups(gs)
  {
    active := [];
    for i := 0 to |gs|
      invariant active == ActiveGroups(gs[..i])
    {
      assert gs[..i + 1][..i] == gs[..i];
      assert gs[..i + 1][i] == gs[i];
      ElemsAllocated(gs[..i]);
      var isActive := gs[i].IsActive();
      if isActive {
        active := active + [gs[i]];
      }
    }
    assert gs[..|gs|] == gs;
  }

  // ---------------------------------------------------------------------
  // The window
  // ---------------------------------------------------------------------

  class OverlayWindow {
    const config: Config
    const metrics: Metrics
    var groups: seq<GroupIndicator>
    /** How far below its anchor the next group of each category starts. */
    var categoryOffsets: map<string, int>

    ghost predicate Valid()
      reads this
    {
      && categoryOffsets.Keys == config.startPositions.Keys
      && (forall c | c in categoryOffsets :: categoryOffsets[c] >= 0)
      && Arranged(groups, categoryOffsets, config, metrics)
    }

    /** A window with no groups and every configured category's offset at zero. */
    constructor (config: Config, metrics: Metrics)
      ensures this.config == config && this.metrics == metrics
      ensures groups == []
      ensures categoryOffsets == map c | c in config.startPositions :: 0
      ensures Valid()
    {
      this.config := config;
      this.metrics := metrics;
      groups := [];
      categoryOffsets := map c | c in config.startPositions :: 0;
    }

    /**
     * `show_damage`: an empty batch changes nothing. Otherwise one group per
     * (category, monster name) bucket is placed, in first-appearance order,
     * at its category's running offset, the offsets advance, and the groups
     * no longer active are dropped. `placed` names the new groups.
     */
    method ShowDamage(damageEvents: seq<Event>) returns (ghost placed: seq<GroupIndicator>)
      requires Valid()
      requires forall e | e in damageEvents :: e.category in categoryOffsets && e.category in config.spellCategories
      modifies this
      ensures Valid()
      ensures damageEvents == [] ==> groups == old(groups) && categoryOffsets == old(categoryOffsets)
      ensures |placed| == |GroupKeys(damageEvents)|
      ensures BatchState(old(groups) + placed, categoryOffsets, old(groups), old(categoryOffsets),
                         placed, GroupKeys(damageEvents), damageEvents, config.padding)
      ensures forall j | 0 <= j < |placed| ::
        placed[j].Valid() && placed[j].config == config && placed[j].metrics == metrics
      ensures forall c | c in old(categoryOffsets) :: categoryOffsets[c] >= old(categoryOffsets)[c]
      ensures damageEvents != [] ==> groups == ActiveGroups(old(groups) + placed)
      ensures forall j | 0 <= j < |placed| :: placed[j] in groups
    {
      placed := [];
      if damageEvents == [] {
        return;
      }
      placed := PlaceBatch(damageEvents);
      NewGroupsPlaced(groups, |old(groups)|, categoryOffsets, config, metrics);
      assert placed == groups[|old(groups)|..];
      forall c | c in old(categoryOffsets)
        ensures categoryOffsets[c] >= old(categoryOffsets)[c]
      {
        ConsumedBounds(c, placed, config.padding);
      }
      ElemsAllocated(placed);
      CleanupGroups();
      NewGroupsSurvive(old(groups), placed);
    }

    /**
     * The placement loop of `show_damage`: one group per key, in
     * first-appearance order, each appended to the window's groups.
     */
    method PlaceBatch(damageEvents: seq<Event>) returns (ghost placed: seq<GroupIndicator>)
      requires Valid()
      requires forall e | e in damageEvents :: e.category in categoryOffsets && e.category in config.spellCategories
      modifies this
      ensures Valid()
      ensures |placed| == |GroupKeys(damageEvents)|
      ensures BatchState(groups, categoryOffsets, old(groups), old(categoryOffsets),
                         placed, GroupKeys(damageEvents), damageEvents, config.padding)
      ensures AllActive(placed)
    {
      placed := [];
      var keys, buckets := Categorize(damageEvents);
      assert forall k | k in keys :: k.category in old(categoryOffsets) && k.category in config.spellCategories;
      for i := 0 to |keys|
        invariant Valid()
        invariant |placed| == i
        invariant BatchState(groups, categoryOffsets, old(groups), old(categoryOffsets), placed, keys, damageEvents, config.padding)
        invariant AllActive(placed)
      {
        var k := keys[i];
        assert k in keys;
        var g := PlaceGroup(buckets[k], k, placed, keys, damageEvents, old(groups), old(categoryOffsets));
        placed := placed + [g];
      }
    }

    /**
     * One turn of the placement loop: the group for the next key's bucket
     * starts at its category's offset, which then grows by the group's height
     * and the padding. The ghost parameters name the batch so far.
     */
    method PlaceGroup(events: seq<Event>, k: Key, ghost placed: seq<GroupIndicator>, ghost keys: seq<Key>,
                      ghost batch: seq<Event>, ghost groups0: seq<GroupIndicator>, ghost offsets0: map<string, int>)
      returns (g: GroupIndicator)
      requires Valid()
      requires BatchState(groups, categoryOffsets, groups0, offsets0, placed, keys, batch, config.padding)
      requires |placed| < |keys| && k == keys[|placed|] && events == Bucket(batch, k)
      requires k.category in offsets0 && k.category in config.spellCategories
      requires AllActive(placed)
      modifies this
      ensures Valid()
      ensures BatchState(groups, categoryOffsets, groups0, offsets0, placed + [g], keys, batch, config.padding)
      ensures fresh(g) && AllActive(placed + [g])
    {
      ElemsAllocated(placed);
      var offset := categoryOffsets[k.category];
      g := new GroupIndicator(events, offset, config, k.category, k.monsterName, metrics);
      assert (placed + [g])[..|placed|] == placed;
      assert AllActive(placed + [g]);
      ElemsAllocated(placed + [g]);
      var h := g.FinalGroupHeight();
      BatchStep(groups, categoryOffsets, groups0, offsets0, placed, keys, batch, config.padding, g);
      Append(g, h);
    }

    /**
     * The bookkeeping after a group is made: it joins the groups and its
     * category's offset grows by its height `h` and the padding.
     */
    method Append(g: GroupIndicator, h: int)
      requires Valid()
      requires g.Valid() && g.config == config && g.metrics == metrics
      requires g.category in categoryOffsets && g.categoryOffset == categoryOffsets[g.category]
      requires h == g.usedHeight
      modifies this
      ensures Valid()
      ensures groups == old(groups) + [g]
      ensures categoryOffsets == old(categoryOffsets)[g.category := old(categoryOffsets)[g.category] + h + config.padding]
    {
      var next := categoryOffsets[g.category := categoryOffsets[g.category] + h + config.padding];
      ArrangedPlace(groups, categoryOffsets, config, metrics, g, next);
      groups, categoryOffsets := groups + [g], next;
    }

    /** `cleanup_groups`: only the active groups remain, in order; the offsets stay. */
    method CleanupGroups()
      requires Valid()
      modifies this
      ensures groups == ActiveGroups(old(groups))
      ensures categoryOffsets == old(categoryOffsets)
      ensures Valid()
    {
      var active := FilterActive(groups);
      ArrangedActive(groups, categoryOffsets, config, metrics);
      ElemsAllocated(groups);
      assert Arranged(active, categoryOffsets, config, metrics);
      groups := active;
    }

    /**
     * Groups of one category never overlap: every element of an earlier
     * group ends, with the group's padding and the one between groups,
     * above a later group's name label.
     */
    lemma GroupsOfACategoryDoNotOverlap(i: nat, j: nat)
      requires Valid()
      requires i < j < |groups| && groups[i].category == groups[j].category
      ensures forall w | w in groups[i].Elements() ::
        w.y + w.height + 2 * config.padding <= groups[j].monsterLabel.y
    {
      var gi, gj := groups[i], groups[j];
      assert gi.Valid() && gj.Valid() && gi.config == gj.config;
      assert gi.categoryOffset + gi.usedHeight + config.padding <= gj.categoryOffset;
      gi.ElementsWithinSpan();
    }
  }
}
