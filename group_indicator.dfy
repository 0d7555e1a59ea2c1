/**
 * One on-screen group: the subject's name label, one row per event whose
 * spell icon exists, and a totals row when the group holds at least two
 * damage events, stacked downwards from the group's top with the configured
 * padding after each element.
 *
 * Widget sizes come from the toolkit's layout and are inputs here
 * (`Metrics.heightOf`), as is whether an icon file exists on disk
 * (`Metrics.fileExists`). A widget's visibility is the one piece of state
 * that changes after placement: its fade-out closes it.
 */
module Layout {
  import opened Wrappers
  import opened Events

  /**
   * What a widget shows, with the category whose style (icon size, font
   * sizes) it is drawn in. The totals row names the group's subject.
   */
  datatype Content =
    | MonsterName(name: string, category: string)
    | DamageRow(damage: int, icon: string, category: string)
    | SpecialRow(message: string, icon: string, category: string)
    | TotalRow(total: int, monsterName: string, category: string)

  /** What the presentation surface and the file system report to the layout. */
  datatype Metrics = Metrics(heightOf: Content -> nat, fileExists: string -> bool)

  /** A placed widget: where it was put, how tall it is, and whether it is still shown. */
  class Widget {
    const content: Content
    const x: int
    const y: int
    const height: nat
    var visible: bool

    /** Creates the widget anchored at (x, y) and shows it. */
    constructor Show(content: Content, x: int, y: int, height: nat)
      ensures this.content == content && this.x == x && this.y == y && this.height == height
      ensures visible
    {
      this.content := content;
      this.x := x;
      this.y := y;
      this.height := height;
      visible := true;
    }

    /** The fade-out animation finished: the widget closes. */
    method Close()
      modifies this
      ensures !visible
    {
      visible := false;
    }
  }

  // ---------------------------------------------------------------------
  // The layout as a function of the events
  // ---------------------------------------------------------------------

  /** `spells_dict.get(name, {}).get('icon_path')`: the last spell entry of that name decides. */
  function IconPath(spells: seq<SpellEntry>, spellName: string): (r: Option<string>)
    ensures r.Some? ==> exists s | s in spells :: s.spellName == spellName && s.iconPath == r
  {
    if spells == [] then None
    else if spells[|spells| - 1].spellName == spellName then spells[|spells| - 1].iconPath
    else IconPath(spells[..|spells| - 1], spellName)
  }

  /**
   * The lookup agrees with the dictionary built from the spell list: a name
   * no entry carries has no icon, and otherwise the last entry of that name
   * decides.
   */
  lemma {:induction false} IconPathIsLastEntry(spells: seq<SpellEntry>, spellName: string)
    ensures (forall i | 0 <= i < |spells| :: spells[i].spellName != spellName) ==> IconPath(spells, spellName) == None
    ensures forall i | 0 <= i < |spells| && spells[i].spellName == spellName
                       && (forall j | i < j < |spells| :: spells[j].spellName != spellName) ::
      IconPath(spells, spellName) == spells[i].iconPath
  {
    if spells != [] {
      var n := |spells| - 1;
      assert spells == spells[..n] + [spells[n]];
      IconPathIsLastEntry(spells[..n], spellName);
      assert forall i | 0 <= i < n :: spells[..n][i] == spells[i];
      if spells[n].spellName == spellName {
        assert IconPath(spells, spellName) == spells[n].iconPath;
      } else {
        assert IconPath(spells, spellName) == IconPath(spells[..n], spellName);
      }
    }
  }

  /**
   * The row an event gets in a group of `category`; none when its icon path
   * is unset, empty or missing on disk.
   */
  function RowContent(e: Event, category: string, config: Config, m: Metrics): (r: Option<Content>)
    ensures r.Some? ==> !r.value.MonsterName? && !r.value.TotalRow? && r.value.category == category
    ensures r.Some? ==> (r.value.DamageRow? <==> e.Damage?)
    ensures r.Some? ==> IconPath(config.spells, e.spellName) == Some(r.value.icon) && m.fileExists(r.value.icon)
  {
    var icon := IconPath(config.spells, e.spellName);
    if icon.None? || icon.value == [] || !m.fileExists(icon.value) then None
    else
      match e
      case Damage(_, _, _, damage) => Some(DamageRow(damage, icon.value, category))
      case Special(_, _, _, message) => Some(SpecialRow(message, icon.value, category))
  }

  /** The rows of a group, in event order. */
  function Rows(events: seq<Event>, category: string, config: Config, m: Metrics): (r: seq<Content>)
    ensures |r| <= |events|
  {
    if events == [] then []
    else
      var last := RowContent(events[|events| - 1], category, config, m);
      Rows(events[..|events| - 1], category, config, m) + (if last.Some? then [last.value] else [])
  }

  /** The vertical space a run of rows takes: each row's height plus the padding after it. */
  function RowsSpan(rows: seq<Content>, m: Metrics, padding: nat): nat {
    if rows == [] then 0
    else RowsSpan(rows[..|rows| - 1], m, padding) + m.heightOf(rows[|rows| - 1]) + padding
  }

  function DamageCount(events: seq<Event>): nat {
    if events == [] then 0
    else DamageCount(events[..|events| - 1]) + (if events[|events| - 1].Damage? then 1 else 0)
  }

  function TotalDamage(events: seq<Event>): int {
    if events == [] then 0
    else TotalDamage(events[..|events| - 1]) + (if events[|events| - 1].Damage? then events[|events| - 1].damage else 0)
  }

  /** The totals row: present when the group holds at least two damage events. */
  function Totals(events: seq<Event>, monsterName: string, category: string): Option<Content> {
    if DamageCount(events) >= 2 then Some(TotalRow(TotalDamage(events), monsterName, category)) else None
  }

  /**
   * The span a group consumes: the name label, every row and the totals row
   * if any, each followed by the padding.
   */
  function GroupHeight(events: seq<Event>, monsterName: string, category: string, config: Config, m: Metrics): (h: nat)
    ensures h >= m.heightOf(MonsterName(monsterName, category)) + config.padding
  {
    var totals := Totals(events, monsterName, category);
    m.heightOf(MonsterName(monsterName, category)) + config.padding
      + RowsSpan(Rows(events, category, config, m), m, config.padding)
      + (if totals.Some? then m.heightOf(totals.value) + config.padding else 0)
  }

  /**
   * `rows` show `contents` in order at horizontal anchor `x`, the first at
   * `top` and each next one below the previous row and its padding.
   */
  ghost predicate Stacked(rows: seq<Widget>, contents: seq<Content>, x: int, top: int, padding: nat, m: Metrics) {
    && |rows| == |contents|
    && forall i :: 0 <= i < |rows| ==>
      && rows[i].content == contents[i]
      && rows[i].x == x
      && rows[i].height == m.heightOf(contents[i])
      && rows[i].y == top + RowsSpan(contents[..i], m, padding)
  }

  lemma {:induction false} RowsSpanAppend(a: seq<Content>, b: seq<Content>, m: Metrics, padding: nat)
    ensures RowsSpan(a + b, m, padding) == RowsSpan(a, m, padding) + RowsSpan(b, m, padding)
    decreases |b|
  {
    if b == [] {
      assert a + b == a;
    } else {
      var n := |b| - 1;
      assert (a + b)[..|a + b| - 1] == a + b[..n];
      assert (a + b)[|a + b| - 1] == b[n];
      RowsSpanAppend(a, b[..n], m, padding);
    }
  }

  /** Each row starts right below the previous row and its padding. */
  lemma StackedConsecutive(rows: seq<Widget>, contents: seq<Content>, x: int, top: int, padding: nat, m: Metrics, i: nat)
    requires Stacked(rows, contents, x, top, padding, m)
    requires i + 1 < |rows|
    ensures rows[0].y == top
    ensures rows[i + 1].y == rows[i].y + rows[i].height + padding
  {
    assert contents[..i + 1][..i] == contents[..i];
    assert contents[..0] == [];
  }

  /** Every row lies inside the span the rows consume. */
  lemma StackedWithin(rows: seq<Widget>, contents: seq<Content>, x: int, top: int, padding: nat, m: Metrics, i: nat)
    requires Stacked(rows, contents, x, top, padding, m)
    requires i < |rows|
    ensures top <= rows[i].y
    ensures rows[i].y + rows[i].height + padding <= top + RowsSpan(contents, m, padding)
  {
    assert contents[..i + 1][..i] == contents[..i];
    assert contents == contents[..i + 1] + contents[i + 1..];
    RowsSpanAppend(contents[..i + 1], contents[i + 1..], m, padding);
  }

  /** An event whose icon is unavailable yields no row; a special one then takes no space at all. */
  lemma SkippedEventTakesNoSpace(events: seq<Event>, e: Event, category: string, config: Config, m: Metrics)
    requires RowContent(e, category, config, m).None?
    ensures Rows(events + [e], category, config, m) == Rows(events, category, config, m)
    ensures e.Special? ==>
      GroupHeight(events + [e], e.monsterName, category, config, m) == GroupHeight(events, e.monsterName, category, config, m)
  {
    assert (events + [e])[..|events|] == events;
    if e.Special? {
      assert DamageCount(events + [e]) == DamageCount(events);
      assert TotalDamage(events + [e]) == TotalDamage(events);
    }
  }

  /** A skipped damage event still counts towards the totals row and its sum. */
  lemma SkippedDamageStillCounted(events: seq<Event>, e: Event, category: string, config: Config, m: Metrics)
    requires e.Damage? && RowContent(e, category, config, m).None?
    ensures Rows(events + [e], category, config, m) == Rows(events, category, config, m)
    ensures DamageCount(events + [e]) == DamageCount(events) + 1
    ensures TotalDamage(events + [e]) == TotalDamage(events) + e.damage
  {
    assert (events + [e])[..|events|] == events;
  }

  lemma {:induction false} TotalDamageAppend(a: seq<Event>, b: seq<Event>)
    ensures DamageCount(a + b) == DamageCount(a) + DamageCount(b)
    ensures TotalDamage(a + b) == TotalDamage(a) + TotalDamage(b)
    decreases |b|
  {
    if b == [] {
      assert a + b == a;
    } else {
      var n := |b| - 1;
      assert (a + b)[..|a + b| - 1] == a + b[..n];
      assert (a + b)[|a + b| - 1] == b[n];
      TotalDamageAppend(a, b[..n]);
    }
  }

  /** The totals of two damage events of 100 and 250 read 350, under the group's subject. */
  lemma TotalsOfTwoHits(first: Event, second: Event, monsterName: string, category: string)
    requires first.Damage? && first.damage == 100
    requires second.Damage? && second.damage == 250
    ensures Totals([first, second], monsterName, category) == Some(TotalRow(350, monsterName, category))
  {
    assert [first][..0] == [];
    assert [second][..0] == [];
    TotalDamageAppend([first], [second]);
    assert [first] + [second] == [first, second];
  }

  /** The rows of one more event: those of the prefix, then the new event's row if it has one. */
  lemma RowsStep(events: seq<Event>, i: nat, category: string, config: Config, m: Metrics)
    requires i < |events|
    ensures Rows(events[..i + 1], category, config, m)
      == Rows(events[..i], category, config, m)
         + (if RowContent(events[i], category, config, m).Some? then [RowContent(events[i], category, config, m).value] else [])
  {
    assert events[..i + 1][..i] == events[..i];
  }

  /** A widget placed right below a stack, showing the next content, extends the stack. */
  lemma StackedExtend(rows: seq<Widget>, contents: seq<Content>, w: Widget, c: Content,
                      x: int, top: int, padding: nat, m: Metrics)
    requires Stacked(rows, contents, x, top, padding, m)
    requires w.content == c && w.x == x && w.height == m.heightOf(c)
    requires w.y == top + RowsSpan(contents, m, padding)
    ensures Stacked(rows + [w], contents + [c], x, top, padding, m)
    ensures RowsSpan(contents + [c], m, padding) == RowsSpan(contents, m, padding) + w.height + padding
  {
    var cs := contents + [c];
    assert cs[..|contents|] == contents;
    forall k | 0 <= k < |contents|
      ensures cs[..k] == contents[..k]
    {
    }
  }

  // ---------------------------------------------------------------------
  // Placing the widgets
  // ---------------------------------------------------------------------

  /**
   * The row loop of `init_group`: each event whose icon exists gets a row at
   * the current height, which then moves down by the row's height and the
   * padding. Returns the rows and the height below the last one.
   */
  method PlaceRows(events: seq<Event>, category: string, config: Config, m: Metrics, x: int, top: int)
    returns (rows: seq<Widget>, bottom: int)
    ensures Stacked(rows, Rows(events, category, config, m), x, top, config.padding, m)
    ensures bottom == top + RowsSpan(Rows(events, category, config, m), m, config.padding)
    ensures forall w | w in rows :: fresh(w) && w.visible
  {
    rows := [];
    bottom := top;
    ghost var placed: seq<Content> := [];
    for i := 0 to |events|
      invariant placed == Rows(events[..i], category, config, m)
      invariant Stacked(rows, placed, x, top, config.padding, m)
      invariant bottom == top + RowsSpan(placed, m, config.padding)
      invariant forall w | w in rows :: fresh(w) && w.visible
    {
      RowsStep(events, i, category, config, m);
      var w := PlaceRow(events[i], category, config, m, x, bottom);
      if w.None? {
        assert placed + [] == placed;
        continue;
      }
      StackedExtend(rows, placed, w.value, w.value.content, x, top, config.padding, m);
      rows := rows + [w.value];
      bottom := bottom + w.value.height + config.padding;
      placed := placed + [w.value.content];
    }
    assert events[..|events|] == events;
  }

  /**
   * One turn of the row loop: no row when the event's icon path is unset,
   * empty or missing on disk; otherwise its row, shown at height `y`.
   */
  method PlaceRow(e: Event, category: string, config: Config, m: Metrics, x: int, y: int) returns (w: Option<Widget>)
    ensures w.None? <==> RowContent(e, category, config, m).None?
    ensures w.Some? ==>
      && w.value.content == RowContent(e, category, config, m).value
      && w.value.x == x && w.value.y == y
      && w.value.height == m.heightOf(w.value.content)
      && fresh(w.value) && w.value.visible
  {
    var icon := IconPath(config.spells, e.spellName);
    if icon.None? || icon.value == [] || !m.fileExists(icon.value) {
      return None;
    }
    var content := match e
      case Damage(_, _, _, damage) => DamageRow(damage, icon.value, category)
      case Special(_, _, _, message) => SpecialRow(message, icon.value, category);
    var widget := new Widget.Show(content, x, y, m.heightOf(content));
    return Some(widget);
  }

  /** Whether the name label, every row and the totals row (if any) are all still shown. */
  ghost predicate AllShown(nameLabel: Widget, rows: seq<Widget>, total: Option<Widget>)
    reads nameLabel, rows, if total.Some? then {total.value} else {}
  {
    && nameLabel.visible
    && (forall w | w in rows :: w.visible)
    && (total.Some? ==> total.value.visible)
  }

  /** The flag loop of `is_active`: any element no longer visible clears the flag. */
  method CheckActive(nameLabel: Widget, rows: seq<Widget>, total: Option<Widget>) returns (active: bool)
    ensures active == AllShown(nameLabel, rows, total)
  {
    active := true;
    if !nameLabel.visible {
      active := false;
    }
    for i := 0 to |rows|
      invariant active == (nameLabel.visible && forall k :: 0 <= k < i ==> rows[k].visible)
    {
      if !rows[i].visible {
        active := false;
      }
    }
    if total.Some? && !total.value.visible {
      active := false;
    }
  }

  // ---------------------------------------------------------------------
  // The group object
  // ---------------------------------------------------------------------

  class GroupIndicator {
    const damageEvents: seq<Event>
    /** How far below its category's anchor the group starts. */
    const categoryOffset: int
    const config: Config
    const metrics: Metrics
    const category: string
    const monsterName: string
    const monsterLabel: Widget
    const indicators: seq<Widget>
    const totalLabel: Option<Widget>
    /** The vertical span the group consumes. */
    const usedHeight: int

    /** Where the group's elements stand, as `init_group` placed them. */
    ghost predicate Valid() {
      var anchor := Anchor(config, category);
      var top := anchor.y + categoryOffset;
      var rowsTop := top + monsterLabel.height + config.padding;
      var rows := Rows(damageEvents, category, config, metrics);
      && category in config.spellCategories
      && monsterLabel.content == MonsterName(monsterName, category)
      && monsterLabel.x == anchor.x
      && monsterLabel.y == top
      && monsterLabel.height == metrics.heightOf(MonsterName(monsterName, category))
      && Stacked(indicators, rows, anchor.x, rowsTop, config.padding, metrics)
      && (totalLabel.Some? <==> DamageCount(damageEvents) >= 2)
      && (totalLabel.Some? ==>
        && totalLabel.value.content == TotalRow(TotalDamage(damageEvents), monsterName, category)
        && totalLabel.value.x == anchor.x
        && totalLabel.value.y == rowsTop + RowsSpan(rows, metrics, config.padding)
        && totalLabel.value.height == metrics.heightOf(totalLabel.value.content))
      && usedHeight == GroupHeight(damageEvents, monsterName, category, config, metrics)
    }

    /** The widgets the group owns. */
    ghost function Elements(): set<Widget> {
      {monsterLabel} + (set w | w in indicators) + (if totalLabel.Some? then {totalLabel.value} else {})
    }

    /** The group is alive while every element it owns is still shown. */
    ghost predicate Active()
      reads Elements()
    {
      AllShown(monsterLabel, indicators, totalLabel)
    }

    /**
     * Creates the group for `damageEvents` and places its elements, starting
     * `categoryOffset` below its category's anchor.
     */
    constructor (damageEvents: seq<Event>, categoryOffset: int, config: Config, category: string,
                 monsterName: string, metrics: Metrics)
      requires category in config.spellCategories
      ensures Valid()
      ensures this.damageEvents == damageEvents && this.categoryOffset == categoryOffset
      ensures this.config == config && this.metrics == metrics
      ensures this.category == category && this.monsterName == monsterName
      ensures fresh(Elements()) && Active()
    {
      var anchor := Anchor(config, category);
      var startY := anchor.y + categoryOffset;
      var nameLabel := new Widget.Show(MonsterName(monsterName, category), anchor.x, startY, metrics.heightOf(MonsterName(monsterName, category)));
      var currentY := startY + nameLabel.height + config.padding;
      var rows;
      rows, currentY := PlaceRows(damageEvents, category, config, metrics, anchor.x, currentY);
      var total: Option<Widget> := None;
      if DamageCount(damageEvents) >= 2 {
        var content := TotalRow(TotalDamage(damageEvents), monsterName, category);
        var t := new Widget.Show(content, anchor.x, currentY, metrics.heightOf(content));
        total := Some(t);
        currentY := currentY + t.height + config.padding;
      }
      this.damageEvents := damageEvents;
      this.categoryOffset := categoryOffset;
      this.config := config;
      this.metrics := metrics;
      this.category := category;
      this.monsterName := monsterName;
      monsterLabel := nameLabel;
      indicators := rows;
      totalLabel := total;
      usedHeight := currentY - startY;
    }

    /** `final_group_height`: the span consumed, at least the name label and its padding. */
    method FinalGroupHeight() returns (h: int)
      requires Valid()
      ensures h == GroupHeight(damageEvents, monsterName, category, config, metrics)
      ensures h >= monsterLabel.height + config.padding
    {
      h := usedHeight;
    }

    /** `is_active`: true exactly when every element is still visible. */
    method IsActive() returns (active: bool)
      ensures active == Active()
    {
      active := CheckActive(monsterLabel, indicators, totalLabel);
    }

    /** One element no longer shown is enough to deactivate the group. */
    lemma HiddenElementDeactivates(w: Widget)
      requires w in Elements() && !w.visible
      ensures !Active()
    {
    }

    /** Every element lies inside the span `[top, top + usedHeight)` that the group reserves. */
    lemma ElementsWithinSpan()
      requires Valid()
      ensures forall w | w in Elements() ::
        monsterLabel.y <= w.y && w.y + w.height + config.padding <= monsterLabel.y + usedHeight
    {
      var anchor := Anchor(config, category);
      var rowsTop := anchor.y + categoryOffset + monsterLabel.height + config.padding;
      var rows := Rows(damageEvents, category, config, metrics);
      forall w | w in Elements()
        ensures monsterLabel.y <= w.y && w.y + w.height + config.padding <= monsterLabel.y + usedHeight
      {
        if w in indicators {
          var i :| 0 <= i < |indicators| && indicators[i] == w;
          StackedWithin(indicators, rows, anchor.x, rowsTop, config.padding, metrics, i);
        }
      }
    }
  }
}
