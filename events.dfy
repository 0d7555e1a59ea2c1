/**
 * The values the engine passes around: the configuration snapshot it is
 * started with and the events the classifier hands to the overlay.
 */
module Events {
  import opened Wrappers

  /**
   * One classified log line. Both kinds carry the spell, the display
   * category and the captured subject (`monster_name`); a damage event
   * carries the parsed amount, a special event the filled-in message.
   */
  datatype Event =
    | Damage(spellName: string, category: string, monsterName: string, damage: int)
    | Special(spellName: string, category: string, monsterName: string, message: string)

  /**
   * One entry of the configured spell list. `messageTemplate`, `category`
   * and `iconPath` are `None` when the entry has no such key.
   */
  datatype SpellEntry = SpellEntry(
    spellName: string,
    regexPattern: string,
    messageTemplate: Option<string>,
    category: Option<string>,
    iconPath: Option<string>)

  /**
   * The per-category settings the layout reads. `totalFontSize` is the
   * integer `int(font_size * total_font_ratio)`, computed by the caller.
   */
  datatype CategoryStyle = CategoryStyle(
    iconHeight: nat,
    monsterNameFontSize: nat,
    totalFontSize: nat)

  datatype Point = Point(x: int, y: int)

  /**
   * The immutable configuration snapshot. The settings dialog keeps the
   * padding within 0..100, so it is a `nat` here.
   */
  datatype Config = Config(
    spells: seq<SpellEntry>,
    startPositions: map<string, Point>,
    spellCategories: map<string, CategoryStyle>,
    padding: nat)

  /** Where a category's column is anchored; an unknown category falls back to (960, 100). */
  function Anchor(config: Config, category: string): Point {
    if category in config.startPositions then config.startPositions[category] else Point(960, 100)
  }
}
