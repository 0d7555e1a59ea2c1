# QuarmDamageDD event engine, modelled in Dafny

QuarmDamageDD watches a game's combat log and draws floating damage
indicators over the game window. This project models the engine behind it:

- **The log handler** (`handlers.py`, module `Handlers`). When it starts,
  it puts the file cursor at the end of the log and compiles one rule per
  configured spell. It skips a spell whose pattern does not compile, and a
  spell without a category gets `damage`. On every change notification
  about the log, it reads the newly appended lines and strips each one. It
  then tries every rule on every line, in table order. A rule with a
  message template gives a *special* event: the subject (capture 1) is
  filled into the template. Any other rule gives a *damage* event with the
  amount `int(capture 2)`. A non-empty batch of events goes to the
  callback. An exception in `group`, `int` or `format` drops the whole
  batch, although the cursor has already moved.
- **The group indicator** (`ui/group_indicator.py`, module `Layout`). One
  group is drawn per (category, monster name). At the top is the name
  label. Below it comes one row per event whose spell icon is set and
  exists on disk. A totals row follows when the group holds at least two
  damage events. Every element is followed by the padding. The group
  reports the height it used. It is active while every element it owns is
  still visible.
- **The overlay window** (`ui/overlay_window.py`, module `Overlay`). A
  batch is bucketed by (category, monster name), with keys in order of
  first appearance (module `Grouping`). Each bucket becomes a group, placed
  at its category's running offset, and that offset then grows by the
  group's height plus one padding. Clean-up keeps only the active groups,
  in order.
- **The older single-file version** (`testmain.py`, module `Legacy`). Its
  log handler is the same code as `handlers.py` and is modelled once, by
  `Handlers`. Its groups take fixed *slots*: the category's anchor plus
  `group_index` strides. `group_index` counts the retained groups with the
  same key. It also sums the damage with a loop and does not advance the
  running height after the totals row.

Module `PyText` states the Python built-ins the engine relies on, over
`string`: `str.strip`, `int`, `str`, `str.format(monster_name=…)` and
`readlines`. Module `Events` holds the configuration snapshot and the event
values. Module `Wrappers` holds `Option` and `Result`.

Parts of the system that sit outside this code are parameters of the model:

- The regular-expression engine is a `compile` function, with `None` for
  `re.error`. A compiled pattern is a function from a line to the capture
  groups of its first match.
- The log file is a `string` and the cursor is an offset into it.
- Whether a notification is about the log file is a `bool`.
- A widget's laid-out height and whether an icon file exists come from
  `Layout.Metrics`. The height is a function of what the widget shows,
  and that includes the category whose icon and font sizes it is drawn
  with. The totals row also includes the subject it names.
- A widget's visibility is a field that its fade-out clears
  (`Layout.Widget.Close`).

## Model

| member | source | states |
|---|---|---|
| PyText.Strip | handlers.py:38 | `line.strip()` never makes a line longer; what it keeps and cuts is stated by the three lemmas below |
| PyText.StripCutsOnlySpace | handlers.py:38 | `line.strip()` is the slice after the leading white space, and only white space follows it |
| PyText.StripEndsNotSpace | handlers.py:38 | a non-empty stripped line neither starts nor ends with white space |
| PyText.StripIdempotent | handlers.py:38 | stripping a stripped line changes nothing |
| PyText.ParseInt | handlers.py:56 | `int(text)` succeeds exactly on an optional sign followed by decimal digits; otherwise it raises |
| PyText.ParseDigitsNonNegative | handlers.py:56 | a non-empty run of digits always converts, to a value that is not negative |
| PyText.StrRoundTrip | ui/indicators.py:71 | `int(str(n)) == n` for every integer: the amount a row prints reads back as the amount |
| PyText.Format | handlers.py:45 | `template.format(monster_name=…)` raises only on a template that holds a brace |
| PyText.FormatBraceFree | handlers.py:45 | a template without braces is returned unchanged by `format` |
| PyText.FormatSubstitutes | handlers.py:45 | a `{monster_name}` placeholder between brace-free text is replaced by the subject |
| PyText.ReadLines | handlers.py:35 | `readlines()` gives non-empty lines, with no newline inside a line and one at the end of every line but the last |
| PyText.ReadLinesJoin | handlers.py:35 | the lines joined back together are exactly the text read: nothing lost, nothing added |
| Handlers.CompileEntry | handlers.py:22-31 | one spell's entry in the rule table: none when its pattern fails to compile, otherwise a rule with its name, compiled pattern and template, and its category or `damage`; stated by `Handlers.CompiledRulesSingle` |
| Handlers.CompiledRules | handlers.py:20-31 | the rule table has at most one rule per configured spell |
| Handlers.CompiledRulesAppend | handlers.py:21-31 | the table of a concatenated spell list is the concatenation of the tables, so surviving rules keep their configuration order |
| Handlers.CompiledRulesSingle | handlers.py:22-31 | a spell whose pattern fails to compile is dropped; otherwise its rule carries its name, compiled pattern and template, and its category, which defaults to `damage` |
| Handlers.CompiledRulesComplete | handlers.py:21-31 | no spell is lost if and only if every pattern compiles |
| Handlers.Truthy | handlers.py:42 | the `if pattern['message_template']` test: a template that is absent or empty counts as none; stated through `Handlers.SpecialRuleEvent`, `Handlers.DamageRuleEvent` and the last clause of `Handlers.RuleEvent` |
| Handlers.RuleEvent | handlers.py:40-65 | a rule that does not match yields nothing; an event it yields carries the rule's spell name and category and capture 1 as its subject, and is special if and only if the rule has a non-empty template |
| Handlers.LineEvents | handlers.py:39-65 | one line yields at most one event per rule |
| Handlers.Classify | handlers.py:37-65 | a batch yields at most one event per rule and line |
| Handlers.Deliver | handlers.py:66-67 | the callback runs if and only if classification succeeded with at least one event; the handler raises if and only if classification raised |
| Handlers.LineEventsAppend | handlers.py:39-65 | there is no early exit among rules: the events of a split rule table are those of each part, in order, and the first exception wins |
| Handlers.LineEventsFollowMatches | handlers.py:39-65 | a line matching k rules yields k events; the i-th carries the spell name and category of the i-th matching rule |
| Handlers.LineEventsNoMatch | handlers.py:39-41 | a line that no rule matches yields no event |
| Handlers.ClassifyAppend | handlers.py:37-65 | lines keep their order: the events of a split batch are those of each part, in order, and the first exception wins |
| Handlers.ClassifyNoMatch | handlers.py:37-41 | a batch that no rule matches leads to no callback |
| Handlers.LineEventsPrefixErr | handlers.py:39-65 | an exception among the first rules is the exception of the whole line |
| Handlers.ClassifyPrefixErr | handlers.py:37-65 | an exception among the first lines is the exception of the whole batch; later lines are not classified |
| Handlers.SpecialRuleEvent | handlers.py:42-52 | a matching rule with a template yields a special event: the subject is capture 1 and the message is the filled template |
| Handlers.DamageRuleEvent | handlers.py:53-65 | a matching rule without a template and with a digit capture 2 yields a damage event whose amount is that number, not negative |
| Handlers.SpecialWithoutGroupRaises | handlers.py:44 | a template rule whose pattern has no capture group raises on `group(1)` |
| Handlers.RuleFailsLine | handlers.py:39-65 | rule j raising, after the rules before it succeeded, makes the whole line raise with that error |
| Handlers.LineFailsBatch | handlers.py:37-65 | line i raising, after the lines before it succeeded, makes the whole batch raise with that error |
| Handlers.Unread | handlers.py:34-35 | `readlines()` reads the end of the file from the cursor on: a suffix of the file, of length file length minus cursor when the cursor is inside the file |
| Handlers.SeededCursorSkipsHistory | handlers.py:19 | with the cursor put at the end of the log on start-up, only text appended later is ever read |
| Handlers.MatchRule | handlers.py:40-65 | one search of one rule in one stripped line gives no event, the special or damage event, or the exception, as the rule semantics define |
| Handlers.LogHandler.constructor | handlers.py:10-31 | the rule table is the compiled spell list, and the cursor is at the end of the file |
| Handlers.LogHandler.OnModified | handlers.py:33-67 | a notification about another file is ignored; otherwise the cursor moves to the end of the file and the outcome is the delivery of the classified unread lines |
| Handlers.LogHandler.ClassifyBatch | handlers.py:37-65 | the line loop computes the classification of the batch, including its first exception |
| Handlers.LogHandler.ClassifyLine | handlers.py:39-65 | the rule loop computes the events of one line, including its first exception |
| Grouping.GroupKeys | ui/overlay_window.py:52-60 | every key listed comes from an event of the batch |
| Grouping.Bucket | ui/overlay_window.py:52-60 | the list `categorized_events[key]` that the loop builds; its contents are stated by `Grouping.BucketMembers` and `Grouping.BucketsPartition` |
| Grouping.BucketMembers | ui/overlay_window.py:53-60 | a bucket holds exactly the events of the batch that carry its key |
| Grouping.GroupKeysSound | ui/overlay_window.py:57-59 | each key is listed once, and a key is listed if and only if its bucket is not empty |
| Grouping.EveryEventHasItsGroup | ui/overlay_window.py:53-60 | every event's key is listed |
| Grouping.BucketsPartition | ui/overlay_window.py:52-60 | the buckets partition the batch as a multiset: no event is lost and none is counted twice |
| Grouping.Categorize | ui/overlay_window.py:52-60 | the bucketing loop gives the keys in first-appearance order and each key's bucket |
| Layout.IconPath | ui/overlay_window.py:20 | an icon path found for a spell name is the icon path of a configured spell of that name |
| Layout.IconPathIsLastEntry | ui/overlay_window.py:20 | the icon lookup through `spells_dict` gives no icon for an unknown spell; for a name configured more than once, the last entry decides |
| Layout.Widget.Show | ui/group_indicator.py:31-39 | a new widget stands where it was placed, with the height the layout gives it, and is shown |
| Layout.Widget.Close | ui/indicators.py:53 | a widget whose fade-out finished is no longer visible |
| Layout.RowContent | ui/group_indicator.py:45-83 | an event gets a row only if its spell's icon path is set and exists on disk; the row is a damage row if and only if the event is a damage event, drawn with that icon in the group's category |
| Layout.Rows | ui/group_indicator.py:44-83 | a group has at most one row per event |
| Layout.GroupHeight | ui/group_indicator.py:41-103 | the height a group uses is at least its name label plus one padding |
| Layout.StackedConsecutive | ui/group_indicator.py:41-83 | the first row starts right below the name label and its padding; each next row starts right below the previous row and its padding |
| Layout.StackedWithin | ui/group_indicator.py:44-83 | every row lies inside the span the rows consume |
| Layout.SkippedEventTakesNoSpace | ui/group_indicator.py:48-50 | an event whose icon is unset, empty or missing gets no row; if it is a special event, the group's height does not change |
| Layout.DamageCount | ui/group_indicator.py:87 | the number of damage events of the group, rows or not (also testmain.py:841); stated by `Layout.SkippedDamageStillCounted` and `Layout.TotalDamageAppend` |
| Layout.TotalDamage | ui/group_indicator.py:86 | the sum of the damage events' amounts (also the loop of testmain.py:836-839, which `Legacy.SumDamage` is proved to compute); stated by `Layout.SkippedDamageStillCounted`, `Layout.TotalDamageAppend` and `Layout.TotalsOfTwoHits` |
| Layout.Totals | ui/group_indicator.py:86-89 | the totals row, present when the group holds at least two damage events and reading their sum under the group's subject (also testmain.py:836-842); stated by `Layout.TotalsOfTwoHits` and, for the drawn label, by the group constructors' `Valid()` |
| Layout.SkippedDamageStillCounted | ui/group_indicator.py:86-87 | a damage event without a row still counts towards the totals row and its sum |
| Layout.TotalDamageAppend | ui/group_indicator.py:86-87 | the damage count and sum of a split batch are the sums over its parts |
| Layout.TotalsOfTwoHits | ui/group_indicator.py:86-100 | two damage events of 100 and 250 give a totals row reading 350, under the group's subject and in its category's style |
| Layout.PlaceRows | ui/group_indicator.py:44-83 | the row loop stacks one shown row per event that has an icon, in event order, and returns the height below the last row |
| Layout.PlaceRow | ui/group_indicator.py:45-83 | one turn gives no row when the icon is unset, empty or missing on disk; otherwise it shows the event's row at the current height |
| Layout.CheckActive | ui/group_indicator.py:110-118 | the flag loop is true if and only if the name label, every row and the totals row (if any) are visible |
| Layout.GroupIndicator.constructor | ui/group_indicator.py:6-103 | the group is placed at its category's anchor plus its offset: name label, stacked rows, a totals row if and only if there are two or more damage events; its used height is the sum of the element heights and paddings; all elements are new and shown |
| Layout.GroupIndicator.FinalGroupHeight | ui/group_indicator.py:105-107 | the height reported is the group's full height, at least the name label plus one padding |
| Layout.GroupIndicator.IsActive | ui/group_indicator.py:109-118 | `is_active` is true if and only if every element is still visible |
| Layout.GroupIndicator.HiddenElementDeactivates | ui/group_indicator.py:109-118 | one element that is no longer shown makes the group inactive |
| Layout.GroupIndicator.ElementsWithinSpan | ui/group_indicator.py:41-103 | every element, with its padding, lies inside the height the group reports |
| Overlay.Consumed | ui/overlay_window.py:62-77 | the sum of height plus padding over a category's groups, which the running offset accumulates; its bounds are stated by `Overlay.ConsumedBounds` |
| Overlay.ConsumedStep | ui/overlay_window.py:77 | a new group advances its own category's offset by its height plus one padding, and no other category's |
| Overlay.ConsumedBounds | ui/overlay_window.py:62-77 | what the groups consume in a category is never negative, is zero for a category with no group, and is at least each of its groups' height plus padding |
| Overlay.ArrangedPlace | ui/overlay_window.py:65-77 | a group placed at its category's offset, with the offset then advanced, keeps all groups of each category stacked without overlap |
| Overlay.ActiveGroups | ui/overlay_window.py:82 | the groups whose `is_active()` holds, in order; stated by `Overlay.ActiveGroupsMembers` and computed by `Overlay.FilterActive` |
| Overlay.ActiveGroupsMembers | ui/overlay_window.py:81-83 | a group survives clean-up if and only if it is active, and the survivors come from the list |
| Overlay.NewGroupsSurvive | ui/overlay_window.py:62-83 | groups appended after the others and all still shown are all kept by the clean-up |
| Overlay.ArrangedActive | ui/overlay_window.py:81-83 | clean-up keeps the surviving groups stacked without overlap |
| Overlay.FilterActive | ui/overlay_window.py:82 | the comprehension keeps the active groups, in order |
| Overlay.OverlayWindow.constructor | ui/overlay_window.py:10-21 | a new window has no group and a zero offset for every configured category |
| Overlay.OverlayWindow.ShowDamage | ui/overlay_window.py:47-79 | an empty batch changes nothing. Otherwise there is one new group per key, in first-appearance order. Each shows its bucket, laid out as `init_group` lays it out, at its category's running offset. The offsets grow by what the new groups consume and never decrease. The inactive groups are dropped; every new group is still shown, so all of them survive the call's own clean-up |
| Overlay.OverlayWindow.PlaceBatch | ui/overlay_window.py:62-77 | the placement loop appends one group per key and advances the offsets by what they consume; every group it places is still shown |
| Overlay.OverlayWindow.PlaceGroup | ui/overlay_window.py:65-77 | one turn places the next key's group at its category's offset and advances that offset; the new group is shown |
| Overlay.OverlayWindow.Append | ui/overlay_window.py:73-77 | the group joins the window, and its category's offset grows by its height and the padding |
| Overlay.OverlayWindow.CleanupGroups | ui/overlay_window.py:81-83 | only the active groups remain, in order; the offsets stay |
| Overlay.OverlayWindow.GroupsOfACategoryDoNotOverlap | ui/overlay_window.py:62-77 | every element of a group ends, with two paddings, above the name label of any later group of the same category |
| Legacy.Stride | testmain.py:798-802 | a stride is at least the category's configured icon height plus its totals font size plus its name font size, and at least three paddings. These are configured sizes, not the heights of the drawn widgets, and they cover one row only |
| Legacy.SlotTop | testmain.py:798-805 | no slot lies above its category's anchor |
| Legacy.SlotsAreStrideApart | testmain.py:798-805 | slot 0 is the category's anchor, and each next slot lies one stride lower |
| Legacy.SlotsAreOrdered | testmain.py:798-805 | when the stride is not zero, a higher slot lies strictly lower |
| Legacy.SameKeyCount | testmain.py:922-923 | `len(existing_groups)`, the number of retained groups with the key; computed by `Legacy.CountSameKey` and stated by the two lemmas below |
| Legacy.SameKeyCountOtherKeys | testmain.py:922-923 | groups of other keys do not change a key's group index |
| Legacy.NoSameKeyGroupMeansSlotZero | testmain.py:922-923 | a key with no retained group starts again at slot 0 |
| Legacy.SumDamage | testmain.py:836-839 | the summing loop gives the total damage of the group's damage events |
| Legacy.CountSameKey | testmain.py:922-923 | the comprehension counts the retained groups with the key |
| Legacy.GroupIndicator.constructor | testmain.py:776-845 | the name label is in slot `group_index` of its category, then come the stacked rows, then a totals row if and only if there are two or more damage events; all elements are new and shown |
| Legacy.GroupIndicator.IsActive | testmain.py:847-856 | `is_active` is true if and only if every element is still visible |
| Legacy.SameSlotSamePlace | testmain.py:798-806 | the label's place depends only on the category and the group index, not on the subject |
| Legacy.BatchLabelsCollide | testmain.py:920-925 | two different subjects of one category in the same batch, with no retained group in that category, both get index 0, so their name labels land on the same spot |
| Legacy.ActiveGroups | testmain.py:930-934 | the groups whose `is_active()` holds, in order; stated by `Legacy.ActiveGroupsMembers` and computed by `Legacy.FilterActive` |
| Legacy.ActiveGroupsMembers | testmain.py:929-934 | a group survives clean-up if and only if it is active |
| Legacy.FilterActive | testmain.py:930-933 | the clean-up loop keeps the active groups, in order |
| Legacy.BatchStep | testmain.py:920-925 | one more group of a new key, at its key's count of retained groups, keeps the batch bookkeeping |
| Legacy.OverlayWindow.constructor | testmain.py:864-871 | a new window has no group |
| Legacy.OverlayWindow.ShowDamage | testmain.py:896-927 | an empty batch changes nothing. Otherwise there is one new group per key, in first-appearance order. Each shows its bucket, laid out as `init_group` lays it out, in the slot after its key's retained groups. Every new group is a new object. The inactive groups are dropped; every new group is still shown, so all of them survive the call's own clean-up |
| Legacy.OverlayWindow.PlaceBatch | testmain.py:920-925 | the placement loop appends one new group per key, each in the slot its key's retained groups leave free; every group it places is still shown |
| Legacy.OverlayWindow.PlaceGroup | testmain.py:921-925 | one turn counts the key's groups and places the next group in that slot; the new group is shown |
| Legacy.OverlayWindow.CleanupGroups | testmain.py:929-934 | only the active groups remain, in order; every group that was active is kept |

## Left out

- Qt itself is not modelled: window flags, style sheets, the category
  boxes of `initUI`, fonts, and the move and fade animations with their
  timing. A widget's `x` and `y` are where the layout asks for it. The
  widget's own centring (`x - width // 2`) and the float-down animation
  are not modelled.
- The regular-expression engine, `re.IGNORECASE` and the text of the
  `re.error` warning are not modelled. Compilation and search are
  parameters.
- File I/O, the `watchdog` observer, opening the log with the
  `FileNotFoundError` exit, and the `os.path.abspath` comparison are not
  modelled. The comparison is the `isLogFile` flag. `os.path.exists` is
  `Metrics.fileExists`.
- `PyText.ReadLines` splits at `'\n'` only. The universal-newline
  translation of `'\r'` and `'\r\n'` is not modelled.
- `PyText.ParseInt` accepts an optional sign and ASCII digits. `int()` also
  accepts surrounding white space, `_` separators and non-ASCII digits;
  none of these are modelled.
- `PyText.Format` knows `{{`, `}}` and `{monster_name}` only. Python
  accepts more field forms, and all of them are treated as errors here:
  - conversions (`{monster_name!r}`);
  - format specs (`{monster_name:>10}`);
  - index fields (`{monster_name[0]}`);
  - attribute fields (`{monster_name.upper}`).
- Layout.GroupIndicator.constructor: a category missing from
  `spell_categories` raises `KeyError` in the source. Here it is a
  precondition.
- Overlay.OverlayWindow.ShowDamage: requires every event's category to
  have an offset and a style. In the source, a category missing from
  `start_positions` or from `spell_categories` raises `KeyError` in the
  middle of a batch.
- Overlay.OverlayWindow.ShowDamage: does not state that the groups it
  places are new objects. The legacy version states it.
- Legacy.OverlayWindow.ShowDamage: requires every event's category to have
  a style, because `spell_categories[category]` raises `KeyError` in the
  source.
- Handlers.RuleEvent: only patterns whose capture groups always take part
  in a match are modelled. `Handlers.Match` holds texts only.
  - For a group that exists but did not take part, Python's
    `match.group(n)` returns `None`.
  - A template rule would then give a special event with subject `None`,
    and its message would be the template filled with `"None"`.
  - A damage rule would raise `TypeError` from `int(None)`.
  - The same holds for `Handlers.MatchRule`.
- The `font_size * total_font_ratio` product of the legacy stride is a
  float truncated by `int()`. It is an input here
  (`CategoryStyle.totalFontSize`).
- The legacy log handler (`testmain.py:939-997`) is the same code as
  `handlers.py` and is modelled once, by `Handlers.LogHandler`.
- `config.py`, `main.py`, `utils.py`, the configuration and position
  dialogs, and the remaining widgets of `testmain.py` are not part of this
  model.
- Three behaviours of the code are kept as written:
  - a template rule whose pattern has no capture group raises instead of
    using a placeholder subject (`Handlers.SpecialWithoutGroupRaises`);
  - a final line without a newline is read and consumed;
  - every rule is tried on every line, so one line can yield several
    events.

## Findings

| source | as written | input that shows it | evidently intended | confidence | as-written member | corrected member |
|---|---|---|---|---|---|---|
| testmain.py:920-925 | `group_index` counts only the retained groups with the same (category, monster name), and the slot depends only on category and index | one batch with damage on two different monsters of the same category, and no group retained for either: both get `group_index` 0 and put their name labels at the same place | groups of one category never overlap; `ui/overlay_window.py` achieves this by stacking each new group below the previous ones with a running per-category offset | not executed; high | Legacy.BatchLabelsCollide | Overlay.OverlayWindow.GroupsOfACategoryDoNotOverlap |
