/**
 * The log handler: the rule table built from the configured spells, the
 * cursor into the log file, and the classification of every newly appended
 * line into damage and special events.
 *
 * The regular-expression engine is not modelled: compiling a pattern is a
 * function the caller supplies (`None` for a pattern that does not compile),
 * and a compiled pattern is a `Matcher` giving the capture groups of the
 * first match in a line, if any.
 */
module Handlers {
  import opened Wrappers
  import opened PyText
  import opened Events

  /** The capture groups of a match: `groups[n - 1]` is the text of group `n`. */
  datatype Match = Match(groups: seq<string>)

  /** A compiled, case-insensitive pattern searched for in one line. */
  type Matcher = string -> Option<Match>

  /** One entry of the rule table. */
  datatype Rule = Rule(
    spellName: string,
    search: Matcher,
    messageTemplate: Option<string>,
    category: string)

  /** Why classifying a batch raised, abandoning the whole batch. */
  datatype ClassifyError =
    | NoSuchGroup(spellName: string, group: nat)
    | NotAnInteger(spellName: string, text: string)
    | BadTemplate(spellName: string)

  /** What a change notification leads to. */
  datatype Dispatch =
    | Ignored                        // the notification is about another file
    | NoCallback                     // the new lines produced no event
    | Callback(events: seq<Event>)   // the callback is invoked with these events
    | Raised(error: ClassifyError)   // the handler raised; no callback

  // ---------------------------------------------------------------------
  // The rule table
  // ---------------------------------------------------------------------

  /** The rule for one spell entry, or `None` when its pattern does not compile. */
  function CompileEntry(spell: SpellEntry, compile: string -> Option<Matcher>): Option<Rule> {
    match compile(spell.regexPattern)
    case None => None
    case Some(m) =>
      var category := if spell.category.Some? then spell.category.value else "damage";
      Some(Rule(spell.spellName, m, spell.messageTemplate, category))
  }

  function OptionSeq<T>(o: Option<T>): seq<T> {
    if o.Some? then [o.value] else []
  }

  /** The rule table built from `spells`: one rule per compiling pattern, in order. */
  function CompiledRules(spells: seq<SpellEntry>, compile: string -> Option<Matcher>): (rules: seq<Rule>)
    ensures |rules| <= |spells|
  {
    if spells == [] then []
    else CompiledRules(spells[..|spells| - 1], compile) + OptionSeq(CompileEntry(spells[|spells| - 1], compile))
  }

  /** The table of a concatenation is the concatenation of the tables: survivors keep their order. */
  lemma {:induction false} CompiledRulesAppend(a: seq<SpellEntry>, b: seq<SpellEntry>, compile: string -> Option<Matcher>)
    ensures CompiledRules(a + b, compile) == CompiledRules(a, compile) + CompiledRules(b, compile)
    decreases |b|
  {
    if b == [] {
      assert a + b == a;
    } else {
      var n := |b| - 1;
      assert (a + b)[..|a + b| - 1] == a + b[..n];
      assert (a + b)[|a + b| - 1] == b[n];
      CompiledRulesAppend(a, b[..n], compile);
    }
  }

  /** A spell is dropped exactly when its pattern does not compile; a missing category reads 'damage'. */
  lemma CompiledRulesSingle(s: SpellEntry, compile: string -> Option<Matcher>)
    ensures compile(s.regexPattern).None? ==> CompiledRules([s], compile) == []
    ensures compile(s.regexPattern).Some? ==>
      && |CompiledRules([s], compile)| == 1
      && CompiledRules([s], compile)[0].spellName == s.spellName
      && CompiledRules([s], compile)[0].search == compile(s.regexPattern).value
      && CompiledRules([s], compile)[0].messageTemplate == s.messageTemplate
      && CompiledRules([s], compile)[0].category == (if s.category.Some? then s.category.value else "damage")
  {
    assert [s][..0] == [];
  }

  /** No spell is lost exactly when every pattern compiles. */
  lemma {:induction false} CompiledRulesComplete(spells: seq<SpellEntry>, compile: string -> Option<Matcher>)
    ensures |CompiledRules(spells, compile)| == |spells| <==>
      forall i :: 0 <= i < |spells| ==> compile(spells[i].regexPattern).Some?
  {
    if spells != [] {
      var n := |spells| - 1;
      CompiledRulesComplete(spells[..n], compile);
      if compile(spells[n].regexPattern).None? {
        assert |CompiledRules(spells, compile)| < |spells|;
      } else {
        assert forall i :: 0 <= i < n ==> spells[..n][i] == spells[i];
      }
    }
  }

  // ---------------------------------------------------------------------
  // Classifying lines
  // ---------------------------------------------------------------------

  /** `if pattern['message_template']`: present and non-empty. */
  predicate Truthy(t: Option<string>) {
    t.Some? && t.value != []
  }

  /**
   * The event one rule yields for one stripped line: none when its pattern
   * does not match, a special event when it has a template, a damage event
   * otherwise, or the exception raised by `group(1)`, `group(2)`, `int` or
   * `format`.
   */
  function RuleEvent(r: Rule, line: string): (res: Result<Option<Event>, ClassifyError>)
    ensures r.search(line).None? ==> res == Ok(None)
    ensures res.Ok? && res.value.Some? ==>
      && r.search(line).Some? && r.search(line).value.groups != []
      && res.value.value.spellName == r.spellName
      && res.value.value.category == r.category
      && res.value.value.monsterName == r.search(line).value.groups[0]
      && (res.value.value.Special? <==> Truthy(r.messageTemplate))
  {
    match r.search(line)
    case None => Ok(None)
    case Some(m) =>
      if |m.groups| < 1 then Err(NoSuchGroup(r.spellName, 1))
      else if Truthy(r.messageTemplate) then
        match Format(r.messageTemplate.value, m.groups[0])
        case None => Err(BadTemplate(r.spellName))
        case Some(message) => Ok(Some(Special(r.spellName, r.category, m.groups[0], message)))
      else if |m.groups| < 2 then Err(NoSuchGroup(r.spellName, 2))
      else
        match ParseInt(m.groups[1])
        case None => Err(NotAnInteger(r.spellName, m.groups[1]))
        case Some(amount) => Ok(Some(Damage(r.spellName, r.category, m.groups[0], amount)))
  }

  /** The events of one stripped line: every rule is tried, in table order. */
  function LineEvents(rules: seq<Rule>, line: string): (res: Result<seq<Event>, ClassifyError>)
    ensures res.Ok? ==> |res.value| <= |rules|
  {
    if rules == [] then Ok([])
    else
      var before :- LineEvents(rules[..|rules| - 1], line);
      var e :- RuleEvent(rules[|rules| - 1], line);
      Ok(before + OptionSeq(e))
  }

  /** The events of a batch of lines, each stripped first, in line order. */
  function Classify(rules: seq<Rule>, lines: seq<string>): (res: Result<seq<Event>, ClassifyError>)
    ensures res.Ok? ==> |res.value| <= |rules| * |lines|
  {
    if lines == [] then Ok([])
    else
      var before :- Classify(rules, lines[..|lines| - 1]);
      var es :- LineEvents(rules, Strip(lines[|lines| - 1]));
      assert |rules| * (|lines| - 1) + |rules| == |rules| * |lines|;
      Ok(before + es)
  }

  /** Sequencing two results: the first failure wins, otherwise the outputs are concatenated. */
  function Then<T>(x: Result<seq<T>, ClassifyError>, y: Result<seq<T>, ClassifyError>): Result<seq<T>, ClassifyError> {
    match x
    case Err(_) => x
    case Ok(u) =>
      match y
      case Err(_) => y
      case Ok(v) => Ok(u + v)
  }

  /** The callback is invoked only with a non-empty batch of events. */
  function Deliver(r: Result<seq<Event>, ClassifyError>): (d: Dispatch)
    ensures d.Callback? <==> r.Ok? && r.value != []
    ensures d.Raised? <==> r.Err?
  {
    match r
    case Err(e) => Raised(e)
    case Ok(events) => if events == [] then NoCallback else Callback(events)
  }

  /** The rules that match a line, in table order. */
  function Matching(rules: seq<Rule>, line: string): seq<Rule> {
    if rules == [] then []
    else
      var last := rules[|rules| - 1];
      Matching(rules[..|rules| - 1], line) + (if last.search(line).Some? then [last] else [])
  }

  /** No early exit: the events of a concatenated table are those of each part, in order. */
  lemma {:induction false} LineEventsAppend(a: seq<Rule>, b: seq<Rule>, line: string)
    ensures LineEvents(a + b, line) == Then(LineEvents(a, line), LineEvents(b, line))
    decreases |b|
  {
    if b == [] {
      assert a + b == a;
      match LineEvents(a, line)
      case Ok(u) => assert u + [] == u;
      case Err(_) =>
    } else {
      var n := |b| - 1;
      assert (a + b)[..|a + b| - 1] == a + b[..n];
      assert (a + b)[|a + b| - 1] == b[n];
      LineEventsAppend(a, b[..n], line);
      match LineEvents(a, line)
      case Err(_) =>
      case Ok(u) =>
        match LineEvents(b[..n], line)
        case Err(_) =>
        case Ok(v) =>
          match RuleEvent(b[n], line)
          case Err(_) =>
          case Ok(e) => assert u + v + OptionSeq(e) == u + (v + OptionSeq(e));
    }
  }

  /** A line matching k rules yields k events, the i-th from the i-th matching rule. */
  lemma {:induction false} LineEventsFollowMatches(rules: seq<Rule>, line: string)
    requires LineEvents(rules, line).Ok?
    ensures |LineEvents(rules, line).value| == |Matching(rules, line)|
    ensures forall i :: 0 <= i < |Matching(rules, line)| ==>
      && LineEvents(rules, line).value[i].spellName == Matching(rules, line)[i].spellName
      && LineEvents(rules, line).value[i].category == Matching(rules, line)[i].category
  {
    if rules != [] {
      var n := |rules| - 1;
      LineEventsFollowMatches(rules[..n], line);
    }
  }

  /** A line no rule matches yields no event. */
  lemma {:induction false} LineEventsNoMatch(rules: seq<Rule>, line: string)
    requires forall i :: 0 <= i < |rules| ==> rules[i].search(line).None?
    ensures LineEvents(rules, line) == Ok([])
  {
    if rules != [] {
      var n := |rules| - 1;
      assert forall i :: 0 <= i < n ==> rules[..n][i] == rules[i];
      LineEventsNoMatch(rules[..n], line);
      assert RuleEvent(rules[n], line) == Ok(None);
      assert LineEvents(rules[..n], line) == Ok([]);
      assert LineEvents(rules, line) == Ok([] + OptionSeq<Event>(None));
      assert [] + OptionSeq<Event>(None) == [];
    } else {
      assert LineEvents(rules, line) == Ok([]);
    }
  }

  /** Sequencing is associative. */
  lemma ThenAssociative<T>(x: Result<seq<T>, ClassifyError>, y: Result<seq<T>, ClassifyError>, z: Result<seq<T>, ClassifyError>)
    ensures Then(Then(x, y), z) == Then(x, Then(y, z))
  {
    if x.Ok? && y.Ok? && z.Ok? {
      assert x.value + y.value + z.value == x.value + (y.value + z.value);
    }
  }

  /** One more line: the batch so far, then that line's events. */
  lemma ClassifyStep(rules: seq<Rule>, lines: seq<string>)
    requires lines != []
    ensures Classify(rules, lines)
      == Then(Classify(rules, lines[..|lines| - 1]), LineEvents(rules, Strip(lines[|lines| - 1])))
  {
  }

  /** Lines keep their order: the events of a concatenated batch are those of each part, in order. */
  lemma {:induction false} ClassifyAppend(rules: seq<Rule>, a: seq<string>, b: seq<string>)
    ensures Classify(rules, a + b) == Then(Classify(rules, a), Classify(rules, b))
    decreases |b|
  {
    if b == [] {
      assert a + b == a;
      if Classify(rules, a).Ok? {
        assert Classify(rules, a).value + [] == Classify(rules, a).value;
      }
    } else {
      var n := |b| - 1;
      assert (a + b)[..|a + b| - 1] == a + b[..n];
      assert (a + b)[|a + b| - 1] == b[n];
      ClassifyStep(rules, a + b);
      ClassifyStep(rules, b);
      ClassifyAppend(rules, a, b[..n]);
      ThenAssociative(Classify(rules, a), Classify(rules, b[..n]), LineEvents(rules, Strip(b[n])));
    }
  }

  /** A batch of lines no rule matches produces no callback. */
  lemma {:induction false} ClassifyNoMatch(rules: seq<Rule>, lines: seq<string>)
    requires forall i, j :: 0 <= i < |lines| && 0 <= j < |rules| ==> rules[j].search(Strip(lines[i])).None?
    ensures Classify(rules, lines) == Ok([])
    ensures Deliver(Classify(rules, lines)) == NoCallback
  {
    if lines != [] {
      var n := |lines| - 1;
      assert forall i :: 0 <= i < n ==> lines[..n][i] == lines[i];
      ClassifyNoMatch(rules, lines[..n]);
      LineEventsNoMatch(rules, Strip(lines[n]));
      var none: seq<Event> := [];
      assert Classify(rules, lines) == Ok(none + none);
      assert none + none == none;
    }
  }

  /** A failure among the first `k` rules is the failure of the whole line. */
  lemma {:induction false} LineEventsPrefixErr(rules: seq<Rule>, k: nat, line: string)
    requires k <= |rules| && LineEvents(rules[..k], line).Err?
    ensures LineEvents(rules, line) == LineEvents(rules[..k], line)
  {
    assert rules == rules[..k] + rules[k..];
    LineEventsAppend(rules[..k], rules[k..], line);
  }

  /** A failure among the first `k` lines is the failure of the whole batch. */
  lemma {:induction false} ClassifyPrefixErr(rules: seq<Rule>, k: nat, lines: seq<string>)
    requires k <= |lines| && Classify(rules, lines[..k]).Err?
    ensures Classify(rules, lines) == Classify(rules, lines[..k])
  {
    assert lines == lines[..k] + lines[k..];
    ClassifyAppend(rules, lines[..k], lines[k..]);
  }

  /**
   * A matching rule with a template yields a special event whose subject is
   * capture 1 and whose message is the template filled with it.
   */
  lemma SpecialRuleEvent(r: Rule, line: string, m: Match)
    requires r.search(line) == Some(m) && Truthy(r.messageTemplate) && |m.groups| >= 1
    requires Format(r.messageTemplate.value, m.groups[0]).Some?
    ensures RuleEvent(r, line) ==
      Ok(Some(Special(r.spellName, r.category, m.groups[0], Format(r.messageTemplate.value, m.groups[0]).value)))
  {
  }

  /**
   * A matching rule without a template yields a damage event carrying the
   * value of capture 2; for a `\d+` capture that value is not negative.
   */
  lemma DamageRuleEvent(r: Rule, line: string, m: Match)
    requires r.search(line) == Some(m) && !Truthy(r.messageTemplate) && |m.groups| >= 2
    requires m.groups[1] != [] && AllDigits(m.groups[1])
    ensures RuleEvent(r, line).Ok? && RuleEvent(r, line).value.Some?
    ensures RuleEvent(r, line).value.value == Damage(r.spellName, r.category, m.groups[0], DigitsValue(m.groups[1]))
    ensures RuleEvent(r, line).value.value.damage >= 0
  {
    ParseDigitsNonNegative(m.groups[1]);
  }

  /**
   * A template rule whose pattern has no capture group raises on
   * `group(1)` rather than producing an event with a placeholder subject.
   */
  lemma SpecialWithoutGroupRaises(r: Rule, line: string)
    requires r.search(line) == Some(Match([])) && Truthy(r.messageTemplate)
    ensures RuleEvent(r, line) == Err(NoSuchGroup(r.spellName, 1))
  {
  }

  /** Rule `j` raising, after the rules before it succeeded, makes the whole line raise. */
  lemma {:induction false} RuleFailsLine(rules: seq<Rule>, j: nat, line: string, e: ClassifyError)
    requires j < |rules|
    requires LineEvents(rules[..j], line).Ok?
    requires RuleEvent(rules[j], line) == Err(e)
    ensures LineEvents(rules, line) == Err(e)
  {
    assert rules[..j + 1][..j] == rules[..j];
    assert rules[..j + 1][j] == rules[j];
    assert LineEvents(rules[..j + 1], line) == Err(e);
    LineEventsPrefixErr(rules, j + 1, line);
  }

  /** Line `i` raising, after the lines before it succeeded, makes the whole batch raise. */
  lemma {:induction false} LineFailsBatch(rules: seq<Rule>, lines: seq<string>, i: nat, e: ClassifyError)
    requires i < |lines|
    requires Classify(rules, lines[..i]).Ok?
    requires LineEvents(rules, Strip(lines[i])) == Err(e)
    ensures Classify(rules, lines) == Err(e)
  {
    assert lines[..i + 1][..i] == lines[..i];
    assert lines[..i + 1][i] == lines[i];
    assert Classify(rules, lines[..i + 1]) == Err(e);
    ClassifyPrefixErr(rules, i + 1, lines);
  }

  // ---------------------------------------------------------------------
  // The handler object
  // ---------------------------------------------------------------------

  /** The text `readlines()` returns from character offset `cursor` of the file's current content. */
  function Unread(cursor: nat, file: string): (r: string)
    ensures |r| <= |file| && r == file[|file| - |r|..]
    ensures cursor <= |file| ==> |r| == |file| - cursor
  {
    if cursor < |file| then file[cursor..] else []
  }

  /** Content already in the file when the cursor was seeded at its end is never read again. */
  lemma SeededCursorSkipsHistory(history: string, appended: string)
    ensures Unread(|history|, history + appended) == appended
  {
    if appended == [] {
      assert Unread(|history|, history + appended) == [];
    }
  }

  /**
   * The body of the inner loop of `on_modified`: search one rule in one
   * stripped line and build the event it yields, raising as Python does.
   */
  method MatchRule(pattern: Rule, line: string) returns (outcome: Result<Option<Event>, ClassifyError>)
    ensures outcome == RuleEvent(pattern, line)
  {
    var found := pattern.search(line);
    if found.None? {
      return Ok(None);
    }
    var groups := found.value.groups;
    if |groups| < 1 {
      return Err(NoSuchGroup(pattern.spellName, 1));
    }
    var monsterName := groups[0];
    if Truthy(pattern.messageTemplate) {
      var message := Format(pattern.messageTemplate.value, monsterName);
      if message.None? {
        return Err(BadTemplate(pattern.spellName));
      }
      return Ok(Some(Special(pattern.spellName, pattern.category, monsterName, message.value)));
    }
    if |groups| < 2 {
      return Err(NoSuchGroup(pattern.spellName, 2));
    }
    var damage := ParseInt(groups[1]);
    if damage.None? {
      return Err(NotAnInteger(pattern.spellName, groups[1]));
    }
    return Ok(Some(Damage(pattern.spellName, pattern.category, monsterName, damage.value)));
  }

  class LogHandler {
    /** The rule table, in configuration order. */
    const spellPatterns: seq<Rule>
    /** The file cursor, in characters from the start of the log. */
    var position: nat

    /**
     * Opens the log with the cursor at its end and builds the rule table,
     * skipping (with a warning) every spell whose pattern does not compile.
     */
    constructor (spells: seq<SpellEntry>, compile: string -> Option<Matcher>, file: string)
      ensures spellPatterns == CompiledRules(spells, compile)
      ensures position == |file|
    {
      position := |file|;
      var patterns: seq<Rule> := [];
      var i := 0;
      while i < |spells|
        invariant 0 <= i <= |spells|
        invariant patterns == CompiledRules(spells[..i], compile)
      {
        assert spells[..i + 1][..i] == spells[..i];
        match compile(spells[i].regexPattern) {
          case Some(regex) =>
            var category := if spells[i].category.Some? then spells[i].category.value else "damage";
            patterns := patterns + [Rule(spells[i].spellName, regex, spells[i].messageTemplate, category)];
          case None =>
        }
        i := i + 1;
      }
      assert spells[..i] == spells;
      spellPatterns := patterns;
    }

    /**
     * A change notification: when it is about the log, read every line
     * appended since the cursor, classify the batch and hand the collected
     * events to the callback if there are any. The cursor has already moved
     * when classification raises.
     */
    method OnModified(isLogFile: bool, file: string) returns (d: Dispatch)
      modifies this
      ensures !isLogFile ==> d == Ignored && position == old(position)
      ensures isLogFile ==> position == if old(position) < |file| then |file| else old(position)
      ensures isLogFile ==> d == Deliver(Classify(spellPatterns, ReadLines(Unread(old(position), file))))
    {
      if !isLogFile {
        return Ignored;
      }
      var lines := ReadLines(Unread(position, file));
      if position < |file| {
        position := |file|;
      }
      var outcome := ClassifyBatch(lines);
      match outcome {
        case Err(e) => d := Raised(e);
        case Ok(events) => d := if events == [] then NoCallback else Callback(events);
      }
    }

    /**
     * The outer loop of `on_modified`: every line is stripped and its events
     * are appended to one list; the first exception abandons the batch.
     */
    method ClassifyBatch(lines: seq<string>) returns (outcome: Result<seq<Event>, ClassifyError>)
      ensures outcome == Classify(spellPatterns, lines)
    {
      var events: seq<Event> := [];
      var i := 0;
      while i < |lines|
        invariant 0 <= i <= |lines|
        invariant Classify(spellPatterns, lines[..i]) == Ok(events)
      {
        assert lines[..i + 1][..i] == lines[..i];
        var found := ClassifyLine(Strip(lines[i]));
        if found.Err? {
          LineFailsBatch(spellPatterns, lines, i, found.error);
          return Err(found.error);
        }
        events := events + found.value;
        i := i + 1;
      }
      assert lines[..i] == lines;
      return Ok(events);
    }

    /**
     * The inner loop of `on_modified`: every rule is tried on one stripped
     * line, in table order; the first exception abandons the line.
     */
    method ClassifyLine(line: string) returns (outcome: Result<seq<Event>, ClassifyError>)
      ensures outcome == LineEvents(spellPatterns, line)
    {
      var events: seq<Event> := [];
      var j := 0;
      while j < |spellPatterns|
        invariant 0 <= j <= |spellPatterns|
        invariant LineEvents(spellPatterns[..j], line) == Ok(events)
      {
        assert spellPatterns[..j + 1][..j] == spellPatterns[..j];
        assert spellPatterns[..j + 1][j] == spellPatterns[j];
        var found := MatchRule(spellPatterns[j], line);
        if found.Err? {
          RuleFailsLine(spellPatterns, j, line, found.error);
          return Err(found.error);
        }
        events := events + OptionSeq(found.value);
        j := j + 1;
      }
      assert spellPatterns[..j] == spellPatterns;
      return Ok(events);
    }
  }
}
