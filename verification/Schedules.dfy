/**
  Schedule texts and the due check (domain/rules/schedule.py).

  ISO parsing and cron are outside the model: a `Calendar` supplies them, and is only
  assumed to give the greatest slot not after an instant.
 */
module Schedules {
  import opened Wrappers
  import Text

  datatype Calendar = Calendar(
    parseInstant: string -> Option<int>,
    cronValid: string -> bool,
    isSlot: (string, int) -> bool,
    lastSlot: (string, int) -> int
  )

  ghost predicate Lawful(cal: Calendar) {
    forall expr: string, now: int :: cal.cronValid(expr) ==> IsLastSlot(cal, expr, now, cal.lastSlot(expr, now))
  }

  ghost predicate IsLastSlot(cal: Calendar, expr: string, now: int, slot: int) {
    && slot <= now
    && cal.isSlot(expr, slot)
    && forall t :: slot < t <= now ==> !cal.isSlot(expr, t)
  }

  const ONCE := "once:"
  const CRON := "cron:"

  datatype Kind = Unscheduled | Once | Cron

  datatype Parsed = Parsed(kind: Kind, error: Option<string>, raw: string)

  function ParseSchedule(cal: Calendar, schedule: Option<string>): Parsed {
    if schedule.None? || schedule.value == "" then Parsed(Unscheduled, None, "")
    else
      var s := Text.Strip(schedule.value);
      if ONCE <= s then
        (if cal.parseInstant(s[5..]).None? then Parsed(Once, Some("Invalid once datetime: " + s[5..]), s)
         else Parsed(Once, None, s))
      else if CRON <= s then
        (if !cal.cronValid(s[5..]) then Parsed(Cron, Some("Invalid cron expression: " + s[5..]), s)
         else Parsed(Cron, None, s))
      else Parsed(Unscheduled, Some("Unknown schedule format: " + s), s)
  }

  predicate IsRuleDue(cal: Calendar, schedule: Option<string>, now: int) {
    var parsed := ParseSchedule(cal, schedule);
    if parsed.error.Some? then false
    else match parsed.kind
      case Unscheduled => true
      case Once =>
        var instant := cal.parseInstant(parsed.raw[5..]);
        instant.Some? && now >= instant.value
      case Cron => true
  }

  function LastCronSlot(cal: Calendar, schedule: Option<string>, now: int): Option<int> {
    var parsed := ParseSchedule(cal, schedule);
    if parsed.kind != Cron then None else Some(cal.lastSlot(parsed.raw[5..], now))
  }

  // ---- Reading the raw prefix -------------------------------------------------------

  predicate HasPrefix(schedule: Option<string>, prefix: string) {
    schedule.Some? && prefix <= schedule.value
  }

  /** The text after the prefix, as the parser sees it. */
  function Body(schedule: Option<string>): string
    requires HasPrefix(schedule, ONCE) || HasPrefix(schedule, CRON)
  {
    var s := Text.Strip(schedule.value);
    if |s| >= 5 then s[5..] else ""
  }

  /** The worker tests the raw prefix, the parser the stripped text; a raw prefix decides both. */
  lemma PrefixDecidesKind(cal: Calendar, schedule: Option<string>)
    ensures HasPrefix(schedule, ONCE) ==>
              ParseSchedule(cal, schedule).kind == Once
              && ParseSchedule(cal, schedule).raw[5..] == Body(schedule)
              && (ParseSchedule(cal, schedule).error.None? <==> cal.parseInstant(Body(schedule)).Some?)
    ensures HasPrefix(schedule, CRON) ==>
              ParseSchedule(cal, schedule).kind == Cron
              && ParseSchedule(cal, schedule).raw[5..] == Body(schedule)
              && (ParseSchedule(cal, schedule).error.None? <==> cal.cronValid(Body(schedule)))
  {
    if HasPrefix(schedule, ONCE) {
      Text.TrimRightKeepsPrefix(schedule.value, ONCE);
    } else if HasPrefix(schedule, CRON) {
      Text.TrimRightKeepsPrefix(schedule.value, CRON);
      assert ONCE[0] != CRON[0];
    }
  }

  /** A text after a prefix reads as that kind, with its error when the text is not readable. */
  lemma PrefixedText(cal: Calendar, rest: string)
    ensures var once := Some("once:" + rest);
            && HasPrefix(once, ONCE) && ParseSchedule(cal, once).kind == Once
            && ParseSchedule(cal, once).error == (if cal.parseInstant(Body(once)).Some? then None
                                                  else Some("Invalid once datetime: " + Body(once)))
            && (forall now :: LastCronSlot(cal, once, now).None?)
    ensures var cron := Some("cron:" + rest);
            && HasPrefix(cron, CRON) && ParseSchedule(cal, cron).kind == Cron
            && ParseSchedule(cal, cron).error == (if cal.cronValid(Body(cron)) then None
                                                  else Some("Invalid cron expression: " + Body(cron)))
  {
    PrefixDecidesKind(cal, Some("once:" + rest));
    PrefixDecidesKind(cal, Some("cron:" + rest));
  }

  /** No schedule is always due; a text of neither kind never is, and has no slot. */
  lemma OtherTexts(cal: Calendar, schedule: Option<string>, now: int)
    ensures schedule.None? || schedule.value == "" ==> IsRuleDue(cal, schedule, now) && LastCronSlot(cal, schedule, now).None?
    ensures schedule.Some? && schedule.value != ""
            && !(ONCE <= Text.Strip(schedule.value)) && !(CRON <= Text.Strip(schedule.value)) ==>
              && !IsRuleDue(cal, schedule, now) && LastCronSlot(cal, schedule, now).None?
              && ParseSchedule(cal, schedule).error == Some("Unknown schedule format: " + Text.Strip(schedule.value))
  {
  }

  /** A due `once:` rule has a readable instant, and that instant has come. */
  lemma OnceDueOnlyFromItsInstant(cal: Calendar, schedule: Option<string>, now: int)
    requires HasPrefix(schedule, ONCE)
    ensures IsRuleDue(cal, schedule, now) <==>
              var instant := cal.parseInstant(Body(schedule));
              instant.Some? && now >= instant.value
  {
    PrefixDecidesKind(cal, schedule);
  }

  /** A due `cron:` rule has a valid expression and a last slot. */
  lemma CronDueHasSlot(cal: Calendar, schedule: Option<string>, now: int)
    requires HasPrefix(schedule, CRON)
    ensures IsRuleDue(cal, schedule, now) <==> cal.cronValid(Body(schedule))
    ensures LastCronSlot(cal, schedule, now) == Some(cal.lastSlot(Body(schedule), now))
  {
    PrefixDecidesKind(cal, schedule);
  }

  lemma LastSlotMonotone(cal: Calendar, expr: string, now: int, later: int)
    requires Lawful(cal) && cal.cronValid(expr) && now <= later
    ensures cal.lastSlot(expr, now) <= cal.lastSlot(expr, later)
  {
    assert IsLastSlot(cal, expr, now, cal.lastSlot(expr, now));
    assert IsLastSlot(cal, expr, later, cal.lastSlot(expr, later));
  }
}
