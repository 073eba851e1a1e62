/** Rows of the `notification_rules` table, as the worker reads and disables them. */
module Rules {
  import opened Wrappers
  import Text

  datatype Rule = Rule(
    id: int,
    user: int,
    chat: int,
    thread: Option<int>,
    location: int,
    expression: string,
    schedule: Option<string>,
    cooldownMinutes: Option<int>,
    enabled: bool,
    dryRun: bool,
    snoozeUntil: Option<int>,
    fingerprint: string       // of the notification context, "" when there is none
  ) {
    /** `cooldown_minutes or 60`. */
    function EffectiveCooldown(): int {
      if cooldownMinutes.None? || cooldownMinutes.value == 0 then 60 else cooldownMinutes.value
    }
  }

  // The table in primary-key order, which is the order the worker selects it in.
  predicate InKeyOrder(rules: seq<Rule>) {
    forall i, j :: 0 <= i < j < |rules| ==> rules[i].id < rules[j].id
  }

  function Disable(rules: seq<Rule>, id: int): (r: seq<Rule>)
    ensures |r| == |rules|
    ensures forall i :: 0 <= i < |rules| ==>
              r[i] == if rules[i].id == id then rules[i].(enabled := false) else rules[i]
  {
    if rules == [] then []
    else [if rules[0].id == id then rules[0].(enabled := false) else rules[0]] + Disable(rules[1..], id)
  }

  /** Rule `id` is disabled or gone. */
  predicate Off(rules: seq<Rule>, id: int) {
    forall i :: 0 <= i < |rules| && rules[i].id == id ==> !rules[i].enabled
  }

  function ThreadText(thread: Option<int>): string {
    // `telegram_message_thread_id or ""`: a zero thread prints as nothing.
    if thread.None? || thread.value == 0 then "" else Text.IntText(thread.value)
  }

  /** `_scheduled_notification_key`: rules without a schedule have none. */
  function ScheduledKey(r: Rule): Option<string> {
    if r.schedule.None? then None
    else Some(Text.IntText(r.user) + "|" + Text.IntText(r.chat) + "|" + ThreadText(r.thread) + "|"
              + Text.IntText(r.location) + "|" + r.expression + "|" + r.schedule.value + "|" + r.fingerprint)
  }
}
