/** The staged suppression check (domain/notifications/deduplication.py). */
module Deduplication {
  import Durations
  import opened Wrappers
  import Text
  import opened NotificationEvents
  import opened DedupeKeys
  import Rules

  datatype Candidate = Candidate(
    windowStart: Option<Stamp>,
    windowEnd: Option<Stamp>,
    payloadHash: Option<Hash>     // None for an empty payload
  )

  function CandidateHash(sha: string -> string, rule: Rules.Rule, c: Candidate): Hash {
    PayloadHash(sha, MakeKey(sha, rule.id, rule.location, rule.expression, c.windowStart, c.windowEnd))
  }

  /** The hash is of rule, location, hashed expression and window, in this order, `null` for an unknown end. */
  lemma CandidateHashText(sha: string -> string, rule: Rules.Rule, c: Candidate)
    ensures CandidateHash(sha, rule, c)
            == sha(Text.IntText(rule.id) + (":" + (Text.IntText(rule.location) + (":" + (sha(rule.expression) + (":"
                   + (WindowText(c.windowStart) + (":" + WindowText(c.windowEnd)))))))))
  {
    hide WindowText, Text.IntText;
    var a, b, d := Text.IntText(rule.id), Text.IntText(rule.location), sha(rule.expression);
    var s, e := WindowText(c.windowStart), WindowText(c.windowEnd);
    assert a + ":" + (b + ":" + (d + ":" + (s + (":" + e)))) == a + (":" + (b + (":" + (d + (":" + (s + (":" + e)))))));
  }

  const SNOOZED := "snoozed"
  const COOLDOWN := "cooldown"
  const DUPLICATE := "duplicate"
  const UNCHANGED := "payload unchanged"

  /** A recorded, unsuppressed send of the rule at or after `cutoff`. */
  predicate SentSince(t: Table, rule: int, cutoff: int) {
    exists k :: 0 <= k < |t| && t[k].rule == rule && !t[k].suppressed
                && t[k].sentAt.Some? && t[k].sentAt.value >= cutoff
  }

  predicate SentWithHash(t: Table, rule: int, hash: Hash) {
    exists k :: 0 <= k < |t| && t[k].HasKey(rule, hash) && t[k].status == Sent
  }

  predicate SentRowOf(e: Event, rule: int) {
    e.rule == rule && e.hash.Some? && e.status == Sent
  }

  /** The most recently created sent row of the rule; the newest row wins a tie. */
  function LastSent(t: Table, rule: int): (r: Option<nat>)
    ensures r.Some? ==> r.value < |t| && SentRowOf(t[r.value], rule)
    ensures r.Some? ==> forall k :: 0 <= k < |t| && SentRowOf(t[k], rule) ==> t[k].createdAt <= t[r.value].createdAt
    ensures r.None? ==> forall k :: 0 <= k < |t| ==> !SentRowOf(t[k], rule)
  {
    if t == [] then None
    else
      var n := |t| - 1;
      var before := LastSent(t[..n], rule);
      if SentRowOf(t[n], rule) && (before.None? || t[before.value].createdAt <= t[n].createdAt) then Some(n)
      else before
  }

  function ShouldSuppress(sha: string -> string, t: Table, rule: Rules.Rule, c: Candidate, now: int): Option<string> {
    if rule.snoozeUntil.Some? && rule.snoozeUntil.value > now then Some(SNOOZED)
    else if SentSince(t, rule.id, now - rule.EffectiveCooldown() * Durations.MINUTE) then Some(COOLDOWN)
    else if c.windowStart.Some? && c.windowEnd.Some? && SentWithHash(t, rule.id, CandidateHash(sha, rule, c)) then
      Some(DUPLICATE)
    else if c.payloadHash.Some? && LastSent(t, rule.id).Some?
            && t[LastSent(t, rule.id).value].hash == c.payloadHash then
      Some(UNCHANGED)
    else None
  }

  /**
    A candidate that passes is not snoozed, and every earlier unsuppressed send of its rule is
    strictly older than the cooldown.
   */
  lemma PassingMeansCooledDown(sha: string -> string, t: Table, rule: Rules.Rule, c: Candidate, now: int, k: nat)
    requires ShouldSuppress(sha, t, rule, c, now).None?
    requires k < |t| && t[k].rule == rule.id && !t[k].suppressed && t[k].sentAt.Some?
    ensures now - t[k].sentAt.value > rule.EffectiveCooldown() * Durations.MINUTE
    ensures rule.snoozeUntil.Some? ==> rule.snoozeUntil.value <= now
  {
  }

  // ---- Exactly when a candidate passes ----------------------------------------------

  ghost predicate Snoozed(rule: Rules.Rule, now: int) {
    exists until :: rule.snoozeUntil == Some(until) && until > now
  }

  /** An unsuppressed send of the rule is no older than its cooldown. */
  ghost predicate CoolingDown(t: Table, rule: Rules.Rule, now: int) {
    exists k :: 0 <= k < |t| && t[k].rule == rule.id && !t[k].suppressed && t[k].sentAt.Some?
                && now - t[k].sentAt.value <= rule.EffectiveCooldown() * Durations.MINUTE
  }

  /** Both window ends are known, and a sent row of the rule has this notification's hash. */
  ghost predicate Duplicate(sha: string -> string, t: Table, rule: Rules.Rule, c: Candidate) {
    && c.windowStart.Some? && c.windowEnd.Some?
    && exists k :: 0 <= k < |t| && t[k].rule == rule.id && t[k].status == Sent
                   && t[k].hash == Some(CandidateHash(sha, rule, c))
  }

  /** Row `k` is the most recently created sent row of the rule that has a hash. */
  ghost predicate NewestSent(t: Table, rule: int, k: nat) {
    && k < |t| && t[k].rule == rule && t[k].hash.Some? && t[k].status == Sent
    && forall j :: 0 <= j < |t| && t[j].rule == rule && t[j].hash.Some? && t[j].status == Sent ==>
         t[j].createdAt < t[k].createdAt || (t[j].createdAt == t[k].createdAt && j <= k)
  }

  ghost predicate Unchanged(t: Table, rule: int, payload: Option<Hash>) {
    exists k: nat :: NewestSent(t, rule, k) && t[k].hash == payload
  }

  lemma {:induction false} LastSentIsNewest(t: Table, rule: int, k: nat)
    ensures LastSent(t, rule) == Some(k) <==> NewestSent(t, rule, k)
  {
    if t != [] {
      var n := |t| - 1;
      LastSentIsNewest(t[..n], rule, k);
      var before := LastSent(t[..n], rule);
      if before.Some? {
        LastSentIsNewest(t[..n], rule, before.value);
      }
    }
  }

  lemma LastSentExists(t: Table, rule: int, payload: Hash)
    ensures LastSent(t, rule).Some? && t[LastSent(t, rule).value].hash == Some(payload) <==> Unchanged(t, rule, Some(payload))
  {
    var last := LastSent(t, rule);
    if last.Some? {
      LastSentIsNewest(t, rule, last.value);
    }
    if k: nat :| NewestSent(t, rule, k) && t[k].hash == Some(payload) {
      LastSentIsNewest(t, rule, k);
    }
  }

  /**
    A candidate passes exactly when no snooze lies ahead, every unsuppressed send of its rule is
    strictly older than the cooldown, no sent row repeats its hash, and the newest sent row's
    hash differs from its payload's.  Otherwise the reason is the first of these that fails.
   */
  lemma PassesIff(sha: string -> string, t: Table, rule: Rules.Rule, c: Candidate, now: int)
    ensures var r := ShouldSuppress(sha, t, rule, c, now);
            var repeated := c.payloadHash.Some? && Unchanged(t, rule.id, c.payloadHash);
            if Snoozed(rule, now) then r == Some(SNOOZED)
            else if CoolingDown(t, rule, now) then r == Some(COOLDOWN)
            else if Duplicate(sha, t, rule, c) then r == Some(DUPLICATE)
            else if repeated then r == Some(UNCHANGED)
            else r.None?
  {
    hide CandidateHash, LastSent;
    if c.payloadHash.Some? {
      LastSentExists(t, rule.id, c.payloadHash.value);
    }
    if CoolingDown(t, rule, now) {
      var k :| 0 <= k < |t| && t[k].rule == rule.id && !t[k].suppressed && t[k].sentAt.Some?
               && now - t[k].sentAt.value <= rule.EffectiveCooldown() * Durations.MINUTE;
      assert SentSince(t, rule.id, now - rule.EffectiveCooldown() * Durations.MINUTE);
    }
  }

  // ---- The last check ---------------------------------------------------------------

  /** Every stored hash is the hash of some dedupe text. */
  ghost predicate HashesAreOfKeys(sha: string -> string, t: Table) {
    forall k :: 0 <= k < |t| && t[k].hash.Some? ==> IsKeyHash(sha, t[k].hash.value)
  }

  ghost predicate IsKeyHash(sha: string -> string, h: Hash) {
    exists key :: h == PayloadHash(sha, key)
  }

  lemma KeyTextIsNoObject(key: Key)
    ensures KeyText(key)[0] != '{'
  {
    hide WindowText;
    assert KeyText(key)[0] == Text.IntText(key.rule)[0];
  }

  /**
    The "payload unchanged" check compares the hash of a JSON object with stored hashes of dedupe
    texts.  Where the stored hashes are such, it never fires.
   */
  lemma UnchangedNeverFires(sha: string -> string, t: Table, rule: Rules.Rule, c: Candidate, now: int, json: string)
    requires IsHash(sha) && HashesAreOfKeys(sha, t)
    requires c.payloadHash == Some(sha(json)) && |json| > 0 && json[0] == '{'
    ensures ShouldSuppress(sha, t, rule, c, now) != Some(UNCHANGED)
    ensures ShouldSuppress(sha, t, rule, c, now) == ShouldSuppress(sha, t, rule, c.(payloadHash := None), now)
  {
    var last := LastSent(t, rule.id);
    if last.Some? && t[last.value].hash == c.payloadHash {
      assert IsKeyHash(sha, sha(json));
      var key :| sha(json) == PayloadHash(sha, key);
      KeyTextIsNoObject(key);
      assert false;
    }
  }
}
