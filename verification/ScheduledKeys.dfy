/** When two scheduled rules have the same key in a delivery loop (infrastructure/worker/rule_evaluator.py). */
module ScheduledKeys {
  import opened Wrappers
  import Text
  import opened Rules

  // ---- Cutting a joined text --------------------------------------------------------

  lemma NumbersHaveNoBar(n: int)
    ensures '|' !in Text.IntText(n)
  {
  }

  /** A text without a bar in front of one is recognised, whatever follows. */
  lemma FirstCut(a: string, x: string, b: string, y: string)
    requires '|' !in a && '|' !in b && a + "|" + x == b + "|" + y
    ensures a == b && x == y
  {
    Text.SplitAtSeparator(a, '|', x);
    Text.SplitAtSeparator(b, '|', y);
  }

  lemma LastBar(x: string, a: string)
    requires '|' !in a
    ensures var s := x + "|" + a;
            s[|x|] == '|' && forall i :: |x| < i < |s| ==> s[i] != '|'
  {
    var s := x + "|" + a;
    forall i | |x| < i < |s| ensures s[i] != '|' {
      assert s[i] == a[i - |x| - 1];
    }
  }

  /** So is a text without a bar behind the last one. */
  lemma LastCut(x: string, a: string, y: string, b: string)
    requires '|' !in a && '|' !in b && x + "|" + a == y + "|" + b
    ensures x == y && a == b
  {
    LastBar(x, a);
    LastBar(y, b);
    assert |x| == |y|;
    Text.SameCut(x + "|", a, y + "|", b);
    assert (x + "|")[..|x|] == x && (y + "|")[..|y|] == y;
  }

  // ---- Equal keys -------------------------------------------------------------------

  /** No thread and thread 0 print alike, any other threads apart. */
  predicate SameThread(a: Option<int>, b: Option<int>) {
    a.GetOr(0) == b.GetOr(0)
  }

  lemma ThreadTextIffSame(a: Option<int>, b: Option<int>)
    ensures ThreadText(a) == ThreadText(b) <==> SameThread(a, b)
    ensures '|' !in ThreadText(a)
  {
    NumbersHaveNoBar(a.GetOr(0));
    if ThreadText(a) == ThreadText(b) && ThreadText(a) != "" {
      Text.IntTextInjective(a.value, b.value);
    }
  }

  /** The free texts at the end of the key. */
  function Tail(r: Rule): string
    requires r.schedule.Some?
  {
    r.expression + "|" + r.schedule.value + "|" + r.fingerprint
  }

  predicate SamePlace(a: Rule, b: Rule) {
    a.user == b.user && a.chat == b.chat && SameThread(a.thread, b.thread) && a.location == b.location
  }

  lemma KeyIsHeadAndTail(r: Rule)
    requires r.schedule.Some?
    ensures ScheduledKey(r)
            == Some(Text.IntText(r.user) + "|" + (Text.IntText(r.chat) + "|" + (ThreadText(r.thread) + "|"
                    + (Text.IntText(r.location) + "|" + Tail(r)))))
  {
    hide Text.IntText, ThreadText;
    var u, c, t, l := Text.IntText(r.user), Text.IntText(r.chat), ThreadText(r.thread), Text.IntText(r.location);
    assert u + "|" + c + "|" + t + "|" + l + "|" + r.expression + "|" + r.schedule.value + "|" + r.fingerprint
        == u + "|" + (c + "|" + (t + "|" + (l + "|" + Tail(r))));
  }

  /** Keys agree exactly when the rules agree on user, chat, thread and location and on the joined free texts. */
  lemma SameKeyIff(a: Rule, b: Rule)
    requires a.schedule.Some? && b.schedule.Some?
    ensures ScheduledKey(a) == ScheduledKey(b) <==> SamePlace(a, b) && Tail(a) == Tail(b)
  {
    hide Text.IntText, ThreadText, ScheduledKey, Tail;
    KeyIsHeadAndTail(a);
    KeyIsHeadAndTail(b);
    ThreadTextIffSame(a.thread, b.thread);
    ThreadTextIffSame(b.thread, a.thread);
    if ScheduledKey(a) == ScheduledKey(b) {
      NumbersHaveNoBar(a.user);
      NumbersHaveNoBar(b.user);
      NumbersHaveNoBar(a.chat);
      NumbersHaveNoBar(b.chat);
      NumbersHaveNoBar(a.location);
      NumbersHaveNoBar(b.location);
      var a3, b3 := Text.IntText(a.location) + "|" + Tail(a), Text.IntText(b.location) + "|" + Tail(b);
      var a2, b2 := ThreadText(a.thread) + "|" + a3, ThreadText(b.thread) + "|" + b3;
      var a1, b1 := Text.IntText(a.chat) + "|" + a2, Text.IntText(b.chat) + "|" + b2;
      FirstCut(Text.IntText(a.user), a1, Text.IntText(b.user), b1);
      FirstCut(Text.IntText(a.chat), a2, Text.IntText(b.chat), b2);
      FirstCut(ThreadText(a.thread), a3, ThreadText(b.thread), b3);
      FirstCut(Text.IntText(a.location), Tail(a), Text.IntText(b.location), Tail(b));
      Text.IntTextInjective(a.user, b.user);
      Text.IntTextInjective(a.chat, b.chat);
      Text.IntTextInjective(a.location, b.location);
    }
  }

  /** A bar, an opening brace and a quote come before a fingerprint and nowhere inside it. */
  predicate MarkAt(s: string, i: nat) {
    i + 3 <= |s| && s[i] == '|' && s[i + 1] == '{' && s[i + 2] == '\"'
  }

  /**
    A text a context fingerprint can be: none, or a JSON object of texts and numbers, in which a
    quote inside a text is escaped.
   */
  predicate IsFingerprint(f: string) {
    f == "" || (&& |f| >= 2 && f[0] == '{' && f[1] == '\"' && f[|f| - 1] == '}'
                && forall i: nat :: i < |f| ==> !MarkAt(f, i))
  }

  lemma MarkBefore(x: string, f: string)
    requires IsFingerprint(f)
    ensures var s := x + "|" + f;
            if f == "" then s[|s| - 1] == '|' else MarkAt(s, |x|)
  {
  }

  lemma NoMarkWithin(y: string, g: string)
    requires IsFingerprint(g)
    ensures var s := y + "|" + g;
            && (g != "" ==> s[|s| - 1] == '}')
            && forall j: nat :: |y| < j < |s| ==> !MarkAt(s, j)
  {
    var s := y + "|" + g;
    forall j: nat | |y| < j < |s| ensures !MarkAt(s, j) {
      assert !MarkAt(g, j - |y| - 1);
    }
  }

  lemma ShorterFingerprint(x: string, f: string, y: string, g: string)
    requires IsFingerprint(f) && IsFingerprint(g) && x + "|" + f == y + "|" + g
    ensures |f| >= |g|
  {
    hide IsFingerprint, MarkAt;
    MarkBefore(x, f);
    NoMarkWithin(y, g);
    assert g != "" ==> f != "";
    assert f != "" ==> |x| <= |y|;
  }

  /**
    Hence, as long as schedules hold no bar and fingerprints are fingerprints, the keys agree
    exactly when both rules are the same notification: one delivery loop delivers it once.
   */
  lemma SameKeySameNotification(a: Rule, b: Rule)
    requires a.schedule.Some? && b.schedule.Some? && '|' !in a.schedule.value && '|' !in b.schedule.value
    requires IsFingerprint(a.fingerprint) && IsFingerprint(b.fingerprint)
    ensures ScheduledKey(a) == ScheduledKey(b) <==>
              && SamePlace(a, b) && a.expression == b.expression && a.schedule == b.schedule
              && a.fingerprint == b.fingerprint
  {
    hide ScheduledKey, IsFingerprint;
    SameKeyIff(a, b);
    if Tail(a) == Tail(b) {
      var x, y := a.expression + "|" + a.schedule.value, b.expression + "|" + b.schedule.value;
      ShorterFingerprint(x, a.fingerprint, y, b.fingerprint);
      ShorterFingerprint(y, b.fingerprint, x, a.fingerprint);
      Text.SameCut(x + "|", a.fingerprint, y + "|", b.fingerprint);
      assert (x + "|")[..|x|] == x && (y + "|")[..|y|] == y;
      LastCut(a.expression, a.schedule.value, b.expression, b.schedule.value);
    }
  }

  /** With bars in schedules they need not be: a bar may move from the expression into the schedule. */
  lemma BarsMakeKeysMeet(r: Rule, x: string, y: string, z: string)
    ensures var a, b := r.(expression := x, schedule := Some(y + "|" + z)), r.(expression := x + "|" + y, schedule := Some(z));
            a.expression != b.expression && ScheduledKey(a) == ScheduledKey(b)
  {
    hide ScheduledKey;
    var a, b := r.(expression := x, schedule := Some(y + "|" + z)), r.(expression := x + "|" + y, schedule := Some(z));
    assert Tail(a) == Tail(b);
    SameKeyIff(a, b);
    assert |a.expression| < |b.expression|;
  }
}
