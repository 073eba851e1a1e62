/**
  The text that identifies a notification (domain/notifications/deduplication.py):
  rule, location, expression hash and forecast window joined by colons, although the
  window texts are ISO timestamps that contain colons themselves.
 */
module DedupeKeys {
  import opened Wrappers
  import opened Text

  // ---- ISO timestamps ---------------------------------------------------------------

  datatype Offset = Offset(negative: bool, hours: nat, minutes: nat, seconds: nat, micros: nat) {
    predicate Valid() {
      hours < 24 && minutes < 60 && seconds < 60 && micros < 1_000_000
    }
  }

  datatype Stamp = Stamp(
    year: nat, month: nat, day: nat,
    hour: nat, minute: nat, second: nat, micros: nat,
    offset: Option<Offset>
  ) {
    predicate Valid() {
      && 1 <= year <= 9999 && 1 <= month <= 12 && 1 <= day <= 31
      && hour < 24 && minute < 60 && second < 60 && micros < 1_000_000
      && (offset.Some? ==> offset.value.Valid())
    }
  }

  function Padded(n: nat, width: nat): (s: string)
    ensures |s| == width && AllDigits(s)
  {
    if width == 0 then [] else Padded(n / 10, width - 1) + [Digit(n % 10)]
  }

  function Pow10(width: nat): (r: nat)
    ensures r > 0
  {
    if width == 0 then 1 else 10 * Pow10(width - 1)
  }

  lemma {:induction false} PaddedInjective(m: nat, n: nat, width: nat)
    requires m < Pow10(width) && n < Pow10(width)
    requires Padded(m, width) == Padded(n, width)
    ensures m == n
  {
    if width > 0 {
      var s, t := Padded(m, width), Padded(n, width);
      assert s[..width - 1] == Padded(m / 10, width - 1) && t[..width - 1] == Padded(n / 10, width - 1);
      assert s[width - 1] == Digit(m % 10) && t[width - 1] == Digit(n % 10);
      PaddedInjective(m / 10, n / 10, width - 1);
    }
  }

  function MicrosText(micros: nat): string {
    if micros == 0 then "" else "." + Padded(micros, 6)
  }

  function SecondsText(seconds: nat, micros: nat): string {
    if seconds == 0 && micros == 0 then "" else ":" + (Padded(seconds, 2) + MicrosText(micros))
  }

  function OffsetText(o: Offset): string {
    (if o.negative then "-" else "+")
    + (Padded(o.hours, 2) + (":" + (Padded(o.minutes, 2) + SecondsText(o.seconds, o.micros))))
  }

  function ZoneText(z: Option<Offset>): string {
    if z.Some? then OffsetText(z.value) else ""
  }

  function Triple(a: string, b: string, c: string, mark: string): string {
    a + (mark + (b + (mark + c)))
  }

  /** The fixed part, `YYYY-MM-DDTHH:MM:SS`. */
  function ClockText(t: Stamp): (s: string)
    ensures |s| == 19
    ensures IsDigit(s[0]) && IsDigit(s[2])
  {
    Triple(Padded(t.year, 4), Padded(t.month, 2), Padded(t.day, 2), "-")
    + ("T" + Triple(Padded(t.hour, 2), Padded(t.minute, 2), Padded(t.second, 2), ":"))
  }

  /** `datetime.isoformat()`. */
  function IsoFormat(t: Stamp): string {
    ClockText(t) + (MicrosText(t.micros) + ZoneText(t.offset))
  }

  function WindowText(w: Option<Stamp>): (s: string)
    ensures |s| >= 4 && s[2] != ':' && s[2] != '.'
    ensures w.Some? <==> s[0] != 'n'
  {
    if w.Some? then IsoFormat(w.value) else "none"
  }

  // ---- Reading a window text off the front of a longer text -------------------------

  function MicrosLength(s: string): nat {
    if |s| > 0 && s[0] == '.' then 7 else 0
  }

  /** A colon after the offset's minutes opens its seconds only if two characters and a mark follow. */
  function ZoneLength(s: string): nat {
    if |s| > 0 && (s[0] == '+' || s[0] == '-') then
      if |s| > 9 && s[6] == ':' && (s[9] == ':' || s[9] == '.') then 9 + MicrosLength(s[9..]) else 6
    else 0
  }

  /** How many characters the leading window text takes, when a colon and another window follow it. */
  function WindowLength(s: string): nat {
    if |s| > 0 && s[0] == 'n' then 4
    else if |s| < 19 then 0
    else
      var m := MicrosLength(s[19..]);
      if |s| < 19 + m then 0 else 19 + m + ZoneLength(s[19 + m..])
  }

  lemma MicrosLengthIsRight(micros: nat, rest: string)
    requires |rest| > 0 && rest[0] != '.'
    ensures MicrosLength(MicrosText(micros) + rest) == |MicrosText(micros)|
  {
  }

  lemma ZoneLengthOfParts(sign: string, micros: string, rest: string)
    requires |sign| == 6 && (sign[0] == '+' || sign[0] == '-')
    requires |rest| > 3 && rest[0] == ':'
    requires |micros| > 0 ==> |micros| >= 3 && micros[0] == ':'
    requires |micros| > 0 ==> (micros + rest)[3] == ':' || (micros + rest)[3] == '.'
    requires |micros| == 0 ==> rest[3] != ':' && rest[3] != '.'
    ensures ZoneLength(sign + (micros + rest)) ==
            if |micros| > 0 then 9 + MicrosLength((micros + rest)[3..]) else 6
  {
    var s, tail := sign + (micros + rest), micros + rest;
    assert s[0] == sign[0] && s[6] == tail[0] && s[9] == tail[3];
    assert s[9..] == tail[3..];
  }

  lemma SecondsTextShape(seconds: nat, micros: nat, rest: string)
    requires |rest| > 0 && rest[0] == ':'
    ensures var tail := SecondsText(seconds, micros);
            |tail| > 0 ==>
              && |tail| == 3 + |MicrosText(micros)| && tail[0] == ':'
              && (tail + rest)[3..] == MicrosText(micros) + rest
              && ((tail + rest)[3] == ':' || (tail + rest)[3] == '.')
  {
    if SecondsText(seconds, micros) != "" {
      var head := ":" + Padded(seconds, 2);
      assert SecondsText(seconds, micros) + rest == head + (MicrosText(micros) + rest);
      assert (head + (MicrosText(micros) + rest))[3] == (MicrosText(micros) + rest)[0];
    }
  }

  function SignedMinutes(o: Offset): (s: string)
    ensures |s| == 6 && (s[0] == '+' || s[0] == '-')
  {
    (if o.negative then "-" else "+") + (Padded(o.hours, 2) + (":" + Padded(o.minutes, 2)))
  }

  lemma OffsetTextCut(o: Offset, rest: string)
    ensures OffsetText(o) + rest == SignedMinutes(o) + (SecondsText(o.seconds, o.micros) + rest)
    ensures |OffsetText(o)| == 6 + |SecondsText(o.seconds, o.micros)|
  {
    hide Padded, SecondsText;
    var sign, tail := if o.negative then "-" else "+", SecondsText(o.seconds, o.micros);
    Regroup(sign, Padded(o.hours, 2), Padded(o.minutes, 2), tail);
    assert (SignedMinutes(o) + tail) + rest == SignedMinutes(o) + (tail + rest);
  }

  lemma Regroup(sign: string, hours: string, minutes: string, tail: string)
    ensures sign + (hours + (":" + (minutes + tail))) == (sign + (hours + (":" + minutes))) + tail
  {
  }

  lemma ZoneLengthIsRight(z: Option<Offset>, rest: string)
    requires |rest| > 4 && rest[0] == ':' && rest[3] != ':' && rest[3] != '.'
    ensures ZoneLength(ZoneText(z) + rest) == |ZoneText(z)|
  {
    if z.Some? {
      var o := z.value;
      OffsetTextCut(o, rest);
      SecondsTextShape(o.seconds, o.micros, rest);
      MicrosLengthIsRight(o.micros, rest);
      ZoneLengthOfParts(SignedMinutes(o), SecondsText(o.seconds, o.micros), rest);
    }
  }

  lemma WindowLengthOfParts(clock: string, micros: string, zone: string, rest: string)
    requires |clock| == 19 && clock[0] != 'n'
    requires MicrosLength(micros + (zone + rest)) == |micros|
    requires ZoneLength(zone + rest) == |zone|
    ensures WindowLength((clock + (micros + zone)) + rest) == 19 + |micros| + |zone|
  {
    var s := (clock + (micros + zone)) + rest;
    assert s == clock + (micros + (zone + rest));
    assert s[0] == clock[0];
    assert s[19..] == micros + (zone + rest);
    assert s[19 + |micros|..] == zone + rest;
  }

  lemma WindowLengthIsRight(w: Option<Stamp>, next: Option<Stamp>)
    ensures WindowLength(WindowText(w) + (":" + WindowText(next))) == |WindowText(w)|
  {
    var rest := ":" + WindowText(next);
    assert rest[3] == WindowText(next)[2];
    if w.Some? {
      var t := w.value;
      ZoneLengthIsRight(t.offset, rest);
      MicrosLengthIsRight(t.micros, ZoneText(t.offset) + rest);
      WindowLengthOfParts(ClockText(t), MicrosText(t.micros), ZoneText(t.offset), rest);
    }
  }

  // ---- The key ----------------------------------------------------------------------

  datatype Key = Key(
    rule: int,
    location: int,
    expressionHash: string,
    windowStart: Option<Stamp>,
    windowEnd: Option<Stamp>
  )

  /** A hexadecimal digest holds no colon. */
  predicate IsDigest(h: string) {
    ':' !in h
  }

  function KeyText(k: Key): string {
    IntText(k.rule) + ":" + (IntText(k.location) + ":" + (k.expressionHash + ":"
    + (WindowText(k.windowStart) + (":" + WindowText(k.windowEnd)))))
  }

  /** The five parts of a key text. */
  datatype Parts = Parts(rule: string, location: string, expressionHash: string,
                         windowStart: string, windowEnd: string)

  /** A reader for key texts: three splits at the first colon, then one window by its length. */
  function ReadKey(s: string): Option<Parts> {
    match SplitOnce(s, ':')
    case None => None
    case Some((rule, s1)) =>
      match SplitOnce(s1, ':')
      case None => None
      case Some((location, s2)) =>
        match SplitOnce(s2, ':')
        case None => None
        case Some((hash, s3)) =>
          var n := WindowLength(s3);
          if n < |s3| then Some(Parts(rule, location, hash, s3[..n], s3[n + 1..])) else None
  }

  /** Every key text reads back as exactly its five parts. */
  lemma KeyTextReadsBack(k: Key)
    requires IsDigest(k.expressionHash)
    ensures ReadKey(KeyText(k)) ==
            Some(Parts(IntText(k.rule), IntText(k.location), k.expressionHash,
                       WindowText(k.windowStart), WindowText(k.windowEnd)))
  {
    hide WindowText, WindowLength, IntText, SplitOnce;
    var s3 := WindowText(k.windowStart) + (":" + WindowText(k.windowEnd));
    var s2 := k.expressionHash + ":" + s3;
    var s1 := IntText(k.location) + ":" + s2;
    SplitAtSeparator(IntText(k.rule), ':', s1);
    SplitAtSeparator(IntText(k.location), ':', s2);
    SplitAtSeparator(k.expressionHash, ':', s3);
    WindowLengthIsRight(k.windowStart, k.windowEnd);
    CutAtColon(WindowText(k.windowStart), WindowText(k.windowEnd));
  }

  lemma CutAtColon(a: string, b: string)
    ensures (a + (":" + b))[..|a|] == a && (a + (":" + b))[|a| + 1..] == b
  {
  }

  // ---- Timestamps from their text ---------------------------------------------------

  lemma MicrosTextInjective(m: nat, n: nat)
    requires m < 1_000_000 && n < 1_000_000
    requires MicrosText(m) == MicrosText(n)
    ensures m == n
  {
    if m != 0 && n != 0 {
      SameCut(".", Padded(m, 6), ".", Padded(n, 6));
      assert Pow10(6) == 1_000_000;
      PaddedInjective(m, n, 6);
    }
  }

  lemma TripleInjective(a: string, b: string, c: string, a': string, b': string, c': string, mark: string)
    requires |a| == |a'| && |b| == |b'|
    requires Triple(a, b, c, mark) == Triple(a', b', c', mark)
    ensures a == a' && b == b' && c == c'
  {
    SameCut(a, mark + (b + (mark + c)), a', mark + (b' + (mark + c')));
    SameCut(mark, b + (mark + c), mark, b' + (mark + c'));
    SameCut(b, mark + c, b', mark + c');
    SameCut(mark, c, mark, c');
  }

  lemma ClockTextInjective(a: Stamp, b: Stamp)
    requires a.Valid() && b.Valid()
    requires ClockText(a) == ClockText(b)
    ensures a.(micros := 0, offset := None) == b.(micros := 0, offset := None)
  {
    var da := Triple(Padded(a.year, 4), Padded(a.month, 2), Padded(a.day, 2), "-");
    var db := Triple(Padded(b.year, 4), Padded(b.month, 2), Padded(b.day, 2), "-");
    var ta := Triple(Padded(a.hour, 2), Padded(a.minute, 2), Padded(a.second, 2), ":");
    var tb := Triple(Padded(b.hour, 2), Padded(b.minute, 2), Padded(b.second, 2), ":");
    SameCut(da, "T" + ta, db, "T" + tb);
    SameCut("T", ta, "T", tb);
    TripleInjective(Padded(a.year, 4), Padded(a.month, 2), Padded(a.day, 2),
                    Padded(b.year, 4), Padded(b.month, 2), Padded(b.day, 2), "-");
    TripleInjective(Padded(a.hour, 2), Padded(a.minute, 2), Padded(a.second, 2),
                    Padded(b.hour, 2), Padded(b.minute, 2), Padded(b.second, 2), ":");
    assert Pow10(2) == 100 && Pow10(4) == 10_000;
    PaddedInjective(a.year, b.year, 4);
    PaddedInjective(a.month, b.month, 2);
    PaddedInjective(a.day, b.day, 2);
    PaddedInjective(a.hour, b.hour, 2);
    PaddedInjective(a.minute, b.minute, 2);
    PaddedInjective(a.second, b.second, 2);
  }

  lemma SecondsTextInjective(s: nat, m: nat, t: nat, n: nat)
    requires s < 60 && m < 1_000_000 && t < 60 && n < 1_000_000
    requires SecondsText(s, m) == SecondsText(t, n)
    ensures s == t && m == n
  {
    if SecondsText(s, m) != "" {
      SameCut(":", Padded(s, 2) + MicrosText(m), ":", Padded(t, 2) + MicrosText(n));
      SameCut(Padded(s, 2), MicrosText(m), Padded(t, 2), MicrosText(n));
      assert Pow10(2) == 100;
      PaddedInjective(s, t, 2);
      MicrosTextInjective(m, n);
    }
  }

  lemma OffsetTextInjective(a: Offset, b: Offset)
    requires a.Valid() && b.Valid()
    requires OffsetText(a) == OffsetText(b)
    ensures a == b
  {
    var sa, sb := SecondsText(a.seconds, a.micros), SecondsText(b.seconds, b.micros);
    var ma, mb := Padded(a.minutes, 2) + sa, Padded(b.minutes, 2) + sb;
    SameCut(if a.negative then "-" else "+", Padded(a.hours, 2) + (":" + ma),
            if b.negative then "-" else "+", Padded(b.hours, 2) + (":" + mb));
    SameCut(Padded(a.hours, 2), ":" + ma, Padded(b.hours, 2), ":" + mb);
    SameCut(":", ma, ":", mb);
    SameCut(Padded(a.minutes, 2), sa, Padded(b.minutes, 2), sb);
    assert Pow10(2) == 100;
    PaddedInjective(a.hours, b.hours, 2);
    PaddedInjective(a.minutes, b.minutes, 2);
    SecondsTextInjective(a.seconds, a.micros, b.seconds, b.micros);
  }

  lemma IsoFormatInjective(a: Stamp, b: Stamp)
    requires a.Valid() && b.Valid()
    requires IsoFormat(a) == IsoFormat(b)
    ensures a == b
  {
    var ma, mb, za, zb := MicrosText(a.micros), MicrosText(b.micros), ZoneText(a.offset), ZoneText(b.offset);
    SameCut(ClockText(a), ma + za, ClockText(b), mb + zb);
    ClockTextInjective(a, b);
    assert |ma + za| > 0 ==> (ma + za)[0] == (mb + zb)[0];
    SameCut(ma, za, mb, zb);
    MicrosTextInjective(a.micros, b.micros);
    if a.offset.Some? && b.offset.Some? {
      OffsetTextInjective(a.offset.value, b.offset.value);
    }
  }

  lemma WindowTextInjective(a: Option<Stamp>, b: Option<Stamp>)
    requires a.Some? ==> a.value.Valid()
    requires b.Some? ==> b.value.Valid()
    requires WindowText(a) == WindowText(b)
    ensures a == b
  {
    if a.Some? {
      IsoFormatInjective(a.value, b.value);
    }
  }

  ghost predicate ValidKey(k: Key) {
    && IsDigest(k.expressionHash)
    && (k.windowStart.Some? ==> k.windowStart.value.Valid())
    && (k.windowEnd.Some? ==> k.windowEnd.value.Valid())
  }

  /** Equal dedupe texts force equal keys. */
  lemma KeyTextInjective(a: Key, b: Key)
    requires ValidKey(a) && ValidKey(b)
    requires KeyText(a) == KeyText(b)
    ensures a == b
  {
    KeyTextReadsBack(a);
    KeyTextReadsBack(b);
    IntTextInjective(a.rule, b.rule);
    IntTextInjective(a.location, b.location);
    WindowTextInjective(a.windowStart, b.windowStart);
    WindowTextInjective(a.windowEnd, b.windowEnd);
  }

  // ---- Hashing ----------------------------------------------------------------------

  /** SHA-256 as an abstract injective function whose digests are hexadecimal. */
  ghost predicate IsHash(sha: string -> string) {
    && (forall s :: IsDigest(sha(s)))
    && (forall s, t :: sha(s) == sha(t) ==> s == t)
  }

  function MakeKey(sha: string -> string, rule: int, location: int, expression: string,
                   windowStart: Option<Stamp>, windowEnd: Option<Stamp>): Key {
    Key(rule, location, sha(expression), windowStart, windowEnd)
  }

  /** The hash stored in an event row. */
  function PayloadHash(sha: string -> string, k: Key): string {
    sha(KeyText(k))
  }

  /** Two event rows share a payload hash only if rule, location, expression and window agree. */
  lemma SameHashSameNotification(sha: string -> string,
                                 r1: int, l1: int, e1: string, s1: Option<Stamp>, t1: Option<Stamp>,
                                 r2: int, l2: int, e2: string, s2: Option<Stamp>, t2: Option<Stamp>)
    requires IsHash(sha)
    requires (s1.Some? ==> s1.value.Valid()) && (t1.Some? ==> t1.value.Valid())
    requires (s2.Some? ==> s2.value.Valid()) && (t2.Some? ==> t2.value.Valid())
    requires PayloadHash(sha, MakeKey(sha, r1, l1, e1, s1, t1)) == PayloadHash(sha, MakeKey(sha, r2, l2, e2, s2, t2))
    ensures r1 == r2 && l1 == l2 && e1 == e2 && s1 == s2 && t1 == t2
  {
    KeyTextInjective(MakeKey(sha, r1, l1, e1, s1, t1), MakeKey(sha, r2, l2, e2, s2, t2));
  }
}
