/** Keys of chat contexts (adapters/telegram/context.py, infrastructure/memory/thread_memory.py). */
module ContextKeys {
  import opened Wrappers
  import opened Text

  datatype ContextKey = ContextKey(chat: int, thread: Option<int>)

  /** `ContextKey.context_key`. */
  function KeyText(k: ContextKey): string {
    if k.thread.Some? then IntText(k.chat) + [':'] + IntText(k.thread.value) else IntText(k.chat)
  }

  /** `_parse_context_key`, None where Python raises ValueError. */
  function ParseKey(s: string): Option<ContextKey> {
    match SplitOnce(s, ':')
    case None =>
      var chat := ParseInt(s);
      if chat.None? then None else Some(ContextKey(chat.value, None))
    case Some((left, right)) =>
      var chat, thread := ParseInt(left), ParseInt(right);
      if chat.None? || thread.None? then None else Some(ContextKey(chat.value, thread))
  }

  lemma NoColonInIntText(n: int)
    ensures ':' !in IntText(n)
  {
    var s := IntText(n);
    assert forall i :: 0 <= i < |s| ==> s[i] != ':';
  }

  /** Printing a key and parsing it back gives the key, for all integers. */
  lemma KeyRoundTrip(k: ContextKey)
    ensures ParseKey(KeyText(k)) == Some(k)
  {
    hide IntText, ParseInt, SplitOnce;
    NoColonInIntText(k.chat);
    IntRoundTrip(k.chat);
    if k.thread.Some? {
      IntRoundTrip(k.thread.value);
      SplitAtSeparator(IntText(k.chat), ':', IntText(k.thread.value));
    } else {
      NoSeparator(IntText(k.chat), ':');
    }
  }

  lemma NoSeparator(s: string, c: char)
    requires c !in s
    ensures SplitOnce(s, c).None?
  {
  }

  lemma KeyTextInjective(a: ContextKey, b: ContextKey)
    requires KeyText(a) == KeyText(b)
    ensures a == b
  {
    KeyRoundTrip(a);
    KeyRoundTrip(b);
  }

  /** Texts that some key prints as. */
  predicate Canonical(s: string) {
    ParseKey(s).Some? && KeyText(ParseKey(s).value) == s
  }

  /** The parser accepts more than that: leading zeros parse, but do not print back. */
  lemma LeadingZeroIsNotCanonical()
    ensures ParseKey("07") == Some(ContextKey(7, None)) && !Canonical("07")
  {
    assert NatValue("07"[..1]) == 0;
    assert "07"[1..][1..] == [];
    assert IndexOf("07", ':') == 2;
    assert KeyText(ContextKey(7, None)) == [Digit(7)];
  }
}
