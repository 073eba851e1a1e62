/**
  Conversation memory per chat context (infrastructure/memory/thread_memory.py): a pending
  confirmation and the last turns, both with a time to live, kept in the metadata of the
  context's row.  Times are in microseconds; every call is given the current time.
 */
module ThreadMemory {
  import Durations
  import opened Wrappers
  import opened ContextKeys

  const MAX_TURNS: nat := 20

  datatype Turn = Turn(content: string, timestamp: Option<int>)

  /** The metadata entries this service uses; `P` is the type of confirmations. */
  datatype Metadata<P> = Metadata(
    pending: Option<P>,
    pendingAt: Option<int>,
    turns: Option<seq<Turn>>,
    turnsAt: Option<int>,
    turnsTtl: Option<int>
  )

  function Empty<P>(): Metadata<P> {
    Metadata(None, None, None, None, None)
  }

  /** The context rows by their key text. */
  type Contexts<P> = map<string, Metadata<P>>

  datatype Error = BadKey | NoSuchContext

  // ---- What a call does to the metadata ---------------------------------------------

  function Expired(at: Option<int>, ttl: int, now: int): bool {
    at.Some? && now - at.value > ttl * Durations.DAY
  }

  function Last<T>(s: seq<T>, n: nat): seq<T> {
    if |s| <= n then s else s[|s| - n..]
  }

  function Stored<P>(md: Metadata<P>, p: P, now: int): Metadata<P> {
    md.(pending := Some(p), pendingAt := Some(now))
  }

  function Cleared<P>(md: Metadata<P>): Metadata<P> {
    md.(pending := None, pendingAt := None)
  }

  predicate PendingExpired<P>(md: Metadata<P>, ttl: int, now: int) {
    md.pending.Some? && Expired(md.pendingAt, ttl, now)
  }

  function Stamped(turn: Turn, now: int): Turn {
    if turn.timestamp.None? then turn.(timestamp := Some(now)) else turn
  }

  function Saved<P>(md: Metadata<P>, turn: Turn, ttl: int, now: int): Metadata<P> {
    md.(turns := Some(Last(md.turns.GetOr([]) + [Stamped(turn, now)], MAX_TURNS)),
        turnsAt := Some(now), turnsTtl := Some(ttl))
  }

  function Forgotten<P>(md: Metadata<P>): Metadata<P> {
    md.(turns := None, turnsAt := None, turnsTtl := None)
  }

  predicate TurnsExpired<P>(md: Metadata<P>, ttl: Option<int>, default: int, now: int) {
    md.turns.Some? && Expired(md.turnsAt, ttl.GetOr(md.turnsTtl.GetOr(default)), now)
  }

  // ---- What a call does to the rows -------------------------------------------------

  /** The context rows after `get_or_create_context` for a key. */
  function WithRow<P>(cs: Contexts<P>, k: ContextKey): Contexts<P> {
    if KeyText(k) in cs then cs else cs[KeyText(k) := Empty()]
  }

  /** The metadata of a context; a missing row reads as a new one. */
  function At<P>(cs: Contexts<P>, k: ContextKey): Metadata<P> {
    if KeyText(k) in cs then cs[KeyText(k)] else Empty()
  }

  /**
    What a call that rewrites the metadata as `md` leaves behind: the row is opened under the
    parsed key but written under the raw text, so a text that is not canonical finds no row.
   */
  function Rewritten<P>(cs: Contexts<P>, key: string, md: Metadata<P>): (Contexts<P>, Result<(), Error>) {
    match ParseKey(key)
    case None => (cs, Err(BadKey))
    case Some(k) =>
      var cs1 := WithRow(cs, k);
      if key in cs1 then (cs1[key := md], Ok(())) else (cs1, Err(NoSuchContext))
  }

  /** The metadata a call with this key text works on. */
  function Opened<P>(cs: Contexts<P>, key: string): Metadata<P> {
    match ParseKey(key)
    case None => Empty()
    case Some(k) => At(cs, k)
  }

  function PendingReply<P>(cs: Contexts<P>, key: string, ttl: int, now: int): (Contexts<P>, Result<Option<P>, Error>) {
    match ParseKey(key)
    case None => (cs, Err(BadKey))
    case Some(k) =>
      var md := At(cs, k);
      if PendingExpired(md, ttl, now) then
        match Rewritten(cs, key, Cleared(md))
        case (cs', Ok(_)) => (cs', Ok(None))
        case (cs', Err(e)) => (cs', Err(e))
      else (WithRow(cs, k), Ok(md.pending))
  }

  function TurnsReply<P>(cs: Contexts<P>, key: string, ttl: Option<int>, default: int, now: int):
    (Contexts<P>, Result<seq<Turn>, Error>)
  {
    match ParseKey(key)
    case None => (cs, Err(BadKey))
    case Some(k) =>
      var md := At(cs, k);
      if TurnsExpired(md, ttl, default, now) then
        match Rewritten(cs, key, Forgotten(md))
        case (cs', Ok(_)) => (cs', Ok([]))
        case (cs', Err(e)) => (cs', Err(e))
      else (WithRow(cs, k), Ok(Last(md.turns.GetOr([]), MAX_TURNS)))
  }

  // ---- The services -----------------------------------------------------------------

  class TelegramContextService<P> {
    var contexts: Contexts<P>

    constructor ()
      ensures contexts == map[]
    {
      contexts := map[];
    }

    method GetOrCreateContext(k: ContextKey) returns (md: Metadata<P>)
      modifies this
      ensures contexts == WithRow(old(contexts), k) && md == At(old(contexts), k)
    {
      var text := KeyText(k);
      if text in contexts {
        return contexts[text];
      }
      contexts := contexts[text := Empty()];
      md := Empty();
    }

    method UpdateContext(key: string, md: Metadata<P>) returns (r: Result<(), Error>)
      modifies this
      ensures r == if key in old(contexts) then Ok(()) else Err(NoSuchContext)
      ensures contexts == if r.Ok? then old(contexts)[key := md] else old(contexts)
    {
      if key !in contexts {
        return Err(NoSuchContext);
      }
      contexts := contexts[key := md];
      r := Ok(());
    }
  }

  class ThreadMemoryService<P> {
    const service: TelegramContextService<P>
    const defaultTtl: int

    constructor (service: TelegramContextService<P>, defaultTtl: int)
      ensures this.service == service && this.defaultTtl == defaultTtl
    {
      this.service := service;
      this.defaultTtl := defaultTtl;
    }

    method StorePendingConfirmation(key: string, p: P, now: int) returns (r: Result<(), Error>)
      modifies service
      ensures (service.contexts, r)
              == Rewritten(old(service.contexts), key, Stored(Opened(old(service.contexts), key), p, now))
    {
      var k := ParseKey(key);
      if k.None? {
        return Err(BadKey);
      }
      var md := service.GetOrCreateContext(k.value);
      r := service.UpdateContext(key, md.(pending := Some(p), pendingAt := Some(now)));
    }

    method ClearPendingConfirmation(key: string) returns (r: Result<(), Error>)
      modifies service
      ensures (service.contexts, r) == Rewritten(old(service.contexts), key, Cleared(Opened(old(service.contexts), key)))
    {
      var k := ParseKey(key);
      if k.None? {
        return Err(BadKey);
      }
      var md := service.GetOrCreateContext(k.value);
      r := service.UpdateContext(key, md.(pending := None, pendingAt := None));
    }

    method GetPendingConfirmation(key: string, ttl: Option<int>, now: int) returns (r: Result<Option<P>, Error>)
      modifies service
      ensures (service.contexts, r) == PendingReply(old(service.contexts), key, ttl.GetOr(defaultTtl), now)
    {
      var k := ParseKey(key);
      if k.None? {
        return Err(BadKey);
      }
      var md := service.GetOrCreateContext(k.value);
      if md.pending.None? {
        return Ok(None);
      }
      if md.pendingAt.Some? {
        var effective := if ttl.Some? then ttl.value else defaultTtl;
        if now - md.pendingAt.value > effective * Durations.DAY {
          var cleared := ClearPendingConfirmation(key);
          return if cleared.Ok? then Ok(None) else Err(cleared.error);
        }
      }
      r := Ok(md.pending);
    }

    method SaveTurn(key: string, turn: Turn, ttl: Option<int>, now: int) returns (r: Result<(), Error>)
      modifies service
      ensures (service.contexts, r)
              == Rewritten(old(service.contexts), key,
                           Saved(Opened(old(service.contexts), key), turn, ttl.GetOr(defaultTtl), now))
    {
      var effective := if ttl.Some? then ttl.value else defaultTtl;
      var k := ParseKey(key);
      if k.None? {
        return Err(BadKey);
      }
      var md := service.GetOrCreateContext(k.value);
      var existing := if md.turns.Some? then md.turns.value else [];
      var stamped := turn;
      if turn.timestamp.None? {
        stamped := turn.(timestamp := Some(now));
      }
      existing := existing + [stamped];
      if |existing| > MAX_TURNS {
        existing := existing[|existing| - MAX_TURNS..];
      }
      r := service.UpdateContext(key, md.(turns := Some(existing), turnsAt := Some(now), turnsTtl := Some(effective)));
    }

    method LoadTurns(key: string, ttl: Option<int>, now: int) returns (r: Result<seq<Turn>, Error>)
      modifies service
      ensures (service.contexts, r) == TurnsReply(old(service.contexts), key, ttl, defaultTtl, now)
    {
      var k := ParseKey(key);
      if k.None? {
        return Err(BadKey);
      }
      var md := service.GetOrCreateContext(k.value);
      if md.turns.None? {
        return Ok([]);
      }
      if md.turnsAt.Some? {
        var contextTtl := if md.turnsTtl.Some? then md.turnsTtl.value else defaultTtl;
        var effective := if ttl.Some? then ttl.value else contextTtl;
        if now - md.turnsAt.value > effective * Durations.DAY {
          var updated := service.UpdateContext(key, md.(turns := None, turnsAt := None, turnsTtl := None));
          return if updated.Ok? then Ok([]) else Err(updated.error);
        }
      }
      r := Ok(Last(md.turns.value, MAX_TURNS));
    }
  }
}
