/** lib/auth/session-manager.ts: the secure store with one session slot and
    three one-shot slots (OAuth state, PKCE code verifier, nonce). */
module SessionManager {
  import opened Wrappers
  import opened Text
  import opened Types
  import opened GubuyConfig

  /** The three one-shot slots of an authorization attempt. */
  datatype OneShot = OAuthState | CodeVerifier | Nonce

  function SlotKey(slot: OneShot): (key: string)
    ensures key != SESSION_KEY
  {
    match slot
    case OAuthState => OAUTH_STATE_KEY
    case CodeVerifier => OAUTH_VERIFIER_KEY
    case Nonce => OAUTH_NONCE_KEY
  }

  const ONE_SHOT_KEYS: set<string> := {OAUTH_STATE_KEY, OAUTH_VERIFIER_KEY, OAUTH_NONCE_KEY}

  /** What `JSON.stringify` / `JSON.parse` are assumed to satisfy: a stored
      session is never the empty string and parses back to itself. Any text
      that `parse` maps to `None` is corrupt. */
  ghost predicate JsonCodec(stringify: PortalSession -> string, parse: string -> Option<PortalSession>) {
    forall s :: stringify(s) != "" && parse(stringify(s)) == Some(s)
  }

  /** The expiry test of getSession: `session.tokens?.expiresAt` is truthy (so
      present and non-zero) and `now >= expiresAt`. */
  predicate Expired(s: PortalSession, now: int) {
    && s.tokens.Some?
    && s.tokens.value.expiresAt.Some?
    && s.tokens.value.expiresAt.value != 0
    && now >= s.tokens.value.expiresAt.value
  }

  /** What a read of the session slot finds. */
  datatype SlotRead = Empty | Unreadable | Stale | Live(session: PortalSession)

  function ReadSessionSlot(data: Option<string>, parse: string -> Option<PortalSession>, now: int): (r: SlotRead)
    ensures r.Live? ==> Truthy(data) && parse(data.value) == Some(r.session) && !Expired(r.session, now)
    ensures r == Stale <==> Truthy(data) && parse(data.value).Some? && Expired(parse(data.value).value, now)
    ensures r == Empty <==> !Truthy(data)
    ensures r == Unreadable <==> Truthy(data) && parse(data.value).None?
  {
    if !Truthy(data) then Empty
    else match parse(data.value)
      case None => Unreadable
      case Some(s) => if Expired(s, now) then Stale else Live(s)
  }

  /** The result of getSession for a given slot content. */
  function SessionOf(read: SlotRead): Option<PortalSession> {
    if read.Live? then Some(read.session) else None
  }

  class SecureStore {
    /** The secure store's key/value contents; a missing key is an empty slot. */
    var items: map<string, string>
    const stringify: PortalSession -> string
    const parse: string -> Option<PortalSession>

    ghost predicate Valid() {
      JsonCodec(stringify, parse)
    }

    constructor (stringify: PortalSession -> string, parse: string -> Option<PortalSession>)
      requires JsonCodec(stringify, parse)
      ensures Valid() && items == map[]
      ensures this.stringify == stringify && this.parse == parse
    {
      this.stringify := stringify;
      this.parse := parse;
      items := map[];
    }

    /** storeSession writes the session slot and nothing else. */
    method StoreSession(session: PortalSession)
      modifies this`items
      ensures items == old(items)[SESSION_KEY := stringify(session)]
    {
      items := items[SESSION_KEY := stringify(session)];
    }

    /** getSession: an empty or corrupt slot reads as no session; an expired
        session is deleted and reads as no session; nothing else changes. */
    method GetSession(now: int) returns (r: Option<PortalSession>)
      modifies this`items
      ensures r == SessionOf(ReadSessionSlot(Lookup(old(items), SESSION_KEY), parse, now))
      ensures items == if ReadSessionSlot(Lookup(old(items), SESSION_KEY), parse, now) == Stale
                       then old(items) - {SESSION_KEY} else old(items)
    {
      if SESSION_KEY !in items || items[SESSION_KEY] == "" {
        return None;
      }
      var session := parse(items[SESSION_KEY]);
      if session.None? {
        return None;
      }
      if Expired(session.value, now) {
        ClearSession();
        return None;
      }
      return session;
    }

    /** clearSession empties the session slot only. */
    method ClearSession()
      modifies this`items
      ensures items == old(items) - {SESSION_KEY}
    {
      items := items - {SESSION_KEY};
    }

    /** isAuthenticated: whether getSession finds a session (with its eviction). */
    method IsAuthenticated(now: int) returns (b: bool)
      modifies this`items
      ensures b <==> ReadSessionSlot(Lookup(old(items), SESSION_KEY), parse, now).Live?
      ensures items == if ReadSessionSlot(Lookup(old(items), SESSION_KEY), parse, now) == Stale
                       then old(items) - {SESSION_KEY} else old(items)
    {
      var session := GetSession(now);
      b := session.Some?;
    }

    /** storeOAuthState / storeCodeVerifier / storeNonce write their own slot only. */
    method StoreOneShot(slot: OneShot, value: string)
      modifies this`items
      ensures items == old(items)[SlotKey(slot) := value]
    {
      items := items[SlotKey(slot) := value];
    }

    /** getAndClearOAuthState / getAndClearCodeVerifier / getAndClearNonce:
        return what the slot holds and delete it, unless it holds the empty
        string, which is returned and left in place. */
    method GetAndClear(slot: OneShot) returns (r: Option<string>)
      modifies this`items
      ensures r == Lookup(old(items), SlotKey(slot))
      ensures items == if Truthy(r) then old(items) - {SlotKey(slot)} else old(items)
    {
      var key := SlotKey(slot);
      r := if key in items then Some(items[key]) else None;
      if Truthy(r) {
        items := items - {key};
      }
    }

    /** cleanupOAuthStorage deletes the three one-shot slots and keeps the session. */
    method CleanupOAuthStorage()
      modifies this`items
      ensures items == old(items) - ONE_SHOT_KEYS
    {
      items := items - ONE_SHOT_KEYS;
    }
  }

  // -----------------------------------------------------------------------
  // The store's slots as map facts.

  /** Reading a one-shot slot deletes at most that slot, which cleanup deletes anyway. */
  lemma ConsumedThenCleaned(items: map<string, string>, slot: OneShot)
    ensures (items - {SlotKey(slot)}) - ONE_SHOT_KEYS == items - ONE_SHOT_KEYS
  {
  }

  /** Writing the session commutes with cleanup. */
  lemma SessionSurvivesCleanup(items: map<string, string>, data: string)
    ensures items[SESSION_KEY := data] - ONE_SHOT_KEYS == (items - ONE_SHOT_KEYS)[SESSION_KEY := data]
  {
    StorageKeysDistinct();
  }

  /** Writing a one-shot slot is undone by cleanup. */
  lemma WrittenThenCleaned(items: map<string, string>, slot: OneShot, value: string)
    ensures items[SlotKey(slot) := value] - ONE_SHOT_KEYS == items - ONE_SHOT_KEYS
  {
  }

  /** Cleanup twice is cleanup once. */
  lemma CleanupIdempotent(items: map<string, string>)
    ensures (items - ONE_SHOT_KEYS) - ONE_SHOT_KEYS == items - ONE_SHOT_KEYS
  {
  }

  /** Consuming one one-shot slot leaves the other slots as they were. */
  lemma OtherSlotsUntouched(items: map<string, string>, consumed: OneShot, other: OneShot)
    requires consumed != other
    ensures Lookup(items - {SlotKey(consumed)}, SlotKey(other)) == Lookup(items, SlotKey(other))
  {
    StorageKeysDistinct();
  }

  // -----------------------------------------------------------------------
  // Properties of the slot semantics.

  /** A stored, unexpired session reads back as itself. */
  lemma StoredSessionReadsBack(stringify: PortalSession -> string, parse: string -> Option<PortalSession>,
                               s: PortalSession, now: int)
    requires JsonCodec(stringify, parse)
    requires !Expired(s, now)
    ensures ReadSessionSlot(Some(stringify(s)), parse, now) == Live(s)
  {
  }

  /** With an expiry in the past the stored session is stale, so it is deleted and
      getSession yields no session. */
  lemma ExpiredSessionIsStale(stringify: PortalSession -> string, parse: string -> Option<PortalSession>,
                              s: PortalSession, now: int)
    requires JsonCodec(stringify, parse)
    requires s.tokens.Some? && s.tokens.value.expiresAt.Some?
    requires s.tokens.value.expiresAt.value != 0 && now >= s.tokens.value.expiresAt.value
    ensures ReadSessionSlot(Some(stringify(s)), parse, now) == Stale
  {
  }

  /** An `expiresAt` of 0 is falsy: such a session never expires. */
  lemma ZeroExpiryNeverExpires(s: PortalSession, now: int)
    requires s.tokens.Some? && s.tokens.value.expiresAt == Some(0)
    ensures !Expired(s, now)
  {
  }

  /** A session whose expiry is still ahead remains readable at every earlier time. */
  lemma ExpiryIsMonotone(s: PortalSession, earlier: int, later: int)
    requires earlier <= later && !Expired(s, later)
    ensures !Expired(s, earlier)
  {
  }

  // -----------------------------------------------------------------------
  // Call sequences over one store.

  /** storeSession then getSession before the expiry yields the session again
      and leaves the store as storeSession left it. */
  method StoreThenRead(store: SecureStore, s: PortalSession, now: int) returns (r: Option<PortalSession>)
    requires store.Valid() && !Expired(s, now)
    modifies store
    ensures r == Some(s)
    ensures store.items == old(store.items)[SESSION_KEY := store.stringify(s)]
  {
    store.StoreSession(s);
    r := store.GetSession(now);
  }

  /** Once getSession has found the session expired, every later read finds nothing. */
  method ExpiredStaysGone(store: SecureStore, s: PortalSession, now: int, later: int)
    returns (first: Option<PortalSession>, second: Option<PortalSession>)
    requires store.Valid() && Expired(s, now)
    modifies store
    ensures first == None && second == None
    ensures SESSION_KEY !in store.items
  {
    store.StoreSession(s);
    first := store.GetSession(now);
    second := store.GetSession(later);
  }

  /** A one-shot value is read at most once: the second read finds nothing. */
  method ReadOnce(store: SecureStore, slot: OneShot, value: string)
    returns (first: Option<string>, second: Option<string>)
    requires value != ""
    modifies store
    ensures first == Some(value) && second == None
  {
    store.StoreOneShot(slot, value);
    first := store.GetAndClear(slot);
    second := store.GetAndClear(slot);
  }
}
