/**
 * The authentication tokens of one account, kept in the `tokens.config` file of
 * the account's user branch: one `token` subsection per token id with its
 * hashed value and an optional expiration instant.
 *
 * Instants and durations are integer milliseconds. `AuthToken.create` (which
 * validates a token) and the text form of instants are not part of this model;
 * they are passed in as functions.
 */
module AuthTokens {
  import opened Common

  datatype AuthToken = AuthToken(id: string, hashedToken: string, expiration: Option<int>)

  datatype TokenError =
    | NotLoaded
    | TooManyTokens(max: int)
    | Conflict(id: string)
    | UnlimitedLifetime
    | LifetimeTooLong(days: int, hours: int, minutes: int)
    | InvalidToken

  const FILE_NAME: string := "tokens.config"
  const DEFAULT_COMMIT_MESSAGE: string := "Updated authentication tokens\n"

  const MINUTE_MS: int := 60 * 1000
  const HOUR_MS: int := 60 * MINUTE_MS
  const DAY_MS: int := 24 * HOUR_MS

  /** `Duration.toDays()`, `toHoursPart()` and `toMinutesPart()` of a non-negative duration. */
  function LifetimeParts(maxLifetime: int): (e: TokenError)
    requires maxLifetime >= 0
    ensures e.LifetimeTooLong?
    ensures 0 <= e.hours < 24 && 0 <= e.minutes < 60
    ensures e.days * DAY_MS <= maxLifetime < e.days * DAY_MS + DAY_MS
    ensures e.days * DAY_MS + e.hours * HOUR_MS <= maxLifetime < e.days * DAY_MS + e.hours * HOUR_MS + HOUR_MS
    ensures var whole := e.days * DAY_MS + e.hours * HOUR_MS + e.minutes * MINUTE_MS;
      whole <= maxLifetime < whole + MINUTE_MS
  {
    LifetimeSplit(maxLifetime);
    LifetimeTooLong(maxLifetime / DAY_MS, (maxLifetime / HOUR_MS) % 24, (maxLifetime / MINUTE_MS) % 60)
  }

  /** Whole hours are whole minutes divided by 60, and whole days whole hours divided by 24. */
  lemma LifetimeSplit(m: int)
    requires m >= 0
    ensures m / HOUR_MS == (m / MINUTE_MS) / 60 && m / DAY_MS == (m / HOUR_MS) / 24
    ensures (m / MINUTE_MS) * MINUTE_MS <= m < (m / MINUTE_MS) * MINUTE_MS + MINUTE_MS
  {
    var mi := m / MINUTE_MS;
    var h := mi / 60;
    assert m == HOUR_MS * h + (MINUTE_MS * (mi % 60) + m % MINUTE_MS);
    var d := h / 24;
    assert m == DAY_MS * d + (HOUR_MS * (h % 24) + MINUTE_MS * (mi % 60) + m % MINUTE_MS);
  }

  /**
   * Why `addToken` refuses `t`, checked in the source's order (count, then
   * conflict, then lifetime), or None when it is accepted.
   */
  function Refusal(tokens: map<string, AuthToken>, maxTokens: int, maxLifetime: Option<nat>,
                   now: int, t: AuthToken): Option<TokenError>
  {
    if |tokens| >= maxTokens then Some(TooManyTokens(maxTokens))
    else if t.id in tokens then Some(Conflict(t.id))
    else if maxLifetime.Some? && t.expiration.None? then Some(UnlimitedLifetime)
    else if maxLifetime.Some? && t.expiration.value > now + maxLifetime.value then
      Some(LifetimeParts(maxLifetime.value))
    else None
  }

  /** An accepted token is new, fits under the cap and respects the lifetime limit. */
  lemma AcceptedMeansAllowed(tokens: map<string, AuthToken>, maxTokens: int, maxLifetime: Option<nat>,
                             now: int, t: AuthToken)
    ensures Refusal(tokens, maxTokens, maxLifetime, now, t).None? <==>
      |tokens| < maxTokens && t.id !in tokens &&
      (maxLifetime.Some? ==> t.expiration.Some? && t.expiration.value <= now + maxLifetime.value)
  {
  }

  /** Adding a token never takes the count past the cap. */
  lemma AcceptedStaysUnderCap(tokens: map<string, AuthToken>, maxTokens: int, maxLifetime: Option<nat>,
                              now: int, t: AuthToken)
    requires Refusal(tokens, maxTokens, maxLifetime, now, t).None?
    ensures |tokens[t.id := t]| == |tokens| + 1 <= maxTokens
  {
    assert t.id !in tokens;
    assert tokens[t.id := t].Keys == tokens.Keys + {t.id};
  }

  /** A duplicate id is refused with a conflict unless the cap is already reached. */
  lemma DuplicateIsConflict(tokens: map<string, AuthToken>, maxTokens: int, maxLifetime: Option<nat>,
                            now: int, t: AuthToken)
    requires t.id in tokens
    ensures Refusal(tokens, maxTokens, maxLifetime, now, t)
         == Some(if |tokens| >= maxTokens then TooManyTokens(maxTokens) else Conflict(t.id))
  {
  }

  /** The lifetime bound is inclusive: expiring exactly at now + max is accepted. */
  lemma LifetimeBoundInclusive(tokens: map<string, AuthToken>, maxTokens: int, lifetime: nat,
                               now: int, t: AuthToken)
    requires |tokens| < maxTokens && t.id !in tokens
    ensures t.expiration == Some(now + lifetime) ==> Refusal(tokens, maxTokens, Some(lifetime), now, t).None?
    ensures t.expiration == Some(now + lifetime + 1) ==> Refusal(tokens, maxTokens, Some(lifetime), now, t).Some?
  {
  }

  /** Every entry is stored under its own id. */
  predicate KeyedById(m: map<string, AuthToken>) {
    forall id :: id in m ==> m[id].id == id
  }

  // ---------------------------------------------------------------------------
  // The config file

  /** The keys of one `token` subsection. */
  datatype Section = Section(hash: Option<string>, expiration: Option<string>)

  /** What `parse` yields: the tokens, or an expiration that is no instant. */
  datatype ParseError = BadInstant(id: string, text: string)

  /** The expiration instant of a subsection, if it has one. */
  function SectionExpiration(s: Section, parseInstant: string -> Option<int>): Option<int>
  {
    if s.expiration.Some? && parseInstant(s.expiration.value).Some? then
      Some(parseInstant(s.expiration.value).value)
    else None
  }

  predicate SectionParses(s: Section, parseInstant: string -> Option<int>) {
    s.expiration.Some? ==> parseInstant(s.expiration.value).Some?
  }

  /** The map `parse` builds from a well-formed config: tokens that `create` accepts, by subsection. */
  function ParsedTokens(cfg: map<string, Section>,
                        create: (string, Option<string>, Option<int>) -> Option<AuthToken>,
                        parseInstant: string -> Option<int>): map<string, AuthToken>
  {
    map id | id in cfg && create(id, cfg[id].hash, SectionExpiration(cfg[id], parseInstant)).Some?
      :: create(id, cfg[id].hash, SectionExpiration(cfg[id], parseInstant)).value
  }

  /**
   * `parse`: every subsection is visited once; an invalid token is skipped and an
   * unreadable expiration aborts. `AuthToken.create` is assumed to keep the id
   * it is given, so the result is keyed by id as `onLoad` needs.
   */
  method Parse(cfg: map<string, Section>,
               create: (string, Option<string>, Option<int>) -> Option<AuthToken>,
               parseInstant: string -> Option<int>)
    returns (r: Result<map<string, AuthToken>, ParseError>)
    requires forall id, h, e :: create(id, h, e).Some? ==> create(id, h, e).value.id == id
    ensures r.Ok? <==> forall id :: id in cfg ==> SectionParses(cfg[id], parseInstant)
    ensures r.Ok? ==> r.value == ParsedTokens(cfg, create, parseInstant) && KeyedById(r.value)
    ensures r.Err? ==> r.error.id in cfg && !SectionParses(cfg[r.error.id], parseInstant)
  {
    var remaining := cfg.Keys;
    var tokens: map<string, AuthToken> := map[];
    while remaining != {}
      invariant remaining <= cfg.Keys
      invariant forall id :: id in cfg && id !in remaining ==> SectionParses(cfg[id], parseInstant)
      invariant tokens == ParsedTokens(map id | id in cfg && id !in remaining :: cfg[id], create, parseInstant)
      decreases remaining
    {
      var id :| id in remaining;
      var s := cfg[id];
      if s.expiration.Some? && parseInstant(s.expiration.value).None? {
        return Err(BadInstant(id, s.expiration.value));
      }
      var created := create(id, s.hash, SectionExpiration(s, parseInstant));
      if created.Some? {
        tokens := tokens[id := created.value];
      }
      remaining := remaining - {id};
    }
    assert (map id | id in cfg && id !in remaining :: cfg[id]) == cfg;
    return Ok(tokens);
  }

  /** The commit message `onSave` uses: the caller's, or a default when it is empty. */
  function SaveMessage(message: Option<string>): (m: string)
    ensures message.Some? && message.value != "" ==> m == message.value
    ensures message.None? || message.value == "" ==> m == DEFAULT_COMMIT_MESSAGE
  {
    if message.Some? && message.value != "" then message.value else DEFAULT_COMMIT_MESSAGE
  }

  /** The config `onSave` writes: a hash for every token, an expiration only where there is one. */
  function SavedConfig(tokens: map<string, AuthToken>, formatInstant: int -> string): (cfg: map<string, Section>)
    ensures cfg.Keys == tokens.Keys
    ensures forall id :: id in cfg ==> cfg[id].hash == Some(tokens[id].hashedToken)
    ensures forall id :: id in cfg ==> (cfg[id].expiration.Some? <==> tokens[id].expiration.Some?)
  {
    map id | id in tokens :: Section(Some(tokens[id].hashedToken),
      if tokens[id].expiration.Some? then Some(formatInstant(tokens[id].expiration.value)) else None)
  }

  /**
   * What `onSave` writes, `parse` reads back, as long as instants survive their
   * text form and `create` re-creates each stored token.
   */
  lemma SaveParseRoundTrip(tokens: map<string, AuthToken>,
                           create: (string, Option<string>, Option<int>) -> Option<AuthToken>,
                           formatInstant: int -> string, parseInstant: string -> Option<int>)
    requires KeyedById(tokens)
    requires forall x :: parseInstant(formatInstant(x)) == Some(x)
    requires forall id :: id in tokens ==>
      create(id, Some(tokens[id].hashedToken), tokens[id].expiration) == Some(tokens[id])
    ensures forall id :: id in SavedConfig(tokens, formatInstant) ==>
      SectionParses(SavedConfig(tokens, formatInstant)[id], parseInstant)
    ensures ParsedTokens(SavedConfig(tokens, formatInstant), create, parseInstant) == tokens
  {
    var cfg := SavedConfig(tokens, formatInstant);
    forall id | id in cfg
      ensures SectionExpiration(cfg[id], parseInstant) == tokens[id].expiration
    {
      if tokens[id].expiration.Some? {
        var x := tokens[id].expiration.value;
        assert cfg[id].expiration == Some(formatInstant(x));
        assert parseInstant(formatInstant(x)) == Some(x);
      }
    }
  }

  // ---------------------------------------------------------------------------
  // The versioned file

  class VersionedAuthTokens {
    const maxTokens: int
    const maxLifetime: Option<nat>
    /** None until the file has been loaded. */
    var tokens: Option<map<string, AuthToken>>

    ghost predicate Valid()
      reads this
    {
      tokens.Some? ==> KeyedById(tokens.value)
    }

    constructor(maxTokens: int, maxLifetime: Option<nat>)
      ensures this.maxTokens == maxTokens && this.maxLifetime == maxLifetime
      ensures tokens.None?
      ensures Valid()
    {
      this.maxTokens := maxTokens;
      this.maxLifetime := maxLifetime;
      tokens := None;
    }

    /** `onLoad`: the parsed file becomes the token map. */
    method OnLoad(parsed: map<string, AuthToken>)
      requires KeyedById(parsed)
      modifies this
      ensures tokens == Some(parsed)
      ensures Valid()
    {
      tokens := Some(parsed);
    }

    /** `getToken(id)`: the token with that id, None if there is none. */
    function GetToken(id: string): (r: Result<Option<AuthToken>, TokenError>)
      reads this
      ensures r.Err? <==> tokens.None?
      ensures r.Err? ==> r.error == NotLoaded
      ensures r.Ok? ==> (r.value.Some? <==> id in tokens.value)
      ensures r.Ok? && r.value.Some? ==> r.value.value == tokens.value[id]
    {
      if tokens.None? then Err(NotLoaded)
      else if id in tokens.value then Ok(Some(tokens.value[id]))
      else Ok(None)
    }

    /** `getTokens()`: every stored token. */
    function GetTokens(): (r: Result<set<AuthToken>, TokenError>)
      reads this
      ensures r.Err? <==> tokens.None?
      ensures r.Ok? ==> forall t :: t in r.value <==> exists id :: id in tokens.value && tokens.value[id] == t
    {
      if tokens.None? then Err(NotLoaded) else Ok(tokens.value.Values)
    }

    /** `addToken(token)` with the clock reading `now`. */
    method AddToken(token: AuthToken, now: int) returns (r: Result<AuthToken, TokenError>)
      requires Valid()
      modifies this
      ensures Valid()
      ensures old(tokens).None? ==> r == Err(NotLoaded) && tokens == old(tokens)
      ensures old(tokens).Some? ==>
        var refusal := Refusal(old(tokens).value, maxTokens, maxLifetime, now, token);
        if refusal.Some? then r == Err(refusal.value) && tokens == old(tokens)
        else r == Ok(token) && tokens == Some(old(tokens).value[token.id := token])
    {
      if tokens.None? {
        return Err(NotLoaded);
      }
      var refusal := Refusal(tokens.value, maxTokens, maxLifetime, now, token);
      if refusal.Some? {
        return Err(refusal.value);
      }
      tokens := Some(tokens.value[token.id := token]);
      return Ok(token);
    }

    /** `addToken(id, hashedToken, expiration)`: create, then add. */
    method AddNewToken(id: string, hashedToken: string, expiration: Option<int>, now: int,
                       create: (string, string, Option<int>) -> Option<AuthToken>)
      returns (r: Result<AuthToken, TokenError>)
      requires Valid()
      modifies this
      ensures Valid()
      ensures old(tokens).None? ==> r == Err(NotLoaded) && tokens == old(tokens)
      ensures old(tokens).Some? && create(id, hashedToken, expiration).None? ==>
        r == Err(InvalidToken) && tokens == old(tokens)
      ensures old(tokens).Some? && create(id, hashedToken, expiration).Some? ==>
        var t := create(id, hashedToken, expiration).value;
        var refusal := Refusal(old(tokens).value, maxTokens, maxLifetime, now, t);
        if refusal.Some? then r == Err(refusal.value) && tokens == old(tokens)
        else r == Ok(t) && tokens == Some(old(tokens).value[t.id := t])
    {
      if tokens.None? {
        return Err(NotLoaded);
      }
      var created := create(id, hashedToken, expiration);
      if created.None? {
        return Err(InvalidToken);
      }
      r := AddToken(created.value, now);
    }

    /** `deleteToken(id)`: true iff a token with that id was there; afterwards none is. */
    method DeleteToken(id: string) returns (r: Result<bool, TokenError>)
      requires Valid()
      modifies this
      ensures Valid()
      ensures old(tokens).None? ==> r == Err(NotLoaded) && tokens == old(tokens)
      ensures old(tokens).Some? ==>
        r == Ok(id in old(tokens).value) && tokens == Some(old(tokens).value - {id})
    {
      if tokens.None? {
        return Err(NotLoaded);
      }
      var present := id in tokens.value;
      tokens := Some(tokens.value - {id});
      return Ok(present);
    }

    /** `onSave`: the commit message and the config written, or NotLoaded. */
    function OnSave(message: Option<string>, formatInstant: int -> string)
      : (r: Result<(string, map<string, Section>), TokenError>)
      reads this
      ensures r.Err? <==> tokens.None?
      ensures r.Ok? ==> r.value.0 == SaveMessage(message)
      ensures r.Ok? ==> r.value.1 == SavedConfig(tokens.value, formatInstant)
    {
      if tokens.None? then Err(NotLoaded)
      else Ok((SaveMessage(message), SavedConfig(tokens.value, formatInstant)))
    }
  }
}
