/**
 * The token engine of `TokenGenerator`: tokens of the form
 * `<base-36 day count>-<every other character of a SHA-1 hex digest>-<random string>`,
 * minted and checked against a per-user nonce held in a shared cache.
 *
 * The pure part (formatting, parsing, the verdict of a check) is stated as
 * functions; the class `TokenGenerator` holds the cache and changes it in place.
 */
module Tokens {
  import opened Common
  import opened Dates
  import opened Text
  import opened Base36

  predicate IsHexDigit(c: char) {
    '0' <= c <= '9' || 'a' <= c <= 'f'
  }

  /** A SHA-1 `hexdigest()`: 40 lowercase hex characters. */
  type HexDigest = s: string | |s| == 40 && forall i :: 0 <= i < |s| ==> IsHexDigit(s[i])
    witness seq(40, _ => '0')

  predicate IsNonceChar(c: char) {
    'A' <= c <= 'Z' || '0' <= c <= '9'
  }

  /** What the minting code draws: 64 characters from `ascii_uppercase + digits`. */
  type Nonce = s: string | |s| == 64 && forall i :: 0 <= i < |s| ==> IsNonceChar(s[i])
    witness seq(64, _ => 'A')

  /** `TOKEN_TIMEOUT_DAYS` when the settings do not give one. */
  const DefaultTimeoutDays := 7

  const SecondsPerDay := 86400

  /** The settings and the digest the engine uses: `SECRET_KEY`, `TOKEN_TIMEOUT_DAYS`, SHA-1. */
  datatype Config = Config(secretKey: string, timeoutDays: int, sha1: string -> HexDigest)

  /** The fields of a user account that the engine reads. */
  datatype User = User(username: string, password: string)

  /** A cache entry: the stored value and the time-to-live it was stored with, in seconds. */
  datatype Entry = Entry(value: string, ttl: int)

  type Cache = map<string, Entry>

  /** `cache.get(key, default)` for string values. */
  function Lookup(cache: Cache, key: string, default: string): string {
    if key in cache then cache[key].value else default
  }

  /** The key the nonce is written under and deleted from: `'%s.random' % username`. */
  function NonceKey(username: string): string {
    username + ".random"
  }

  /** `repr` of a string, escapes aside. */
  function Repr(s: string): string {
    "'" + s + "'"
  }

  /**
   * The key the nonce is read from: `'%.random' % username`. Python reads
   * `%.r` as a `repr` conversion with precision 0, followed by the text "andom".
   */
  function ReadKey(username: string): (k: string)
    ensures k == "andom"
  {
    Repr(username)[..0] + "andom"
  }

  /** No key the engine writes is ever the key it reads. */
  lemma ReadKeyIsNeverWritten(u: string, v: string)
    ensures ReadKey(u) != NonceKey(v)
  {
    assert |NonceKey(v)| >= 7;
  }

  /** Distinct users have distinct nonce keys. */
  lemma NonceKeyInjective(u: string, v: string)
    requires NonceKey(u) == NonceKey(v)
    ensures u == v
  {
    assert u == NonceKey(u)[..|u|];
    assert v == NonceKey(v)[..|v|];
  }

  /** The cache TTL of a nonce: `TOKEN_TIMEOUT_DAYS * 86400` seconds. */
  function Ttl(cfg: Config): int {
    cfg.timeoutDays * SecondsPerDay
  }

  /** What is hashed: `SECRET_KEY + username + password + unicode(timestamp)`. */
  function HashInput(cfg: Config, user: User, timestamp: int): string {
    cfg.secretKey + user.username + user.password + Decimal(timestamp)
  }

  /** The hash segment: the characters at even indices of the hex digest. */
  function Hash(cfg: Config, user: User, timestamp: int): (h: string)
    ensures |h| == 20
    ensures forall i :: 0 <= i < 20 ==> h[i] == cfg.sha1(HashInput(cfg, user, timestamp))[2 * i]
    ensures '-' !in h
  {
    var h := EveryOther(cfg.sha1(HashInput(cfg, user, timestamp)));
    assert forall i :: 0 <= i < |h| ==> IsHexDigit(h[i]);
    h
  }

  /** The string `_make_token_with_timestamp` returns: `"%s-%s-%s" % (ts_b36, hash, random_string)`. */
  function TokenFor(cfg: Config, user: User, timestamp: nat, random: string): string {
    IntToBase36(timestamp) + "-" + Hash(cfg, user, timestamp) + "-" + random
  }

  /** The three segments of a token and the timestamp its first segment spells. */
  datatype Parsed = Parsed(tsText: string, ts: nat, hash: string, random: string)

  /** The parsing steps of `check_token`: a three-way split on `-`, then base 36. */
  function Parse(token: string): (r: Option<Parsed>)
    ensures r.Some? <==> |Split(token, '-')| == 3 && Base36ToInt(Split(token, '-')[0]).Some?
    ensures r.Some? ==> Join([r.value.tsText, r.value.hash, r.value.random], '-') == token
    ensures r.Some? ==> '-' !in r.value.tsText && '-' !in r.value.hash && '-' !in r.value.random
    ensures r.Some? ==> Base36ToInt(r.value.tsText) == Some(r.value.ts)
  {
    var parts := Split(token, '-');
    JoinSplit(token, '-');
    if |parts| != 3 then None
    else
      match Base36ToInt(parts[0])
      case None => None
      case Some(ts) =>
        assert parts == [parts[0], parts[1], parts[2]];
        Some(Parsed(parts[0], ts, parts[1], parts[2]))
  }

  /** A token built from a random segment without `-` splits into its three segments. */
  lemma SplitTokenFor(cfg: Config, user: User, timestamp: nat, random: string)
    requires '-' !in random
    ensures Split(TokenFor(cfg, user, timestamp, random), '-')
         == [IntToBase36(timestamp), Hash(cfg, user, timestamp), random]
  {
    var a, h := IntToBase36(timestamp), Hash(cfg, user, timestamp);
    assert '-' !in a by {
      forall i | 0 <= i < |a| ensures a[i] != '-' { assert IsLowerBase36Char(a[i]); }
    }
    assert [a, h, random][1..] == [h, random] && [h, random][1..] == [random];
    assert Join([random], '-') == random;
    assert Join([h, random], '-') == h + ['-'] + random;
    calc {
      Join([a, h, random], '-');
      a + ['-'] + Join([h, random], '-');
      a + ['-'] + (h + ['-'] + random);
      { assert "-" == ['-']; }
      a + "-" + h + "-" + random;
    }
    SplitJoin([a, h, random], '-');
  }

  /** A well-formed token whose timestamp `base36_to_int` accepts parses back into what it was built from. */
  lemma ParseTokenFor(cfg: Config, user: User, timestamp: nat, random: string)
    requires '-' !in random
    requires timestamp <= MaxInt
    ensures Parse(TokenFor(cfg, user, timestamp, random))
         == Some(Parsed(IntToBase36(timestamp), timestamp, Hash(cfg, user, timestamp), random))
  {
    SplitTokenFor(cfg, user, timestamp, random);
    Base36RoundTrip(timestamp);
  }

  /** A token whose timestamp exceeds `sys.maxint` does not parse: `base36_to_int` refuses it. */
  lemma LargeTimestampUnparseable(cfg: Config, user: User, timestamp: nat, random: string)
    requires '-' !in random
    requires timestamp > MaxInt
    ensures Parse(TokenFor(cfg, user, timestamp, random)).None?
  {
    SplitTokenFor(cfg, user, timestamp, random);
    Base36RoundTrip(timestamp);
  }

  /** The cache `check_token` leaves: a parseable token's random segment becomes the user's nonce. */
  function CacheAfterCheck(cfg: Config, cache: Cache, user: User, token: string): Cache {
    match Parse(token)
    case None => cache
    case Some(p) => cache[NonceKey(user.username) := Entry(p.random, Ttl(cfg))]
  }

  /**
   * The verdict of `check_token` as written: the token parses, equals the
   * recomputation from its own timestamp and random segment, is at most
   * `TOKEN_TIMEOUT_DAYS` old, and its random segment equals what the cache
   * holds under the read key (after the recomputation's write), default "".
   */
  predicate Accepts(cfg: Config, cache: Cache, user: User, token: string, today: Date) {
    && Parse(token).Some?
    && var p := Parse(token).value;
    && TokenFor(cfg, user, p.ts, p.random) == token
    && NumDays(today) - p.ts <= cfg.timeoutDays
    && p.random == Lookup(CacheAfterCheck(cfg, cache, user, token), ReadKey(user.username), "")
  }

  /**
   * The verdict the engine is meant to give (see README, Findings): the same
   * three checks, then the random segment against the user's own nonce key,
   * with nothing written to the cache.
   */
  predicate AcceptsIntended(cfg: Config, cache: Cache, user: User, token: string, today: Date) {
    && Parse(token).Some?
    && var p := Parse(token).value;
    && TokenFor(cfg, user, p.ts, p.random) == token
    && NumDays(today) - p.ts <= cfg.timeoutDays
    && p.random == Lookup(cache, NonceKey(user.username), "")
  }

  /** The token `make_token` returns on `today`; `None` where `int_to_base36` rejects a negative day count. */
  function Minted(cfg: Config, user: User, today: Date, random: Nonce): Option<string> {
    if NumDays(today) < 0 then None else Some(TokenFor(cfg, user, NumDays(today), random))
  }

  /** The cache `make_token` leaves: the fresh random string is the user's nonce. */
  function CacheAfterMint(cfg: Config, cache: Cache, user: User, today: Date, random: Nonce): Cache {
    if NumDays(today) < 0 then cache else cache[NonceKey(user.username) := Entry(random, Ttl(cfg))]
  }

  /** The cache `invalidate_token` leaves. */
  function CacheAfterInvalidate(cache: Cache, user: User): Cache {
    cache - {NonceKey(user.username)}
  }

  /** The engine, with the shared cache as the one piece of state it changes. */
  class TokenGenerator {
    const config: Config
    var cache: Cache

    constructor (config: Config, cache: Cache)
      ensures this.config == config && this.cache == cache
    {
      this.config := config;
      this.cache := cache;
    }

    /** `make_token`: mint a token for today with the freshly drawn `random`. */
    method MakeToken(user: User, today: Date, random: Nonce) returns (token: Option<string>)
      modifies this
      ensures token == Minted(config, user, today, random)
      ensures cache == CacheAfterMint(config, old(cache), user, today, random)
    {
      var days := NumDays(today);
      if days < 0 {
        return None;
      }
      var t := MakeTokenWithTimestamp(user, days, random);
      return Some(t);
    }

    /**
     * `_make_token_with_timestamp`: store `random` as the user's nonce and
     * return the token for `timestamp`. Drawing a fresh random string when
     * none is given is done by the caller, which passes it in.
     */
    method MakeTokenWithTimestamp(user: User, timestamp: nat, random: string) returns (token: string)
      modifies this
      ensures token == TokenFor(config, user, timestamp, random)
      ensures cache == old(cache)[NonceKey(user.username) := Entry(random, Ttl(config))]
    {
      var tsB36 := IntToBase36(timestamp);
      cache := cache[NonceKey(user.username) := Entry(random, Ttl(config))];
      var digest := config.sha1(HashInput(config, user, timestamp));
      var hash := EveryOther(digest);
      token := tsB36 + "-" + hash + "-" + random;
    }

    /** `check_token` as written, including its write to the cache. */
    method CheckToken(user: User, token: string, today: Date) returns (ok: bool)
      modifies this
      ensures ok == Accepts(config, old(cache), user, token, today)
      ensures cache == CacheAfterCheck(config, old(cache), user, token)
    {
      var parts := Split(token, '-');
      if |parts| != 3 {
        return false;
      }
      var tsB36, random := parts[0], parts[2];
      var parsed := Base36ToInt(tsB36);
      if parsed.None? {
        return false;
      }
      var ts := parsed.value;
      var recomputed := MakeTokenWithTimestamp(user, ts, random);
      if recomputed != token {
        return false;
      }
      if NumDays(today) - ts > config.timeoutDays {
        return false;
      }
      if random != Lookup(cache, ReadKey(user.username), "") {
        return false;
      }
      return true;
    }

    /** The corrected check: reads the user's own nonce key and leaves the cache alone. */
    method CheckTokenIntended(user: User, token: string, today: Date) returns (ok: bool)
      ensures ok == AcceptsIntended(config, cache, user, token, today)
    {
      var parts := Split(token, '-');
      if |parts| != 3 {
        return false;
      }
      var tsB36, random := parts[0], parts[2];
      var parsed := Base36ToInt(tsB36);
      if parsed.None? {
        return false;
      }
      var ts := parsed.value;
      if TokenFor(config, user, ts, random) != token {
        return false;
      }
      if NumDays(today) - ts > config.timeoutDays {
        return false;
      }
      ok := random == Lookup(cache, NonceKey(user.username), "");
    }

    /** `invalidate_token`: delete the user's nonce; nothing happens if there is none. */
    method InvalidateToken(user: User)
      modifies this
      ensures cache == CacheAfterInvalidate(old(cache), user)
    {
      cache := cache - {NonceKey(user.username)};
    }
  }
}
