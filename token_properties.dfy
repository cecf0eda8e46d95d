/**
 * What the token engine guarantees, stated over the functions of `Tokens`:
 * the shape of a minted token, the ways a check fails, the age window, the
 * nonce comparison as the code does it, and the rotation and invalidation
 * guarantees of the intended check.
 */
module TokenProperties {
  import opened Common
  import opened Dates
  import opened Text
  import opened Base36
  import opened Tokens

  /** A minted token is base-36 day count, 20-character hash and the random string, split by `-`. */
  lemma MintedFormat(cfg: Config, user: User, today: Date, random: Nonce)
    requires NumDays(today) >= 0
    ensures Minted(cfg, user, today, random).Some?
    ensures var d := NumDays(today);
            Split(Minted(cfg, user, today, random).value, '-')
              == [IntToBase36(d), Hash(cfg, user, d), random]
    ensures Parse(Minted(cfg, user, today, random).value).Some?
    ensures Parse(Minted(cfg, user, today, random).value).value.ts == NumDays(today)
  {
    var d := NumDays(today);
    assert '-' !in random by {
      forall i | 0 <= i < |random| ensures random[i] != '-' { assert IsNonceChar(random[i]); }
    }
    DayCountBound(today);
    ParseTokenFor(cfg, user, d, random);
    SplitTokenFor(cfg, user, d, random);
  }

  /** A token that does not split into three parts, or whose first part is not base 36, fails and writes nothing. */
  lemma MalformedRejected(cfg: Config, cache: Cache, user: User, token: string, today: Date)
    requires |Split(token, '-')| != 3 || Base36ToInt(Split(token, '-')[0]).None?
    ensures !Accepts(cfg, cache, user, token, today)
    ensures !AcceptsIntended(cfg, cache, user, token, today)
    ensures CacheAfterCheck(cfg, cache, user, token) == cache
  {
  }

  /** An accepted token is exactly the recomputation from its own timestamp and random segment. */
  lemma AcceptedIsRecomputed(cfg: Config, cache: Cache, user: User, token: string, today: Date)
    requires Accepts(cfg, cache, user, token, today) || AcceptsIntended(cfg, cache, user, token, today)
    ensures Parse(token).Some?
    ensures var p := Parse(token).value;
            && token == TokenFor(cfg, user, p.ts, p.random)
            && p.tsText == IntToBase36(p.ts)
            && p.hash == Hash(cfg, user, p.ts)
  {
    var p := Parse(token).value;
    ParseTokenFor(cfg, user, p.ts, p.random);
  }

  /** A timestamp spelled other than the encoder spells it (leading zero, upper case) fails. */
  lemma NonCanonicalTimestampRejected(cfg: Config, cache: Cache, user: User, token: string, today: Date)
    requires Parse(token).Some? && !IsCanonical(Parse(token).value.tsText)
    ensures !Accepts(cfg, cache, user, token, today)
    ensures !AcceptsIntended(cfg, cache, user, token, today)
  {
    if Accepts(cfg, cache, user, token, today) || AcceptsIntended(cfg, cache, user, token, today) {
      AcceptedIsRecomputed(cfg, cache, user, token, today);
    }
  }

  /**
   * Prefixing a zero to a genuine token's timestamp still parses, to the same day, and fails.
   * (With thirteen digits the prefixed segment is too long to parse at all.)
   */
  lemma LeadingZeroRejected(cfg: Config, cache: Cache, user: User, ts: nat, random: string, today: Date)
    requires '-' !in random
    requires ts < Pow36(MaxDigits - 1)
    ensures var t := "0" + TokenFor(cfg, user, ts, random);
            && Parse(t).Some? && Parse(t).value.ts == ts
            && !Accepts(cfg, cache, user, t, today)
            && !AcceptsIntended(cfg, cache, user, t, today)
  {
    var genuine := TokenFor(cfg, user, ts, random);
    var a, h := IntToBase36(ts), Hash(cfg, user, ts);
    var first := "0" + a;
    var t := "0" + genuine;
    assert Split(genuine, '-') == [a, h, random] by {
      SplitTokenFor(cfg, user, ts, random);
    }
    assert Split(t, '-') == [first, h, random] by {
      SplitWithPrefix("0", genuine, '-');
    }
    assert Base36ToInt(first) == Some(ts) by {
      EncodingValue(ts);
      EncodingLength(ts, MaxDigits - 1);
      MaxIntFitsDigits();
      ValueWithLeadingZero(a);
    }
    ParseOfParts(t, first, h, random, ts);
    assert !IsCanonical(first) by {
      assert first[0] == '0' && |first| >= 2;
    }
    NonCanonicalTimestampRejected(cfg, cache, user, t, today);
  }

  lemma ParseOfParts(token: string, a: string, h: string, r: string, n: nat)
    requires Split(token, '-') == [a, h, r] && Base36ToInt(a) == Some(n)
    ensures Parse(token) == Some(Parsed(a, n, h, r))
  {
  }

  lemma {:induction false} ValueWithLeadingZero(s: string)
    requires forall i :: 0 <= i < |s| ==> IsBase36Char(s[i])
    ensures var z := "0" + s; (forall i :: 0 <= i < |z| ==> IsBase36Char(z[i])) && Value(z) == Value(s)
    decreases |s|
  {
    var z := "0" + s;
    if |s| == 0 {
      assert z[..0] == [];
    } else {
      ValueWithLeadingZero(s[..|s| - 1]);
      assert z[..|z| - 1] == "0" + s[..|s| - 1];
    }
  }

  /** A token whose hash segment is not the user's current hash fails: tampering or another password. */
  lemma ForgedHashRejected(cfg: Config, cache: Cache, user: User, token: string, today: Date)
    requires Parse(token).Some? && Parse(token).value.hash != Hash(cfg, user, Parse(token).value.ts)
    ensures !Accepts(cfg, cache, user, token, today)
    ensures !AcceptsIntended(cfg, cache, user, token, today)
  {
    if Accepts(cfg, cache, user, token, today) || AcceptsIntended(cfg, cache, user, token, today) {
      AcceptedIsRecomputed(cfg, cache, user, token, today);
    }
  }

  /** A token minted under one password fails for the user once the password's hash differs. */
  lemma ChangedPasswordRejected(cfg: Config, cache: Cache, owner: User, current: User, ts: nat, random: string, today: Date)
    requires '-' !in random
    requires Hash(cfg, owner, ts) != Hash(cfg, current, ts)
    ensures !Accepts(cfg, cache, current, TokenFor(cfg, owner, ts, random), today)
    ensures !AcceptsIntended(cfg, cache, current, TokenFor(cfg, owner, ts, random), today)
  {
    if ts <= MaxInt {
      ParseTokenFor(cfg, owner, ts, random);
      ForgedHashRejected(cfg, cache, current, TokenFor(cfg, owner, ts, random), today);
    } else {
      LargeTimestampUnparseable(cfg, owner, ts, random);
    }
  }

  /**
   * For a genuine token the verdict as written is the age test plus a comparison
   * with the constant key "andom"; the intended verdict compares with the user's nonce.
   * An age of exactly the timeout passes, one more day fails, and a future date
   * passes as long as `base36_to_int` accepts its timestamp.
   */
  lemma GenuineTokenVerdict(cfg: Config, cache: Cache, user: User, ts: nat, random: string, today: Date)
    requires '-' !in random
    ensures Accepts(cfg, cache, user, TokenFor(cfg, user, ts, random), today)
        <==> ts <= MaxInt && NumDays(today) - ts <= cfg.timeoutDays && random == Lookup(cache, "andom", "")
    ensures AcceptsIntended(cfg, cache, user, TokenFor(cfg, user, ts, random), today)
        <==> ts <= MaxInt && NumDays(today) - ts <= cfg.timeoutDays
             && random == Lookup(cache, NonceKey(user.username), "")
  {
    if ts <= MaxInt {
      ParseTokenFor(cfg, user, ts, random);
      ReadKeyIsNeverWritten(user.username, user.username);
    } else {
      LargeTimestampUnparseable(cfg, user, ts, random);
    }
  }

  /**
   * A token dated beyond `sys.maxint` days fails both checks and writes nothing:
   * `base36_to_int` raises before the recomputation that writes the cache.
   */
  lemma LargeTimestampRejected(cfg: Config, cache: Cache, user: User, ts: nat, random: string, today: Date)
    requires '-' !in random
    requires ts > MaxInt
    ensures !Accepts(cfg, cache, user, TokenFor(cfg, user, ts, random), today)
    ensures !AcceptsIntended(cfg, cache, user, TokenFor(cfg, user, ts, random), today)
    ensures CacheAfterCheck(cfg, cache, user, TokenFor(cfg, user, ts, random)) == cache
  {
    LargeTimestampUnparseable(cfg, user, ts, random);
  }

  /** As written: with no "andom" entry, a parseable token with a non-empty random segment always fails. */
  lemma NonEmptyRandomRejected(cfg: Config, cache: Cache, user: User, token: string, today: Date)
    requires "andom" !in cache
    requires Parse(token).Some? && Parse(token).value.random != ""
    ensures !Accepts(cfg, cache, user, token, today)
  {
    ReadKeyIsNeverWritten(user.username, user.username);
  }

  /** As written: with no "andom" entry, a genuine token with an empty random segment passes the nonce check. */
  lemma EmptyRandomAccepted(cfg: Config, cache: Cache, user: User, ts: nat, today: Date)
    requires "andom" !in cache
    requires ts <= MaxInt && NumDays(today) - ts <= cfg.timeoutDays
    ensures Accepts(cfg, cache, user, TokenFor(cfg, user, ts, ""), today)
  {
    GenuineTokenVerdict(cfg, cache, user, ts, "", today);
  }

  /** A check of a parseable token changes the user's nonce entry and no other key. */
  lemma CheckWritesOnlyNonce(cfg: Config, cache: Cache, user: User, token: string)
    ensures var after := CacheAfterCheck(cfg, cache, user, token);
            forall k :: k != NonceKey(user.username) ==>
              (k in after <==> k in cache) && (k in after ==> after[k] == cache[k])
    ensures Parse(token).Some? ==>
              CacheAfterCheck(cfg, cache, user, token)[NonceKey(user.username)]
                == Entry(Parse(token).value.random, Ttl(cfg))
  {
  }

  /**
   * As written, a check installs the token's own random segment as the nonce before
   * anything is compared, so reading the user's key afterwards would always match,
   * even right after `invalidate_token`.
   */
  lemma CheckReinstatesNonce(cfg: Config, cache: Cache, user: User, token: string)
    requires Parse(token).Some?
    ensures Lookup(CacheAfterCheck(cfg, CacheAfterInvalidate(cache, user), user, token),
                   NonceKey(user.username), "")
         == Parse(token).value.random
  {
  }

  /** As written: a token minted for a user fails its own check whenever "andom" is not in the cache. */
  lemma MintedTokenRejectedAsWritten(cfg: Config, cache: Cache, user: User, minted: Date, checked: Date, random: Nonce)
    requires NumDays(minted) >= 0
    requires "andom" !in cache
    ensures !Accepts(cfg, CacheAfterMint(cfg, cache, user, minted, random), user,
                     Minted(cfg, user, minted, random).value, checked)
  {
    MintedFormat(cfg, user, minted, random);
    ReadKeyIsNeverWritten(user.username, user.username);
    NonEmptyRandomRejected(cfg, CacheAfterMint(cfg, cache, user, minted, random), user,
                           Minted(cfg, user, minted, random).value, checked);
  }

  /** Intended: a freshly minted token passes exactly while it is at most the timeout old. */
  lemma MintThenCheck(cfg: Config, cache: Cache, user: User, minted: Date, checked: Date, random: Nonce)
    requires NumDays(minted) >= 0
    ensures AcceptsIntended(cfg, CacheAfterMint(cfg, cache, user, minted, random), user,
                            Minted(cfg, user, minted, random).value, checked)
        <==> NumDays(checked) - NumDays(minted) <= cfg.timeoutDays
  {
    MintedFormat(cfg, user, minted, random);
    GenuineTokenVerdict(cfg, CacheAfterMint(cfg, cache, user, minted, random), user,
                        NumDays(minted), random, checked);
  }

  /** Intended: minting again with a different random string makes the earlier token fail. */
  lemma RotationInvalidates(cfg: Config, cache: Cache, user: User, first: Date, second: Date,
                            r1: Nonce, r2: Nonce, checked: Date)
    requires NumDays(first) >= 0 && NumDays(second) >= 0
    requires r1 != r2
    ensures var c := CacheAfterMint(cfg, CacheAfterMint(cfg, cache, user, first, r1), user, second, r2);
            && !AcceptsIntended(cfg, c, user, Minted(cfg, user, first, r1).value, checked)
            && (AcceptsIntended(cfg, c, user, Minted(cfg, user, second, r2).value, checked)
                <==> NumDays(checked) - NumDays(second) <= cfg.timeoutDays)
  {
    var c := CacheAfterMint(cfg, CacheAfterMint(cfg, cache, user, first, r1), user, second, r2);
    MintedFormat(cfg, user, first, r1);
    GenuineTokenVerdict(cfg, c, user, NumDays(first), r1, checked);
    MintThenCheck(cfg, CacheAfterMint(cfg, cache, user, first, r1), user, second, checked, r2);
  }

  /** Intended: after `invalidate_token`, every token with a non-empty random segment fails. */
  lemma InvalidatedRejected(cfg: Config, cache: Cache, user: User, token: string, today: Date)
    requires Parse(token).Some? && Parse(token).value.random != ""
    ensures !AcceptsIntended(cfg, CacheAfterInvalidate(cache, user), user, token, today)
  {
  }

  /** Intended: minting for or invalidating another user does not change a user's verdict. */
  lemma OtherUsersUnaffected(cfg: Config, cache: Cache, user: User, other: User, token: string,
                             today: Date, minted: Date, random: Nonce)
    requires user.username != other.username
    ensures AcceptsIntended(cfg, CacheAfterMint(cfg, cache, other, minted, random), user, token, today)
         == AcceptsIntended(cfg, cache, user, token, today)
    ensures AcceptsIntended(cfg, CacheAfterInvalidate(cache, other), user, token, today)
         == AcceptsIntended(cfg, cache, user, token, today)
  {
    if NonceKey(user.username) == NonceKey(other.username) {
      NonceKeyInjective(user.username, other.username);
    }
  }

  /**
   * As written, a check of any parseable token stores its random segment, so
   * presenting a forged token replaces the user's nonce and the user's genuine
   * token then fails the intended check.
   */
  lemma ForgedCheckDisplacesNonce(cfg: Config, cache: Cache, user: User, minted: Date, random: Nonce,
                                  forged: string, checked: Date)
    requires NumDays(minted) >= 0
    requires Parse(forged).Some? && Parse(forged).value.random != random
    ensures var c := CacheAfterCheck(cfg, CacheAfterMint(cfg, cache, user, minted, random), user, forged);
            !AcceptsIntended(cfg, c, user, Minted(cfg, user, minted, random).value, checked)
  {
    var c := CacheAfterCheck(cfg, CacheAfterMint(cfg, cache, user, minted, random), user, forged);
    MintedFormat(cfg, user, minted, random);
    GenuineTokenVerdict(cfg, c, user, NumDays(minted), random, checked);
  }

  /**
   * alice, password hash "h1", a seven-day timeout, a token minted on day 8000
   * (2022-11-27): intended, it passes on day 8007 and fails on day 8008, and a
   * second mint the same day makes it fail; as written it fails from the start.
   */
  lemma AliceScenario(secret: string, sha1: string -> HexDigest, cache: Cache, r1: Nonce, r2: Nonce)
    requires r1 != r2
    requires "andom" !in cache
    ensures var cfg := Config(secret, DefaultTimeoutDays, sha1);
            var alice := User("alice", "h1");
            var day8000: Date := Ymd(2022, 11, 27);
            var day8007: Date := Ymd(2022, 12, 4);
            var day8008: Date := Ymd(2022, 12, 5);
            var c1 := CacheAfterMint(cfg, cache, alice, day8000, r1);
            var t1 := Minted(cfg, alice, day8000, r1).value;
            var c2 := CacheAfterMint(cfg, c1, alice, day8000, r2);
            var t2 := Minted(cfg, alice, day8000, r2).value;
            && NumDays(day8000) == 8000
            && AcceptsIntended(cfg, c1, alice, t1, day8000)
            && AcceptsIntended(cfg, c1, alice, t1, day8007)
            && !AcceptsIntended(cfg, c1, alice, t1, day8008)
            && !AcceptsIntended(cfg, c2, alice, t1, day8000)
            && AcceptsIntended(cfg, c2, alice, t2, day8000)
            && !Accepts(cfg, c1, alice, t1, day8000)
  {
    var cfg := Config(secret, DefaultTimeoutDays, sha1);
    var alice := User("alice", "h1");
    var day8000: Date := Ymd(2022, 11, 27);
    var day8007: Date := Ymd(2022, 12, 4);
    var day8008: Date := Ymd(2022, 12, 5);
    assert NumDays(day8000) == 8000 && NumDays(day8007) == 8007 && NumDays(day8008) == 8008;
    MintThenCheck(cfg, cache, alice, day8000, day8000, r1);
    MintThenCheck(cfg, cache, alice, day8000, day8007, r1);
    MintThenCheck(cfg, cache, alice, day8000, day8008, r1);
    RotationInvalidates(cfg, cache, alice, day8000, day8000, r1, r2, day8000);
    MintedTokenRejectedAsWritten(cfg, cache, alice, day8000, day8000, r1);
  }
}
