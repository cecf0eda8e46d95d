# django-gluten token authentication, modelled in Dafny

django-gluten is a small add-on for building token-authenticated REST APIs on
Django. Its core is `TokenGenerator` (`gluten/tokens.py`), which mints and
checks bearer tokens of the form

    <days since 2001-01-01 in base 36>-<every other character of a SHA-1 hexdigest>-<64-character random string>

and keeps the random string of each user's latest token in the shared Django
cache under `<username>.random`, with a time-to-live of
`TOKEN_TIMEOUT_DAYS * 86400` seconds (`TOKEN_TIMEOUT_DAYS` defaults to 7).
Around it sit an authentication backend (`gluten/backends.py`), the request
helpers that find the username and token of an API-key login
(`gluten/http.py`), the `gluten_api` and `html_decorator` view decorators
(`gluten/decorators.py`) and the JSON response builders (`gluten/api.py`).

Layout, one module per file:

- `common.dfy` (`Common`): `Option`, standing for Python's `None`.
- `pyvalues.dfy` (`PyValues`): the Python values that pass through the JSON code.
  It has separate list and tuple cases because `api_response` treats them differently.
- `dates.dfy` (`Dates`): calendar dates and `_num_days`. A day count is the
  difference of proleptic Gregorian day numbers, as in Python's `date` subtraction.
- `text.dfy` (`Text`): `str.split`, the `[::2]` stride and `unicode(int)`.
- `base36.dfy` (`Base36`): a lowercase base-36 encoder standing for
  `int_to_base36`, and a parser standing for `base36_to_int`.
- `tokens.dfy` (`Tokens`): token formatting and parsing as functions.
  The verdict of a check is a predicate. The class `TokenGenerator` holds the
  cache as a `map<string, Entry>` field, and its methods change it in place.
- `token_properties.dfy` (`TokenProperties`): lemmas about the engine.
- `backends.dfy`, `http.dfy`, `decorators.dfy`, `api.dfy`: the secondary files.

External inputs are parameters:

- the SHA-1 digest (FIPS 180-4, section 6.1) is the field `sha1: string -> HexDigest` of `Tokens.Config`;
- `SECRET_KEY` and `TOKEN_TIMEOUT_DAYS` are the other two fields of `Tokens.Config`;
- the random string drawn by `random.choice` is a `Nonce` argument (64 characters from `A-Z0-9`);
- `date.today()` is a `Date` argument;
- Django's `authenticate` is a function argument, and its `login` call is recorded in the result;
- the view wrapped by a decorator is a function argument.

The model follows the code where the code differs from what its comments
suggest. Two such differences are in the token engine:

- `check_token` writes the cache. A check of any token that parses stores the
  token's own random segment as the user's nonce, before anything is compared.
- The nonce is read from the key `'%.random' % username`. In Python this is
  the constant `"andom"`, which is not the key that is written or deleted.

Because of the second point, the code as written accepts no token minted by
`make_token` as long as the cache holds no `"andom"` entry (see Findings). The model states both the code as written
(`Tokens.Accepts`, `TokenGenerator.CheckToken`) and the evidently intended check
(`Tokens.AcceptsIntended`, `TokenGenerator.CheckTokenIntended`). The backend
models the code as written: it calls `CheckToken`.

## Model

| member | source | states |
|---|---|---|
| `Tokens.Minted` | gluten/tokens.py:22-26 | reference definition of the token `make_token` returns for today's day count, absent before 2001-01-01; characterised by `TokenProperties.MintedFormat` and `TokenProperties.MintThenCheck` |
| `Tokens.CacheAfterMint` | gluten/tokens.py:63-67 | reference definition of the cache `make_token` leaves: the fresh random string under `<username>.random` with the nonce TTL; characterised by `TokenProperties.RotationInvalidates` and `TokenProperties.OtherUsersUnaffected` |
| `Tokens.CacheAfterInvalidate` | gluten/tokens.py:57-58 | reference definition of the cache `invalidate_token` leaves: the old map without `<username>.random`; characterised by `TokenProperties.InvalidatedRejected`, `TokenProperties.CheckReinstatesNonce` and `TokenProperties.OtherUsersUnaffected` |
| `Tokens.TokenGenerator.MakeToken` | gluten/tokens.py:22-26 | returns the token for today's day count and the given random string (`None` for a date before 2001-01-01, where `int_to_base36` refuses a negative count); the new cache is the old one with only `<username>.random` set to the random string with TTL timeout*86400 |
| `Tokens.TokenGenerator.MakeTokenWithTimestamp` | gluten/tokens.py:60-74 | returns `base36(ts)-hash-random` and sets exactly one cache entry, `<username>.random := random` with TTL `TOKEN_TIMEOUT_DAYS*86400`; every other key is unchanged |
| `Tokens.TokenGenerator.CheckToken` | gluten/tokens.py:28-55 | the answer is the as-written verdict `Accepts` on the old cache; the new cache is the old one with the parsed random segment written as the user's nonce when the token parses, and unchanged otherwise |
| `Tokens.TokenGenerator.CheckTokenIntended` | gluten/tokens.py:28-55 | corrected check: the answer is `AcceptsIntended`, which reads `<username>.random`; the method writes nothing |
| `Tokens.TokenGenerator.InvalidateToken` | gluten/tokens.py:57-58 | deletes `<username>.random` and no other key; the cache is unchanged when that key is absent |
| `Tokens.NonceKey` | gluten/tokens.py:58-67 | reference definition of the key `'%s.random' % username` that `invalidate_token` deletes and `_make_token_with_timestamp` writes; characterised by `Tokens.NonceKeyInjective` and `Tokens.ReadKeyIsNeverWritten` |
| `Tokens.Lookup` | gluten/tokens.py:52 | reference definition of `cache.get(key, default)`: the stored value when the key is present, the default otherwise; used by `Tokens.Accepts` and `Tokens.AcceptsIntended` |
| `Tokens.ReadKey` | gluten/tokens.py:52 | the key `'%.random' % username` is `"andom"` for every username |
| `Tokens.ReadKeyIsNeverWritten` | gluten/tokens.py:52 | the read key differs from `<v>.random` for every username `v`, so no write or delete by the engine reaches it |
| `Tokens.NonceKeyInjective` | gluten/tokens.py:67 | two users share a nonce key only if they share a username |
| `Tokens.Hash` | gluten/tokens.py:70-73 | the hash segment has 20 characters, character `i` is character `2i` of the SHA-1 hexdigest of `SECRET_KEY + username + password + unicode(ts)`, and it contains no `-` |
| `Tokens.TokenFor` | gluten/tokens.py:74 | reference definition of `"%s-%s-%s" % (ts_b36, hash, random_string)`; characterised by `Tokens.SplitTokenFor`, `Tokens.ParseTokenFor` and `Tokens.LargeTimestampUnparseable` |
| `Tokens.SplitTokenFor` | gluten/tokens.py:34-74 | a token built from a random segment without `-` splits on `-` into exactly its timestamp, hash and random segments |
| `Tokens.Parse` | gluten/tokens.py:33-41 | a token parses iff it splits on `-` into exactly three parts and `base36_to_int` accepts the first; the three parts joined with `-` give the token back, none contains `-`, and `ts` is the value of the first |
| `Tokens.ParseTokenFor` | gluten/tokens.py:63-74 | a token built from `ts` (at most `sys.maxint`), the hash and a random segment without `-` parses back to exactly those parts |
| `Tokens.LargeTimestampUnparseable` | gluten/tokens.py:38-41 | a token whose timestamp exceeds `sys.maxint` does not parse |
| `Tokens.CacheAfterCheck` | gluten/tokens.py:44-67 | reference definition of the cache `check_token` leaves: a token that parses has its random segment written as the user's nonce by the recomputation, and any other token leaves the cache alone; characterised by `TokenProperties.CheckWritesOnlyNonce`, `TokenProperties.CheckReinstatesNonce` and `TokenProperties.MalformedRejected` |
| `Tokens.Accepts` | gluten/tokens.py:33-55 | reference definition of the as-written verdict: parses, equals the recomputation, at most the timeout old, and the random segment equals the `"andom"` entry of the cache after the recomputation's write; characterised by `TokenProperties.GenuineTokenVerdict`, `TokenProperties.AcceptedIsRecomputed` and the rejection lemmas |
| `Tokens.AcceptsIntended` | gluten/tokens.py:33-55 | reference definition of the intended verdict: the same three tests, then the random segment against the user's own `<username>.random` entry, with nothing written; characterised by `TokenProperties.GenuineTokenVerdict`, `TokenProperties.MintThenCheck` and `TokenProperties.InvalidatedRejected` |
| `TokenProperties.MintedFormat` | gluten/tokens.py:63-74 | a minted token splits on `-` into exactly `[base36(d), hash, random]`, where `d` is today's day count, and it parses back to `d` |
| `TokenProperties.MalformedRejected` | gluten/tokens.py:33-41 | a token that does not split into three parts, or whose first part `base36_to_int` refuses, is rejected by both checks, and the cache is untouched |
| `TokenProperties.AcceptedIsRecomputed` | gluten/tokens.py:43-45 | an accepted token equals the recomputation from its parsed timestamp and random segment; its timestamp is in the encoder's spelling and its hash is the user's current hash |
| `TokenProperties.NonCanonicalTimestampRejected` | gluten/tokens.py:43-45 | a token whose timestamp is not in the encoder's spelling is rejected, even though it parses |
| `TokenProperties.LeadingZeroRejected` | gluten/tokens.py:38-45 | for a timestamp of at most twelve digits (below `36^12`), adding a leading `0` keeps the token parseable to the same day, and the token is rejected |
| `TokenProperties.ForgedHashRejected` | gluten/tokens.py:43-45 | a token whose hash segment is not the user's current hash for its timestamp is rejected |
| `TokenProperties.ChangedPasswordRejected` | gluten/tokens.py:43-45 | a token minted under one password is rejected for a user whose hash for that timestamp differs |
| `TokenProperties.GenuineTokenVerdict` | gluten/tokens.py:38-55 | for a genuine token, as written: accepted iff its timestamp is at most `sys.maxint`, age <= timeout and its random segment equals the `"andom"` entry (default ""); intended: accepted iff the timestamp is at most `sys.maxint`, age <= timeout and it equals the user's stored nonce. So an age of exactly the timeout passes, one more day fails, and a future date passes while its timestamp parses |
| `TokenProperties.LargeTimestampRejected` | gluten/tokens.py:38-41 | a genuine-looking token dated beyond `sys.maxint` days is rejected by both checks, and the cache is untouched, because `base36_to_int` raises before the write at line 67 |
| `TokenProperties.NonEmptyRandomRejected` | gluten/tokens.py:52 | as written, with no `"andom"` entry, every parseable token with a non-empty random segment is rejected |
| `TokenProperties.EmptyRandomAccepted` | gluten/tokens.py:52 | as written, with no `"andom"` entry, a genuine `ts-hash-` token (empty random segment) with a parseable timestamp within the age limit is accepted |
| `TokenProperties.CheckWritesOnlyNonce` | gluten/tokens.py:44 | a check changes no key except `<username>.random`, and for a parseable token sets it to the token's random segment with the nonce TTL |
| `TokenProperties.CheckReinstatesNonce` | gluten/tokens.py:67 | even right after `invalidate_token`, a check of a parseable token leaves the token's random segment stored as the user's nonce |
| `TokenProperties.MintedTokenRejectedAsWritten` | gluten/tokens.py:52 | as written, with no `"andom"` entry, a freshly minted token fails its own check on any day |
| `TokenProperties.ForgedCheckDisplacesNonce` | gluten/tokens.py:67 | as written, checking any parseable token whose random segment differs from the user's nonce replaces that nonce, and the user's genuine token then fails the intended check |
| `TokenProperties.MintThenCheck` | gluten/tokens.py:44-55 | intended: a freshly minted token is accepted iff the check date is at most `TOKEN_TIMEOUT_DAYS` after the mint date |
| `TokenProperties.RotationInvalidates` | gluten/tokens.py:67 | intended: after a second mint with a different random string, the first token is rejected, and the second is accepted iff it is within the age limit |
| `TokenProperties.InvalidatedRejected` | gluten/tokens.py:57-58 | intended: after `invalidate_token`, every parseable token with a non-empty random segment is rejected |
| `TokenProperties.OtherUsersUnaffected` | gluten/tokens.py:58-67 | intended: minting for or invalidating another user leaves a user's verdict unchanged |
| `TokenProperties.AliceScenario` | gluten/tokens.py:44-55 | alice, password hash "h1", timeout 7, token minted on 2022-11-27 (day 8000). Intended: accepted on day 8000 and day 8007, rejected on day 8008, rejected after a second mint; the second token is accepted. As written: rejected on the day of minting |
| `Dates.NumDays` | gluten/tokens.py:76-77 | reference definition of `(dt - date(2001, 1, 1)).days` as a difference of day numbers; characterised by `Dates.DaysSinceEpoch` and `Dates.DayCountBound` |
| `Dates.DayCountBound` | gluten/tokens.py:76-77 | the day count of any date is below 3,000,000, so a minted timestamp is far below `sys.maxint` |
| `Dates.NextDayIsOneLater` | gluten/tokens.py:76-77 | `_num_days` of the following calendar day is one more |
| `Dates.AddDaysCounts` | gluten/tokens.py:76-77 | `n` calendar steps after a date, `_num_days` is `n` more |
| `Dates.DaysSinceEpoch` | gluten/tokens.py:76-77 | `_num_days` of the date `n` steps after 2001-01-01 is `n` |
| `Base36.IntToBase36` | gluten/tokens.py:63 | the encoding is non-empty lowercase base 36, and starts with `0` only for 0, where it is `"0"` |
| `Base36.Base36ToInt` | gluten/tokens.py:39 | parsing succeeds iff the text has 1 to 13 characters, all digits or letters, and its value is at most `sys.maxint`; the result is that value |
| `Base36.EncodingValue` | gluten/tokens.py:39-63 | the encoding of `n` is made of base-36 digits whose value is `n` |
| `Base36.EncodingLength` | gluten/tokens.py:39-63 | a number below `36^k` has at most `k` base-36 digits |
| `Base36.Base36RoundTrip` | gluten/tokens.py:39 | parsing the encoding of `n` gives `n` back when `n` is at most `sys.maxint`, and fails otherwise |
| `Base36.CanonicalIsEncoded` | gluten/tokens.py:39 | every canonical spelling is the encoding of its value |
| `Base36.ParsedSpellingIsCanonical` | gluten/tokens.py:39-44 | a parsed text is the encoder's spelling of its value iff it is canonical |
| `Text.Split` | gluten/tokens.py:34 | `split` yields at least one part and no part contains the separator |
| `Text.JoinSplit` | gluten/tokens.py:34 | joining the parts of a split with the separator gives the string back |
| `Text.SplitJoin` | gluten/tokens.py:34 | splitting a join of separator-free parts gives back the parts |
| `Text.Decimal` | gluten/tokens.py:71-73 | `unicode(ts)` is non-empty, starts with `-` iff the number is negative, is otherwise made of decimal digits, and has no leading zero except in `0` |
| `Text.DecimalDigitsValue` | gluten/tokens.py:71-73 | the decimal digits of a non-negative `n` have the value `n` |
| `Text.DecimalSpellsValue` | gluten/tokens.py:71-73 | `unicode(n)` spells `n`: the digits after the sign have the value of `n` without its sign |
| `Text.DecimalInjective` | gluten/tokens.py:71-73 | distinct integers have distinct `unicode` spellings, so the hash input fixes the timestamp it was built from |
| `Text.EveryOther` | gluten/tokens.py:73 | `s[::2]` has `(len(s)+1)/2` characters, and character `i` is `s[2i]` |
| `Backends.Authenticate` | gluten/backends.py:8-19 | an unknown username gives None and an inactive user gives None, both without touching the cache (the check is not called); for an active user the result is that user iff `check_token` accepts, and the cache is what the check leaves; a result always has the requested username |
| `PyValues.Truthy` | gluten/http.py:58 | reference definition of Python's truth test: `None`, `False`, `0` and empty strings and containers are false; characterised by `Http.CheckApiKeyAuthentication` and `Http.EmptyUsernameFails` |
| `Http.Param` | gluten/http.py:48-50 | reference definition of `request.REQUEST.get(key)`: the parameter's string, or `None` when it is absent; characterised by `Http.RequestedUsername` |
| `Http.TokenCookie` | gluten/http.py:46 | reference definition of `request.COOKIES.get('token')`; characterised by `Http.CheckApiKeyAuthentication` |
| `Http.DictGet` | gluten/http.py:54 | reference definition of `v.get(key, default)`: the entry or the default for a dict, and a raise (absent) for anything else; characterised by `Http.BodyUsername` and `Http.UndecodableBodyFails` |
| `Http.BodyUsername` | gluten/http.py:52-56 | the username is the value at `data.username` of the JSON body when there is one there, and None otherwise: a body that fails to decode, or that has no dict where one is needed, gives None |
| `Http.BodyUsernameUsed` | gluten/http.py:48-59 | with neither parameter, a body `{"data": {"username": name}}` supplies the username, and a truthy name with a token cookie is what `authenticate` receives |
| `Http.RequestedUsername` | gluten/http.py:48-54 | the `username` parameter wins even when it is empty; `data[username]` is used only when `username` is absent; the JSON body only when both are absent |
| `Http.CheckApiKeyAuthentication` | gluten/http.py:44-63 | `authenticate` is called, with the username and the `token` cookie, iff the username is truthy and the token is non-empty; the answer is True iff that call returns a user, which is then passed to `login` |
| `Http.EmptyUsernameFails` | gluten/http.py:48-58 | an empty `username` parameter stops the fallback chain, and the check fails without calling `authenticate` |
| `Http.UndecodableBodyFails` | gluten/http.py:51-58 | with neither parameter and an undecodable or non-dict body, there is no username and no call |
| `Http.RequestedLanguage` | gluten/http.py:66-67 | the `lang` parameter, or None iff it is absent |
| `Decorators.ActivateLanguage` | gluten/decorators.py:12-14 | a language is activated iff it is in `ALLOWED_LANGUAGES` |
| `Decorators.LanguageToActivate` | gluten/decorators.py:35-37 | a language is activated iff one is requested, it differs from `LANGUAGE_CODE`, and it is allowed |
| `Decorators.GlutenApi` | gluten/decorators.py:17-45 | a method not in `methods` gives 405 listing `methods`, before any language activation or authentication; the session is consulted iff the API-key check said no; with login required and neither check authorising, the result is 401 and the view is not called; otherwise the view's result for the request is returned unchanged |
| `Decorators.DefaultsRefusePatch` | gluten/decorators.py:17-31 | with the default arguments, PATCH is refused with 405 listing GET, POST, PUT, DELETE |
| `Decorators.HtmlDecorator` | gluten/decorators.py:50-62 | a new status-200 response whose content is `<html><body>`, then the view's content, then `</body></html>` |
| `Api.ApiResponse` | gluten/api.py:17-61 | list data is wrapped as `{success: True, result: {meta: {limit, next, offset, previous, total_count}, objects: data}}`. `total_count` defaults to the list length, and `limit` defaults to `total_count` after that default. Any other data, dicts and tuples included, is returned unchanged |
| `Api.EnvelopeRoundTrip` | gluten/api.py:44-56 | the objects of a list envelope are the list it was built from |
| `Api.EnvelopeDefaults` | gluten/api.py:17-42 | with every default, the meta block is limit = total_count = length, offset 0, next and previous None |
| `Api.Body` | gluten/api.py:75-81 | the shortcut dict has `success`, `result` (the data, or `{}` only for None) and `message` iff a message is given |
| `Api.ApiResponseSuccess` | gluten/api.py:64-83 | the result is the success dict itself, with no meta envelope |
| `Api.ApiResponseError` | gluten/api.py:86-104 | the result is the error dict (`success` False) itself, with no meta envelope |

## Left out

- `coerce_put_post` (gluten/http.py:7-41) is not modelled. It mutates Django's request internals for PUT requests.
- Decorators.GlutenApi: the wrapped view receives the request as given. The source's view sees the request after `coerce_put_post`, after `login(request, user)` (gluten/http.py:61) has attached the user to it, and after `translation.activate`. The model records the login and the activation in the outcome but does not change the request the view is called with.
- The SHA-1 algorithm is not modelled. The digest is a parameter that returns 40 lowercase hex characters.
- `random.choice` and `date.today()` are not modelled. Their results are arguments.
- Cache expiry is not modelled. The requested TTL is recorded, but entries are never evicted.
- Concurrent requests on the shared cache are not modelled.
- JSON serialisation (`simplejson.dumps`, `DataEncoder`'s datetime format), `HttpResponse` headers and MIME type, `api_response_raw`, logging, `translation.activate` and the ORM lookup are not modelled. Each is I/O or a call into Django. The lookup is a map, and the activation is a returned value.
- Floats and datetimes are not values of `PyValues.Value`.
- Base36.Base36ToInt: the alphabet of Django's `base36_to_int` is not part of this model, so the parser accepts digits and letters of either case. Python 2's `int(s, 36)` also accepts a sign, surrounding whitespace and non-ASCII decimal digits; the model refuses them. For a timestamp segment such as `"+a"` or `" a"`, the source parses it, writes the token's random segment as the nonce at gluten/tokens.py:67, and then rejects the token, while the model's `CheckToken` leaves the cache unchanged. So `TokenProperties.CheckWritesOnlyNonce` and `TokenProperties.ForgedCheckDisplacesNonce` cover fewer nonce-displacing tokens than the source has.
  The model follows `base36_to_int` in refusing more than 13 characters and values above `sys.maxint`, which it takes as 2^63 - 1, a 64-bit build. A 32-bit build has a smaller `sys.maxint`.
  Both refusals raise `ValueError` at gluten/tokens.py:39, so the check returns False at line 41 before the cache write at line 67. The model does the same (`TokenProperties.LargeTimestampRejected`).
- Tokens.TokenGenerator.MakeToken: for dates before 2001-01-01 it assumes that Django's `int_to_base36` raises. It then returns `None` and writes nothing, since line 63 runs before the cache write.
- Tokens.Hash: the digest is a total function of strings. In Python 2, hashing the unicode concatenation at gluten/tokens.py:71-73 raises `UnicodeEncodeError` when the secret key, username or password holds a non-ASCII character, so `make_token` and `check_token` raise rather than return. The model gives those users a token and a verdict.
- Api.Body: the message arrives already converted to a string. The source applies `unicode(message)` to any object (gluten/api.py:81 and 102), which the model does not follow.
- Tokens.Repr: escape sequences of `repr` are ignored. They cannot matter, because precision 0 keeps no character of it.
- Http.CheckApiKeyAuthentication: `authenticate` and `login` stand for Django's, so the model does not follow the call through Django's list of backends into `Backends.Authenticate`. The composition holds only when `TokenBackend` is the backend that answers.
- `gluten_api`'s `*args, **kwargs` are not modelled separately. They go to the view together with the request, so the view is a function of the request.

## Findings

| source | as written | input that shows it | evidently intended | confidence | as-written member | corrected member |
|---|---|---|---|---|---|---|
| gluten/tokens.py:52 | the nonce is read from `'%.random' % user.username`, which is the constant key `"andom"`, never written by the engine | mint a token for alice on day 8000, then check it on day 8000 with no `"andom"` entry: rejected | read `'%s.random' % user.username`, the key written at line 67 and deleted at line 58, so that a freshly minted token passes | high (not executed) | `TokenProperties.MintedTokenRejectedAsWritten` | `TokenProperties.MintThenCheck` |
| gluten/tokens.py:67 | `cache.set` runs on every call of `_make_token_with_timestamp`, including the recomputation inside `check_token` | `invalidate_token(alice)`, then check alice's old token: the check stores that token's random segment as alice's nonce again. A forged parseable token replaces alice's nonce in the same way | write the nonce only when a fresh random string is drawn (inside the `if random_string is None` branch), so that checks leave the cache alone and rotation and invalidation hold | high (not executed) | `TokenProperties.CheckReinstatesNonce` | `TokenProperties.InvalidatedRejected` |

A shared note on the two rows:

- With only the key of row 1 corrected, row 2 would make the nonce comparison always succeed. The check writes the token's random segment and then reads it back (`TokenProperties.CheckReinstatesNonce`).
- The corrected check is `TokenGenerator.CheckTokenIntended` / `Tokens.AcceptsIntended`. It fixes both rows.
- Its rotation, invalidation and independence guarantees are `TokenProperties.RotationInvalidates`, `TokenProperties.InvalidatedRejected` and `TokenProperties.OtherUsersUnaffected`.
- `TokenProperties.ForgedCheckDisplacesNonce` shows why row 2 must be fixed as well: under the read key of row 1, a check of a forged token written to the cache locks the owner out.
