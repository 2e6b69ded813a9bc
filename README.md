# Shortcode registry of a minimal URL shortener

This project models the one piece of logic in a small HTTP URL-shortening
service: the in-memory registry that maps short codes to links. Each link is an
original URL with an expiry time. `shortener.dfy` holds one module, `Shortener`,
which covers four things:

- **Random code generation.** `CreateRandomCode` picks one symbol of
  `ascii_letters + digits` per random draw. `FirstFree` and
  `Registry.GetUniqueCode` try up to `max_attempts` candidates in order. They
  return the first candidate that is not a key, or fail with 500 once the
  attempts run out.
- **Creation.** `Create` and `Registry.ShortenUrl` use the custom code when it
  is non-empty and a generated code otherwise. A code already present is
  refused with 400. Otherwise they compute the expiry and insert one entry, and
  the response holds `http://localhost:8000/<code>` and the expiry.
- **Lookup with lazy expiry.** `Resolve` and `Registry.RedirectToOriginal`
  return 404 for an unknown code. An expired code is deleted and reported as
  410. Any other code returns its original URL.
- **Sequences of requests.** `Run` serves a list of requests in order.
  `LinkPersists` shows that a link is never changed after it is created, and
  that only a lookup of that same code after its expiry removes it.
  `RunKeepsNoEmptyCode` shows that no run ever stores the empty code.

The global dictionary `short_links` becomes the `links` field of class
`Registry`. The pure functions `Create` and `Resolve` specify the two methods
that change it; each method's postcondition ties its result and new map to
them. `Registry.Valid()` is a reachable-state invariant: no key is the empty
string. The constructor establishes it and both mutating methods keep it.
The registry starts empty, custom codes are non-empty because of
`custom_code or …`, and generated codes have six characters. No operation
relies on the invariant; it records a fact about every state the service
can reach.

Modelling choices:

- **Time.** The current time is an integer parameter `now`, in seconds.
  `timedelta(minutes=v)` becomes `v * 60`.
- **Randomness.** The random draws are a parameter. One draw is a sequence of
  indices into the 62-symbol alphabet, one index per character.
  `random.choices` picks `population[floor(random() * n)]`, which is always in
  range. So the draws are required to be in range, and to supply one draw of
  six indices per attempt (at least five).
- **Shortcut `or`.** `validity or 30` turns both a missing validity and `0`
  into 30 minutes; negative values pass through. `custom_code or …` treats an
  empty custom code as missing. The expiry test `now > expires_at` is strict,
  so a link still resolves at exactly its expiry.
- **Missing-record test.** `if not link_info` is the same as "the code is not
  a key", because every stored record is a non-empty dictionary.
- **Zero validity.** `validity or 30` replaces a zero validity by 30
  minutes, so only a negative validity yields a link that is already
  expired.

## Model

| member | source | states |
|---|---|---|
| `Shortener.AlphabetIsAlphanumeric` | main.py:26 | the population `ascii_letters + digits` has 62 symbols, all distinct, and a character is in it exactly when it is an ASCII letter or digit |
| `Shortener.CreateRandomCode` | main.py:25-26 | the code has exactly `length` characters (none for a negative length) and each is a symbol of the alphabet |
| `Shortener.EveryCodeIsReachable` | main.py:25-26 | every string of `length` alphabet symbols is produced by some choice of draws, so the generator's range is the whole code space |
| `Shortener.FirstFree` | main.py:28-33 | success returns one of the first `n` candidates that is not a key, and every earlier candidate is a key; failure is `Exhausted500` and happens only when all first `n` candidates are keys (immediately when `n <= 0`) |
| `Shortener.Registry.GetUniqueCode` | main.py:28-33 | only reads the map; succeeds exactly when one of the first `maxAttempts` candidates is free, and then returns the first free one, a six-character alphabet code not in the map; otherwise fails with 500 |
| `Shortener.EffectiveValidity` | main.py:47 | the validity used is never zero: it is the given value when that is non-zero (negatives included) and 30 otherwise |
| `Shortener.Create` | main.py:40-59 | 400 exactly when a non-empty custom code is already a key; 500 exactly when there is no custom code and all five candidates are taken; on failure the map is unchanged; on success exactly one new key, the custom code or a generated alphabet code of six characters, maps to `(url, now + validity*60)`, every old entry is kept, and the short URL is `http://localhost:8000/` followed by the code; non-empty keys stay non-empty |
| `Shortener.Resolve` | main.py:62-75 | 404 exactly when the code is not a key, and the map is unchanged; 410 exactly when it is a key and `now > expires_at`, and then only that key is deleted; otherwise the stored original URL is returned and the map is unchanged |
| `Shortener.CreateThenResolve` | main.py:40-75 | a newly created link resolves to the submitted URL at any time up to its expiry, leaving the map unchanged |
| `Shortener.CreateTwiceConflicts` | main.py:41-45 | after a successful create with a custom code, a second create with the same code fails with 400 and does not overwrite the first |
| `Shortener.ExpiredThenNotFound` | main.py:63-72 | a lookup strictly after expiry fails with 410, and any later lookup of the same code fails with 404 |
| `Shortener.NegativeValidityExpiresAtOnce` | main.py:47-72 | a negative validity yields a link already expired at creation time; the first lookup then fails with 410 and restores the previous map, and the next fails with 404 |
| `Shortener.LinkPersists` | main.py:40-75 | over any sequence of requests, a link stays in the map with its URL and expiry unchanged unless a lookup of its own code happens after its expiry |
| `Shortener.RunKeepsNoEmptyCode` | main.py:41-52 | serving any sequence of requests never stores the empty code |
| `Shortener.Registry.constructor` | main.py:14 | the registry starts empty and satisfies its invariant |
| `Shortener.Registry.ShortenUrl` | main.py:40-59 | the reported result and the new map are those of `Create` on the old map; on failure the map is unchanged; the invariant is kept |
| `Shortener.Registry.RedirectToOriginal` | main.py:62-75 | the reported result and the new map are those of `Resolve` on the old map; on success the map is unchanged and the stored URL is returned; the invariant is kept |

## Left out

- HTTP routing, the decorators, `HTTPException`, `RedirectResponse` and the response models. Outcomes are the `Result` datatype, whose errors are `Conflict400`, `Exhausted500`, `NotFound404` and `Expired410`.
- The `home` endpoint (main.py:35-37): it returns a fixed message and never touches the registry.
- `HttpUrl` validation (main.py:17): it belongs to an outside library. The URL is an opaque string that is already valid.
- `random.choices` itself: the random draws are supplied as a parameter. Only the length and the alphabet of the generated codes are modelled, not their distribution.
- `datetime.utcnow()` and `timedelta`: time is an integer number of seconds, passed in as `now` on each request. This model does not capture microsecond precision, or the `OverflowError` that Python raises when a huge validity overflows a datetime.
- The ISO-8601 text of `expires_at` in the response (`strftime`, `isoformat`): the response carries the integer expiry instead.
- Logging (main.py:11-12, 44, 54, 66, 70, 74): it only writes output and does not affect behaviour.
- Concurrent requests: requests are served one at a time, and the model has no locking.
