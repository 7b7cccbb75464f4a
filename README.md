# uriz: token allocation and URL resolution

This project models the core of the uriz URL shortener (`uriz/views.py`): the
random short-token generator, the two DynamoDB tables it writes (`uriz`,
token to record; `uriz_long`, long URL to token), the lookup-or-create
shortening path with its collision retry and length-growth rule, and the
redirect that counts visits. The Dafny proves the structural guarantees of
the tokens, that allocation never overwrites a record, that shortening is
idempotent, and that redirects count visits one by one.

Layout, one module per component:

- `wrappers.dfy` (`Wrappers`): `Option` (Python's `None`) and `Lookup`
  (`NotFound` is the Http404 raised on a miss).
- `tokens.dfy` (`Tokens`): the alphabets `_ID_NUMS`, `_ID_CHARS`,
  `_ID_ALPHANUM` and `_random_token` as the loop method `RandomToken`. The
  random source is an oracle: `draws` lists what the successive
  `random.choice` calls pick, and a draw `d` from alphabet `a` selects
  `a[d % |a|]`. `Spell` is the token a sequence of draws spells.
- `store.dfy` (`Store`): the tables as the value `Db`, the lookups
  `_fetch_url_info` and `_fetch_token`, the consistency of the two tables,
  and the redirect's update as the function `Redirect`.
- `shortening.dfy` (`Shortening`): the settings fallback of 5, the collision
  schedule of `_add_url` (`AttemptAfter`), the token its loop settles on
  (`Allocate`) and `_ensure_url` as the function `Shorten`.
- `views.dfy` (`Views`): the class `UrizDb` whose two map fields are the
  tables; `AddUrl`, `EnsureUrl` and `UrlRedirect` update them in place, each
  proved equal to the functions above, and each keeps `Valid()`.

Facts about the code that the model keeps:

- Six candidates are tried at the default length: `default_len_tries` counts
  0..5, and the length grows only once it is above 4 (uriz/views.py:101-104).
  `Shortening.CollisionSchedule` states this.
- The characters left out are exactly '0', '1', 'l', 'o' and 'O'; 'i', 'I'
  and 'L' do occur (uriz/views.py:121-125).
- A requested length of 0 or less still gives a one-character token, since
  the first character is drawn unconditionally (uriz/views.py:138-140).
- A reverse entry holding the empty string counts as missing, because
  `_ensure_url` tests the token's truth value (uriz/views.py:78).

## Model

| member | source | states |
|---|---|---|
| Tokens.RandomToken | uriz/views.py:129-150 | the token has exactly max(n, 1) characters, each drawn from its position's alphabet, a digit 2-9 at every 1-indexed position divisible by 3, and it is the spelling of the draws it consumed |
| Tokens.AlphabetsAvoidAmbiguous | uriz/views.py:121-127 | no character of `_ID_ALPHANUM` (and so of `_ID_NUMS`) is one of the ambiguous '0', '1', 'l', 'o', 'O' |
| Tokens.DigitsAreTwoToNine | uriz/views.py:121 | a character is in `_ID_NUMS` exactly when it is a digit 2-9 |
| Tokens.TokenCharacters | uriz/views.py:130-146 | a well-formed token never holds '0', '1', 'l', 'o', 'O'; positions divisible by 3 are digits 2-9, the others come from `_ID_ALPHANUM` |
| Tokens.SpellIsToken | uriz/views.py:138-146 | any non-empty sequence of draws spells a well-formed token of the same length, with a digit of `_ID_NUMS` at every 1-indexed position divisible by 3 |
| Tokens.Spell | uriz/views.py:138-146 | one character per draw, and the character at each position is fixed by that position's draw alone, picked from that position's alphabet |
| Store.FetchUrlInfo | uriz/views.py:52-59 | NotFound (Http404) exactly when the token is absent from `uriz`, otherwise its stored record |
| Store.FetchToken | uriz/views.py:61-68 | None exactly when the long URL is absent from `uriz_long`, otherwise its recorded token |
| Store.Consistent | uriz/views.py:76-113 | when it holds, every long URL with a recorded token resolves through `_fetch_token` and then `_fetch_url_info` to a record of that same URL |
| Store.WithForwardRow | uriz/views.py:91-98 | the forward write adds exactly the row (token, time, URL, 0 visits) under the new token; other records and the reverse table are unchanged |
| Store.WithNewUrl | uriz/views.py:91-113 | after both writes `uriz` is the forward write's table and `uriz_long` maps the URL to the token, every other reverse entry unchanged |
| Store.Redirect | uriz/views.py:35-43 | NotFound exactly for a token absent from `uriz`; a redirect never adds or removes a record or touches `uriz_long` |
| Store.RedirectUnknown | uriz/views.py:35-43 | an unknown token gives NotFound and changes neither table |
| Store.RedirectKnown | uriz/views.py:35-43 | a known token leads to its long URL, its visits rise by exactly 1, and no other record, field or reverse entry changes |
| Store.RedirectKeepsConsistent | uriz/views.py:37-41 | a redirect keeps both tables consistent and lowers no visit count |
| Store.RedirectCountsVisits | uriz/views.py:39-41 | n sequential redirects raise the visit count by exactly n and change nothing else |
| Store.NewUrlKeepsConsistent | uriz/views.py:89-113 | storing a fresh non-empty token for a URL keeps every reverse entry pointing at a record of the same URL |
| Store.ForwardRowKeepsConsistent | uriz/views.py:91-99 | the tables are already consistent after the forward write alone, before the reverse row is written |
| Store.NewUrlResolves | uriz/views.py:91-113 | after the two writes the token resolves to a record of the URL with 0 visits, the URL resolves to the token, and older records are untouched |
| Shortening.ConfiguredTokenLength | uriz/views.py:81 | the configured default length when the setting exists, otherwise 5 |
| Shortening.AfterCollision | uriz/views.py:100-104 | each collision advances exactly one of the two loop variables by one, and the length is the one that grows exactly when `default_len_tries` is above 4 |
| Shortening.CollisionSchedule | uriz/views.py:81-104 | after k collisions the length is the default for k <= 5 and default + (k - 5) afterwards |
| Shortening.DefaultLengthFirst | uriz/views.py:81-104 | the requested length never drops below the default, and equals it exactly for the first six attempts |
| Shortening.GrowthByOne | uriz/views.py:100-104 | from the sixth collision on, each collision raises the requested length by exactly one |
| Shortening.Allocate | uriz/views.py:88-104 | the token the loop settles on was absent from `uriz`, is well formed and is at least as long as the default length asks for |
| Shortening.ShortenExisting | uriz/views.py:76-78 | with a non-empty token already recorded for the URL, shortening returns it and changes neither table |
| Shortening.Shorten | uriz/views.py:70-78 | a returned token is non-empty and is what `uriz_long` records for the URL afterwards; no record is removed; with the draws spent first nothing changes |
| Shortening.ShortenNeverOverwrites | uriz/views.py:80-115 | with no non-empty token recorded for the URL, the returned token was absent from `uriz`; the only changes are its new forward row (URL, time, 0 visits) and the URL's reverse entry |
| Shortening.ShortenKeepsConsistent | uriz/views.py:70-115 | shortening keeps the two tables consistent |
| Shortening.ShortenIdempotent | uriz/views.py:70-115 | a second sequential call for the same URL returns the same token and changes nothing, whatever its time, setting or draws |
| Shortening.ShortenThenRedirect | uriz/views.py:35-115 | redirecting through the token shortening returned leads back to exactly that long URL |
| Views.UrizDb.AddUrl | uriz/views.py:80-115 | returns the first candidate absent from `uriz` under the growth schedule (as `Allocate` says), writes its forward row and then its reverse row, the tables consistent after each write; with the draws spent first nothing changes |
| Views.UrizDb.EnsureUrl | uriz/views.py:70-78 | returns the recorded non-empty token unchanged, otherwise adds one; new state as `Shorten` says, consistency kept |
| Views.UrizDb.UrlRedirect | uriz/views.py:35-43 | NotFound with no change for an unknown token; otherwise the long URL, with that record's visits raised by 1 and consistency kept |

## Left out

- Views.UrizDb.AddUrl: the source loops without bound; the model reads its randomness from a finite sequence of draws and returns None, changing nothing, when the draws run out before a free token is found, so its guarantees are partial correctness. Because every attempt consumes at least one draw, the loop carries `decreases |rest|`.
- Tokens.RandomToken: requires at least as many draws as characters, because the finite oracle stands for `random.choice`, which never runs out.
- The distribution of `random.choice` (uniform choice) is not modelled; only which characters can occur where.
- `time.time()` is the parameter `now`, already rounded to an integer.
- `_get_dynamo_connection` and the boto client calls are network I/O; the class `UrizDb` with two map fields stands for the connection and its tables. Storage failures (boto exceptions other than a missing key) are not modelled.
- Concurrency: `has_item` followed by `put`, and `add_attribute`/`save`, are modelled as sequential updates; races that give one URL two tokens are not modelled.
- The Django layer (`ShortenURLForm`, `index`, `url_info`, the redirect response, the timestamp-to-datetime conversion) is presentation; the URL field's 11 to 8192 length bounds are not a precondition because `_ensure_url` accepts any string.
- uriz/urls.py (routing table) and fabfile.py (deployment commands) are not part of this model.
