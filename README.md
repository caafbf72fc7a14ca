# terrain-cli credential and subscription core, in Dafny

A model of the logic at the heart of the CyVerse `terrain-cli` command-line client, with
proofs of what that logic promises. The client talks to the Terrain API of the Discovery
Environment.

- **Jwt** (`jwt.dfy`, from `jwt.py`): the client reads the claims of its bearer token (JWT)
  and never checks the signature. It takes the second dot-separated segment of the token,
  decodes it into claims, and accepts the token only when the current time lies inside the
  inclusive `nbf`..`exp` window. A missing claim leaves its side unbounded.
- **Client** (`client.dfy`, from `client.py`): the credential lifecycle and the authorized API
  calls.
  - An API URI is only built for the `prod` and `qa` environments.
  - Each environment has its own cache file, `$HOME/.terrain-<env>`.
  - Logging in prompts, then asks the identity provider. It goes round again after every
    401 and exits with status 1 on any other status outside 200..299.
  - A fresh token is cached as the token and a newline, mode 0600.
  - A cached first line is used only if it passes the claims check.
  - Every API call carries `Authorization: Bearer <token>`.
  - `Session` is a class. Its fields are what the client changes: the files of the
    account, the identity-provider replies still to come, the number of prompts shown and
    the requests sent. Its methods are proved against the state-transition functions
    `LoginStep`, `CacheStore`, `FetchToken` and `FetchStep`, and the lemmas are about those
    functions.
- **Terrain** (`terrain.dfy`, from `terrain.py`): a second copy of the same lifecycle. Its
  cache, URI and login functions (terrain.py lines 13-33 and 48-89) match `client.py`
  character for character, so Client models them once. They differ in one place: terrain.py's `get_access_token` returns the
  credential unstripped, so a cached credential keeps the newline of its file.
- **Subscriptions** (`subscriptions.dfy`, from `subscriptions.py`):
  - Plans are listed in API order, each with its quota defaults sorted by resource-type
    name.
  - A subscription is displayed with its quotas and usages sorted the same way.
  - `get_subscription` routes between the caller's own endpoint and the admin endpoint.
- **Subcommands** (`subcommands.dfy`, from `subcommands.py`): the subcommand registry. It
  starts with `help`, gets `description (alias,alias)` entries, and is listed in ascending
  key order.
- **Strings** (`strings.dfy`) holds the Python string operations the source relies on:
  - `split` with a limit;
  - `join`;
  - `strip`, with Python's set of whitespace characters;
  - `readline`;
  - `sorted` on strings, by code point.

  **Common** (`common.dfy`) holds `Option`, `Result` and the ways a command stops early.

Modelling conventions:

- Time is an integer number of whole seconds.
- The environment is a string; Python's `None` behaves like any other unknown name.
- The home directory, the payload decoder and the API are parameters (`Config`).
- The user at the terminal is a finite script of identity-provider replies. When the script
  runs out, the login ends with `LoginAbandoned`; the source would keep prompting.
- Printed output is the list of lines the `print` calls write, each without its final
  newline.

What the proofs show:

- **Login loop:** it goes round again exactly on 401 and stops at the first other reply,
  with one prompt per reply it used (`LoginOutcome`, `LoginStopsAtFirstOther`).
- **Valid cache:** a valid cached credential means no prompt, no request and no write
  (`NoLoginOnValidCache`).
- **Cache round trip:** a well-formed credential that is stored, then loaded, comes back
  exactly when it is still valid (`StoreThenLoad`).
- **Reuse:** each `get_access_token` reads the clock afresh. A second call at a later
  instant returns the same stripped credential without prompting when the credential is
  still valid then (`AccessTokenReused`), and logs in again when it is not
  (`ExpiredBeforeSecondCall`). A freshly issued credential must be well-formed for this. A
  credential whose `nbf` lies in the future (clock skew) is cached, but the next call logs
  in again. `get_subscription` with a named user makes two such calls, at `now` and at
  `later`.
- **Sorting:** the sort by resource type is ascending, a permutation and stable.
- **Subscriptions:** every `get_subscription` branch that displays something sends exactly
  one API request, to the routed endpoint.
- **Cache file mode:** `cache_token` writes the token before it restricts the mode. A file
  it creates is therefore briefly readable under the creation mode (0644 with umask 022).
  `CacheToken` returns the file as it stands between the two steps, and its contract
  states that mode.

## Model

| member | source | states |
|---|---|---|
| Strings.Split | jwt.py:12 | `split(sep, maxsplit)` yields between one and maxsplit+1 pieces |
| Strings.SplitPieces | jwt.py:12 | a single piece exactly when the limit is 0 or the separator is absent; only the last piece may contain the separator, and only when the limit stopped the splitting |
| Strings.JoinSplit | jwt.py:12 | joining the pieces of a split with the separator gives the original string back |
| Strings.IndexOfFirst | jwt.py:12 | the separator search finds a character exactly when it occurs, at its first occurrence |
| Strings.Strip | client.py:99 | the result is a slice of the input with only whitespace before and after it, and has no whitespace at either end |
| Strings.StripIdempotent | client.py:99 | stripping twice is stripping once |
| Strings.StripTrailingSpace | client.py:99 | a trailing whitespace character (the cache file's newline) does not change the strip |
| Strings.FirstLine | client.py:52-53 | `readline` returns a prefix of the file: up to and including the first newline, or everything when there is none |
| Strings.FirstLineOfLine | client.py:86 | a line written with `print` reads back whole, newline included |
| Strings.SortedSet | subcommands.py:17 | `sorted(keys)` lists every key exactly once, in strictly ascending order |
| Strings.LessEqTotal | subscriptions.py:15 | the string order `sorted` uses is total |
| Strings.LessEqTransitive | subscriptions.py:15 | the string order `sorted` uses is transitive |
| Jwt.PayloadSegment | jwt.py:12 | the padded payload segment is an IndexError exactly when the token has no "."; otherwise it ends with "==" |
| Jwt.PayloadSegmentOf | jwt.py:12 | for header.payload.rest the segment is payload + "==", whatever follows the second dot |
| Jwt.ExtractPayload | jwt.py:8-13 | no claims exactly for no token; a token without "." raises; otherwise the decoder's claims for the padded payload segment, or a decode failure when the decoder rejects it |
| Jwt.GetUsername | jwt.py:15-22 | no user for a missing or empty token; a failure exactly when extraction fails; otherwise the payload's `preferred_username` claim, `None` when it is absent |
| Jwt.Valid | jwt.py:24-39 | false for a missing or empty token; true exactly when the payload decodes and now lies in the inclusive nbf..exp window; a failure exactly when decoding fails |
| Jwt.WindowBoundaries | jwt.py:33-38 | nbf == now and exp == now are accepted, one second beyond either bound is refused, no bounds accept all |
| Jwt.SameSegmentSameClaims | jwt.py:12-13 | tokens with the same payload segment get the same verdict and the same username |
| Jwt.ValidIgnoresSignatureSuffix | jwt.py:12 | appending to the signature segment of a three-segment token changes neither verdict nor username |
| Client.TerrainUri | client.py:11-23 | a URI exactly for prod and qa, the base URL followed by the path; an invalid-environment error otherwise |
| Client.AuthFile | client.py:39-43 | the cache path is the home directory, then "/.terrain-", then the environment name |
| Client.AuthFilePerEnvironment | client.py:39-43 | two environments share a cache file exactly when they are the same environment |
| Client.ClassifyStatus | client.py:31-37 | retry exactly on 401; fatal exactly on other statuses outside 200..299; a token (the reply's `access_token`) exactly on 2xx |
| Client.CachedAccessToken | client.py:45-54 | nothing without a cache file; otherwise the first line when it passes the claims check, nothing when it fails it, the failure when checking raises; a returned line always passes the check |
| Client.Login | client.py:69-78 | the login loop never uses more replies than there are |
| Client.LoginAfterRetries | client.py:73-78 | after k replies that were all 401 the login continues as a login over the remaining replies, with k more replies used and k more prompts |
| Client.LoginRound | client.py:73-78 | at the k-th attempt after k 401s: an unknown environment stops before any reply, no reply left abandons, and a k-th reply that is not 401 exits with status 1 or grants its token there |
| Client.LoginOutcome | client.py:73-78 | every reply before the last one used was a 401; a token comes from a 2xx last reply, exit 1 from a fatal one; only an invalid environment gives the invalid-environment error; one prompt per reply used, plus one for an attempt without a reply |
| Client.LoginStopsAtFirstOther | client.py:73-78 | after any number of 401s the first other reply ends the login, with one prompt per reply up to it, and its token or exit 1 |
| Client.LoginAfterOneRetry | client.py:73-77 | a 401 and then a 200 give two prompts and the second reply's token |
| Client.CacheStoreOwnerOnly | client.py:80-87 | after caching, the file holds exactly token + "\n" with mode 0600 and no group or other bits; no other file changes |
| Client.FetchToken | terrain.py:91-101 | the state is unchanged exactly when no prompt was shown; the files are unchanged, or the environment's cache file now holds the fresh credential and a newline with mode 0600 |
| Client.NoLoginOnValidCache | client.py:95-96 | a valid cached credential is returned with no prompt, request or write |
| Client.LoginWhenCacheMisses | client.py:95-98 | without a valid cached credential the result is the login's outcome; a fresh token is cached and a failed login writes nothing |
| Client.StoreThenLoad | client.py:49-54 | a well-formed credential stored by `cache_token` loads back (with its newline) exactly when it passes the claims check at load time |
| Client.AccessTokenReused | client.py:89-99 | a second `get_access_token` returns the first one's stripped credential and changes nothing, given a fresh credential was well-formed and valid |
| Client.ExpiredBeforeSecondCall | client.py:95-98 | when the first call's credential no longer passes the claims check at a second call, the second call logs in again, with at least one prompt |
| Client.FetchTokenSendsNoApiCall | client.py:89-99 | obtaining a credential never sends an API request |
| Client.FetchStep | client.py:112-115 | an authorized GET changes no file but the environment's cache file; its error paths are stated by `FetchFailsBeforeRequest`, its request and reply by `FetchSendsOneApiCall` |
| Client.FetchFailsBeforeRequest | client.py:112-113 | the URI is built before the credential is looked up: an unknown environment fails with `InvalidEnvironment` and the state unchanged (no prompt, no request, no file written); a failure to obtain the credential is the GET's failure, with the state the lookup left |
| Client.FetchSendsOneApiCall | client.py:112-115 | an authorized GET sends exactly one API request, to its URI, once the URI and the credential are obtained, and none otherwise; its result is then the API's reply after `raise_for_status` |
| Client.Session.GetAuthToken | client.py:25-37 | one token request to the token endpoint and the classified reply; an unknown environment sends nothing |
| Client.Session.Authenticate | client.py:69-78 | the loop's result and new state are those of `LoginStep` |
| Client.Session.CacheToken | client.py:80-87 | the new state is `CacheStore`; between the write and the `chmod` the file holds the token and a newline under its old mode, or under the creation mode 0644 when the call creates it |
| Client.Session.GetAccessToken | client.py:89-99 | the result is `FetchToken`'s credential stripped, and the new state is `FetchToken`'s |
| Client.Headers.constructor | client.py:113 | the headers dictionary each API call passes in starts empty |
| Client.Session.AddAuthHeader | client.py:101-106 | `Authorization` becomes "Bearer " + the stripped credential, every other header is unchanged, and the same dictionary is returned |
| Client.Session.WriteFile | client.py:85-86 | `open(path, "w")` and `print`: the file's contents are replaced, an existing file keeps its mode, a new one gets the creation mode, which group and others can read; nothing else changes |
| Client.Session.Chmod | client.py:87 | `os.chmod`: the file's mode is replaced and its contents kept; nothing else changes |
| Client.Session.Fetch | client.py:112-115 | result and new state are those of `FetchStep` |
| Client.Session.ListPlans | client.py:108-115 | the plans from `/qms/plans` |
| Client.Session.GetSubscription | client.py:117-124 | the subscription from `/qms/user/plan` |
| Client.Session.AdminGetSubscription | client.py:126-133 | the subscription from `/admin/qms/users/<username>/plan` |
| Terrain.GetAccessToken | terrain.py:91-101 | the result is `FetchToken`'s credential unstripped, and the new state is `FetchToken`'s |
| Terrain.CachedLineKeepsNewline | terrain.py:97-101 | on a cache hit terrain.py returns the credential with its newline, where client.py returns its strip, which is the credential itself when it has no whitespace at either end |
| Subscriptions.SortByName | subscriptions.py:27 | the sorted amounts are as many as the given ones; the three lemmas below state that they are a stable, ascending rearrangement |
| Subscriptions.SortByNamePermutation | subscriptions.py:27 | sorting by resource type keeps every amount as often as it occurs |
| Subscriptions.SortByNameSorted | subscriptions.py:27 | the sorted amounts are in ascending resource-type order |
| Subscriptions.SortByNameStable | subscriptions.py:27 | amounts of the same resource type keep their relative order |
| Subscriptions.SubscriptionLayout | subscriptions.py:22-32 | start date, end date, plan and "Quotas:" first, in that order; the quota lines; "Usages:"; the usage lines; sections sorted; a missing key gives an empty section |
| Subscriptions.RenderAmounts | subscriptions.py:27-28 | the loop prints the sorted amounts' lines |
| Subscriptions.DisplaySubscription | subscriptions.py:18-32 | the lines printed are the subscription's layout |
| Subscriptions.PlansInApiOrder | subscriptions.py:13-14 | the first plan's block is printed before the others': plans in API order |
| Subscriptions.RenderPlans | subscriptions.py:13-16 | the nested loops print each plan's name line and its sorted quota defaults |
| Subscriptions.ListPlans | subscriptions.py:8-16 | the command prints the rendered plans of `/qms/plans`, or fails as the fetch fails |
| Subscriptions.Route | subscriptions.py:41-46 | the caller's own endpoint exactly when no user is named or the user equals the caller's claimed username; the admin endpoint for that user otherwise, a missing claim included |
| Subscriptions.NoUserSelfFetchOnly | subscriptions.py:40-41 | with no user named, the caller's username is never consulted: the command is exactly one fetch from the caller's own endpoint |
| Subscriptions.OneSubscriptionRequest | subscriptions.py:40-46 | a displayed subscription costs exactly one API request, to the routed endpoint |
| Subscriptions.RoutedReplyDecides | subscriptions.py:40-46 | once the caller's name, the URI and the credential are obtained, exactly one API request goes to the routed endpoint and its reply is the result, a rejection giving its HTTP failure; a failure to get the caller's name ends the command with no API request; an unknown environment fails before the GET's credential lookup, and a failure of that lookup is the command's failure |
| Subscriptions.AdminRejectedPropagates | subscriptions.py:43-45 | a rejected admin request ends the command with its HTTP status after one request to the admin endpoint; the caller's own endpoint is not asked |
| Subscriptions.CallerName | subscriptions.py:42 | obtaining the caller's username changes no file but the environment's cache file |
| Subscriptions.SubscriptionStep | subscriptions.py:34-46 | the command changes no file but the environment's cache file, whichever endpoint it routes to |
| Subscriptions.GetSubscription | subscriptions.py:34-46 | the command's result and new state are those of `SubscriptionStep`, the credential read at `now` and, for a named user, the subscription fetched at `later` |
| Subscriptions.ListModuleSubcommands | subscriptions.py:48-52 | four distinct names, "subscriptions" first, "help" not among them |
| Strings.SplitJoin | subcommands.py:10 | splitting a `join` of separator-free pieces gives the pieces back |
| Subcommands.Described | subcommands.py:10 | the entry is the description, then " (", then the joined aliases, then ")" |
| Subcommands.DescribedAliasesReadBack | subcommands.py:10 | the text between " (" and ")" splits on "," back into the aliases, when there are some and none holds a comma |
| Subcommands.DescribedAliases | subcommands.py:10 | no aliases give "description ()", one alias gives "description (alias)" |
| Subcommands.Registry.constructor | subcommands.py:4 | the registry holds exactly `help` with its description |
| Subcommands.InitialListing | subcommands.py:4 | the initial registry lists `help` alone |
| Subcommands.Registry.AddSubcommandDescription | subcommands.py:6-10 | the entry is set or overwritten to "description (aliases)"; every other key is unchanged |
| Subcommands.Registry.ListSubcommands | subcommands.py:12-18 | the header, then one "    key: value" line per key, following `SortedSet`'s order (each key once, ascending) |

## Left out

- Transport (HTTP, `r.json()`, the `result` and `access_token` fields): replies are abstract values. A reply that `raise_for_status` rejects is a `Rejected(status)` reply and becomes an `HttpError`; which statuses it rejects is left to the reply.
- The username and password typed at the prompts, and the texts of the prompts and of the messages printed on 401 or fatal replies: only the number of prompts is counted.
- Base64 and JSON decoding of the payload: it is the `decode` parameter. A payload that decodes to something other than an object is not modelled.
- Jwt.Valid: `datetime.fromtimestamp` raises for a timestamp outside the platform's range (an `exp` of 10**12, say), which makes `valid` and `get_cached_access_token` raise; the model accepts every integer timestamp and returns a verdict. Local-time conversion and fractional seconds are not modelled. The clock is a whole number of seconds, so the model accepts a token throughout its `exp` second, where the source refuses it once the fraction is above zero. Non-integer `nbf`/`exp` claims are not modelled.
- Reading the cache file: universal-newline translation (a lone "\r" ending a line), unreadable files and a directory in place of the file are not modelled.
- `KeyError` on a reply or subscription missing one of the keys the display reads is not modelled. Values are rendered as given strings rather than through `str()`.
- Client.Session.constructor: it cannot state that the decoder and API it was given are the ones it keeps, because Dafny has no equality on functions. It states the home directory and the initial state.
- Client.Session.CacheToken: opening, writing and `chmod` never fail in the model. In the source any of them can raise `OSError`; a failing `chmod` leaves the token file written under its creation mode and ends the command with that exception.
- Client.Login: the login loop without end (a user who keeps mistyping) is cut off when the scripted replies run out, giving `LoginAbandoned`.
- `get_username` and `get_password` of client.py and terrain.py are not modelled: they are terminal I/O.
- `parse_args` and `main` of terrain.py are not modelled: argument parsing and start-up.
- `get_module_description`, `config_argument_parser` and `add_subcommand_subparser` are not modelled: argument-parser setup.
- The `pprint` import is unused by the modelled functions.
