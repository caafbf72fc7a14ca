/** The credential lifecycle and the authorized API calls of client.py: environment-scoped
    URIs, the per-environment credential cache, the interactive login loop against the
    identity provider, and the bearer header every API call carries.

    terrain.py holds character-for-character copies of `terrain_uri`, `terrain_auth_file`,
    `get_auth_token`, `authenticate`, `cache_token` and `get_cached_access_token`; this module
    models them once. Its one differing function, `get_access_token`, is in module Terrain. */
module Client {
  import opened Common
  import opened Strings
  import Jwt

  const ProdBase: string := "https://de.cyverse.org/terrain"
  const QaBase: string := "https://qa.cyverse.org/terrain"

  /** `terrain_base_urls`. */
  const BaseUrls: map<string, string> := map["prod" := ProdBase, "qa" := QaBase]

  const TokenPath: string := "/token/keycloak"
  const PlansPath: string := "/qms/plans"
  const SelfPlanPath: string := "/qms/user/plan"

  function AdminPlanPath(username: string): string
  {
    "/admin/qms/users/" + username + "/plan"
  }

  /** `terrain_uri`: the environment's base URL followed by the path; an environment
      without a base URL is an error. */
  function TerrainUri(environment: string, path: string): (r: Result<string>)
    ensures r.Ok? <==> environment == "prod" || environment == "qa"
    ensures environment == "prod" ==> r == Ok(ProdBase + path)
    ensures environment == "qa" ==> r == Ok(QaBase + path)
    ensures r.Err? ==> r.error == InvalidEnvironment(environment)
  {
    var base := if environment in BaseUrls then Some(BaseUrls[environment]) else None;
    if base.None? || base.value == "" then Err(InvalidEnvironment(environment))
    else Ok(base.value + path)
  }

  /** `terrain_auth_file`: the cache file of an environment, in the home directory. */
  function AuthFile(home: string, environment: string): (path: string)
    ensures |path| == |home| + 10 + |environment|
    ensures path[..|home|] == home && path[|home|..|home| + 10] == "/.terrain-"
    ensures path[|home| + 10..] == environment
  {
    home + "/.terrain-" + environment
  }

  /** Each environment has its own cache file: credentials are never shared between them. */
  lemma AuthFilePerEnvironment(home: string, e1: string, e2: string)
    ensures AuthFile(home, e1) == AuthFile(home, e2) <==> e1 == e2
  {
    var prefix := home + "/.terrain-";
    if AuthFile(home, e1) == AuthFile(home, e2) {
      assert AuthFile(home, e1)[|prefix|..] == e1;
      assert AuthFile(home, e2)[|prefix|..] == e2;
    }
  }

  /** Permission bits, as `stat` names them. */
  const S_IRUSR: bv16 := 0x100
  const S_IWUSR: bv16 := 0x80
  const GroupOtherBits: bv16 := 0x3F

  /** The mode `open(path, "w")` gives a file it creates under the usual umask 022 (0o644). */
  const CreatedMode: bv16 := 0x1A4

  datatype File = File(contents: string, mode: bv16)

  /** The files of the local account, by path. */
  type FileSystem = map<string, File>

  /** One reply of the identity provider's token endpoint: its status and, on success,
      the `access_token` field of its body. */
  datatype IdpReply = IdpReply(status: int, accessToken: string)

  /** What `get_auth_token` makes of a reply: ask again, give up, or a token. */
  datatype AuthReply = Retry | Fatal | Granted(token: string)

  /** The status classification of `get_auth_token`: 401 asks for another attempt (checked
      first), any other status outside 200..299 is fatal, and a 2xx reply yields its token. */
  function ClassifyStatus(reply: IdpReply): (a: AuthReply)
    ensures a.Retry? <==> reply.status == 401
    ensures a.Fatal? <==> reply.status != 401 && (reply.status < 200 || reply.status > 299)
    ensures a.Granted? <==> 200 <= reply.status <= 299
    ensures a.Granted? ==> a.token == reply.accessToken
  {
    if reply.status == 401 then Retry
    else if reply.status < 200 || reply.status > 299 then Fatal
    else Granted(reply.accessToken)
  }

  /** A resource amount of a plan or subscription: a quota, a usage or a plan default. */
  datatype Amount = Amount(resourceType: string, value: string)

  datatype Plan = Plan(name: string, quotaDefaults: seq<Amount>)

  /** A subscription; a missing `quotas` or `usages` key is `None`. */
  datatype Subscription = Subscription(effectiveStart: string, effectiveEnd: string, planName: string,
                                       quotas: Option<seq<Amount>>, usages: Option<seq<Amount>>)

  /** The reply of an API endpoint: one `raise_for_status` rejects, or the `result` it carries. */
  datatype ApiReply = Rejected(status: int) | PlansResult(plans: seq<Plan>) | SubscriptionResult(subscription: Subscription)

  /** A request sent out: to the identity provider, or to the API with its headers. */
  datatype Request = TokenRequest(uri: string) | ApiRequest(uri: string, headers: map<string, string>)

  /** What the client cannot change: the home directory, the payload decoder and the API. */
  datatype Config = Config(home: string, decode: Jwt.Decoder, api: string -> ApiReply)

  /** What the client changes: the files, the identity-provider replies still to come, the
      number of login prompts shown and the requests sent. */
  datatype Store = Store(files: FileSystem, replies: seq<IdpReply>, prompts: nat, requests: seq<Request>)

  /** The result of an operation and the state after it. */
  datatype Step<T> = Step(result: Result<T>, store: Store)

  /** `get_cached_access_token`: the first line of the environment's cache file when that
      line passes the claims check at `now`; nothing when the file is missing or the line
      fails the check. */
  function CachedAccessToken(files: FileSystem, home: string, environment: string, now: int,
                             decode: Jwt.Decoder): (r: Result<Option<string>>)
    ensures AuthFile(home, environment) !in files ==> r == Ok(None)
    ensures AuthFile(home, environment) in files ==>
      var line := FirstLine(files[AuthFile(home, environment)].contents);
      match Jwt.Valid(Some(line), now, decode)
      case Err(e) => r == Err(e)
      case Ok(valid) => r == Ok(if valid then Some(line) else None)
    ensures r.Ok? && r.value.Some? ==> Jwt.Valid(r.value, now, decode) == Ok(true)
  {
    var path := AuthFile(home, environment);
    var token := if path in files then Some(FirstLine(files[path].contents)) else None;
    match Jwt.Valid(token, now, decode)
    case Err(e) => Err(e)
    case Ok(valid) => Ok(if valid then token else None)
  }

  /** The outcome of the login loop, the number of identity-provider replies it used and
      the number of times it prompted for a username and password. */
  datatype LoginRun = LoginRun(outcome: Result<string>, consumed: nat, prompts: nat)

  /** `authenticate`: prompt, ask the identity provider, and go round again after every 401.
      A finite script of replies stands for the user; when it runs out the loop is
      abandoned, where the source would keep prompting. */
  function Login(environment: string, replies: seq<IdpReply>): (run: LoginRun)
    ensures run.consumed <= |replies|
    decreases |replies|
  {
    if TerrainUri(environment, TokenPath).Err? then LoginRun(Err(InvalidEnvironment(environment)), 0, 1)
    else if replies == [] then LoginRun(Err(LoginAbandoned), 0, 1)
    else
      match ClassifyStatus(replies[0])
      case Retry =>
        var rest := Login(environment, replies[1..]);
        LoginRun(rest.outcome, rest.consumed + 1, rest.prompts + 1)
      case Fatal => LoginRun(Err(Exit(1)), 1, 1)
      case Granted(token) => LoginRun(Ok(token), 1, 1)
  }

  /** The login loop goes round again only after a 401; it ends on the first other reply,
      with its token when that reply is 2xx and with exit status 1 otherwise; it prompts once
      per reply it uses, plus once for an attempt that never got a reply. */
  lemma {:induction false} LoginOutcome(environment: string, replies: seq<IdpReply>)
    ensures var run := Login(environment, replies);
      && (forall i :: 0 <= i && i + 1 < run.consumed ==> replies[i].status == 401)
      && (run.outcome.Ok? ==>
            run.consumed >= 1 && ClassifyStatus(replies[run.consumed - 1]) == Granted(run.outcome.value))
      && (run.outcome == Err(Exit(1)) ==>
            run.consumed >= 1 && ClassifyStatus(replies[run.consumed - 1]).Fatal?)
      && (run.outcome == Err(LoginAbandoned) ==>
            run.consumed == |replies| && forall i :: 0 <= i < |replies| ==> replies[i].status == 401)
      && (run.outcome.Err? ==>
            run.outcome.error in {InvalidEnvironment(environment), Exit(1), LoginAbandoned})
      && (TerrainUri(environment, TokenPath).Err? <==> run.outcome == Err(InvalidEnvironment(environment)))
      && run.prompts == if run.outcome.Ok? || run.outcome == Err(Exit(1)) then run.consumed else run.consumed + 1
    decreases |replies|
  {
    if TerrainUri(environment, TokenPath).Ok? && replies != [] && replies[0].status == 401 {
      LoginOutcome(environment, replies[1..]);
      var rest := Login(environment, replies[1..]);
      assert forall i :: 1 <= i < |replies| ==> replies[i] == replies[1..][i - 1];
    }
  }

  /** Conversely, after any number of 401 replies the first other reply decides the login:
      one prompt per reply up to and including it, and its token or exit status 1. */
  lemma {:induction false} LoginStopsAtFirstOther(environment: string, replies: seq<IdpReply>, j: nat)
    requires environment == "prod" || environment == "qa"
    requires j < |replies| && replies[j].status != 401
    requires forall i :: 0 <= i < j ==> replies[i].status == 401
    ensures var run := Login(environment, replies);
      && run.consumed == j + 1 && run.prompts == j + 1
      && run.outcome == match ClassifyStatus(replies[j])
                        case Granted(token) => Ok(token)
                        case _ => Err(Exit(1))
    decreases j
  {
    if j > 0 {
      LoginStopsAtFirstOther(environment, replies[1..], j - 1);
    }
  }

  /** One rejected attempt and one accepted one: two prompts, and the second reply's token. */
  lemma LoginAfterOneRetry(environment: string, rejected: string, token: string)
    requires environment == "prod" || environment == "qa"
    ensures Login(environment, [IdpReply(401, rejected), IdpReply(200, token)]) == LoginRun(Ok(token), 2, 2)
  {
    var replies := [IdpReply(401, rejected), IdpReply(200, token)];
    assert replies[1..] == [IdpReply(200, token)];
  }

  /** After `k` replies that were all 401, the login goes on exactly as a login over the
      replies left, with `k` more replies used and `k` more prompts shown. */
  lemma {:induction false} LoginAfterRetries(environment: string, replies: seq<IdpReply>, k: nat)
    requires k <= |replies|
    requires k > 0 ==> TerrainUri(environment, TokenPath).Ok?
    requires forall i :: 0 <= i < k ==> replies[i].status == 401
    ensures var rest := Login(environment, replies[k..]);
      Login(environment, replies) == LoginRun(rest.outcome, rest.consumed + k, rest.prompts + k)
    decreases k
  {
    if k > 0 {
      assert forall i :: 0 <= i < k - 1 ==> replies[1..][i] == replies[i + 1];
      LoginAfterRetries(environment, replies[1..], k - 1);
      assert replies[1..][k - 1..] == replies[k..];
    }
  }

  /** The login seen from the `k`-th attempt, after `k` replies that were all 401: an
      unknown environment stops it before any reply, a script with no reply left abandons it,
      and a `k`-th reply that is not 401 exits or grants a token there (a 401 goes on to the
      next round, as `LoginAfterRetries` with `k + 1` states). */
  lemma LoginRound(environment: string, replies: seq<IdpReply>, k: nat)
    requires k <= |replies|
    requires k > 0 ==> TerrainUri(environment, TokenPath).Ok?
    requires forall i :: 0 <= i < k ==> replies[i].status == 401
    ensures TerrainUri(environment, TokenPath).Err? ==>
      k == 0 && Login(environment, replies) == LoginRun(Err(InvalidEnvironment(environment)), 0, 1)
    ensures TerrainUri(environment, TokenPath).Ok? && k == |replies| ==>
      Login(environment, replies) == LoginRun(Err(LoginAbandoned), k, k + 1)
    ensures TerrainUri(environment, TokenPath).Ok? && k < |replies| ==>
      && (ClassifyStatus(replies[k]).Fatal? ==>
            Login(environment, replies) == LoginRun(Err(Exit(1)), k + 1, k + 1))
      && (ClassifyStatus(replies[k]).Granted? ==>
            Login(environment, replies) == LoginRun(Ok(ClassifyStatus(replies[k]).token), k + 1, k + 1))
  {
    LoginAfterRetries(environment, replies, k);
  }

  /** The requests the login loop sends: one to the token endpoint per reply it used. */
  function TokenRequests(environment: string, n: nat): seq<Request>
  {
    match TerrainUri(environment, TokenPath)
    case Ok(uri) => if n == 0 then [] else TokenRequests(environment, n - 1) + [TokenRequest(uri)]
    case Err(_) => []
  }

  lemma TokenRequestsSnoc(environment: string, n: nat)
    requires TerrainUri(environment, TokenPath).Ok?
    ensures TokenRequests(environment, n + 1)
         == TokenRequests(environment, n) + [TokenRequest(TerrainUri(environment, TokenPath).value)]
  {
  }

  /** The effect of `authenticate` on the state. */
  function LoginStep(st: Store, environment: string): Step<string>
  {
    var run := Login(environment, st.replies);
    Step(run.outcome,
         st.(replies := st.replies[run.consumed..],
             prompts := st.prompts + run.prompts,
             requests := st.requests + TokenRequests(environment, run.consumed)))
  }

  /** The effect of `cache_token`: the file holds the token and a newline, owner-only. */
  function CacheStore(st: Store, home: string, environment: string, token: string): Store
  {
    st.(files := st.files[AuthFile(home, environment) := File(token + "\n", S_IRUSR | S_IWUSR)])
  }

  /** After `cache_token` the cache file holds exactly the token and a newline, readable
      and writable by its owner only, and no other file changed. */
  lemma CacheStoreOwnerOnly(st: Store, home: string, environment: string, token: string)
    ensures var path := AuthFile(home, environment);
      var after := CacheStore(st, home, environment, token);
      && path in after.files
      && after.files[path].contents == token + "\n"
      && after.files[path].mode & GroupOtherBits == 0
      && after.files[path].mode == 0x180
      && (forall p :: p != path ==> (p in after.files <==> p in st.files))
      && (forall p :: p != path && p in st.files ==> after.files[p] == st.files[p])
  {
  }

  /** Every file other than `path` is the same, present or absent, in `before` and `after`. */
  ghost predicate KeepsOtherFiles(before: FileSystem, after: FileSystem, path: string)
  {
    forall p :: p != path ==> (p in after <==> p in before) && (p in before ==> after[p] == before[p])
  }

  lemma KeepsOtherFilesTransitive(a: FileSystem, b: FileSystem, c: FileSystem, path: string)
    requires KeepsOtherFiles(a, b, path) && KeepsOtherFiles(b, c, path)
    ensures KeepsOtherFiles(a, c, path)
  {
  }

  /** The credential `get_access_token` works with before its final strip (the whole of
      terrain.py's version): a valid cached line, or a fresh login that is then cached. */
  function FetchToken(cfg: Config, st: Store, environment: string, now: int): (r: Step<string>)
    ensures r.store.prompts == st.prompts <==> r.store == st
    ensures r.store.files == st.files
         || (r.result.Ok? && r.store.files == st.files[AuthFile(cfg.home, environment) :=
                                                        File(r.result.value + "\n", S_IRUSR | S_IWUSR)])
  {
    match CachedAccessToken(st.files, cfg.home, environment, now, cfg.decode)
    case Err(e) => Step(Err(e), st)
    case Ok(Some(token)) => Step(Ok(token), st)
    case Ok(None) =>
      LoginOutcome(environment, st.replies);
      var login := LoginStep(st, environment);
      match login.result
      case Err(e) => login
      case Ok(token) => Step(Ok(token), CacheStore(login.store, cfg.home, environment, token))
  }

  /** `.strip()` applied to a credential. */
  function StripToken(r: Result<string>): Result<string>
  {
    match r
    case Ok(token) => Ok(Strip(token))
    case Err(e) => Err(e)
  }

  /** A valid cached credential is used as it is: no prompt, no request, no file written. */
  lemma NoLoginOnValidCache(cfg: Config, st: Store, environment: string, now: int)
    requires CachedAccessToken(st.files, cfg.home, environment, now, cfg.decode).Ok?
    requires CachedAccessToken(st.files, cfg.home, environment, now, cfg.decode).value.Some?
    ensures FetchToken(cfg, st, environment, now)
         == Step(Ok(CachedAccessToken(st.files, cfg.home, environment, now, cfg.decode).value.value), st)
  {
  }

  /** Without a valid cached credential the client logs in, and a fresh credential is
      cached before it is used; a failed login writes nothing. */
  lemma LoginWhenCacheMisses(cfg: Config, st: Store, environment: string, now: int)
    requires CachedAccessToken(st.files, cfg.home, environment, now, cfg.decode) == Ok(None)
    ensures var run := Login(environment, st.replies);
      var step := FetchToken(cfg, st, environment, now);
      && step.result == run.outcome
      && step.store.replies == st.replies[run.consumed..]
      && step.store.prompts == st.prompts + run.prompts
      && step.store.requests == st.requests + TokenRequests(environment, run.consumed)
      && step.store.files == if run.outcome.Ok? then
           st.files[AuthFile(cfg.home, environment) := File(run.outcome.value + "\n", S_IRUSR | S_IWUSR)]
         else st.files
  {
  }

  /** Storing a well-formed credential (three segments, no newline) and loading it back:
      the cache yields the stored line exactly when the credential itself passes the claims
      check at load time, and nothing once it no longer does. */
  lemma StoreThenLoad(files: FileSystem, home: string, environment: string, mode: bv16,
                      header: string, payload: string, signature: string, now: int, decode: Jwt.Decoder)
    requires '.' !in header && '.' !in payload
    requires '\n' !in header + "." + payload + "." + signature
    ensures var token := header + "." + payload + "." + signature;
      var loaded := CachedAccessToken(files[AuthFile(home, environment) := File(token + "\n", mode)],
                                      home, environment, now, decode);
      && (Jwt.Valid(Some(token), now, decode) == Ok(true) ==> loaded == Ok(Some(token + "\n")))
      && (Jwt.Valid(Some(token), now, decode) == Ok(false) ==> loaded == Ok(None))
      && (Jwt.Valid(Some(token), now, decode).Err? ==> loaded.Err?)
  {
    var token := header + "." + payload + "." + signature;
    FirstLineOfLine(token);
    Jwt.ValidIgnoresSignatureSuffix(header, payload, signature, "\n", now, decode);
  }

  /** Within one run, a second `get_access_token` at a later instant returns the stripped
      credential of the first without prompting or writing, provided that credential still
      passes the claims check then; a fresh credential must also be well-formed (three
      segments, no newline). The final strip makes the cached line's newline invisible. */
  lemma AccessTokenReused(cfg: Config, st: Store, environment: string, now: int, later: int,
                          header: string, payload: string, signature: string)
    requires FetchToken(cfg, st, environment, now).result.Ok?
    requires Jwt.Valid(Some(FetchToken(cfg, st, environment, now).result.value), later, cfg.decode) == Ok(true)
    requires CachedAccessToken(st.files, cfg.home, environment, now, cfg.decode) == Ok(None) ==>
      && FetchToken(cfg, st, environment, now).result.value == header + "." + payload + "." + signature
      && '.' !in header && '.' !in payload && '\n' !in header + "." + payload + "." + signature
    ensures var first := FetchToken(cfg, st, environment, now);
      var second := FetchToken(cfg, first.store, environment, later);
      second.store == first.store && StripToken(second.result) == StripToken(first.result)
  {
    var first := FetchToken(cfg, st, environment, now);
    if CachedAccessToken(st.files, cfg.home, environment, now, cfg.decode) == Ok(None) {
      var token := header + "." + payload + "." + signature;
      var login := LoginStep(st, environment);
      assert first.store == CacheStore(login.store, cfg.home, environment, token);
      StoreThenLoad(login.store.files, cfg.home, environment, S_IRUSR | S_IWUSR,
                    header, payload, signature, later, cfg.decode);
      StripTrailingSpace(token, '\n');
    }
  }

  /** When the first call's credential no longer passes the claims check at the second
      call (it expired in between, say), the second call prompts and logs in again. */
  lemma ExpiredBeforeSecondCall(cfg: Config, st: Store, environment: string, now: int, later: int,
                                header: string, payload: string, signature: string)
    requires FetchToken(cfg, st, environment, now).result.Ok?
    requires Jwt.Valid(Some(FetchToken(cfg, st, environment, now).result.value), later, cfg.decode) == Ok(false)
    requires CachedAccessToken(st.files, cfg.home, environment, now, cfg.decode) == Ok(None) ==>
      && FetchToken(cfg, st, environment, now).result.value == header + "." + payload + "." + signature
      && '.' !in header && '.' !in payload && '\n' !in header + "." + payload + "." + signature
    ensures var first := FetchToken(cfg, st, environment, now);
      var second := FetchToken(cfg, first.store, environment, later);
      var run := Login(environment, first.store.replies);
      && second.result == run.outcome
      && second.store.prompts == first.store.prompts + run.prompts
      && run.prompts >= 1
  {
    var first := FetchToken(cfg, st, environment, now);
    if CachedAccessToken(st.files, cfg.home, environment, now, cfg.decode) == Ok(None) {
      var login := LoginStep(st, environment);
      assert first.store == CacheStore(login.store, cfg.home, environment, first.result.value);
      StoreThenLoad(login.store.files, cfg.home, environment, S_IRUSR | S_IWUSR,
                    header, payload, signature, later, cfg.decode);
    }
    assert CachedAccessToken(first.store.files, cfg.home, environment, later, cfg.decode) == Ok(None);
    LoginWhenCacheMisses(cfg, first.store, environment, later);
    LoginOutcome(environment, first.store.replies);
  }

  /** The API requests among the requests sent, by URI. */
  function ApiUris(requests: seq<Request>): seq<string>
  {
    if requests == [] then []
    else (if requests[0].ApiRequest? then [requests[0].uri] else []) + ApiUris(requests[1..])
  }

  lemma {:induction false} ApiUrisAppend(a: seq<Request>, b: seq<Request>)
    ensures ApiUris(a + b) == ApiUris(a) + ApiUris(b)
  {
    if a == [] {
      assert a + b == b;
    } else {
      assert (a + b)[0] == a[0] && (a + b)[1..] == a[1..] + b;
      ApiUrisAppend(a[1..], b);
    }
  }

  lemma {:induction false} TokenRequestsAreNotApiCalls(environment: string, n: nat)
    ensures ApiUris(TokenRequests(environment, n)) == []
    decreases n
  {
    if n > 0 && TerrainUri(environment, TokenPath).Ok? {
      var uri := TerrainUri(environment, TokenPath).value;
      TokenRequestsAreNotApiCalls(environment, n - 1);
      ApiUrisAppend(TokenRequests(environment, n - 1), [TokenRequest(uri)]);
      assert ApiUris([TokenRequest(uri)]) == [];
    }
  }

  /** Obtaining a credential never calls the API. */
  lemma FetchTokenSendsNoApiCall(cfg: Config, st: Store, environment: string, now: int)
    ensures ApiUris(FetchToken(cfg, st, environment, now).store.requests) == ApiUris(st.requests)
  {
    var run := Login(environment, st.replies);
    ApiUrisAppend(st.requests, TokenRequests(environment, run.consumed));
    TokenRequestsAreNotApiCalls(environment, run.consumed);
  }

  /** An authorized GET (`list_plans`, `get_subscription`, `admin_get_subscription`): build
      the URI, obtain the stripped credential for the bearer header, send the request and
      reject what `raise_for_status` rejects. */
  function FetchStep(cfg: Config, st: Store, environment: string, path: string, now: int): (r: Step<ApiReply>)
    ensures KeepsOtherFiles(st.files, r.store.files, AuthFile(cfg.home, environment))
  {
    match TerrainUri(environment, path)
    case Err(e) => Step(Err(e), st)
    case Ok(uri) =>
      var token := FetchToken(cfg, st, environment, now);
      match StripToken(token.result)
      case Err(e) => Step(Err(e), token.store)
      case Ok(credential) =>
        var sent := token.store.(requests := token.store.requests
                                   + [ApiRequest(uri, map["Authorization" := "Bearer " + credential])]);
        match cfg.api(uri)
        case Rejected(status) => Step(Err(HttpError(status)), sent)
        case reply => Step(Ok(reply), sent)
  }

  /** What `raise_for_status` makes of an API reply: the status of a rejected one as an
      HTTP failure, any other reply as it is. */
  function Replied(reply: ApiReply): Result<ApiReply>
  {
    if reply.Rejected? then Err(HttpError(reply.status)) else Ok(reply)
  }

  /** An authorized GET builds its URI before it looks up the credential: an unknown
      environment fails with the state as it was (no prompt, no request, no file written),
      and a failure to obtain the credential is the GET's failure, with the state the lookup
      left and no API request. */
  lemma FetchFailsBeforeRequest(cfg: Config, st: Store, environment: string, path: string, now: int)
    ensures var step := FetchStep(cfg, st, environment, path, now);
      var token := FetchToken(cfg, st, environment, now);
      && (TerrainUri(environment, path).Err? ==> step == Step(Err(InvalidEnvironment(environment)), st))
      && (TerrainUri(environment, path).Ok? && token.result.Err? ==>
            step == Step(Err(token.result.error), token.store))
  {
  }

  /** An authorized GET sends exactly one API request, to the URI of its path, once the URI
      and the credential are obtained, and none otherwise; its reply is the API's reply. */
  lemma FetchSendsOneApiCall(cfg: Config, st: Store, environment: string, path: string, now: int)
    ensures var step := FetchStep(cfg, st, environment, path, now);
      var token := FetchToken(cfg, st, environment, now);
      && (TerrainUri(environment, path).Ok? && token.result.Ok? ==>
            ApiUris(step.store.requests) == ApiUris(st.requests) + [TerrainUri(environment, path).value])
      && (TerrainUri(environment, path).Err? || token.result.Err? ==>
            ApiUris(step.store.requests) == ApiUris(st.requests))
      && (step.result.Ok? ==> step.result.value == cfg.api(TerrainUri(environment, path).value))
      && (TerrainUri(environment, path).Ok? && token.result.Ok? ==>
            step.result == Replied(cfg.api(TerrainUri(environment, path).value)))
  {
    var token := FetchToken(cfg, st, environment, now);
    FetchTokenSendsNoApiCall(cfg, st, environment, now);
    if TerrainUri(environment, path).Ok? && token.result.Ok? {
      var uri := TerrainUri(environment, path).value;
      var request := ApiRequest(uri, map["Authorization" := "Bearer " + Strip(token.result.value)]);
      var sent := token.store.(requests := token.store.requests + [request]);
      assert FetchStep(cfg, st, environment, path, now) == Step(Replied(cfg.api(uri)), sent);
      assert ApiUris(sent.requests) == ApiUris(token.store.requests) + [uri] by {
        ApiUrisAppend(token.store.requests, [request]);
        assert ApiUris([request]) == [uri];
      }
    }
  }

  function AsPlans(r: Result<ApiReply>): Result<seq<Plan>>
  {
    match r
    case Err(e) => Err(e)
    case Ok(PlansResult(plans)) => Ok(plans)
    case Ok(_) => Err(UnexpectedBody)
  }

  function AsSubscription(r: Result<ApiReply>): Result<Subscription>
  {
    match r
    case Err(e) => Err(e)
    case Ok(SubscriptionResult(subscription)) => Ok(subscription)
    case Ok(_) => Err(UnexpectedBody)
  }

  /** A headers dictionary the caller passes in and gets back. */
  class Headers {
    var entries: map<string, string>

    constructor ()
      ensures entries == map[]
    {
      entries := map[];
    }
  }

  /** The account the client runs in: its files, the identity provider's replies still to
      come, the login prompts shown so far and the requests sent so far. */
  class Session {
    const cfg: Config
    var files: FileSystem
    var replies: seq<IdpReply>
    var prompts: nat
    var requests: seq<Request>

    function State(): Store
      reads this
    {
      Store(files, replies, prompts, requests)
    }

    constructor (cfg: Config, files: FileSystem, replies: seq<IdpReply>)
      ensures this.cfg.home == cfg.home
      ensures State() == Store(files, replies, 0, [])
    {
      this.cfg := cfg;
      this.files := files;
      this.replies := replies;
      this.prompts := 0;
      this.requests := [];
    }

    /** `get_auth_token`: one request to the token endpoint and the classification of its
        reply; nothing is sent for an unknown environment, or when no reply is left. */
    method GetAuthToken(environment: string) returns (r: Result<Option<string>>)
      modifies this
      ensures TerrainUri(environment, TokenPath).Err? ==>
        r == Err(InvalidEnvironment(environment)) && State() == old(State())
      ensures TerrainUri(environment, TokenPath).Ok? && old(replies) == [] ==>
        r == Err(LoginAbandoned) && State() == old(State())
      ensures TerrainUri(environment, TokenPath).Ok? && old(replies) != [] ==>
        && State() == old(State()).(replies := old(replies)[1..],
                                   requests := old(requests) + [TokenRequest(TerrainUri(environment, TokenPath).value)])
        && r == match ClassifyStatus(old(replies)[0])
                case Retry => Ok(None)
                case Fatal => Err(Exit(1))
                case Granted(token) => Ok(Some(token))
    {
      var uri := TerrainUri(environment, TokenPath);
      if uri.Err? {
        return Err(uri.error);
      }
      if replies == [] {
        return Err(LoginAbandoned);
      }
      var reply := replies[0];
      replies := replies[1..];
      requests := requests + [TokenRequest(uri.value)];
      match ClassifyStatus(reply)
      case Retry => r := Ok(None);
      case Fatal => r := Err(Exit(1));
      case Granted(token) => r := Ok(Some(token));
    }

    /** `authenticate`: prompt and ask until a reply other than 401 arrives. */
    method Authenticate(environment: string) returns (r: Result<string>)
      modifies this
      ensures r == LoginStep(old(State()), environment).result
      ensures State() == LoginStep(old(State()), environment).store
    {
      var token: Option<string> := None;
      ghost var k: nat := 0;
      while token.None?
        invariant k <= |old(replies)| && replies == old(replies)[k..]
        invariant files == old(files) && prompts == old(prompts) + k
        invariant requests == old(requests) + TokenRequests(environment, k)
        invariant k > 0 ==> TerrainUri(environment, TokenPath).Ok?
        invariant token.None? ==> forall i :: 0 <= i < k ==> old(replies)[i].status == 401
        invariant token.Some? ==> Login(environment, old(replies)) == LoginRun(Ok(token.value), k, k)
        decreases |replies|, if token.None? then 1 else 0
      {
        prompts := prompts + 1;
        LoginRound(environment, old(replies), k);
        if TerrainUri(environment, TokenPath).Ok? && k < |old(replies)| {
          TokenRequestsSnoc(environment, k);
        }
        var reply := GetAuthToken(environment);
        if reply.Err? {
          return Err(reply.error);
        }
        token := reply.value;
        k := k + 1;
      }
      r := Ok(token.value);
    }

    /** `cache_token`: overwrite (or create) the environment's cache file with the token and
        a newline, then restrict it to its owner. Between the two steps the file is
        `written`: its new contents under the mode it had, or under `CreatedMode`, readable by
        group and others, when the call creates it. */
    method CacheToken(environment: string, token: string) returns (ghost written: File)
      modifies this
      ensures State() == CacheStore(old(State()), cfg.home, environment, token)
      ensures var path := AuthFile(cfg.home, environment);
        written == File(token + "\n", if path in old(files) then old(files)[path].mode else CreatedMode)
    {
      var path := AuthFile(cfg.home, environment);
      WriteFile(path, token + "\n");
      written := files[path];
      Chmod(path, S_IRUSR | S_IWUSR);
    }

    /** `open(path, "w")` and a write: the contents replaced, the mode of an existing file
        kept, and a new file created with `CreatedMode`, group and others able to read it. */
    method WriteFile(path: string, contents: string)
      modifies this
      ensures files == old(files)[path := File(contents, if path in old(files) then old(files)[path].mode else CreatedMode)]
      ensures path !in old(files) ==> files[path].mode & GroupOtherBits != 0
      ensures replies == old(replies) && prompts == old(prompts) && requests == old(requests)
    {
      var mode := if path in files then files[path].mode else CreatedMode;
      files := files[path := File(contents, mode)];
    }

    /** `os.chmod`: the mode of an existing file replaced, its contents kept. */
    method Chmod(path: string, mode: bv16)
      requires path in files
      modifies this
      ensures files == old(files)[path := File(old(files)[path].contents, mode)]
      ensures replies == old(replies) && prompts == old(prompts) && requests == old(requests)
    {
      files := files[path := files[path].(mode := mode)];
    }

    /** `get_access_token` of client.py: the cached or freshly obtained credential, stripped. */
    method GetAccessToken(environment: string, now: int) returns (r: Result<string>)
      modifies this
      ensures r == StripToken(FetchToken(cfg, old(State()), environment, now).result)
      ensures State() == FetchToken(cfg, old(State()), environment, now).store
    {
      var cached := CachedAccessToken(files, cfg.home, environment, now, cfg.decode);
      if cached.Err? {
        return Err(cached.error);
      }
      var token := cached.value;
      if token.None? {
        var login := Authenticate(environment);
        if login.Err? {
          return Err(login.error);
        }
        ghost var written := CacheToken(environment, login.value);
        token := Some(login.value);
      }
      r := Ok(Strip(token.value));
    }

    /** `add_auth_header`: set `Authorization` to the bearer credential in the caller's
        headers, leave every other key alone, and hand back the same dictionary. */
    method AddAuthHeader(environment: string, headers: Headers, now: int) returns (r: Result<Headers>)
      modifies this, headers
      ensures State() == FetchToken(cfg, old(State()), environment, now).store
      ensures var token := StripToken(FetchToken(cfg, old(State()), environment, now).result);
        match token
        case Ok(credential) =>
          r == Ok(headers) && headers.entries == old(headers.entries)["Authorization" := "Bearer " + credential]
        case Err(e) => r == Err(e) && headers.entries == old(headers.entries)
    {
      var token := GetAccessToken(environment, now);
      if token.Err? {
        return Err(token.error);
      }
      headers.entries := headers.entries["Authorization" := "Bearer " + token.value];
      r := Ok(headers);
    }

    /** The authorized GET shared by the three API calls below. */
    method Fetch(environment: string, path: string, now: int) returns (r: Result<ApiReply>)
      modifies this
      ensures r == FetchStep(cfg, old(State()), environment, path, now).result
      ensures State() == FetchStep(cfg, old(State()), environment, path, now).store
    {
      var uri := TerrainUri(environment, path);
      if uri.Err? {
        return Err(uri.error);
      }
      var headers := new Headers();
      var added := AddAuthHeader(environment, headers, now);
      if added.Err? {
        return Err(added.error);
      }
      requests := requests + [ApiRequest(uri.value, headers.entries)];
      var reply := cfg.api(uri.value);
      if reply.Rejected? {
        return Err(HttpError(reply.status));
      }
      r := Ok(reply);
    }

    /** `list_plans`: the plans of `/qms/plans`. */
    method ListPlans(environment: string, now: int) returns (r: Result<seq<Plan>>)
      modifies this
      ensures r == AsPlans(FetchStep(cfg, old(State()), environment, PlansPath, now).result)
      ensures State() == FetchStep(cfg, old(State()), environment, PlansPath, now).store
    {
      var reply := Fetch(environment, PlansPath, now);
      r := AsPlans(reply);
    }

    /** `get_subscription`: the caller's own subscription, from `/qms/user/plan`. */
    method GetSubscription(environment: string, now: int) returns (r: Result<Subscription>)
      modifies this
      ensures r == AsSubscription(FetchStep(cfg, old(State()), environment, SelfPlanPath, now).result)
      ensures State() == FetchStep(cfg, old(State()), environment, SelfPlanPath, now).store
    {
      var reply := Fetch(environment, SelfPlanPath, now);
      r := AsSubscription(reply);
    }

    /** `admin_get_subscription`: another user's subscription, from the admin endpoint. */
    method AdminGetSubscription(environment: string, username: string, now: int) returns (r: Result<Subscription>)
      modifies this
      ensures r == AsSubscription(FetchStep(cfg, old(State()), environment, AdminPlanPath(username), now).result)
      ensures State() == FetchStep(cfg, old(State()), environment, AdminPlanPath(username), now).store
    {
      var reply := Fetch(environment, AdminPlanPath(username), now);
      r := AsSubscription(reply);
    }
  }
}
