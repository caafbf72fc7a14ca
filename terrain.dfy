/** terrain.py: the same credential lifecycle as client.py (its copies of the cache, URI and
    login functions are the ones in module Client), except that its `get_access_token`
    hands the credential back exactly as it was read or received, without stripping it. */
module Terrain {
  import opened Common
  import opened Strings
  import opened Client
  import Jwt

  /** `get_access_token` of terrain.py: the cached first line as read, or a fresh login's
      token, which is cached before it is returned. */
  method GetAccessToken(s: Session, environment: string, now: int) returns (r: Result<string>)
    modifies s
    ensures r == FetchToken(s.cfg, old(s.State()), environment, now).result
    ensures s.State() == FetchToken(s.cfg, old(s.State()), environment, now).store
  {
    var cached := CachedAccessToken(s.files, s.cfg.home, environment, now, s.cfg.decode);
    if cached.Err? {
      return Err(cached.error);
    }
    var token := cached.value;
    if token.None? {
      var login := s.Authenticate(environment);
      if login.Err? {
        return Err(login.error);
      }
      ghost var written := s.CacheToken(environment, login.value);
      token := Some(login.value);
    }
    r := Ok(token.value);
  }

  /** The one difference between the two copies: on a cache hit terrain.py returns the
      cache file's line with its newline, where client.py returns its strip, which is the
      credential itself when the credential has no whitespace at either end. */
  lemma CachedLineKeepsNewline(cfg: Config, st: Store, environment: string, now: int,
                               header: string, payload: string, signature: string)
    requires '.' !in header && '.' !in payload
    requires '\n' !in header + "." + payload + "." + signature
    requires AuthFile(cfg.home, environment) in st.files
    requires st.files[AuthFile(cfg.home, environment)].contents == header + "." + payload + "." + signature + "\n"
    requires Jwt.Valid(Some(header + "." + payload + "." + signature), now, cfg.decode) == Ok(true)
    ensures var token := header + "." + payload + "." + signature;
      && FetchToken(cfg, st, environment, now) == Step(Ok(token + "\n"), st)
      && StripToken(FetchToken(cfg, st, environment, now).result) == Ok(Strip(token))
      && (!IsSpace(token[0]) && !IsSpace(token[|token| - 1]) ==>
            StripToken(FetchToken(cfg, st, environment, now).result) == Ok(token))
  {
    var token := header + "." + payload + "." + signature;
    StoreThenLoad(st.files, cfg.home, environment, st.files[AuthFile(cfg.home, environment)].mode,
                  header, payload, signature, now, cfg.decode);
    assert st.files[AuthFile(cfg.home, environment) := st.files[AuthFile(cfg.home, environment)]] == st.files;
    StripTrailingSpace(token, '\n');
    if !IsSpace(token[0]) && !IsSpace(token[|token| - 1]) {
      StripUnpadded(token);
    }
  }
}
