/**
 * The view helpers of uriz/views.py that work on the DynamoDB tables, in the
 * imperative form the source has: a connection object whose two tables the
 * helpers read and write in place.
 */
module Views {
  import opened Wrappers
  import opened Tokens
  import opened Store
  import opened Shortening

  /** The `uriz` and `uriz_long` tables reached through one connection. */
  class UrizDb {
    var uriz: map<string, UrlRecord>
    var urizLong: map<string, string>

    /** Both tables as a value. */
    function State(): Db
      reads this
    {
      Db(uriz, urizLong)
    }

    /** The tables the shortening code keeps consistent. */
    predicate Valid()
      reads this
    {
      Consistent(State())
    }

    /** Empty tables, as provisioned. */
    constructor ()
      ensures State() == Db(map[], map[])
      ensures Valid()
    {
      uriz := map[];
      urizLong := map[];
    }

    /**
     * `_add_url`: draw candidates until one is absent from `uriz`, growing
     * the length after six collisions at the default; store the forward row,
     * then the reverse row, the tables staying consistent after each write.
     * None (and no change) when `draws` runs out first.
     */
    method AddUrl(longUrl: string, now: int, setting: Option<int>, draws: seq<nat>) returns (token: Option<string>)
      modifies this
      ensures token == Allocate(old(uriz).Keys, ConfiguredTokenLength(setting), 0, draws)
      ensures token.Some? ==> State() == WithNewUrl(old(State()), token.value, longUrl, now)
      ensures token.None? ==> State() == old(State())
      ensures old(Valid()) ==> Valid()
    {
      ghost var taken := uriz.Keys;
      var defaultLen := ConfiguredTokenLength(setting);
      var tokenLen := defaultLen;
      var defaultLenTries := 0;
      var rest := draws;
      ghost var k: nat := 0;
      var found: Option<string> := None;
      while found.None?
        invariant urizLong == old(urizLong)
        invariant found.None? ==> uriz == old(uriz)
        invariant found.None? ==> Attempt(tokenLen, defaultLenTries) == AttemptAfter(defaultLen, k)
        invariant found.None? ==> Allocate(taken, defaultLen, k, rest) == Allocate(taken, defaultLen, 0, draws)
        invariant found.Some? ==> found == Allocate(taken, defaultLen, 0, draws)
        invariant found.Some? ==> State() == WithForwardRow(old(State()), found.value, longUrl, now)
        invariant found.Some? && old(Valid()) ==> Valid()
        decreases |rest|
      {
        if |rest| < TokenLength(tokenLen) {
          break;
        }
        var candidate := RandomToken(tokenLen, rest);
        rest := rest[|candidate|..];
        if candidate !in uriz {
          uriz := uriz[candidate := UrlRecord(candidate, now, longUrl, 0)];
          found := Some(candidate);
          if old(Valid()) {
            ForwardRowKeepsConsistent(old(State()), candidate, longUrl, now);
          }
        } else {
          if defaultLenTries > 4 {
            tokenLen := tokenLen + 1;
          } else {
            defaultLenTries := defaultLenTries + 1;
          }
          k := k + 1;
        }
      }
      if found.None? {
        return None;
      }
      urizLong := urizLong[longUrl := found.value];
      token := found;
      if old(Valid()) {
        NewUrlKeepsConsistent(old(State()), token.value, longUrl, now);
      }
    }

    /**
     * `_ensure_url`: the token already recorded for `longUrl` when there is a
     * non-empty one, else a new one from `_add_url`.
     */
    method EnsureUrl(longUrl: string, now: int, setting: Option<int>, draws: seq<nat>) returns (token: Option<string>)
      modifies this
      ensures Shortened(token, State()) == Shorten(old(State()), longUrl, now, ConfiguredTokenLength(setting), draws)
      ensures old(Valid()) ==> Valid()
    {
      token := FetchToken(urizLong, longUrl);
      if token.Some? && token.value != [] {
        return;
      }
      token := AddUrl(longUrl, now, setting, draws);
    }

    /**
     * The store side of `url_redirect`: fetch the record (NotFound is
     * Http404), add 1 to its visits, and return its long URL.
     */
    method UrlRedirect(token: string) returns (target: Lookup<string>)
      modifies this
      ensures Redirected(target, State()) == Redirect(old(State()), token)
      ensures old(Valid()) ==> Valid()
    {
      var info := FetchUrlInfo(uriz, token);
      if info.NotFound? {
        return NotFound;
      }
      uriz := uriz[token := info.value.(visits := info.value.visits + 1)];
      target := Found(info.value.longUrl);
      if old(Valid()) {
        RedirectKeepsConsistent(old(State()), token);
      }
    }
  }
}
