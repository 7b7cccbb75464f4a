/**
 * The two DynamoDB tables of uriz/views.py, as values: `uriz` maps a token to
 * its record, `uriz_long` maps a long URL back to its token. This module holds
 * the read-only lookups and the redirect's visit update.
 */
module Store {
  import opened Wrappers

  /** A row of the `uriz` table. */
  datatype UrlRecord = UrlRecord(token: string, created: int, longUrl: string, visits: nat)

  /** Both tables: `uriz` (token -> record) and `urizLong` (long URL -> token). */
  datatype Db = Db(uriz: map<string, UrlRecord>, urizLong: map<string, string>)

  /** `_fetch_url_info`: the record stored under `token`, or NotFound (Http404). */
  function FetchUrlInfo(uriz: map<string, UrlRecord>, token: string): (r: Lookup<UrlRecord>)
    ensures r.NotFound? <==> token !in uriz
    ensures r.Found? ==> r.value == uriz[token]
  {
    if token in uriz then Found(uriz[token]) else NotFound
  }

  /** `_fetch_token`: the token recorded for `longUrl`, or None. */
  function FetchToken(urizLong: map<string, string>, longUrl: string): (r: Option<string>)
    ensures r.None? <==> longUrl !in urizLong
    ensures r.Some? ==> r.value == urizLong[longUrl]
  {
    if longUrl in urizLong then Some(urizLong[longUrl]) else None
  }

  /**
   * The tables as the shortening code leaves them: every record is keyed by
   * its own non-empty token, and every reverse entry names a record of the
   * same long URL. In terms of the lookups: a token found for a URL leads to
   * a record of that URL.
   */
  predicate Consistent(db: Db)
    ensures Consistent(db) ==>
      forall u :: FetchToken(db.urizLong, u).Some? ==>
        var info := FetchUrlInfo(db.uriz, FetchToken(db.urizLong, u).value);
        info.Found? && info.value.longUrl == u
  {
    && (forall t :: t in db.uriz ==> t != [] && db.uriz[t].token == t)
    && (forall u :: u in db.urizLong ==> db.urizLong[u] in db.uriz && db.uriz[db.urizLong[u]].longUrl == u)
  }

  /** The tables after `_add_url`'s first write: the forward row for `t`, with no visits. */
  function WithForwardRow(db: Db, t: string, longUrl: string, created: int): (db': Db)
    ensures db'.uriz.Keys == db.uriz.Keys + {t}
    ensures db'.uriz[t] == UrlRecord(t, created, longUrl, 0)
    ensures forall t' :: t' in db.uriz && t' != t ==> db'.uriz[t'] == db.uriz[t']
    ensures db'.urizLong == db.urizLong
  {
    db.(uriz := db.uriz[t := UrlRecord(t, created, longUrl, 0)])
  }

  /**
   * The tables after `_add_url` stores token `t` for `longUrl`: the forward
   * row first, then the reverse row pointing `longUrl` at `t`.
   */
  function WithNewUrl(db: Db, t: string, longUrl: string, created: int): (db': Db)
    ensures db'.uriz == WithForwardRow(db, t, longUrl, created).uriz
    ensures db'.urizLong.Keys == db.urizLong.Keys + {longUrl}
    ensures db'.urizLong[longUrl] == t
    ensures forall u :: u in db.urizLong && u != longUrl ==> db'.urizLong[u] == db.urizLong[u]
  {
    var forward := WithForwardRow(db, t, longUrl, created);
    forward.(urizLong := forward.urizLong[longUrl := t])
  }

  /** The result of a redirect: where it leads, and the tables afterwards. */
  datatype Redirected = Redirected(target: Lookup<string>, db: Db)

  /**
   * `url_redirect`: fetch the record (Http404 on a miss), add 1 to its
   * `visits`, and lead to its long URL.
   */
  function Redirect(db: Db, token: string): (r: Redirected)
    ensures r.target.NotFound? <==> token !in db.uriz
    ensures r.db.urizLong == db.urizLong && r.db.uriz.Keys == db.uriz.Keys
  {
    match FetchUrlInfo(db.uriz, token)
    case NotFound => Redirected(NotFound, db)
    case Found(info) =>
      Redirected(Found(info.longUrl), db.(uriz := db.uriz[token := info.(visits := info.visits + 1)]))
  }

  /** An unknown token gives NotFound and changes neither table. */
  lemma RedirectUnknown(db: Db, token: string)
    requires token !in db.uriz
    ensures Redirect(db, token) == Redirected(NotFound, db)
  {
  }

  /**
   * A known token leads to its long URL, raises its visit count by exactly 1,
   * and leaves every other record, every other field and the reverse table alone.
   */
  lemma RedirectKnown(db: Db, token: string)
    requires token in db.uriz
    ensures var r := Redirect(db, token);
      && r.target == Found(db.uriz[token].longUrl)
      && r.db.urizLong == db.urizLong
      && r.db.uriz.Keys == db.uriz.Keys
      && r.db.uriz[token] == db.uriz[token].(visits := db.uriz[token].visits + 1)
      && (forall t :: t in db.uriz && t != token ==> r.db.uriz[t] == db.uriz[t])
  {
  }

  /** Redirects keep the tables consistent and never lower a visit count. */
  lemma RedirectKeepsConsistent(db: Db, token: string)
    requires Consistent(db)
    ensures Consistent(Redirect(db, token).db)
    ensures forall t :: t in db.uriz ==>
              t in Redirect(db, token).db.uriz && Redirect(db, token).db.uriz[t].visits >= db.uriz[t].visits
  {
  }

  /** The tables after `n` redirects through `token`. */
  function RedirectTimes(db: Db, token: string, n: nat): Db
    decreases n
  {
    if n == 0 then db else Redirect(RedirectTimes(db, token, n - 1), token).db
  }

  /**
   * `n` sequential redirects through a known token raise its visit count by
   * exactly `n` and change nothing else.
   */
  lemma {:induction false} RedirectCountsVisits(db: Db, token: string, n: nat)
    requires token in db.uriz
    ensures var after := RedirectTimes(db, token, n);
      && after.urizLong == db.urizLong
      && after.uriz.Keys == db.uriz.Keys
      && after.uriz[token] == db.uriz[token].(visits := db.uriz[token].visits + n)
      && (forall t :: t in db.uriz && t != token ==> after.uriz[t] == db.uriz[t])
    decreases n
  {
    if n > 0 {
      RedirectCountsVisits(db, token, n - 1);
      RedirectKnown(RedirectTimes(db, token, n - 1), token);
    }
  }

  /** Storing a non-empty token absent from `uriz` keeps the tables consistent. */
  lemma NewUrlKeepsConsistent(db: Db, t: string, longUrl: string, created: int)
    requires Consistent(db)
    requires t !in db.uriz && t != []
    ensures Consistent(WithNewUrl(db, t, longUrl, created))
  {
  }

  /**
   * The forward row is written first so that the tables are consistent also
   * between the two writes: no reverse entry ever names a missing record.
   */
  lemma ForwardRowKeepsConsistent(db: Db, t: string, longUrl: string, created: int)
    requires Consistent(db)
    requires t !in db.uriz && t != []
    ensures Consistent(WithForwardRow(db, t, longUrl, created))
  {
  }

  /** After `_add_url` stores `t`, both lookups find it and older records are untouched. */
  lemma NewUrlResolves(db: Db, t: string, longUrl: string, created: int)
    requires t !in db.uriz
    ensures var db' := WithNewUrl(db, t, longUrl, created);
      && FetchUrlInfo(db'.uriz, t) == Found(UrlRecord(t, created, longUrl, 0))
      && FetchToken(db'.urizLong, longUrl) == Some(t)
      && db'.uriz.Keys == db.uriz.Keys + {t}
      && (forall t' :: t' in db.uriz ==> db'.uriz[t'] == db.uriz[t'])
      && (forall u :: u in db.urizLong && u != longUrl ==> db'.urizLong[u] == db.urizLong[u])
  {
  }
}
