/**
 * The lookup-or-create policy of `_ensure_url` and `_add_url` in
 * uriz/views.py, as functions of the tables and the random draws.
 */
module Shortening {
  import opened Wrappers
  import opened Tokens
  import opened Store

  /** The token length used when settings give no DEFAULT_SHORT_TOKEN_LENGTH. */
  const FallbackTokenLength: int := 5

  /** `getattr(settings, 'DEFAULT_SHORT_TOKEN_LENGTH', 5)`. */
  function ConfiguredTokenLength(setting: Option<int>): (n: int)
    ensures setting.Some? ==> n == setting.value
    ensures setting.None? ==> n == 5
  {
    match setting
    case Some(n) => n
    case None => FallbackTokenLength
  }

  /** The loop variables of `_add_url` before an attempt. */
  datatype Attempt = Attempt(tokenLen: int, defaultLenTries: nat)

  /**
   * How a collision updates the loop variables: exactly one of them grows by
   * one, and it is the length once more than four tries were spent at it.
   */
  function AfterCollision(s: Attempt): (s': Attempt)
    ensures s'.tokenLen + s'.defaultLenTries == s.tokenLen + s.defaultLenTries + 1
    ensures s'.tokenLen > s.tokenLen <==> s.defaultLenTries > 4
    ensures s'.tokenLen == s.tokenLen || s'.defaultLenTries == s.defaultLenTries
  {
    if s.defaultLenTries > 4 then s.(tokenLen := s.tokenLen + 1)
    else s.(defaultLenTries := s.defaultLenTries + 1)
  }

  /** The loop variables before attempt `k` (0-based), that is, after `k` collisions. */
  function AttemptAfter(defaultLen: int, k: nat): Attempt
    decreases k
  {
    if k == 0 then Attempt(defaultLen, 0) else AfterCollision(AttemptAfter(defaultLen, k - 1))
  }

  /**
   * The growth rule in closed form: the first six attempts (k = 0..5) use the
   * default length, and each later attempt is one character longer.
   */
  lemma {:induction false} CollisionSchedule(defaultLen: int, k: nat)
    ensures AttemptAfter(defaultLen, k) ==
      if k <= 5 then Attempt(defaultLen, k) else Attempt(defaultLen + (k - 5), 5)
    decreases k
  {
    if k > 0 {
      CollisionSchedule(defaultLen, k - 1);
    }
  }

  /** The requested length never drops below the default and stays there exactly for attempts 0..5. */
  lemma DefaultLengthFirst(defaultLen: int, k: nat)
    ensures AttemptAfter(defaultLen, k).tokenLen >= defaultLen
    ensures AttemptAfter(defaultLen, k).tokenLen == defaultLen <==> k <= 5
  {
    CollisionSchedule(defaultLen, k);
  }

  /** From the sixth collision on, each collision raises the requested length by exactly one. */
  lemma GrowthByOne(defaultLen: int, k: nat)
    requires k >= 5
    ensures AttemptAfter(defaultLen, k + 1).tokenLen == AttemptAfter(defaultLen, k).tokenLen + 1
  {
    CollisionSchedule(defaultLen, k);
    CollisionSchedule(defaultLen, k + 1);
  }

  /** The number of draws attempt `k` consumes. */
  function CandidateLength(defaultLen: int, k: nat): nat {
    TokenLength(AttemptAfter(defaultLen, k).tokenLen)
  }

  /**
   * The token `_add_url`'s loop settles on, starting at attempt `k` with the
   * draws `draws` still unread: the first candidate absent from `taken`.
   * None when the draws run out first (the source would keep looping).
   * A token it settles on was free, is well formed, and is at least as long
   * as the default length asks for.
   */
  function Allocate(taken: set<string>, defaultLen: int, k: nat, draws: seq<nat>): (r: Option<string>)
    ensures r.Some? ==> r.value !in taken && IsToken(r.value) && |r.value| >= TokenLength(defaultLen)
    decreases |draws|
  {
    var n := CandidateLength(defaultLen, k);
    DefaultLengthFirst(defaultLen, k);
    if |draws| < n then None
    else if Spell(draws[..n]) !in taken then Some(Spell(draws[..n]))
    else Allocate(taken, defaultLen, k + 1, draws[n..])
  }

  /** The outcome of `_ensure_url`: the token (None if the draws ran out) and the tables afterwards. */
  datatype Shortened = Shortened(token: Option<string>, db: Db)

  /**
   * `_ensure_url`: a non-empty token already recorded for `longUrl` is
   * returned as is; otherwise `_add_url` allocates a fresh token and stores
   * the forward and reverse rows. Whatever it returns is non-empty and is
   * afterwards the URL's reverse entry; no forward row disappears; when it
   * returns None nothing changed.
   */
  function Shorten(db: Db, longUrl: string, created: int, defaultLen: int, draws: seq<nat>): (r: Shortened)
    ensures r.token.Some? ==>
              && r.token.value != []
              && longUrl in r.db.urizLong
              && r.db.urizLong[longUrl] == r.token.value
    ensures r.token.None? ==> r.db == db
    ensures db.uriz.Keys <= r.db.uriz.Keys
  {
    var existing := FetchToken(db.urizLong, longUrl);
    if existing.Some? && existing.value != [] then Shortened(existing, db)
    else match Allocate(db.uriz.Keys, defaultLen, 0, draws)
      case None => Shortened(None, db)
      case Some(t) => Shortened(Some(t), WithNewUrl(db, t, longUrl, created))
  }

  /** With a token already recorded for `longUrl`, shortening returns it and changes nothing. */
  lemma ShortenExisting(db: Db, longUrl: string, created: int, defaultLen: int, draws: seq<nat>)
    requires longUrl in db.urizLong && db.urizLong[longUrl] != []
    ensures Shorten(db, longUrl, created, defaultLen, draws) == Shortened(Some(db.urizLong[longUrl]), db)
  {
  }

  /**
   * When a new token is minted, it was absent from `uriz`, every older
   * record is left as it was, and the new rows carry the URL with no visits.
   */
  lemma ShortenNeverOverwrites(db: Db, longUrl: string, created: int, defaultLen: int, draws: seq<nat>)
    requires longUrl !in db.urizLong || db.urizLong[longUrl] == []
    requires Shorten(db, longUrl, created, defaultLen, draws).token.Some?
    ensures var s := Shorten(db, longUrl, created, defaultLen, draws);
      && s.token.value !in db.uriz
      && |s.token.value| >= TokenLength(defaultLen)
      && s.db.uriz == db.uriz[s.token.value := UrlRecord(s.token.value, created, longUrl, 0)]
      && s.db.urizLong == db.urizLong[longUrl := s.token.value]
  {
  }

  /** Shortening keeps the tables consistent. */
  lemma ShortenKeepsConsistent(db: Db, longUrl: string, created: int, defaultLen: int, draws: seq<nat>)
    requires Consistent(db)
    ensures Consistent(Shorten(db, longUrl, created, defaultLen, draws).db)
  {
    var existing := FetchToken(db.urizLong, longUrl);
    var a := Allocate(db.uriz.Keys, defaultLen, 0, draws);
    if !(existing.Some? && existing.value != []) && a.Some? {
      NewUrlKeepsConsistent(db, a.value, longUrl, created);
    }
  }

  /**
   * Sequential idempotence: once `longUrl` has been given token `t`, a second
   * call returns `t` again and changes nothing, whatever time, length setting
   * or draws it gets.
   */
  lemma ShortenIdempotent(db: Db, longUrl: string, created: int, defaultLen: int, draws: seq<nat>,
                          created': int, defaultLen': int, draws': seq<nat>)
    requires Shorten(db, longUrl, created, defaultLen, draws).token.Some?
    ensures var first := Shorten(db, longUrl, created, defaultLen, draws);
      Shorten(first.db, longUrl, created', defaultLen', draws') == first
  {
  }

  /** A redirect through the token that shortening returned leads back to the long URL. */
  lemma ShortenThenRedirect(db: Db, longUrl: string, created: int, defaultLen: int, draws: seq<nat>)
    requires Consistent(db)
    requires Shorten(db, longUrl, created, defaultLen, draws).token.Some?
    ensures var s := Shorten(db, longUrl, created, defaultLen, draws);
      Redirect(s.db, s.token.value).target == Found(longUrl)
  {
  }
}
