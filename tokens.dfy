/**
 * Short-token generation (`_random_token` and its alphabets in uriz/views.py).
 *
 * The random source is an oracle: `draws` lists the values the generator's
 * successive `random.choice` calls pick, and a draw `d` taken from alphabet
 * `a` selects `a[d % |a|]`.
 */
module Tokens {

  /** Digits used at every third position; 0 and 1 are left out. */
  const IdNums: seq<char> := ['2', '3', '4', '5', '6', '7', '8', '9']

  /** Letters; 'l', 'o' and 'O' are left out. */
  const IdChars: seq<char> :=
    ['a', 'b', 'c', 'd', 'e', 'f', 'g', 'h', 'i', 'j', 'k', 'm', 'n', 'p', 'q', 'r'] +
    ['s', 't', 'u', 'v', 'w', 'x', 'y', 'z', 'A', 'B', 'C', 'D', 'E', 'F', 'G', 'H'] +
    ['I', 'J', 'K', 'L', 'M', 'N', 'P', 'Q', 'R', 'S', 'T', 'U', 'V', 'W', 'X', 'Y'] +
    ['Z']

  const IdAlphanum: seq<char> := IdNums + IdChars

  /** The characters that are hard to tell apart and never appear in a token. */
  const Ambiguous: set<char> := {'0', '1', 'l', 'o', 'O'}

  /** The alphabet drawn from at 1-indexed position `p`: `_ID_NUMS` when `p % 3 == 0`, else `_ID_ALPHANUM`. */
  function AlphabetAt(p: nat): seq<char> {
    if p % 3 == 0 then IdNums else IdAlphanum
  }

  /** The character a draw `d` selects at 1-indexed position `p`. */
  function Pick(p: nat, d: nat): char {
    var a := AlphabetAt(p);
    a[d % |a|]
  }

  /** The number of characters `_random_token(tokenLen)` produces: the first is always drawn. */
  function TokenLength(tokenLen: int): nat {
    if tokenLen < 1 then 1 else tokenLen
  }

  /**
   * The token spelled by a sequence of draws: one character per draw, the
   * character at each position fixed by that position's draw alone.
   */
  function Spell(draws: seq<nat>): (t: string)
    ensures |t| == |draws|
    ensures forall i :: 0 <= i < |t| ==> t[i] == Pick(i + 1, draws[i])
  {
    seq(|draws|, i requires 0 <= i < |draws| => Pick(i + 1, draws[i]))
  }

  /** A well-formed token: non-empty, each position drawn from its alphabet. */
  predicate IsToken(t: string) {
    |t| >= 1 && forall i :: 0 <= i < |t| ==> t[i] in AlphabetAt(i + 1)
  }

  /**
   * `_random_token`: draws the first character from `_ID_ALPHANUM`
   * unconditionally, then appends one character per position `nextChar` up to
   * `tokenLen`, picked from `AlphabetAt(nextChar)`, so a digit at every
   * position divisible by 3.
   */
  method RandomToken(tokenLen: int, draws: seq<nat>) returns (token: string)
    requires |draws| >= TokenLength(tokenLen)
    ensures |token| == TokenLength(tokenLen)
    ensures IsToken(token)
    ensures forall i :: 0 <= i < |token| && (i + 1) % 3 == 0 ==> token[i] in IdNums
    ensures token == Spell(draws[..|token|])
  {
    token := [Pick(1, draws[0])];
    var nextChar := 2;
    while nextChar <= tokenLen
      invariant 2 <= nextChar <= TokenLength(tokenLen) + 1
      invariant |token| == nextChar - 1
      invariant token == Spell(draws)[..nextChar - 1]
    {
      var c := Pick(nextChar, draws[nextChar - 1]);
      token := token + [c];
      nextChar := nextChar + 1;
    }
    SpellPrefix(draws, |token|);
    SpellIsToken(draws[..|token|]);
  }

  /** The first `n` draws spell the first `n` characters of the whole spelling. */
  lemma SpellPrefix(draws: seq<nat>, n: nat)
    requires n <= |draws|
    ensures Spell(draws[..n]) == Spell(draws)[..n]
  {
    var whole := Spell(draws);
    var prefix := Spell(draws[..n]);
    forall i | 0 <= i < n
      ensures prefix[i] == whole[i]
    {
      assert draws[..n][i] == draws[i];
    }
  }

  /**
   * Any non-empty run of draws spells a well-formed token, with a digit of
   * `_ID_NUMS` at every 1-indexed position divisible by 3.
   */
  lemma SpellIsToken(draws: seq<nat>)
    requires |draws| >= 1
    ensures IsToken(Spell(draws))
    ensures forall i :: 0 <= i < |draws| && (i + 1) % 3 == 0 ==> Spell(draws)[i] in IdNums
  {
    var t := Spell(draws);
    forall i | 0 <= i < |t|
      ensures t[i] in AlphabetAt(i + 1)
    {
      var a := AlphabetAt(i + 1);
      assert t[i] == a[draws[i] % |a|];
    }
  }

  /** `_ID_NUMS` is exactly the digits 2-9. */
  lemma DigitsAreTwoToNine(c: char)
    ensures c in IdNums <==> '2' <= c <= '9'
  {
  }

  /** Each ambiguous character is absent from `_ID_ALPHANUM`. */
  lemma ZeroLeftOut()
    ensures '0' !in IdAlphanum
  {
  }

  lemma OneLeftOut()
    ensures '1' !in IdAlphanum
  {
  }

  lemma LowerLLeftOut()
    ensures 'l' !in IdAlphanum
  {
  }

  lemma LowerOLeftOut()
    ensures 'o' !in IdAlphanum
  {
  }

  lemma UpperOLeftOut()
    ensures 'O' !in IdAlphanum
  {
  }

  /** No character of `_ID_ALPHANUM`, and so of `_ID_NUMS`, is ambiguous. */
  lemma AlphabetsAvoidAmbiguous(c: char)
    ensures c in IdAlphanum ==> c !in Ambiguous
  {
    ZeroLeftOut();
    OneLeftOut();
    LowerLLeftOut();
    LowerOLeftOut();
    UpperOLeftOut();
  }

  /**
   * A well-formed token never holds '0', '1', 'l', 'o' or 'O', and every
   * character at a 1-indexed position divisible by 3 is a digit 2-9.
   */
  lemma TokenCharacters(t: string)
    requires IsToken(t)
    ensures forall i :: 0 <= i < |t| ==> t[i] !in Ambiguous
    ensures forall i :: 0 <= i < |t| && (i + 1) % 3 == 0 ==> '2' <= t[i] <= '9'
    ensures forall i :: 0 <= i < |t| && (i + 1) % 3 != 0 ==> t[i] in IdAlphanum
  {
    forall i | 0 <= i < |t|
      ensures t[i] !in Ambiguous
      ensures (i + 1) % 3 == 0 ==> '2' <= t[i] <= '9'
    {
      AlphabetsAvoidAmbiguous(t[i]);
      DigitsAreTwoToNine(t[i]);
    }
  }
}
