/**
 * Password generation for the cluster provisioner: the alphabet `$CHARS`
 * and `random_password`, which appends one drawn character per step of the
 * inclusive range `0..length`.
 *
 * `rand($CHARS.size)` is not modelled as a random source: the draws it would
 * return are passed in as a sequence of indices into the alphabet, so a
 * password is a deterministic function of the draws it consumes.
 */
module Passwords {

  /** Length `random_password` is called with when no argument is given. */
  const DefaultLength: int := 12

  /** Number of characters the default call returns: one more than its
      argument, because the loop range `0..length` includes both ends. */
  const GeneratedLength: nat := DefaultLength + 1

  /** The one-character strings `lo`, `lo+1`, ..., `hi`, as Ruby's
      `(lo..hi).to_a` lists a range of single ASCII characters (successive
      code points); empty when `lo` comes after `hi`. */
  function CharRange(lo: char, hi: char): (r: seq<char>)
    requires hi as int < 128
    ensures |r| == if lo <= hi then hi as int - lo as int + 1 else 0
    ensures forall i :: 0 <= i < |r| ==> r[i] as int == lo as int + i
    decreases hi as int + 1 - lo as int
  {
    if lo > hi then [] else [lo] + CharRange((lo as int + 1) as char, hi)
  }

  /** `$CHARS`: digits, upper case, lower case, then `#` to `&` and `:` to `?`. */
  const Chars: seq<char> :=
    CharRange('0', '9') + CharRange('A', 'Z') + CharRange('a', 'z')
    + CharRange('#', '&') + CharRange(':', '?')

  /** The alphabet described by its five ranges, independently of the order
      in which `Chars` lists them. */
  predicate InAlphabet(c: char) {
    || '0' <= c <= '9'
    || 'A' <= c <= 'Z'
    || 'a' <= c <= 'z'
    || '#' <= c <= '&'
    || ':' <= c <= '?'
  }

  /** Code point of the character at index `i` of `Chars`, range by range. */
  ghost function CodeAt(i: int): int {
    if i < 10 then '0' as int + i
    else if i < 36 then 'A' as int + (i - 10)
    else if i < 62 then 'a' as int + (i - 36)
    else if i < 66 then '#' as int + (i - 62)
    else ':' as int + (i - 66)
  }

  lemma CharsAt(i: int)
    requires 0 <= i < |Chars|
    ensures Chars[i] as int == CodeAt(i)
  {
    var digits, upper, lower := CharRange('0', '9'), CharRange('A', 'Z'), CharRange('a', 'z');
    var low, colon := CharRange('#', '&'), CharRange(':', '?');
    assert Chars == digits + upper + lower + low + colon;
    if i < 10 {
      assert Chars[i] == digits[i];
    } else if i < 36 {
      assert Chars[i] == upper[i - 10];
    } else if i < 62 {
      assert Chars[i] == lower[i - 36];
    } else if i < 66 {
      assert Chars[i] == low[i - 62];
    } else {
      assert Chars[i] == colon[i - 66];
    }
  }

  /** The alphabet has 72 characters, so `rand($CHARS.size)` is `rand(72)`. */
  lemma AlphabetSize()
    ensures |Chars| == 72
    ensures |CharRange('#', '&')| == 4 && |CharRange(':', '?')| == 6
  {
  }

  /** No character occurs twice in `Chars`: every draw names a different
      character. */
  lemma AlphabetDistinct()
    ensures forall i, j :: 0 <= i < j < |Chars| ==> Chars[i] != Chars[j]
  {
    forall i, j | 0 <= i < j < |Chars|
      ensures Chars[i] != Chars[j]
    {
      CharsAt(i);
      CharsAt(j);
    }
  }

  /** `Chars` holds exactly the characters of the five ranges. */
  lemma AlphabetMembership(c: char)
    ensures c in Chars <==> InAlphabet(c)
  {
    if c in Chars {
      var i :| 0 <= i < |Chars| && Chars[i] == c;
      CharsAt(i);
    }
    if '0' <= c <= '9' {
      InCharsAt(c, c as int - '0' as int);
    } else if 'A' <= c <= 'Z' {
      InCharsAt(c, c as int - 'A' as int + 10);
    } else if 'a' <= c <= 'z' {
      InCharsAt(c, c as int - 'a' as int + 36);
    } else if '#' <= c <= '&' {
      InCharsAt(c, c as int - '#' as int + 62);
    } else if ':' <= c <= '?' {
      InCharsAt(c, c as int - ':' as int + 66);
    }
  }

  lemma InCharsAt(c: char, i: int)
    requires 0 <= i < |Chars| && CodeAt(i) == c as int
    ensures c in Chars
  {
    CharsAt(i);
    assert Chars[i] == c;
  }

  /** Every draw is a value `rand($CHARS.size)` can return. */
  predicate Draws(rolls: seq<int>) {
    forall i :: 0 <= i < |rolls| ==> 0 <= rolls[i] < |Chars|
  }

  /** The password spelled by a sequence of draws, one character per draw. */
  function Spelled(rolls: seq<int>): seq<char>
    requires Draws(rolls)
  {
    seq(|rolls|, i requires 0 <= i < |rolls| => Chars[rolls[i]])
  }

  /** A spelled password uses only characters of the five ranges. */
  lemma SpelledInAlphabet(rolls: seq<int>)
    requires Draws(rolls)
    ensures |Spelled(rolls)| == |rolls|
    ensures forall i :: 0 <= i < |rolls| ==> InAlphabet(Spelled(rolls)[i])
  {
    forall i | 0 <= i < |rolls|
      ensures InAlphabet(Spelled(rolls)[i])
    {
      AlphabetMembership(Spelled(rolls)[i]);
    }
  }

  /** `random_password(length)`: one character per value of the inclusive
      range `0..length`, the k-th taken from `Chars` at the k-th draw.
      A negative length gives an empty range and so the empty password. */
  method RandomPassword(rolls: seq<int>, length: int := DefaultLength) returns (p: string)
    requires Draws(rolls)
    requires length + 1 <= |rolls|
    ensures length >= 0 ==> |p| == length + 1
    ensures length < 0 ==> p == ""
    ensures forall i :: 0 <= i < |p| ==> p[i] == Chars[rolls[i]]
  {
    p := "";
    var k := 0;
    while k <= length
      invariant 0 <= k
      invariant if length < 0 then k == 0 else k <= length + 1
      invariant |p| == k
      invariant forall i :: 0 <= i < k ==> p[i] == Chars[rolls[i]]
    {
      p := p + [Chars[rolls[k]]];
      k := k + 1;
    }
  }
}
