/**
 * The three shapes of JavaScript regular expression that the validators use, over a
 * small language of character classes:
 *   `/^[k]+$/`        one or more characters of one class, anchored at both ends;
 *   `/^k0k1...kn$/`   exactly one character per class, in order (`\d{2}` is two Digit classes);
 *   `/[k]/`           unanchored: some character of the class occurs.
 * None of the expressions has the `m` flag, so `^` and `$` anchor to the whole string.
 */
module Patterns {
  import Text

  datatype CharClass =
    | Digit        // `\d` and `0-9`
    | UpperAscii   // `A-Z`
    | LowerAscii   // `a-z`
    | Letter       // `\p{L}` (with the `u` flag)
    | Space        // `\s`
    | Lit(c: char)
    | Either(left: CharClass, right: CharClass)

  /**
   * The Unicode letters (general category L) of the Basic Latin, Latin-1 Supplement and
   * Latin Extended-A and -B blocks.
   */
  predicate IsLetter(c: char) {
    || ('A' <= c <= 'Z') || ('a' <= c <= 'z')
    || c == '\U{00AA}' || c == '\U{00B5}' || c == '\U{00BA}'
    || ('\U{00C0}' <= c <= '\U{00D6}') || ('\U{00D8}' <= c <= '\U{00F6}')
    || ('\U{00F8}' <= c <= '\U{024F}')
  }

  predicate In(c: char, k: CharClass) {
    match k
    case Digit => '0' <= c <= '9'
    case UpperAscii => 'A' <= c <= 'Z'
    case LowerAscii => 'a' <= c <= 'z'
    case Letter => IsLetter(c)
    case Space => Text.IsSpace(c)
    case Lit(d) => c == d
    case Either(l, r) => In(c, l) || In(c, r)
  }

  /** `k{n}`: the class repeated `n` times. */
  function Repeat(k: CharClass, n: nat): (ks: seq<CharClass>)
    ensures |ks| == n && forall i :: 0 <= i < n ==> ks[i] == k
  {
    if n == 0 then [] else [k] + Repeat(k, n - 1)
  }

  /** `/^[k]+$/`, read left to right: a class character, then either the end or another match. */
  predicate MatchesPlus(s: string, k: CharClass)
    decreases |s|
  {
    s != [] && In(s[0], k) && (|s| == 1 || MatchesPlus(s[1..], k))
  }

  /** `/^[k]+$/` accepts exactly the non-empty strings made only of class characters. */
  lemma {:induction false} MatchesPlusIff(s: string, k: CharClass)
    ensures MatchesPlus(s, k) <==> s != [] && forall i :: 0 <= i < |s| ==> In(s[i], k)
    decreases |s|
  {
    if |s| > 1 {
      MatchesPlusIff(s[1..], k);
      if forall i :: 0 <= i < |s| ==> In(s[i], k) {
        assert forall i :: 0 <= i < |s| - 1 ==> In(s[1..][i], k) by {
          forall i | 0 <= i < |s| - 1 ensures In(s[1..][i], k) {
            assert s[1..][i] == s[i + 1];
          }
        }
      }
      if MatchesPlus(s, k) {
        forall i | 0 <= i < |s| ensures In(s[i], k) {
          if i > 0 {
            assert s[i] == s[1..][i - 1];
          }
        }
      }
    }
  }

  /** `/^k0k1...kn$/`: one character per class, in order, and nothing else. */
  predicate MatchesSeq(s: string, ks: seq<CharClass>)
    decreases |ks|
  {
    if ks == [] then s == []
    else s != [] && In(s[0], ks[0]) && MatchesSeq(s[1..], ks[1..])
  }

  /** `/^k0k1...kn$/` accepts exactly the strings as long as the pattern, position by position. */
  lemma {:induction false} MatchesSeqIff(s: string, ks: seq<CharClass>)
    ensures MatchesSeq(s, ks) <==> |s| == |ks| && forall i :: 0 <= i < |s| ==> In(s[i], ks[i])
    decreases |ks|
  {
    if ks != [] && s != [] {
      MatchesSeqIff(s[1..], ks[1..]);
      if |s| == |ks| && forall i :: 0 <= i < |s| ==> In(s[i], ks[i]) {
        forall i | 0 <= i < |s| - 1 ensures In(s[1..][i], ks[1..][i]) {
          assert s[1..][i] == s[i + 1] && ks[1..][i] == ks[i + 1];
        }
      }
      if MatchesSeq(s, ks) {
        forall i | 0 <= i < |s| ensures In(s[i], ks[i]) {
          if i > 0 {
            assert s[i] == s[1..][i - 1] && ks[i] == ks[1..][i - 1];
          }
        }
      }
    }
  }

  /** Unanchored `/[k]/`: scans for a class character. */
  predicate Finds(s: string, k: CharClass)
    decreases |s|
  {
    s != [] && (In(s[0], k) || Finds(s[1..], k))
  }

  /** Unanchored `/[k]/` holds exactly when some character of `s` is in the class. */
  lemma {:induction false} FindsIff(s: string, k: CharClass)
    ensures Finds(s, k) <==> exists i :: 0 <= i < |s| && In(s[i], k)
    decreases |s|
  {
    if s != [] {
      FindsIff(s[1..], k);
      if Finds(s[1..], k) {
        var i :| 0 <= i < |s| - 1 && In(s[1..][i], k);
        assert s[i + 1] == s[1..][i];
      }
      if exists i :: 0 <= i < |s| && In(s[i], k) {
        var i :| 0 <= i < |s| && In(s[i], k);
        if i > 0 {
          assert s[1..][i - 1] == s[i];
        }
      }
    }
  }
}
