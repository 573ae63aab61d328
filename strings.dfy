/**
 * Literal text replacement as `String.prototype.replace` performs it with a
 * global regular expression made of plain characters: the text is scanned
 * left to right, and at every position where the pattern starts, the pattern
 * is replaced and the scan resumes after it.
 *
 * `Split` cuts a text at the same occurrences; the lemmas show that replacing
 * is joining the pieces with the replacement, that joining them with the
 * pattern gives the text back, and that no piece contains the pattern.
 */
module Strings {

  /** `pat` starts at position `j` of `s`. */
  ghost predicate OccursAt(s: string, pat: string, j: int) {
    0 <= j && j + |pat| <= |s| && s[j..j + |pat|] == pat
  }

  /** `pat` occurs somewhere in `s`. */
  ghost predicate Occurs(s: string, pat: string) {
    exists j :: OccursAt(s, pat, j)
  }

  /** Every non-overlapping occurrence of `pat`, leftmost first, replaced by `rep`. */
  function ReplaceAll(s: string, pat: string, rep: string): (r: string)
    requires pat != []
    decreases |s|
  {
    if |s| < |pat| then s
    else if s[..|pat|] == pat then rep + ReplaceAll(s[|pat|..], pat, rep)
    else [s[0]] + ReplaceAll(s[1..], pat, rep)
  }

  /** The text between the occurrences `ReplaceAll` replaces: one piece more than there are occurrences. */
  function Split(s: string, pat: string): (pieces: seq<string>)
    requires pat != []
    ensures |pieces| >= 1
    decreases |s|
  {
    if |s| < |pat| then [s]
    else if s[..|pat|] == pat then [[]] + Split(s[|pat|..], pat)
    else
      var rest := Split(s[1..], pat);
      [[s[0]] + rest[0]] + rest[1..]
  }

  /** The pieces in order with `sep` between each two of them. */
  function Join(pieces: seq<string>, sep: string): (r: string)
    requires |pieces| >= 1
    decreases |pieces|
  {
    if |pieces| == 1 then pieces[0] else pieces[0] + sep + Join(pieces[1..], sep)
  }

  /** Prepending a character to the first piece prepends it to the joined text. */
  lemma JoinPrepend(c: char, pieces: seq<string>, sep: string)
    requires |pieces| >= 1
    ensures Join([[c] + pieces[0]] + pieces[1..], sep) == [c] + Join(pieces, sep)
  {
    var grown := [[c] + pieces[0]] + pieces[1..];
    assert grown[1..] == pieces[1..];
  }

  /** Replacing every occurrence is joining the pieces between them with the replacement. */
  lemma {:induction false} ReplaceAllIsJoin(s: string, pat: string, rep: string)
    requires pat != []
    ensures ReplaceAll(s, pat, rep) == Join(Split(s, pat), rep)
    decreases |s|
  {
    if |s| < |pat| {
    } else if s[..|pat|] == pat {
      var rest := Split(s[|pat|..], pat);
      ReplaceAllIsJoin(s[|pat|..], pat, rep);
      assert ([[]] + rest)[1..] == rest;
    } else {
      ReplaceAllIsJoin(s[1..], pat, rep);
      JoinPrepend(s[0], Split(s[1..], pat), rep);
    }
  }

  /** Replacing the pattern by itself changes nothing. */
  lemma {:induction false} ReplaceAllBySelf(s: string, pat: string)
    requires pat != []
    ensures ReplaceAll(s, pat, pat) == s
    decreases |s|
  {
    if |s| < |pat| {
    } else if s[..|pat|] == pat {
      ReplaceAllBySelf(s[|pat|..], pat);
      assert s == s[..|pat|] + s[|pat|..];
    } else {
      ReplaceAllBySelf(s[1..], pat);
      assert s == [s[0]] + s[1..];
    }
  }

  /** The pieces, joined again with the pattern, are the original text. */
  lemma SplitJoinRoundTrip(s: string, pat: string)
    requires pat != []
    ensures Join(Split(s, pat), pat) == s
  {
    ReplaceAllIsJoin(s, pat, pat);
    ReplaceAllBySelf(s, pat);
  }

  /** The first piece is a prefix of the text. */
  lemma {:induction false} SplitHeadIsPrefix(s: string, pat: string)
    requires pat != []
    ensures Split(s, pat)[0] <= s
    decreases |s|
  {
    if |s| < |pat| {
    } else if s[..|pat|] == pat {
    } else {
      SplitHeadIsPrefix(s[1..], pat);
    }
  }

  /** No piece contains the pattern: every occurrence was cut out. */
  lemma {:induction false} SplitPiecesAreFree(s: string, pat: string)
    requires pat != []
    ensures forall k :: 0 <= k < |Split(s, pat)| ==> !Occurs(Split(s, pat)[k], pat)
    decreases |s|
  {
    var pieces := Split(s, pat);
    if |s| < |pat| {
      assert pieces == [s];
      assert !Occurs(s, pat) by {
        forall j | OccursAt(s, pat, j) ensures false { }
      }
    } else if s[..|pat|] == pat {
      var rest := Split(s[|pat|..], pat);
      SplitPiecesAreFree(s[|pat|..], pat);
      assert pieces == [[]] + rest;
      assert !Occurs([], pat) by {
        forall j | OccursAt([], pat, j) ensures false { }
      }
      forall k | 0 <= k < |pieces| ensures !Occurs(pieces[k], pat) {
        if k > 0 { assert pieces[k] == rest[k - 1]; }
      }
    } else {
      var rest := Split(s[1..], pat);
      SplitPiecesAreFree(s[1..], pat);
      SplitHeadIsPrefix(s[1..], pat);
      var head := [s[0]] + rest[0];
      assert pieces == [head] + rest[1..];
      assert head <= s;
      assert !Occurs(head, pat) by {
        forall j | OccursAt(head, pat, j) ensures false {
          if j > 0 {
            assert rest[0][j - 1..j - 1 + |pat|] == head[j..j + |pat|];
            assert OccursAt(rest[0], pat, j - 1);
          }
        }
      }
      forall k | 0 <= k < |pieces| ensures !Occurs(pieces[k], pat) {
        if k > 0 { assert pieces[k] == rest[k]; }
      }
    }
  }

  /** A text without the pattern is returned unchanged. */
  lemma {:induction false} ReplaceAllAbsent(s: string, pat: string, rep: string)
    requires pat != []
    requires !Occurs(s, pat)
    ensures ReplaceAll(s, pat, rep) == s
    decreases |s|
  {
    if |s| < |pat| {
    } else {
      assert !OccursAt(s, pat, 0);
      assert !Occurs(s[1..], pat) by {
        forall j | OccursAt(s[1..], pat, j) ensures false {
          assert OccursAt(s, pat, j + 1);
        }
      }
      ReplaceAllAbsent(s[1..], pat, rep);
    }
  }

  /** A text that holds the pattern is cut into at least two pieces. */
  lemma {:induction false} OccursSplitsInTwo(s: string, pat: string)
    requires pat != []
    requires Occurs(s, pat)
    ensures |Split(s, pat)| >= 2
    decreases |s|
  {
    var j :| OccursAt(s, pat, j);
    if s[..|pat|] != pat {
      assert j > 0;
      assert s[1..][j - 1..j - 1 + |pat|] == s[j..j + |pat|];
      assert OccursAt(s[1..], pat, j - 1);
      OccursSplitsInTwo(s[1..], pat);
    }
  }

  /** With two or more pieces, the first separator follows the first piece. */
  lemma JoinFirstSeparator(pieces: seq<string>, sep: string)
    requires |pieces| >= 2
    ensures Join(pieces, sep)[|pieces[0]|..|pieces[0]| + |sep|] == sep
  {
    var head := pieces[0] + sep;
    assert Join(pieces, sep) == head + Join(pieces[1..], sep);
    assert head[|pieces[0]|..] == sep;
  }

  /** A shorter separator gives a shorter text once there is a separator at all. */
  lemma {:induction false} JoinShorter(pieces: seq<string>, a: string, b: string)
    requires |pieces| >= 1 && |a| < |b|
    ensures |Join(pieces, a)| + (if |pieces| >= 2 then 1 else 0) <= |Join(pieces, b)|
    decreases |pieces|
  {
    if |pieces| >= 2 {
      JoinShorter(pieces[1..], a, b);
    }
  }

  /** Joining the same two or more pieces with different separators gives different texts. */
  lemma JoinSeparatorMatters(pieces: seq<string>, a: string, b: string)
    requires |pieces| >= 2 && a != b
    ensures Join(pieces, a) != Join(pieces, b)
  {
    if |a| < |b| {
      JoinShorter(pieces, a, b);
    } else if |b| < |a| {
      JoinShorter(pieces, b, a);
    } else {
      JoinFirstSeparator(pieces, a);
      JoinFirstSeparator(pieces, b);
    }
  }

  /** Replacing leaves the text as it was exactly when the pattern is absent or replaced by itself. */
  lemma ReplaceAllUnchangedIff(s: string, pat: string, rep: string)
    requires pat != []
    ensures ReplaceAll(s, pat, rep) == s <==> !Occurs(s, pat) || rep == pat
  {
    if !Occurs(s, pat) {
      ReplaceAllAbsent(s, pat, rep);
    } else if rep == pat {
      ReplaceAllBySelf(s, pat);
    } else {
      OccursSplitsInTwo(s, pat);
      ReplaceAllIsJoin(s, pat, rep);
      SplitJoinRoundTrip(s, pat);
      JoinSeparatorMatters(Split(s, pat), rep, pat);
    }
  }

  predicate IsDigit(c: char) {
    '0' as int <= c as int <= '9' as int
  }

  predicate AllDigits(s: string) {
    forall k :: 0 <= k < |s| ==> IsDigit(s[k])
  }

  /** The number a string of decimal digits denotes, most significant first. */
  function DecimalValue(s: string): (n: nat)
    requires AllDigits(s)
    decreases |s|
  {
    if s == [] then 0
    else
      var last := s[|s| - 1];
      assert IsDigit(last);
      DecimalValue(s[..|s| - 1]) * 10 + (last as int - '0' as int)
  }

  /** Decimal digits of a natural number, most significant first, without leading zeros. */
  function NatToDecimal(n: nat): (r: string)
    ensures |r| >= 1
    ensures AllDigits(r)
    ensures r[0] == '0' ==> n == 0
    decreases n
  {
    var digit := ["0123456789"[n % 10]];
    if n < 10 then digit else NatToDecimal(n / 10) + digit
  }

  /** Reading the digits back gives the number. */
  lemma {:induction false} NatToDecimalRoundTrip(n: nat)
    ensures DecimalValue(NatToDecimal(n)) == n
    decreases n
  {
    var d := n % 10;
    var digit := "0123456789"[d];
    assert (digit as int) - ('0' as int) == d by {
      assert d == 0 || d == 1 || d == 2 || d == 3 || d == 4 || d == 5 || d == 6 || d == 7 || d == 8 || d == 9;
    }
    if n < 10 {
      assert NatToDecimal(n) == [digit];
      assert [digit][..0] == [];
    } else {
      var front := NatToDecimal(n / 10);
      NatToDecimalRoundTrip(n / 10);
      assert NatToDecimal(n) == front + [digit];
      assert (front + [digit])[..|front|] == front;
    }
  }

  /** An integer as JavaScript writes it: a minus sign before the digits of a negative one. */
  function IntToDecimal(n: int): (r: string)
    ensures |r| >= 1 && (r[0] == '-' <==> n < 0)
    ensures n >= 0 ==> AllDigits(r) && DecimalValue(r) == n
    ensures n < 0 ==> AllDigits(r[1..]) && DecimalValue(r[1..]) == -n
  {
    if n < 0 then
      var digits := NatToDecimal(-n);
      NatToDecimalRoundTrip(-n);
      assert ("-" + digits)[1..] == digits;
      "-" + digits
    else
      NatToDecimalRoundTrip(n);
      NatToDecimal(n)
  }
}
