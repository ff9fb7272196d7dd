/** Strings as Go's strings and strconv packages handle them: split, join, decimal numbers. */
module Texts {
  import opened Options

  // strings.Split with a one-character separator.
  function Split(s: string, sep: char): (pieces: seq<string>)
    ensures pieces != []
  {
    if s == "" then [""]
    else
      var rest := Split(s[1..], sep);
      if s[0] == sep then [""] + rest else [[s[0]] + rest[0]] + rest[1..]
  }

  // strings.Join
  function Join(pieces: seq<string>, sep: string): string {
    if pieces == [] then ""
    else if |pieces| == 1 then pieces[0]
    else pieces[0] + sep + Join(pieces[1..], sep)
  }

  function Occurrences(s: string, c: char): nat {
    if s == "" then 0 else (if s[0] == c then 1 else 0) + Occurrences(s[1..], c)
  }

  ghost predicate AllFree(pieces: seq<string>, c: char) {
    forall i :: 0 <= i < |pieces| ==> c !in pieces[i]
  }

  lemma {:induction false} SplitPiecesAreFree(s: string, sep: char)
    ensures AllFree(Split(s, sep), sep)
    ensures |Split(s, sep)| == 1 + Occurrences(s, sep)
  {
    if s != "" { SplitPiecesAreFree(s[1..], sep); }
  }

  lemma {:induction false} JoinSplit(s: string, sep: char)
    ensures Join(Split(s, sep), [sep]) == s
  {
    if s != "" {
      var rest := Split(s[1..], sep);
      JoinSplit(s[1..], sep);
      if s[0] == sep {
        assert ([""] + rest)[1..] == rest;
      } else {
        var whole := [[s[0]] + rest[0]] + rest[1..];
        assert whole[1..] == rest[1..];
        assert s == [s[0]] + s[1..];
        if |rest| > 1 {
          assert [s[0]] + (rest[0] + [sep] + Join(rest[1..], [sep])) == ([s[0]] + rest[0]) + [sep] + Join(rest[1..], [sep]);
        }
      }
    }
  }

  lemma {:induction false} SplitOfFree(p: string, sep: char)
    requires sep !in p
    ensures Split(p, sep) == [p]
  {
    if p != "" {
      SplitOfFree(p[1..], sep);
      assert p == [p[0]] + p[1..];
    }
  }

  lemma {:induction false} SplitAtFirst(p: string, sep: char, rest: string)
    requires sep !in p
    ensures Split(p + [sep] + rest, sep) == [p] + Split(rest, sep)
  {
    var s := p + [sep] + rest;
    if p == "" {
      assert s[1..] == rest;
    } else {
      SplitAtFirst(p[1..], sep, rest);
      assert s[1..] == p[1..] + [sep] + rest;
      assert p == [p[0]] + p[1..];
    }
  }

  /** Splitting what was joined gives the pieces back exactly when no piece contains the separator. */
  lemma {:induction false} SplitJoin(pieces: seq<string>, sep: char)
    requires pieces != []
    ensures Split(Join(pieces, [sep]), sep) == pieces <==> AllFree(pieces, sep)
  {
    if Split(Join(pieces, [sep]), sep) == pieces { SplitPiecesAreFree(Join(pieces, [sep]), sep); }
    if AllFree(pieces, sep) {
      if |pieces| == 1 {
        SplitOfFree(pieces[0], sep);
      } else {
        SplitJoin(pieces[1..], sep);
        SplitAtFirst(pieces[0], sep, Join(pieces[1..], [sep]));
        assert pieces == [pieces[0]] + pieces[1..];
      }
    }
  }

  predicate OccursAt(text: string, part: string, i: int) {
    0 <= i <= |text| - |part| && text[i..i + |part|] == part
  }

  // strings.Contains
  ghost predicate Contains(text: string, part: string) {
    exists i :: OccursAt(text, part, i)
  }

  lemma ContainsMiddle(before: string, part: string, after: string)
    ensures Contains(before + part + after, part)
  {
    assert OccursAt(before + part + after, part, |before|);
  }

  lemma CharsOfOccurrence(text: string, part: string, i: int, k: int)
    requires OccursAt(text, part, i) && i <= k < i + |part|
    ensures k < |text| && text[k] == part[k - i] && text[k] in part
  {
    assert text[i..i + |part|][k - i] == text[k];
  }

  lemma OccurrenceStopsBefore(text: string, part: string, i: int, end: int)
    requires OccursAt(text, part, i) && i <= end < |text| && text[end] !in part
    ensures i + |part| <= end
  {
    hide OccursAt;
    if end < i + |part| { CharsOfOccurrence(text, part, i, end); }
  }

  lemma ContainedInMiddle(before: string, middle: string, after: string, part: string)
    requires part != "" && part[0] !in before && part[0] !in after
    requires after != "" && after[0] !in part
    ensures Contains(before + middle + after, part) <==> Contains(middle, part)
  {
    var (text, n) := (before + middle + after, |before|);
    if Contains(middle, part) {
      var i :| OccursAt(middle, part, i);
      assert text[n + i..n + i + |part|] == middle[i..i + |part|];
      assert OccursAt(text, part, n + i);
    }
    if Contains(text, part) {
      var i :| OccursAt(text, part, i);
      CharsOfOccurrence(text, part, i, i);
      assert text[n + |middle|] == after[0];
      OccurrenceStopsBefore(text, part, i, n + |middle|);
      assert middle[i - n..i - n + |part|] == text[i..i + |part|];
      assert OccursAt(middle, part, i - n);
    }
  }

  // The text before the first c, and from there on.
  function Cut(s: string, c: char): (string, string) {
    if s == "" || s[0] == c then ("", s)
    else
      var (before, from) := Cut(s[1..], c);
      ([s[0]] + before, from)
  }

  lemma {:induction false} CutAtFirst(before: string, from: string, c: char)
    requires c !in before && (from == "" || from[0] == c)
    ensures Cut(before + from, c) == (before, from)
  {
    if before == "" {
      assert before + from == from;
    } else {
      CutAtFirst(before[1..], from, c);
      assert (before + from)[1..] == before[1..] + from;
      assert before == [before[0]] + before[1..];
    }
  }

  // ----- decimal numbers -----

  function DigitChar(d: int): char
    requires 0 <= d < 10
  {
    '0' + d as char
  }

  function DigitValue(c: char): Option<int> {
    if '0' <= c <= '9' then Some(c as int - '0' as int) else None
  }

  function NatText(n: nat): (s: string)
    ensures s != "" && forall i :: 0 <= i < |s| ==> '0' <= s[i] <= '9'
  {
    if n < 10 then [DigitChar(n)] else NatText(n / 10) + [DigitChar(n % 10)]
  }

  // strconv.Itoa
  function Itoa(n: int): string {
    if n < 0 then "-" + NatText(-n) else NatText(n)
  }

  function ParseNat(s: string): Option<int> {
    if s == "" then None
    else
      match DigitValue(s[|s| - 1])
      case None => None
      case Some(d) =>
        if |s| == 1 then Some(d)
        else
          match ParseNat(s[..|s| - 1])
          case None => None
          case Some(high) => Some(10 * high + d)
  }

  function ParseInt(s: string): Option<int> {
    if s != "" && s[0] == '-' then
      match ParseNat(s[1..])
      case None => None
      case Some(n) => Some(-n)
    else ParseNat(s)
  }

  lemma {:induction false} ParseNatText(n: nat)
    ensures ParseNat(NatText(n)) == Some(n)
  {
    if n >= 10 {
      ParseNatText(n / 10);
      var s := NatText(n);
      assert s[..|s| - 1] == NatText(n / 10);
    }
  }

  lemma ParseNegative(s: string)
    ensures ParseInt("-" + s) == match ParseNat(s) case None => None case Some(n) => Some(-n)
  {
    assert ("-" + s)[1..] == s;
  }

  /** Printing an integer and reading it back is the identity. */
  lemma ParseItoa(n: int)
    ensures ParseInt(Itoa(n)) == Some(n)
  {
    hide NatText;
    if n < 0 {
      ParseNatText(-n);
      ParseNegative(NatText(-n));
    } else {
      ParseNatText(n);
      assert NatText(n)[0] != '-';
    }
  }
}
