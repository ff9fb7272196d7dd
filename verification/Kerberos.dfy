/**
 Kerberos principals carry a placeholder for the realm, which a generated sed command replaces when
 the pod starts.  The pattern of that command is a basic regular expression (section 9.3 of the Base
 Definitions volume of IEEE Std 1003.1): its "$" and braces stand for themselves there, and its "."
 matches any one character of the line.
 */
module Kerberos {
  import opened Options
  import opened Texts

  const PLACEHOLDER := "${env.KERBEROS_REALM}"
  const LENGTH := 21
  const WILDCARD := 5

  lemma PlaceholderFacts()
    ensures |PLACEHOLDER| == LENGTH
    ensures PLACEHOLDER[0] == '$' && PLACEHOLDER[1] == '{' && PLACEHOLDER[WILDCARD] == '.' && PLACEHOLDER[6] == 'K'
    ensures forall k :: 0 < k < LENGTH ==> PLACEHOLDER[k] != '$'
    ensures '\n' !in PLACEHOLDER
  {
  }

  // One character of a line against one position of the pattern.
  predicate Fits(c: char, k: int)
    requires 0 <= k < LENGTH
  {
    PlaceholderFacts();
    if k == WILDCARD then c != '\n' else c == PLACEHOLDER[k]
  }

  predicate Matches(window: string) {
    |window| == LENGTH && forall k :: 0 <= k < LENGTH ==> Fits(window[k], k)
  }

  predicate MatchesAt(s: string, i: int) {
    0 <= i <= |s| - LENGTH && Matches(s[i..i + LENGTH])
  }

  ghost predicate HasMatch(s: string) {
    exists i :: MatchesAt(s, i)
  }

  // The replacement part of the command, where "&" stands for the matched text.
  function Expand(realm: string, matched: string): string {
    if realm == "" then ""
    else (if realm[0] == '&' then matched else [realm[0]]) + Expand(realm[1..], matched)
  }

  // s/pattern/realm/g on text: leftmost matches, without overlap, each replaced.
  function Substitute(s: string, realm: string): string {
    if s == "" then ""
    else if MatchesAt(s, 0) then Expand(realm, s[..LENGTH]) + Substitute(s[LENGTH..], realm)
    else [s[0]] + Substitute(s[1..], realm)
  }

  function SubstituteLines(lines: seq<string>, realm: string): seq<string> {
    if lines == [] then [] else [Substitute(lines[0], realm)] + SubstituteLines(lines[1..], realm)
  }

  // sed -i with that command on a file: line by line.
  function Sed(file: string, realm: string): string {
    Join(SubstituteLines(Split(file, '\n'), realm), "\n")
  }

  // A realm that leaves the command one substitution: it does not end the replacement part or escape in it.
  predicate KeepsCommand(realm: string) {
    '\\' !in realm && '/' !in realm && '\n' !in realm
  }

  // A realm that sed takes as it is: free of "$" and of what the replacement part gives a meaning.
  predicate IsPlainRealm(realm: string) {
    '$' !in realm && '&' !in realm && KeepsCommand(realm)
  }

  lemma {:induction false} ExpandPlain(realm: string, matched: string)
    requires '&' !in realm
    ensures Expand(realm, matched) == realm
  {
    if realm != "" {
      ExpandPlain(realm[1..], matched);
      assert realm == [realm[0]] + realm[1..];
    }
  }

  // ----- scanning -----

  lemma MatchStartsWithDollar(s: string, i: int)
    requires MatchesAt(s, i)
    ensures s[i] == '$'
  {
    PlaceholderFacts();
    assert Fits(s[i..i + LENGTH][0], 0);
  }

  lemma NoNewlineInMatch(s: string, i: int, j: int)
    requires MatchesAt(s, i) && i <= j < i + LENGTH
    ensures s[j] != '\n'
  {
    PlaceholderFacts();
    assert Fits(s[i..i + LENGTH][j - i], j - i);
  }

  /** What the pattern matches: the placeholder, with any one character but a line break for its dot. */
  lemma PatternIs(window: string)
    ensures Matches(window) <==>
            |window| == 21 && window[..5] == "${env" && window[5] != '\n' && window[6..] == "KERBEROS_REALM}"
  {
    PlaceholderFacts();
    PlaceholderParts();
    hide PLACEHOLDER;
    if |window| == LENGTH {
      assert window[..5] == PLACEHOLDER[..5] <==> forall k :: 0 <= k < 5 ==> window[..5][k] == PLACEHOLDER[..5][k];
      assert window[6..] == PLACEHOLDER[6..] <==> forall k :: 0 <= k < 15 ==> window[6..][k] == PLACEHOLDER[6..][k];
      if Matches(window) {
        forall k | 0 <= k < 15 ensures window[6..][k] == PLACEHOLDER[6..][k] {
          assert Fits(window[6 + k], 6 + k);
        }
      }
      if window[..5] == PLACEHOLDER[..5] && window[5] != '\n' && window[6..] == PLACEHOLDER[6..] {
        forall k | 0 <= k < LENGTH ensures Fits(window[k], k) {
          if k < 5 {
            assert window[..5][k] == PLACEHOLDER[..5][k];
          } else if k > 5 {
            assert window[6..][k - 6] == PLACEHOLDER[6..][k - 6];
          }
        }
      }
    }
  }

  lemma PlaceholderParts()
    ensures |PLACEHOLDER| == LENGTH && PLACEHOLDER[..5] == "${env" && PLACEHOLDER[6..] == "KERBEROS_REALM}"
  {
  }

  // Only the text from i on decides whether there is a match at i.
  lemma MatchShifts(prefix: string, s: string, i: int)
    requires i >= 0
    ensures MatchesAt(prefix + s, |prefix| + i) <==> MatchesAt(s, i)
  {
    if i <= |s| - LENGTH {
      assert (prefix + s)[|prefix| + i..|prefix| + i + LENGTH] == s[i..i + LENGTH];
    }
  }

  lemma MatchInPrefix(s: string, tail: string)
    requires |s| >= LENGTH
    ensures MatchesAt(s + tail, 0) <==> MatchesAt(s, 0)
  {
    assert (s + tail)[0..LENGTH] == s[0..LENGTH];
  }

  lemma {:induction false} SkipUnmatched(prefix: string, s: string, realm: string)
    requires forall i :: 0 <= i < |prefix| ==> !MatchesAt(prefix + s, i)
    ensures Substitute(prefix + s, realm) == prefix + Substitute(s, realm)
  {
    if prefix == "" {
      assert prefix + s == s;
    } else {
      var rest := prefix[1..] + s;
      assert (prefix + s)[1..] == rest;
      forall i | 0 <= i < |prefix[1..]| ensures !MatchesAt(rest, i) {
        MatchShifts([prefix[0]], rest, i);
        assert [prefix[0]] + rest == prefix + s;
        assert !MatchesAt(prefix + s, i + 1);
      }
      SkipUnmatched(prefix[1..], s, realm);
      assert prefix == [prefix[0]] + prefix[1..];
    }
  }

  lemma SkipDollarFree(prefix: string, s: string, realm: string)
    requires '$' !in prefix
    ensures Substitute(prefix + s, realm) == prefix + Substitute(s, realm)
  {
    forall i | 0 <= i < |prefix| ensures !MatchesAt(prefix + s, i) {
      assert (prefix + s)[i] == prefix[i];
      if MatchesAt(prefix + s, i) { MatchStartsWithDollar(prefix + s, i); }
    }
    SkipUnmatched(prefix, s, realm);
  }

  lemma SubstituteAtHead(s: string, realm: string)
    ensures Substitute(PLACEHOLDER + s, realm) == Expand(realm, PLACEHOLDER) + Substitute(s, realm)
  {
    PlaceholderFacts();
    assert (PLACEHOLDER + s)[0..LENGTH] == PLACEHOLDER == (PLACEHOLDER + s)[..LENGTH];
    assert Matches(PLACEHOLDER);
    assert (PLACEHOLDER + s)[LENGTH..] == s;
  }

  lemma SubstituteHead(s: string, realm: string)
    requires '&' !in realm
    ensures Substitute(PLACEHOLDER + s, realm) == realm + Substitute(s, realm)
  {
    SubstituteAtHead(s, realm);
    ExpandPlain(realm, PLACEHOLDER);
  }

  lemma DollarFreeHasNoMatch(s: string)
    requires '$' !in s
    ensures !HasMatch(s)
  {
    forall i ensures !MatchesAt(s, i) {
      if MatchesAt(s, i) { MatchStartsWithDollar(s, i); }
    }
  }

  lemma UnmatchedIsKept(s: string, realm: string)
    requires !HasMatch(s)
    ensures Substitute(s, realm) == s
  {
    assert s + "" == s;
    SkipUnmatched(s, "", realm);
  }

  // ----- line by line is as good as all at once -----

  lemma {:induction false} SubstituteLine(line: string, rest: string, realm: string)
    requires '\n' !in line
    ensures Substitute(line + "\n" + rest, realm) == Substitute(line, realm) + "\n" + Substitute(rest, realm)
    decreases |line|
  {
    var s := line + "\n" + rest;
    if MatchesAt(s, 0) && |line| < LENGTH {
      NoNewlineInMatch(s, 0, |line|);
    }
    if line == "" {
      assert s[1..] == rest;
    } else if MatchesAt(s, 0) {
      MatchInPrefix(line, "\n" + rest);
      assert line + ("\n" + rest) == s;
      SubstituteLine(line[LENGTH..], rest, realm);
      assert s[LENGTH..] == line[LENGTH..] + "\n" + rest && s[..LENGTH] == line[..LENGTH];
    } else {
      if |line| >= LENGTH {
        MatchInPrefix(line, "\n" + rest);
        assert line + ("\n" + rest) == s;
      }
      SubstituteLine(line[1..], rest, realm);
      assert s[1..] == line[1..] + "\n" + rest;
    }
  }

  lemma {:induction false} LinesTogether(lines: seq<string>, realm: string)
    requires lines != [] && AllFree(lines, '\n')
    ensures Join(SubstituteLines(lines, realm), "\n") == Substitute(Join(lines, "\n"), realm)
  {
    if |lines| > 1 {
      LinesTogether(lines[1..], realm);
      SubstituteLine(lines[0], Join(lines[1..], "\n"), realm);
    }
  }

  /** sed works line by line, but no match spans a line break: the file is substituted as a whole. */
  lemma SedIsSubstitute(file: string, realm: string)
    ensures Sed(file, realm) == Substitute(file, realm)
  {
    SplitPiecesAreFree(file, '\n');
    JoinSplit(file, '\n');
    LinesTogether(Split(file, '\n'), realm);
  }

  // ----- documents built from placeholders -----

  lemma {:induction false} SubstituteJoin(segments: seq<string>, realm: string)
    requires AllFree(segments, '$') && '&' !in realm
    ensures Substitute(Join(segments, PLACEHOLDER), realm) == Join(segments, realm)
  {
    if |segments| == 1 {
      DollarFreeHasNoMatch(segments[0]);
      UnmatchedIsKept(segments[0], realm);
    } else if segments != [] {
      var rest := Join(segments[1..], PLACEHOLDER);
      SubstituteJoin(segments[1..], realm);
      assert segments[0] + PLACEHOLDER + rest == segments[0] + (PLACEHOLDER + rest);
      SkipDollarFree(segments[0], PLACEHOLDER + rest, realm);
      SubstituteHead(rest, realm);
      assert segments[0] + realm + Join(segments[1..], realm) == segments[0] + (realm + Join(segments[1..], realm));
    }
  }

  lemma {:induction false} JoinIsDollarFree(segments: seq<string>, realm: string)
    requires AllFree(segments, '$') && '$' !in realm
    ensures '$' !in Join(segments, realm)
  {
    if |segments| > 1 { JoinIsDollarFree(segments[1..], realm); }
  }

  /** On a document made of "$"-free segments joined by placeholders, sed puts the realm in the place of
      each placeholder and changes nothing else; no match is left, so a second run changes nothing. */
  lemma RealmIsSubstituted(segments: seq<string>, realm: string)
    requires AllFree(segments, '$') && IsPlainRealm(realm)
    ensures var result := Sed(Join(segments, PLACEHOLDER), realm);
            result == Join(segments, realm) && !HasMatch(result) && Sed(result, realm) == result
  {
    var result := Join(segments, realm);
    SedIsSubstitute(Join(segments, PLACEHOLDER), realm);
    SubstituteJoin(segments, realm);
    JoinIsDollarFree(segments, realm);
    DollarFreeHasNoMatch(result);
    SedIsSubstitute(result, realm);
    UnmatchedIsKept(result, realm);
  }

  // ----- arbitrary documents: when a second run can still change something -----

  // The realm, put at position k of a window, would fit the pattern there.
  predicate Overlaps(realm: string, k: int)
    requires 0 < k < LENGTH
  {
    forall j :: 0 <= j < |realm| && k + j < LENGTH ==> Fits(realm[j], k + j)
  }

  // The realm cannot become part of a new match.
  predicate IsInert(realm: string) {
    forall k :: 0 < k < LENGTH ==> !Overlaps(realm, k)
  }

  // How far the scan goes before the first match.
  function Unmatched(s: string): (n: nat)
    ensures n <= |s|
  {
    if s == "" || MatchesAt(s, 0) then 0 else 1 + Unmatched(s[1..])
  }

  lemma {:induction false} ScanToFirst(s: string, realm: string)
    ensures var n := Unmatched(s);
            && Substitute(s, realm) == s[..n] + Substitute(s[n..], realm)
            && (n == |s| || MatchesAt(s[n..], 0))
  {
    hide MatchesAt;
    if s == "" || MatchesAt(s, 0) {
      assert s[..0] == "" && s[0..] == s;
    } else {
      ScanToFirst(s[1..], realm);
      var n := Unmatched(s[1..]);
      assert s[n + 1..] == s[1..][n..];
      ScanRegroups(s, n, Substitute(s[n + 1..], realm));
    }
  }

  lemma ScanRegroups(s: string, n: nat, tail: string)
    requires n < |s|
    ensures [s[0]] + (s[1..][..n] + tail) == s[..n + 1] + tail
  {
  }

  lemma HeadStaysUnmatched(s: string, realm: string)
    requires IsInert(realm) && '&' !in realm && !MatchesAt(s, 0)
    ensures !MatchesAt(Substitute(s, realm), 0)
  {
    var n := Unmatched(s);
    var result := Substitute(s, realm);
    ScanToFirst(s, realm);
    if n == |s| {
      assert result == s;
    } else if n >= LENGTH {
      assert result[0..LENGTH] == s[0..LENGTH];
    } else if MatchesAt(result, 0) {
      ExpandPlain(realm, s[n..][..LENGTH]);
      var window := result[0..LENGTH];
      forall j | 0 <= j < |realm| && n + j < LENGTH ensures Fits(realm[j], n + j) {
        assert window[n + j] == realm[j];
      }
      assert Overlaps(realm, n);
    }
  }

  lemma {:induction false} InertLeavesNoMatch(s: string, realm: string, i: nat)
    requires IsInert(realm) && '$' !in realm && '&' !in realm
    ensures !MatchesAt(Substitute(s, realm), i)
    decreases |s|
  {
    var result := Substitute(s, realm);
    if s == "" {
    } else if MatchesAt(s, 0) {
      ExpandPlain(realm, s[..LENGTH]);
      if i < |realm| {
        if MatchesAt(result, i) { MatchStartsWithDollar(result, i); }
      } else {
        InertLeavesNoMatch(s[LENGTH..], realm, i - |realm|);
        MatchShifts(realm, Substitute(s[LENGTH..], realm), i - |realm|);
      }
    } else if i == 0 {
      HeadStaysUnmatched(s, realm);
    } else {
      InertLeavesNoMatch(s[1..], realm, i - 1);
      MatchShifts([s[0]], Substitute(s[1..], realm), i - 1);
    }
  }

  // What a realm at position k leaves to be matched after it.
  function TrapTail(realm: string, k: int): string
    requires 0 < k < LENGTH
  {
    PlaceholderFacts();
    if k + |realm| < LENGTH then PLACEHOLDER[k + |realm|..] else ""
  }

  // A document on which an overlapping realm completes a new match.
  function Trap(realm: string, k: int): string
    requires 0 < k < LENGTH
  {
    PlaceholderFacts();
    PLACEHOLDER[..k] + (PLACEHOLDER + TrapTail(realm, k))
  }

  lemma MisfitMeansNoMatch(s: string, i: int, k: int)
    requires 0 <= i && 0 <= k < LENGTH && i + k < |s| && !Fits(s[i + k], k)
    ensures !MatchesAt(s, i)
  {
    if i <= |s| - LENGTH { assert s[i..i + LENGTH][k] == s[i + k]; }
  }

  lemma NothingBeforeTheTrap(k: int, tail: string, i: int)
    requires 0 <= i < k < LENGTH && |PLACEHOLDER| == LENGTH
    ensures !MatchesAt(PLACEHOLDER[..k] + (PLACEHOLDER + tail), i)
  {
    PlaceholderFacts();
    var s := PLACEHOLDER[..k] + (PLACEHOLDER + tail);
    assert s[i] == PLACEHOLDER[i] && s[k] == PLACEHOLDER[0] && s[k + 1] == PLACEHOLDER[1];
    MisfitMeansNoMatch(s, i, if i > 0 then 0 else if k != WILDCARD then k else 6);
  }

  lemma TailHasNoDollar(realm: string, k: int)
    requires 0 < k < LENGTH
    ensures '$' !in TrapTail(realm, k)
  {
    PlaceholderFacts();
  }

  lemma TrapIsSubstituted(realm: string, k: int)
    requires 0 < k < LENGTH && |PLACEHOLDER| == LENGTH && '&' !in realm
    ensures Substitute(Trap(realm, k), realm) == PLACEHOLDER[..k] + (realm + TrapTail(realm, k))
  {
    var tail := TrapTail(realm, k);
    TailHasNoDollar(realm, k);
    forall i | 0 <= i < k ensures !MatchesAt(PLACEHOLDER[..k] + (PLACEHOLDER + tail), i) {
      NothingBeforeTheTrap(k, tail, i);
    }
    SkipUnmatched(PLACEHOLDER[..k], PLACEHOLDER + tail, realm);
    SubstituteHead(tail, realm);
    DollarFreeHasNoMatch(tail);
    UnmatchedIsKept(tail, realm);
  }

  // The overlapping realm, with what the trap puts around it, fits the whole pattern.
  lemma OverlapFillsWindow(realm: string, k: int)
    requires 0 < k < LENGTH && |PLACEHOLDER| == LENGTH && Overlaps(realm, k)
    ensures var text := PLACEHOLDER[..k] + (realm + TrapTail(realm, k));
            |text| >= LENGTH && Matches(text[0..LENGTH])
  {
    hide PLACEHOLDER;
    PlaceholderFacts();
    var window := (PLACEHOLDER[..k] + (realm + TrapTail(realm, k)))[0..LENGTH];
    forall m | 0 <= m < LENGTH ensures Fits(window[m], m) {
      if k <= m < k + |realm| { assert window[m] == realm[m - k]; } else { assert window[m] == PLACEHOLDER[m]; }
    }
  }

  lemma OverlapMakesMatch(realm: string, k: int)
    requires 0 < k < LENGTH && Overlaps(realm, k) && '&' !in realm
    ensures HasMatch(Substitute(Trap(realm, k), realm))
  {
    hide Substitute, Matches, Overlaps;
    PlaceholderFacts();
    TrapIsSubstituted(realm, k);
    OverlapFillsWindow(realm, k);
    assert MatchesAt(Substitute(Trap(realm, k), realm), 0);
  }

  lemma {:induction false} EmptyRealmShrinks(s: string)
    ensures |Substitute(s, "")| <= |s|
    decreases |s|
  {
    if s != "" { EmptyRealmShrinks(if MatchesAt(s, 0) then s[LENGTH..] else s[1..]); }
  }

  lemma {:induction false} MatchedIsChanged(s: string, realm: string, i: int)
    requires MatchesAt(s, i) && '$' !in realm && '&' !in realm
    ensures Substitute(s, realm) != s
    decreases |s|
  {
    if MatchesAt(s, 0) {
      ExpandPlain(realm, s[..LENGTH]);
      MatchStartsWithDollar(s, 0);
      if realm == "" { EmptyRealmShrinks(s[LENGTH..]); }
    } else {
      assert [s[0]] + s[1..] == s;
      MatchShifts([s[0]], s[1..], i - 1);
      MatchedIsChanged(s[1..], realm, i - 1);
    }
  }

  lemma InertIsFinal(file: string, realm: string)
    requires IsInert(realm) && '$' !in realm && '&' !in realm
    ensures !HasMatch(Sed(file, realm)) && Sed(Sed(file, realm), realm) == Sed(file, realm)
  {
    SedIsSubstitute(file, realm);
    forall i ensures !MatchesAt(Substitute(file, realm), i) {
      if i >= 0 { InertLeavesNoMatch(file, realm, i); }
    }
    SedIsSubstitute(Sed(file, realm), realm);
    UnmatchedIsKept(Sed(file, realm), realm);
  }

  lemma OverlapIsNotFinal(realm: string, k: int) returns (file: string)
    requires '$' !in realm && '&' !in realm && 0 < k < LENGTH && Overlaps(realm, k)
    ensures HasMatch(Sed(file, realm)) && Sed(Sed(file, realm), realm) != Sed(file, realm)
  {
    file := Trap(realm, k);
    OverlapMakesMatch(realm, k);
    SedIsSubstitute(file, realm);
    var i :| MatchesAt(Sed(file, realm), i);
    SedIsSubstitute(Sed(file, realm), realm);
    MatchedIsChanged(Sed(file, realm), realm, i);
  }

  // ----- realms with "&", which put the matched text back -----

  // Where the first "&" of the realm puts the matched text.
  function AmpersandAt(realm: string): (n: nat)
    requires '&' in realm
    ensures n < |realm| && realm[n] == '&'
  {
    if realm[0] == '&' then 0 else 1 + AmpersandAt(realm[1..])
  }

  lemma {:induction false} ExpandHolds(realm: string, matched: string)
    requires '&' in realm
    ensures var n := AmpersandAt(realm);
            && |Expand(realm, matched)| >= n + |matched| && Expand(realm, matched)[n..n + |matched|] == matched
  {
    if realm[0] != '&' {
      ExpandHolds(realm[1..], matched);
      var n := AmpersandAt(realm[1..]);
      var rest := Expand(realm[1..], matched);
      assert Expand(realm, matched)[n + 1..n + 1 + |matched|] == rest[n..n + |matched|];
    }
  }

  lemma {:induction false} ExpandGrows(realm: string, matched: string)
    requires |matched| >= 1
    ensures |Expand(realm, matched)| >= |realm|
    ensures '&' in realm ==> |Expand(realm, matched)| >= |realm| - 1 + |matched|
  {
    if realm != "" { ExpandGrows(realm[1..], matched); }
  }

  lemma {:induction false} AmpersandGrows(s: string, realm: string, i: int)
    requires '&' in realm && |realm| > 1
    ensures |Substitute(s, realm)| >= |s|
    ensures MatchesAt(s, i) ==> |Substitute(s, realm)| > |s|
    decreases |s|
  {
    if s == "" {
    } else if MatchesAt(s, 0) {
      ExpandGrows(realm, s[..LENGTH]);
      AmpersandGrows(s[LENGTH..], realm, 0);
    } else {
      AmpersandGrows(s[1..], realm, i - 1);
      if MatchesAt(s, i) {
        assert [s[0]] + s[1..] == s;
        MatchShifts([s[0]], s[1..], i - 1);
      }
    }
  }

  lemma PlaceholderMatches()
    ensures |PLACEHOLDER| == LENGTH && Matches(PLACEHOLDER)
  {
    PlaceholderFacts();
  }

  lemma AmpersandLeavesMatch(realm: string)
    requires '&' in realm
    ensures HasMatch(Sed(PLACEHOLDER, realm))
  {
    hide Substitute, Expand, Matches, PLACEHOLDER, Sed;
    PlaceholderMatches();
    SedIsSubstitute(PLACEHOLDER, realm);
    SubstituteAtHead("", realm);
    SubstituteNothing(realm);
    assert PLACEHOLDER + "" == PLACEHOLDER && Expand(realm, PLACEHOLDER) + "" == Expand(realm, PLACEHOLDER);
    ExpandHolds(realm, PLACEHOLDER);
    assert MatchesAt(Sed(PLACEHOLDER, realm), AmpersandAt(realm));
  }

  lemma SubstituteNothing(realm: string)
    ensures Substitute("", realm) == ""
  {
  }

  lemma {:induction false} AmpersandIsIdentity(s: string)
    ensures Substitute(s, "&") == s
    decreases |s|
  {
    if s == "" {
    } else if MatchesAt(s, 0) {
      AmpersandIsIdentity(s[LENGTH..]);
      assert "&"[1..] == "" && Expand("", s[..LENGTH]) == "";
      assert Expand("&", s[..LENGTH]) == s[..LENGTH];
      assert s == s[..LENGTH] + s[LENGTH..];
    } else {
      AmpersandIsIdentity(s[1..]);
      assert s == [s[0]] + s[1..];
    }
  }

  lemma AmpersandIsNotFinal(realm: string)
    requires '&' in realm && realm != "&"
    ensures Sed(Sed(PLACEHOLDER, realm), realm) != Sed(PLACEHOLDER, realm)
  {
    hide Sed, Substitute, MatchesAt, PLACEHOLDER;
    assert |realm| > 1;
    AmpersandLeavesMatch(realm);
    var i :| MatchesAt(Sed(PLACEHOLDER, realm), i);
    SedIsSubstitute(Sed(PLACEHOLDER, realm), realm);
    AmpersandGrows(Sed(PLACEHOLDER, realm), realm, i);
  }

  lemma AmpersandRunsTwice(file: string)
    ensures Sed(Sed(file, "&"), "&") == Sed(file, "&")
  {
    SedIsSubstitute(file, "&");
    AmpersandIsIdentity(file);
    SedIsSubstitute(Sed(file, "&"), "&");
  }

  /** On arbitrary files, the command leaves no match behind exactly when the realm is inert and has no
      "&"; and a second run of it changes nothing exactly then, or when the realm is a single "&". */
  lemma RunningTwiceIsRunningOnceExactly(realm: string)
    requires '$' !in realm && KeepsCommand(realm)
    ensures IsInert(realm) && '&' !in realm <==> forall file :: !HasMatch(Sed(file, realm))
    ensures (IsInert(realm) && '&' !in realm) || realm == "&" <==>
            forall file :: Sed(Sed(file, realm), realm) == Sed(file, realm)
  {
    hide Sed, HasMatch;
    if '&' in realm {
      AmpersandLeavesMatch(realm);
      if realm != "&" { AmpersandIsNotFinal(realm); }
      forall file | realm == "&" ensures Sed(Sed(file, realm), realm) == Sed(file, realm) {
        AmpersandRunsTwice(file);
      }
    } else if IsInert(realm) {
      forall file
        ensures !HasMatch(Sed(file, realm)) && Sed(Sed(file, realm), realm) == Sed(file, realm)
      {
        InertIsFinal(file, realm);
      }
    } else {
      var k :| 0 < k < LENGTH && Overlaps(realm, k);
      var file := OverlapIsNotFinal(realm, k);
      assert HasMatch(Sed(file, realm));
    }
  }

  /** An ordinary realm is inert; a realm of one character never is, since the wildcard takes it. */
  lemma InertExamples(c: char)
    ensures IsInert("EXAMPLE.COM") && (c != '\n' ==> !IsInert([c]))
  {
    PlaceholderFacts();
    assert c != '\n' ==> Overlaps([c], WILDCARD);
    forall k | 0 < k < LENGTH ensures !Overlaps("EXAMPLE.COM", k) {
      var realm := "EXAMPLE.COM";
      if k == 4 {
        assert !Fits(realm[2], 6);
      } else if k + 1 < LENGTH {
        assert !Fits(realm[1], k + 1);
      } else {
        assert !Fits(realm[0], k);
      }
    }
  }

  // ----- principals -----

  const HOST_SUFFIX := ".svc.cluster.local"

  datatype KerberosConfig = KerberosConfig(namespace: string, clusterName: string, kerberosClass: string, tlsClass: string)

  function HostOf(c: KerberosConfig): string {
    c.clusterName + "." + c.namespace + HOST_SUFFIX
  }

  function Principal(c: KerberosConfig, service: string): string {
    service + "/" + HostOf(c) + "@" + PLACEHOLDER
  }

  // The text before the last c, and the text after it.
  function CutLast(s: string, c: char): Option<(string, string)> {
    if s == "" then None
    else if s[|s| - 1] == c then Some((s[..|s| - 1], ""))
    else
      match CutLast(s[..|s| - 1], c)
      case None => None
      case Some((before, after)) => Some((before, after + [s[|s| - 1]]))
  }

  lemma {:induction false} CutAtLast(before: string, after: string, c: char)
    requires c !in after
    ensures CutLast(before + [c] + after, c) == Some((before, after))
  {
    var s := before + [c] + after;
    var n := |s| - 1;
    if after == "" {
      assert s[..n] == before;
    } else {
      CutAtLast(before, after[..|after| - 1], c);
      assert s[..n] == before + [c] + after[..|after| - 1];
      assert after == after[..|after| - 1] + [after[|after| - 1]];
    }
  }

  function ParseHost(host: string): Option<(string, string)> {
    var n := |host| - |HOST_SUFFIX|;
    if n < 0 || host[n..] != HOST_SUFFIX then None else CutLast(host[..n], '.')
  }

  // service/cluster.namespace.svc.cluster.local@realm
  datatype Identity = Identity(service: string, clusterName: string, namespace: string, realm: string)

  function ParsePrincipal(text: string): Option<Identity> {
    var (service, rest) := Cut(text, '/');
    if rest == "" then None
    else
      var (host, realm) := Cut(rest[1..], '@');
      if realm == "" then None
      else
        match ParseHost(host)
        case None => None
        case Some((cluster, namespace)) => Some(Identity(service, cluster, namespace, realm[1..]))
  }

  lemma HostParses(c: KerberosConfig)
    requires '.' !in c.namespace
    ensures ParseHost(HostOf(c)) == Some((c.clusterName, c.namespace))
  {
    var name := c.clusterName + "." + c.namespace;
    assert HostOf(c)[|name|..] == HOST_SUFFIX && HostOf(c)[..|name|] == name;
    CutAtLast(c.clusterName, c.namespace, '.');
  }

  /** Clusters have the same host name exactly when they are the same, even if cluster names contain
      dots; a namespace, a DNS label, does not. */
  lemma HostIdentifiesCluster(c: KerberosConfig, d: KerberosConfig)
    requires '.' !in c.namespace && '.' !in d.namespace
    ensures HostOf(c) == HostOf(d) <==> c.clusterName == d.clusterName && c.namespace == d.namespace
  {
    HostParses(c);
    HostParses(d);
  }

  lemma PrincipalParses(c: KerberosConfig, service: string, realm: string)
    requires '/' !in service && '.' !in c.namespace && '@' !in c.clusterName && '@' !in c.namespace
    ensures ParsePrincipal(service + "/" + HostOf(c) + "@" + realm) ==
            Some(Identity(service, c.clusterName, c.namespace, realm))
  {
    var (text, host) := (service + "/" + HostOf(c) + "@" + realm, HostOf(c));
    assert text == service + ("/" + host + "@" + realm);
    CutAtFirst(service, "/" + host + "@" + realm, '/');
    assert ("/" + host + "@" + realm)[1..] == host + ("@" + realm);
    assert '@' !in HOST_SUFFIX;
    CutAtFirst(host, "@" + realm, '@');
    assert ("@" + realm)[1..] == realm;
    HostParses(c);
  }

  /** After the substitution a generated principal names its service, cluster, namespace and realm. */
  lemma PrincipalResolves(c: KerberosConfig, service: string, realm: string)
    requires '/' !in service && '.' !in c.namespace && '@' !in c.clusterName && '@' !in c.namespace
    requires '$' !in service && '$' !in c.clusterName && '$' !in c.namespace && IsPlainRealm(realm)
    ensures ParsePrincipal(Sed(Principal(c, service), realm)) ==
            Some(Identity(service, c.clusterName, c.namespace, realm))
  {
    var name := service + "/" + HostOf(c) + "@";
    assert '$' !in HOST_SUFFIX;
    assert Join([name, ""], PLACEHOLDER) == name + PLACEHOLDER + "";
    assert Join([name, ""], realm) == name + realm + "";
    RealmIsSubstituted([name, ""], realm);
    assert name + realm + "" == service + "/" + HostOf(c) + "@" + realm;
    assert name + PLACEHOLDER + "" == Principal(c, service);
    PrincipalParses(c, service, realm);
  }

  // ----- settings derived from the configuration -----

  const TLS_DIR := "/kubedoop/tls"
  const KERBEROS_DIR := "/kubedoop/kerberos"
  const KRB5_CONFIG_FILE := "/kubedoop/kerberos/krb5.conf"
  const KEYTAB_FILE := "/kubedoop/kerberos/keytab"
  const TRUSTSTORE_FILE := "/kubedoop/tls/truststore.p12"
  const KEYSTORE_FILE := "/kubedoop/tls/keystore.p12"
  const STORE_PASSWORD := "changeit"
  const ACCESS_CONTROLLER := "org.apache.hadoop.hbase.security.access.AccessController"
  const TOKEN_PROVIDER := "org.apache.hadoop.hbase.security.token.TokenProvider"

  // Kerberos is on when both secret classes are given.
  function ConfigOf(namespace: string, clusterName: string, kerberosClass: string, tlsClass: string): Option<KerberosConfig> {
    if kerberosClass != "" && tlsClass != "" then
      Some(KerberosConfig(namespace, clusterName, kerberosClass, tlsClass))
    else None
  }

  const MASTER_PRINCIPAL := "hbase.master.kerberos.principal"
  const REGIONSERVER_PRINCIPAL := "hbase.regionserver.kerberos.principal"
  const REST_PRINCIPAL := "hbase.rest.kerberos.principal"
  const REST_LOGIN_PRINCIPAL := "hbase.rest.authentication.kerberos.principal"

  const MASTER_KEYTAB := "hbase.master.keytab.file"
  const REGIONSERVER_KEYTAB := "hbase.regionserver.keytab.file"
  const REST_KEYTAB := "hbase.rest.keytab.file"
  const REST_LOGIN_KEYTAB := "hbase.rest.authentication.kerberos.keytab"

  function PrincipalSite(c: KerberosConfig): map<string, string> {
    map[
      MASTER_PRINCIPAL := Principal(c, "hbase"),
      REGIONSERVER_PRINCIPAL := Principal(c, "hbase"),
      REST_PRINCIPAL := Principal(c, "HTTP"),
      REST_LOGIN_PRINCIPAL := Principal(c, "HTTP")]
  }

  function SecuritySite(): map<string, string> {
    map[
      "hbase.security.authentication" := "kerberos",
      "hbase.security.authorization" := "true",
      "hbase.rpc.protection" := "privacy",
      "dfs.data.transfer.protection" := "privacy",
      "hbase.rpc.engine" := "org.apache.hadoop.hbase.ipc.SecureRpcEngine",
      "hbase.coprocessor.master.classes" := ACCESS_CONTROLLER,
      "hbase.coprocessor.region.classes" := TOKEN_PROVIDER + "," + ACCESS_CONTROLLER,
      "hbase.rest.authentication.type" := "kerberos"]
  }

  function KeytabSite(): map<string, string> {
    map[
      MASTER_KEYTAB := KEYTAB_FILE,
      REGIONSERVER_KEYTAB := KEYTAB_FILE,
      REST_KEYTAB := KEYTAB_FILE,
      REST_LOGIN_KEYTAB := KEYTAB_FILE]
  }

  function SslSite(): map<string, string> {
    map[
      "hbase.ssl.enabled" := "true",
      "hbase.http.policy" := "HTTPS_ONLY",
      "hbase.http.filter.no-store.enable" := "true",
      "hbase.rest.ssl.enabled" := "true",
      "hbase.rest.ssl.keystore.store" := KEYSTORE_FILE,
      "hbase.rest.ssl.keystore.password" := STORE_PASSWORD,
      "hbase.rest.ssl.keystore.type" := "pkcs12"]
  }

  // The Kerberos properties of hbase-site.xml.
  function HbaseSite(c: KerberosConfig): map<string, string> {
    SecuritySite() + KeytabSite() + SslSite() + PrincipalSite(c)
  }

  // Characters that tell the keys of the four groups apart.
  predicate EndsLikeKeytab(key: string) {
    |key| > 11 && (key[|key| - 1] == 'b' || (key[|key| - 1] == 'e' && key[|key| - 2] == 'l' && key[|key| - 3] == 'i'))
  }

  predicate EndsLikePrincipal(key: string) {
    |key| > 11 && key[|key| - 1] == 'l'
  }

  predicate StartsLikeSsl(key: string) {
    |key| > 11 && ((key[6] == 's' && key[7] == 's') || key[6] == 'h' || key[11] == 's')
  }

  lemma SecurityKeysStandApart()
    ensures forall key :: key in SecuritySite() ==>
              !EndsLikeKeytab(key) && !EndsLikePrincipal(key) && !StartsLikeSsl(key)
  {
  }

  lemma KeytabKeysStandApart()
    ensures forall key :: key in KeytabSite() ==> EndsLikeKeytab(key) && !EndsLikePrincipal(key) && !StartsLikeSsl(key)
  {
  }

  lemma SslKeysStandApart()
    ensures forall key :: key in SslSite() ==> StartsLikeSsl(key) && !EndsLikePrincipal(key)
  {
  }

  lemma PrincipalKeysStandApart(c: KerberosConfig)
    ensures forall key :: key in PrincipalSite(c) ==> EndsLikePrincipal(key)
  {
    hide Principal;
  }

  predicate Includes(site: map<string, string>, group: map<string, string>) {
    forall key :: key in group ==> key in site && site[key] == group[key]
  }

  /** No group of properties displaces one of another group. */
  lemma GroupsAreKept(c: KerberosConfig)
    ensures Includes(HbaseSite(c), SecuritySite()) && Includes(HbaseSite(c), KeytabSite())
    ensures Includes(HbaseSite(c), SslSite()) && Includes(HbaseSite(c), PrincipalSite(c))
  {
    hide SecuritySite, KeytabSite, SslSite, PrincipalSite, EndsLikeKeytab, EndsLikePrincipal, StartsLikeSsl;
    SecurityKeysStandApart();
    KeytabKeysStandApart();
    SslKeysStandApart();
    PrincipalKeysStandApart(c);
  }

  function PrincipalKeys(): set<string> {
    {MASTER_PRINCIPAL, REGIONSERVER_PRINCIPAL, REST_PRINCIPAL, REST_LOGIN_PRINCIPAL}
  }

  function ServiceOf(key: string): string {
    if key == REST_PRINCIPAL || key == REST_LOGIN_PRINCIPAL then "HTTP" else "hbase"
  }

  lemma PrincipalKeysAreDistinct()
    ensures MASTER_PRINCIPAL != REGIONSERVER_PRINCIPAL && MASTER_PRINCIPAL != REST_PRINCIPAL
    ensures MASTER_PRINCIPAL != REST_LOGIN_PRINCIPAL && REGIONSERVER_PRINCIPAL != REST_PRINCIPAL
    ensures REGIONSERVER_PRINCIPAL != REST_LOGIN_PRINCIPAL && REST_PRINCIPAL != REST_LOGIN_PRINCIPAL
  {
    assert |MASTER_PRINCIPAL| == 31 && |REGIONSERVER_PRINCIPAL| == 37;
    assert |REST_PRINCIPAL| == 29 && |REST_LOGIN_PRINCIPAL| == 44;
  }

  /** Once the realm is put in, every principal of hbase-site.xml names this cluster and its namespace;
      the REST ones use the service HTTP, the others hbase. */
  lemma SitePrincipalsResolve(c: KerberosConfig, realm: string)
    requires '.' !in c.namespace && '@' !in c.clusterName && '@' !in c.namespace
    requires '$' !in c.clusterName && '$' !in c.namespace && IsPlainRealm(realm)
    ensures forall key :: key in PrincipalKeys() ==>
              key in HbaseSite(c) &&
              ParsePrincipal(Sed(HbaseSite(c)[key], realm)) ==
              Some(Identity(ServiceOf(key), c.clusterName, c.namespace, realm))
  {
    hide SecuritySite, KeytabSite, SslSite, Sed, ParsePrincipal, Principal;
    PrincipalKeysAreDistinct();
    PrincipalResolves(c, "hbase", realm);
    PrincipalResolves(c, "HTTP", realm);
  }

  function SslServer(): map<string, string> {
    map[
      "ssl.server.truststore.location" := TRUSTSTORE_FILE,
      "ssl.server.truststore.type" := "pkcs12",
      "ssl.server.truststore.password" := STORE_PASSWORD,
      "ssl.server.keystore.location" := KEYSTORE_FILE,
      "ssl.server.keystore.type" := "pkcs12",
      "ssl.server.keystore.password" := STORE_PASSWORD]
  }

  function SslClient(): map<string, string> {
    map[
      "ssl.client.truststore.location" := TRUSTSTORE_FILE,
      "ssl.client.truststore.type" := "pkcs12",
      "ssl.client.truststore.password" := STORE_PASSWORD]
  }

  // The keytab property that goes with a principal property.
  function KeytabOf(key: string): string {
    if key == MASTER_PRINCIPAL then MASTER_KEYTAB
    else if key == REGIONSERVER_PRINCIPAL then REGIONSERVER_KEYTAB
    else if key == REST_PRINCIPAL then REST_KEYTAB
    else REST_LOGIN_KEYTAB
  }

  predicate Has(site: map<string, string>, key: string, value: string) {
    key in site && site[key] == value
  }

  predicate Agree(a: map<string, string>, key: string, b: map<string, string>, other: string) {
    key in a && Has(b, other, a[key])
  }

  predicate KeystoresFit(site: map<string, string>, server: map<string, string>) {
    && Has(server, "ssl.server.keystore.location", TLS_DIR + "/" + "keystore.p12")
    && Agree(site, "hbase.rest.ssl.keystore.store", server, "ssl.server.keystore.location")
    && Agree(site, "hbase.rest.ssl.keystore.password", server, "ssl.server.keystore.password")
    && Agree(site, "hbase.rest.ssl.keystore.type", server, "ssl.server.keystore.type")
  }

  predicate TruststoresFit(server: map<string, string>, client: map<string, string>) {
    && Has(server, "ssl.server.truststore.location", TLS_DIR + "/" + "truststore.p12")
    && Agree(server, "ssl.server.truststore.location", client, "ssl.client.truststore.location")
    && Agree(server, "ssl.server.truststore.password", client, "ssl.client.truststore.password")
    && Agree(server, "ssl.server.truststore.type", client, "ssl.client.truststore.type")
  }

  /** What makes a set of files secure as a whole: authentication and encryption are on, every principal
      has its keytab, and the REST server, the SSL server and the SSL client name stores that fit. */
  ghost predicate IsSecure(site: map<string, string>, server: map<string, string>, client: map<string, string>) {
    && Has(site, "hbase.security.authentication", "kerberos") && Has(site, "hbase.security.authorization", "true")
    && Has(site, "hbase.rest.authentication.type", "kerberos") && Has(site, "hbase.rpc.protection", "privacy")
    && Has(site, "dfs.data.transfer.protection", "privacy") && Has(site, "hbase.http.policy", "HTTPS_ONLY")
    && Has(site, "hbase.rpc.engine", "org.apache.hadoop.hbase.ipc.SecureRpcEngine")
    && Has(site, "hbase.coprocessor.master.classes", ACCESS_CONTROLLER)
    && Has(site, "hbase.coprocessor.region.classes", TOKEN_PROVIDER + "," + ACCESS_CONTROLLER)
    && Has(site, "hbase.http.filter.no-store.enable", "true")
    && (forall key :: key in PrincipalKeys() ==> key in site && Has(site, KeytabOf(key), KEYTAB_FILE))
    && Has(site, "hbase.ssl.enabled", "true") && Has(site, "hbase.rest.ssl.enabled", "true")
    && KeystoresFit(site, server) && TruststoresFit(server, client)
  }

  lemma StoresFit()
    ensures KeystoresFit(SslSite(), SslServer()) && TruststoresFit(SslServer(), SslClient())
  {
  }

  lemma SecurityIsOn()
    ensures var site := SecuritySite();
            && Has(site, "hbase.security.authentication", "kerberos") && Has(site, "hbase.security.authorization", "true")
            && Has(site, "hbase.rest.authentication.type", "kerberos") && Has(site, "hbase.rpc.protection", "privacy")
            && Has(site, "dfs.data.transfer.protection", "privacy")
            && Has(site, "hbase.rpc.engine", "org.apache.hadoop.hbase.ipc.SecureRpcEngine")
            && Has(site, "hbase.coprocessor.master.classes", ACCESS_CONTROLLER)
            && Has(site, "hbase.coprocessor.region.classes", TOKEN_PROVIDER + "," + ACCESS_CONTROLLER)
  {
  }

  lemma SslIsOn()
    ensures Has(SslSite(), "hbase.http.policy", "HTTPS_ONLY")
    ensures Has(SslSite(), "hbase.http.filter.no-store.enable", "true")
    ensures Has(SslSite(), "hbase.ssl.enabled", "true") && Has(SslSite(), "hbase.rest.ssl.enabled", "true")
  {
  }

  lemma KeytabsAreThere()
    ensures forall key :: key in PrincipalKeys() ==> Has(KeytabSite(), KeytabOf(key), KEYTAB_FILE)
  {
  }

  lemma PrincipalsAreThere(c: KerberosConfig)
    ensures forall key :: key in PrincipalKeys() ==> key in PrincipalSite(c)
  {
    hide Principal;
  }

  lemma SiteIsSecure(c: KerberosConfig)
    ensures IsSecure(HbaseSite(c), SslServer(), SslClient())
  {
    hide SecuritySite, KeytabSite, SslSite, PrincipalSite, HbaseSite, SslServer, SslClient, PrincipalKeys, KeytabOf;
    GroupsAreKept(c);
    SecurityIsOn();
    SslIsOn();
    KeytabsAreThere();
    PrincipalsAreThere(c);
    StoresFit();
  }

  lemma MoreIsSecure(site: map<string, string>, more: map<string, string>,
                     server: map<string, string>, client: map<string, string>)
    requires IsSecure(site, server, client) && Includes(more, site)
    ensures IsSecure(more, server, client)
  {
    hide PrincipalKeys, KeytabOf;
  }
}
