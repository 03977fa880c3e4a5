/** Splitting, joining and replacing (util/string.h). */
module Strings {
  import opened Sequences

  /** `d` occurs in `s` at position `i`. */
  predicate OccursAt(s: string, d: string, i: nat) {
    i + |d| <= |s| && s[i..i + |d|] == d
  }

  ghost predicate Occurs(s: string, d: string) {
    exists i: nat :: OccursAt(s, d, i)
  }

  /** The first occurrence of `d` in `s` at or after `i`. */
  function FindFrom(s: string, d: string, i: nat): (r: Option<nat>)
    requires i <= |s|
    ensures r.Some? ==> i <= r.value && OccursAt(s, d, r.value) && forall k: nat :: i <= k < r.value ==>
              !OccursAt(s, d, k)
    ensures r.None? ==> forall k: nat :: i <= k ==> !OccursAt(s, d, k)
    decreases |s| - i
  {
    if i + |d| > |s| then None
    else if OccursAt(s, d, i) then Some(i)
    else if i == |s| then None
    else FindFrom(s, d, i + 1)
  }

  /** `s` cut at the occurrences of `d`, leftmost first, none overlapping. */
  function Pieces(s: string, d: string): (r: seq<string>)
    requires d != ""
    ensures r != []
    decreases |s|
  {
    match FindFrom(s, d, 0)
    case None => [s]
    case Some(i) => [s[..i]] + Pieces(s[i + |d|..], d)
  }

  function Joined(pieces: seq<string>, d: string): string {
    if pieces == [] then ""
    else if |pieces| == 1 then pieces[0]
    else Joined(pieces[..|pieces| - 1], d) + d + pieces[|pieces| - 1]
  }

  function Split(s: string, d: string): seq<string>
    requires d != ""
  {
    if s == "" then [] else Pieces(s, d)
  }

  lemma Shifted(s: string, d: string, start: nat, k: nat)
    requires start <= |s|
    ensures OccursAt(s[start..], d, k) <==> OccursAt(s, d, start + k)
  {
    if start + k + |d| <= |s| { assert s[start..][k..k + |d|] == s[start + k..start + k + |d|]; }
  }

  lemma Shortened(s: string, d: string, n: nat, k: nat)
    requires n <= |s| && k + |d| <= n
    ensures OccursAt(s[..n], d, k) <==> OccursAt(s, d, k)
  {
    assert s[..n][k..k + |d|] == s[k..k + |d|];
  }

  lemma FoundAt(s: string, d: string, i: nat)
    requires i <= |s| && OccursAt(s, d, i) && forall k: nat :: k < i ==> !OccursAt(s, d, k)
    ensures FindFrom(s, d, 0) == Some(i)
  {
    hide OccursAt;
  }

  lemma CutAt(s: string, d: string, start: nat, i: nat)
    requires d != "" && start <= i && OccursAt(s, d, i)
    requires forall k: nat :: start <= k < i ==> !OccursAt(s, d, k)
    ensures Pieces(s[start..], d) == [s[start..i]] + Pieces(s[i + |d|..], d)
  {
    hide OccursAt, FindFrom, Pieces;
    Within(s, d, i);
    var t := s[start..];
    forall k: nat | k <= i - start ensures OccursAt(t, d, k) <==> OccursAt(s, d, start + k) { Shifted(s, d, start, k); }
    FoundAt(t, d, i - start);
    PiecesCut(t, d, i - start);
    assert t[..i - start] == s[start..i];
    assert t[i - start + |d|..] == s[i + |d|..];
  }

  lemma PiecesCut(s: string, d: string, i: nat)
    requires d != "" && FindFrom(s, d, 0) == Some(i)
    ensures i + |d| <= |s| && Pieces(s, d) == [s[..i]] + Pieces(s[i + |d|..], d)
  {
  }

  lemma Within(s: string, d: string, i: nat)
    requires OccursAt(s, d, i)
    ensures i + |d| <= |s|
  {
  }

  lemma NoCut(s: string, d: string, start: nat)
    requires d != "" && start <= |s| && forall k: nat :: start <= k ==> !OccursAt(s, d, k)
    ensures Pieces(s[start..], d) == [s[start..]]
  {
    hide OccursAt;
    forall k: nat ensures !OccursAt(s[start..], d, k) { Shifted(s, d, start, k); }
  }

  lemma TooShort(s: string, d: string, i: nat)
    requires i <= |s| && |s| - i < |d|
    ensures forall k: nat :: i <= k ==> !OccursAt(s, d, k)
  {
  }

  lemma OtherCharacter(s: string, d: string, i: nat)
    requires i < |s| && d != "" && s[i] != d[0]
    ensures !OccursAt(s, d, i)
  {
  }

  lemma Regroup(a: seq<string>, x: string, b: seq<string>)
    ensures a + ([x] + b) == (a + [x]) + b
  {
  }

  /** The scan has cut `str` up to `s`; there is no delimiter from `s` to before `i`. */
  ghost predicate Scanned(str: string, dlmt: string, splitted: seq<string>, s: nat, i: nat)
    requires dlmt != ""
  {
    && s <= i && s <= |str|
    && splitted + Pieces(str[s..], dlmt) == Pieces(str, dlmt)
    && forall k: nat :: s <= k < i ==> !OccursAt(str, dlmt, k)
  }

  lemma ScanBegins(str: string, dlmt: string)
    requires dlmt != ""
    ensures Scanned(str, dlmt, [], 0, 0)
  {
    assert str[0..] == str;
  }

  lemma ScanCuts(str: string, dlmt: string, splitted: seq<string>, s: nat, i: nat)
    requires dlmt != "" && Scanned(str, dlmt, splitted, s, i) && OccursAt(str, dlmt, i)
    ensures i + |dlmt| <= |str| && Scanned(str, dlmt, splitted + [str[s..i]], i + |dlmt|, i + |dlmt|)
  {
    hide OccursAt, Pieces;
    Within(str, dlmt, i);
    CutAt(str, dlmt, s, i);
    Regroup(splitted, str[s..i], Pieces(str[i + |dlmt|..], dlmt));
  }

  lemma ScanGoesOn(str: string, dlmt: string, splitted: seq<string>, s: nat, i: nat)
    requires dlmt != "" && Scanned(str, dlmt, splitted, s, i) && !OccursAt(str, dlmt, i)
    ensures Scanned(str, dlmt, splitted, s, i + 1)
  {
    hide OccursAt, Pieces;
  }

  lemma ScanEnds(str: string, dlmt: string, splitted: seq<string>, s: nat, i: nat)
    requires dlmt != "" && Scanned(str, dlmt, splitted, s, i) && i <= |str| && |str| - i < |dlmt|
    ensures s <= |str| && splitted + [str[s..]] == Pieces(str, dlmt)
  {
    TooShort(str, dlmt, i);
    hide OccursAt, Pieces;
    NoCut(str, dlmt, s);
  }

  /** split_str without stripping: one scan.  An empty delimiter throws unless the
      string is empty too. */
  method SplitStr(str: string, dlmt: string) returns (r: Option<seq<string>>)
    ensures r.None? <==> str != "" && dlmt == ""
    ensures dlmt != "" ==> r == Some(Split(str, dlmt))
    ensures str == "" ==> r == Some([])
  {
    if |str| == 0 { return Some([]); }
    if |dlmt| == 0 { return None; }
    hide Pieces, OccursAt, Scanned;
    var splitted: seq<string> := [];
    var s: nat, i: nat := 0, 0;
    ScanBegins(str, dlmt);
    while i < |str|
      invariant i <= |str| && s <= |str| && Scanned(str, dlmt, splitted, s, i)
    {
      if str[i] != dlmt[0] {
        OtherCharacter(str, dlmt, i);
        ScanGoesOn(str, dlmt, splitted, s, i);
        i := i + 1;
        continue;
      }
      if |str| - i < |dlmt| {
        break;
      }
      var isMatched := IsMatched(str, dlmt, i);
      if isMatched {
        ScanCuts(str, dlmt, splitted, s, i);
        ScanStarts(str, dlmt, splitted, s, i);
        splitted := splitted + [str[s..i]];
        s := i + |dlmt|;
        i := s;
      } else {
        ScanGoesOn(str, dlmt, splitted, s, i);
        i := i + 1;
      }
    }
    ScanEnds(str, dlmt, splitted, s, i);
    splitted := splitted + [str[s..]];
    r := Some(splitted);
  }

  lemma ScanStarts(str: string, dlmt: string, splitted: seq<string>, s: nat, i: nat)
    requires dlmt != "" && Scanned(str, dlmt, splitted, s, i)
    ensures s <= i
  {
  }

  /** The delimiter, whose first character is there, is there as a whole. */
  method IsMatched(str: string, dlmt: string, i: nat) returns (isMatched: bool)
    requires i < |str| && |dlmt| > 0 && str[i] == dlmt[0] && i + |dlmt| <= |str|
    ensures isMatched <==> OccursAt(str, dlmt, i)
  {
    isMatched := true;
    for j := 1 to |dlmt|
      invariant isMatched <==> str[i..i + j] == dlmt[..j]
    {
      assert str[i..i + j + 1] == str[i..i + j] + [str[i + j]] && dlmt[..j + 1] == dlmt[..j] + [dlmt[j]];
      isMatched := isMatched && str[i + j] == dlmt[j];
    }
    assert dlmt[..|dlmt|] == dlmt;
  }

  /** The spaces at both ends of a piece go, and nothing else. */
  method Strip(x: string) returns (r: string, ghost before: nat, ghost after: nat)
    ensures before + |r| + after == |x| && r == x[before..before + |r|]
    ensures forall i :: 0 <= i < |x| && (i < before || i >= before + |r|) ==> x[i] == ' '
    ensures r != "" ==> r[0] != ' ' && r[|r| - 1] != ' '
  {
    var l, e := |x|, 0;
    while e < l && x[l - e - 1] == ' '
      invariant e <= l && forall i :: l - e <= i < l ==> x[i] == ' '
    {
      e := e + 1;
    }
    l := l - e;
    var s := 0;
    while s < l && x[s] == ' '
      invariant s <= l && forall i :: 0 <= i < s ==> x[i] == ' '
    {
      s := s + 1;
    }
    r := x[s..l];
    before, after := s, e;
  }

  method JoinStr(pieces: seq<string>, dlmt: string) returns (r: string)
    ensures r == Joined(pieces, dlmt)
  {
    if |pieces| == 0 { return ""; }
    r := pieces[0];
    for i := 1 to |pieces|
      invariant r == Joined(pieces[..i], dlmt)
    {
      assert pieces[..i + 1][..i] == pieces[..i];
      r := r + dlmt + pieces[i];
    }
    assert pieces[..|pieces|] == pieces;
  }

  method ReplaceStr(str: string, oldWord: string, newWord: string) returns (r: Option<string>)
    ensures r.None? <==> str != "" && oldWord == ""
    ensures oldWord != "" ==> r == Some(Joined(Split(str, oldWord), newWord))
    ensures str == "" ==> r == Some("")
  {
    var splitted := SplitStr(str, oldWord);
    if splitted.None? { return None; }
    var joined := JoinStr(splitted.value, newWord);
    r := Some(joined);
  }

  // ---- splitting and joining undo each other ----

  lemma {:induction false} JoinedCons(p: string, rest: seq<string>, d: string)
    requires rest != []
    ensures Joined([p] + rest, d) == p + d + Joined(rest, d)
  {
    var all, k := [p] + rest, |rest| - 1;
    if k == 0 {
      assert all[..1] == [p];
    } else {
      JoinedCons(p, rest[..k], d);
      assert all[..|all| - 1] == [p] + rest[..k];
      assert (p + d + Joined(rest[..k], d)) + d + rest[k] == p + d + (Joined(rest[..k], d) + d + rest[k]);
    }
  }

  lemma {:induction false} JoinOfPieces(s: string, d: string)
    requires d != ""
    ensures Joined(Pieces(s, d), d) == s
    decreases |s|
  {
    hide FindFrom, OccursAt, Joined;
    match FindFrom(s, d, 0)
    case None => OnlyOne(s, d);
    case Some(i) =>
      Within(s, d, i);
      Present(s, d, i);
      JoinOfPieces(s[i + |d|..], d);
      JoinedCons(s[..i], Pieces(s[i + |d|..], d), d);
      assert s == s[..i] + s[i..i + |d|] + s[i + |d|..];
  }

  lemma OnlyOne(s: string, d: string)
    ensures Joined([s], d) == s
  {
  }

  lemma Present(s: string, d: string, i: nat)
    requires OccursAt(s, d, i)
    ensures i + |d| <= |s| && s[i..i + |d|] == d
  {
  }

  lemma JoinOfSplit(s: string, d: string)
    requires d != ""
    ensures Joined(Split(s, d), d) == s
  {
    JoinOfPieces(s, d);
  }

  lemma {:induction false} NoPieceContains(s: string, d: string, p: string)
    requires d != "" && p in Pieces(s, d)
    ensures !Occurs(p, d)
    decreases |s|
  {
    match FindFrom(s, d, 0)
    case None =>
    case Some(i) =>
      if p == s[..i] {
        forall k: nat ensures !OccursAt(p, d, k) {
          if k + |d| <= i { Shortened(s, d, i, k); }
        }
      } else {
        NoPieceContains(s[i + |d|..], d, p);
      }
  }

  /** The delimiter after `p` is not found any earlier. */
  ghost predicate EndsAtDelimiter(p: string, d: string) {
    forall k: nat :: k < |p| ==> !OccursAt(p + d, d, k)
  }

  /** What a list of pieces must be like to be found again. */
  ghost predicate Separable(pieces: seq<string>, d: string) {
    && pieces != []
    && (forall k :: 0 <= k < |pieces| - 1 ==> EndsAtDelimiter(pieces[k], d))
    && !Occurs(pieces[|pieces| - 1], d)
  }

  lemma OccursWithin(p: string, d: string, rest: string, k: nat)
    requires k < |p|
    ensures OccursAt(p + d + rest, d, k) <==> OccursAt(p + d, d, k)
  {
    assert k + |d| <= |p + d|;
    assert (p + d + rest)[k..k + |d|] == (p + d)[k..k + |d|];
  }

  lemma FirstDelimiter(p: string, d: string, rest: string)
    requires d != ""
    ensures OccursAt(p + d + rest, d, |p|)
    ensures FindFrom(p + d + rest, d, 0) == Some(|p|) <==> EndsAtDelimiter(p, d)
  {
    var s := p + d + rest;
    assert s[|p|..|p| + |d|] == d;
    forall k: nat | k < |p| ensures OccursAt(s, d, k) <==> OccursAt(p + d, d, k) {
      OccursWithin(p, d, rest, k);
    }
    hide OccursAt;
    if EndsAtDelimiter(p, d) { FoundAt(s, d, |p|); }
  }

  /** Exactly the separable lists are found again by splitting what was joined. */
  lemma {:induction false} PiecesOfJoined(pieces: seq<string>, d: string)
    requires d != "" && pieces != []
    ensures Pieces(Joined(pieces, d), d) == pieces <==> Separable(pieces, d)
  {
    if |pieces| == 1 {
      var s := pieces[0];
      if FindFrom(s, d, 0).Some? { assert Occurs(s, d); }
    } else {
      var p, rest := pieces[0], pieces[1..];
      assert pieces == [p] + rest;
      JoinedCons(p, rest, d);
      PiecesOfJoined(rest, d);
      SeparableCons(p, rest, d);
      CutOfJoined(p, rest, d);
    }
  }

  lemma SeparableCons(p: string, rest: seq<string>, d: string)
    requires rest != []
    ensures Separable([p] + rest, d) <==> EndsAtDelimiter(p, d) && Separable(rest, d)
  {
    var all := [p] + rest;
    if Separable(all, d) {
      assert EndsAtDelimiter(all[0], d);
      forall k | 0 <= k < |rest| - 1 ensures EndsAtDelimiter(rest[k], d) { assert EndsAtDelimiter(all[k + 1], d); }
    }
  }

  lemma CutOfJoined(p: string, rest: seq<string>, d: string)
    requires d != "" && rest != []
    ensures Pieces(p + d + Joined(rest, d), d) == [p] + rest <==>
              EndsAtDelimiter(p, d) && Pieces(Joined(rest, d), d) == rest
  {
    hide OccursAt, FindFrom, Joined, EndsAtDelimiter, Pieces;
    var s := p + d + Joined(rest, d);
    FirstDelimiter(p, d, Joined(rest, d));
    SomeDelimiter(s, d, |p|);
    var i := FindFrom(s, d, 0).value;
    PiecesCut(s, d, i);
    var tail := Pieces(s[i + |d|..], d);
    if i == |p| {
      assert s[..i] == p && s[i + |d|..] == Joined(rest, d);
      if [p] + tail == [p] + rest { assert ([p] + tail)[1..] == ([p] + rest)[1..]; }
    } else {
      assert ([s[..i]] + tail)[0] != ([p] + rest)[0];
    }
  }

  lemma SomeDelimiter(s: string, d: string, i: nat)
    requires OccursAt(s, d, i)
    ensures FindFrom(s, d, 0).Some?
  {
    hide OccursAt;
  }

  lemma {:induction false} JoinedIsEmpty(pieces: seq<string>, d: string)
    requires d != ""
    ensures Joined(pieces, d) == "" <==> pieces == [] || pieces == [""]
  {
  }

  /** For any list of pieces: splitting what was joined gives the pieces back if
      and only if there are none, or they are separable and not just one empty piece. */
  lemma SplitOfJoin(pieces: seq<string>, d: string)
    requires d != ""
    ensures Split(Joined(pieces, d), d) == pieces <==> pieces == [] || (pieces != [""] && Separable(pieces, d))
  {
    JoinedIsEmpty(pieces, d);
    if pieces != [] { PiecesOfJoined(pieces, d); }
  }

  /** With a delimiter of one character, separable means free of it. */
  lemma OneCharacter(pieces: seq<string>, c: char)
    requires pieces != []
    ensures Separable(pieces, [c]) <==> forall k :: 0 <= k < |pieces| ==> c !in pieces[k]
  {
    forall k | 0 <= k < |pieces| ensures EndsAtDelimiter(pieces[k], [c]) <==> c !in pieces[k] {
      FreeOf(pieces[k], c);
    }
    FreeOf(pieces[|pieces| - 1], c);
  }

  lemma FreeOf(p: string, c: char)
    ensures EndsAtDelimiter(p, [c]) <==> c !in p
    ensures !Occurs(p, [c]) <==> c !in p
  {
    forall k: nat | k < |p| ensures (OccursAt(p + [c], [c], k) <==> p[k] == c) && (OccursAt(p, [c], k) <==> p[k] == c) {
      assert p[k..k + 1] == [p[k]] && (p + [c])[k..k + 1] == [p[k]];
    }
    if c in p {
      var k :| 0 <= k < |p| && p[k] == c;
      assert OccursAt(p, [c], k) && OccursAt(p + [c], [c], k);
    }
  }

  /** Replacing back undoes a replacement if the new word cannot be taken for
      something else. */
  lemma ReplaceBack(s: string, oldWord: string, newWord: string)
    requires oldWord != "" && newWord != "" && Separable(Split(s, oldWord), newWord)
    ensures Joined(Split(Joined(Split(s, oldWord), newWord), newWord), oldWord) == s
  {
    JoinOfSplit(s, oldWord);
    SplitOfJoin(Split(s, oldWord), newWord);
    OnlyOne("", oldWord);
  }
}
