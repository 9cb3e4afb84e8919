/** The PHP string built-ins the template layer relies on: strpos (as a
    first-occurrence search), explode, join and case-insensitive comparison
    of identifiers. */
module PhpStrings {
  import opened Base

  /** `d` occurs in `s` starting at index `j`. */
  ghost predicate Occurs(s: string, d: string, j: int)
  {
    0 <= j && j + |d| <= |s| && s[j..j + |d|] == d
  }

  lemma OccursShift(s: string, d: string)
    requires |s| >= 1
    ensures forall j :: 1 <= j ==> (Occurs(s, d, j) <==> Occurs(s[1..], d, j - 1))
  {
    forall j | 1 <= j
      ensures Occurs(s, d, j) <==> Occurs(s[1..], d, j - 1)
    {
      if j + |d| <= |s| {
        assert s[1..][j - 1..j - 1 + |d|] == s[j..j + |d|];
      }
    }
  }

  /** strpos($s, $d): the index of the first occurrence of `d` in `s`,
      or None where PHP returns false. */
  function IndexOf(s: string, d: string): (r: Option<nat>)
    ensures r.Some? ==> Occurs(s, d, r.value)
    ensures r.Some? ==> forall j :: 0 <= j < r.value ==> !Occurs(s, d, j)
    ensures r.None? ==> forall j :: !Occurs(s, d, j)
    decreases |s|
  {
    if |s| < |d| then None
    else if s[..|d|] == d then Some(0)
    else
      assert s[0..|d|] == s[..|d|];
      OccursShift(s, d);
      match IndexOf(s[1..], d)
      case None => None
      case Some(i) => Some(i + 1)
  }

  /** strpos($s, $d) !== false */
  predicate Contains(s: string, d: string)
  {
    IndexOf(s, d).Some?
  }

  lemma ContainsIff(s: string, d: string)
    ensures Contains(s, d) <==> exists j :: Occurs(s, d, j)
  {
    var r := IndexOf(s, d);
    if r.Some? {
      assert Occurs(s, d, r.value);
    }
  }

  /** A one-character needle occurs exactly where that character does. */
  lemma ContainsChar(s: string, c: char)
    ensures Contains(s, [c]) <==> exists i :: 0 <= i < |s| && s[i] == c
  {
    ContainsIff(s, [c]);
    if i :| 0 <= i < |s| && s[i] == c {
      assert s[i..i + 1] == [c];
      assert Occurs(s, [c], i);
    }
    if j :| Occurs(s, [c], j) {
      assert s[j] == s[j..j + 1][0];
    }
  }

  /** join($d, $parts): the pieces in order with `d` between neighbours. A
      single piece is returned as it is; with two or more, every piece and
      every delimiter is there, so the result is at least that long. */
  function Implode(parts: seq<string>, d: string): (r: string)
    ensures parts == [] ==> r == ""
    ensures |parts| == 1 ==> r == parts[0]
    ensures |parts| >= 2 ==> |r| >= |parts[0]| + |d| + |parts[|parts| - 1]|
    decreases |parts|
  {
    if |parts| == 0 then ""
    else if |parts| == 1 then parts[0]
    else
      assert parts[1..][|parts[1..]| - 1] == parts[|parts| - 1];
      parts[0] + d + Implode(parts[1..], d)
  }

  /** The first piece starts the joined text, followed by `d`, and the last
      piece ends it. */
  lemma {:induction false} ImplodeAffixes(parts: seq<string>, d: string)
    requires |parts| >= 2
    ensures var r := Implode(parts, d);
            && r[..|parts[0]|] == parts[0]
            && r[|parts[0]|..|parts[0]| + |d|] == d
            && r[|r| - |parts[|parts| - 1]|..] == parts[|parts| - 1]
    decreases |parts|
  {
    var rest := Implode(parts[1..], d);
    var last := parts[|parts| - 1];
    assert parts[1..][|parts[1..]| - 1] == last;
    if |parts| > 2 {
      ImplodeAffixes(parts[1..], d);
    }
    assert rest[|rest| - |last|..] == last;
    var r := parts[0] + d + rest;
    assert r[|r| - |last|..] == rest[|rest| - |last|..];
  }

  /** Nothing before the first occurrence of `d` contains `d`. */
  lemma NoOccurrenceBeforeFirst(s: string, d: string, i: nat)
    requires d != []
    requires IndexOf(s, d) == Some(i)
    ensures !Contains(s[..i], d)
  {
    var p := s[..i];
    var r := IndexOf(p, d);
    if r.Some? {
      var j := r.value;
      assert Occurs(p, d, j);
      assert p[j..j + |d|] == s[j..j + |d|];
      assert Occurs(s, d, j) && j < i;
      assert false;
    }
  }

  /** The text up to the first occurrence of `d` ends at its first `d`. */
  lemma FirstOccurrenceKept(s: string, d: string, i: nat)
    requires IndexOf(s, d) == Some(i)
    ensures |s[..i]| == i && EndsAtFirst(s[..i], d)
  {
    var t := s[..i] + d;
    assert Occurs(s, d, i);
    assert t == s[..i + |d|];
    forall j | 0 <= j < i && Occurs(t, d, j)
      ensures false
    {
      assert t[j..j + |d|] == s[j..j + |d|];
      assert Occurs(s, d, j);
    }
  }

  /** A piece followed by `d` first meets `d` right after the piece. */
  ghost predicate EndsAtFirst(piece: string, d: string)
  {
    forall j :: 0 <= j < |piece| ==> !Occurs(piece + d, d, j)
  }

  /** Every piece but the last ends at its leftmost `d`: kept when a piece
      with that property is put in front. */
  lemma LeftmostCons(a: string, rest: seq<string>, d: string)
    requires EndsAtFirst(a, d)
    requires forall k :: 0 <= k < |rest| - 1 ==> EndsAtFirst(rest[k], d)
    ensures forall k :: 0 <= k < |[a] + rest| - 1 ==> EndsAtFirst(([a] + rest)[k], d)
  {
    forall k | 0 <= k < |[a] + rest| - 1
      ensures EndsAtFirst(([a] + rest)[k], d)
    {
      if k > 0 {
        assert ([a] + rest)[k] == rest[k - 1];
      }
    }
  }

  /** explode($d, $s): the pieces of `s` between the occurrences of `d`,
      scanning left to right. Joining them back with `d` gives `s`, no piece
      contains `d`, and every piece but the last ends exactly where the next
      occurrence of `d` starts (the leftmost one, so `::` in `a:::b` splits
      as `a` and `:b`). */
  function Explode(s: string, d: string): (parts: seq<string>)
    requires d != []
    ensures |parts| >= 1
    ensures Implode(parts, d) == s
    ensures forall k :: 0 <= k < |parts| ==> !Contains(parts[k], d)
    ensures IndexOf(s, d).None? ==> parts == [s]
    ensures IndexOf(s, d).Some? ==> |parts| >= 2 && IndexOf(s, d).value == |parts[0]|
    ensures forall k :: 0 <= k < |parts| - 1 ==> EndsAtFirst(parts[k], d)
    decreases |s|
  {
    match IndexOf(s, d)
    case None => [s]
    case Some(i) =>
      var rest := Explode(s[i + |d|..], d);
      ExplodeCons(s, d, i, rest);
      [s[..i]] + rest
  }

  /** One step of explode: the piece before the first `d`, then the pieces
      of the text after it. */
  lemma ExplodeCons(s: string, d: string, i: nat, rest: seq<string>)
    requires d != [] && IndexOf(s, d) == Some(i)
    requires |rest| >= 1 && Implode(rest, d) == s[i + |d|..]
    requires forall k :: 0 <= k < |rest| ==> !Contains(rest[k], d)
    requires forall k :: 0 <= k < |rest| - 1 ==> EndsAtFirst(rest[k], d)
    ensures var parts := [s[..i]] + rest;
            && |parts| >= 2 && i == |parts[0]|
            && Implode(parts, d) == s
            && (forall k :: 0 <= k < |parts| ==> !Contains(parts[k], d))
            && (forall k :: 0 <= k < |parts| - 1 ==> EndsAtFirst(parts[k], d))
  {
    NoOccurrenceBeforeFirst(s, d, i);
    FirstOccurrenceKept(s, d, i);
    LeftmostCons(s[..i], rest, d);
    JoinCons(s, d, i, rest);
    NoDelimiterCons(s[..i], rest, d);
  }

  lemma JoinCons(s: string, d: string, i: nat, rest: seq<string>)
    requires IndexOf(s, d) == Some(i)
    requires |rest| >= 1 && Implode(rest, d) == s[i + |d|..]
    ensures Implode([s[..i]] + rest, d) == s
  {
    assert Occurs(s, d, i);
    SplitAround(s, d, i, Implode(rest, d));
    ImplodeCons(s[..i], d, rest);
  }

  /** `s` is what precedes an occurrence of `d`, `d`, and what follows. */
  lemma SplitAround(s: string, d: string, i: nat, tail: string)
    requires i + |d| <= |s| && s[i..i + |d|] == d
    requires tail == s[i + |d|..]
    ensures s == s[..i] + d + tail
  {
    assert s == s[..i] + s[i..i + |d|] + s[i + |d|..];
  }

  lemma ImplodeCons(a: string, d: string, rest: seq<string>)
    requires |rest| >= 1
    ensures Implode([a] + rest, d) == a + d + Implode(rest, d)
  {
    assert ([a] + rest)[0] == a && ([a] + rest)[1..] == rest;
  }

  lemma NoDelimiterCons(a: string, rest: seq<string>, d: string)
    requires !Contains(a, d)
    requires forall k :: 0 <= k < |rest| ==> !Contains(rest[k], d)
    ensures forall k :: 0 <= k < |[a] + rest| ==> !Contains(([a] + rest)[k], d)
  {
    forall k | 0 <= k < |[a] + rest|
      ensures !Contains(([a] + rest)[k], d)
    {
      if k > 0 { assert ([a] + rest)[k] == rest[k - 1]; }
    }
  }

  function LowerChar(c: char): char
  {
    if 'A' <= c <= 'Z' then (c as int + 32) as char else c
  }

  /** Comparison of PHP identifiers, which ignores ASCII case
      (method_exists, function lookup). */
  predicate SameIdentifier(a: string, b: string)
  {
    |a| == |b| && forall i :: 0 <= i < |a| ==> LowerChar(a[i]) == LowerChar(b[i])
  }
}
