/** The two string operations the core relies on: the substring test behind
    `Str::contains` and the left-to-right replacement done by `str_replace`. */
module PhpStrings {

  /** `f` occurs somewhere in `s`. */
  predicate Occurs(s: string, f: string)
    decreases |s|
  {
    |s| >= |f| && (s[..|f|] == f || (|s| > 0 && Occurs(s[1..], f)))
  }

  /** `Str::contains($haystack, $needle)`: an empty needle is never contained. */
  predicate Contains(haystack: string, needle: string)
  {
    needle != "" && Occurs(haystack, needle)
  }

  /** `str_replace($from, $to, $s)`: scans left to right and replaces each
      non-overlapping occurrence; an empty search string changes nothing. */
  function ReplaceAll(s: string, from: string, to: string): string
    decreases |s|
  {
    if from == "" || |s| < |from| then s
    else if s[..|from|] == from then to + ReplaceAll(s[|from|..], from, to)
    else [s[0]] + ReplaceAll(s[1..], from, to)
  }

  /** The pieces of `s` between the occurrences of `f` that a left-to-right scan finds. */
  function Split(s: string, f: string): (ps: seq<string>)
    requires f != ""
    ensures |ps| >= 1
    decreases |s|
  {
    if |s| < |f| then [s]
    else if s[..|f|] == f then [""] + Split(s[|f|..], f)
    else
      var rest := Split(s[1..], f);
      [[s[0]] + rest[0]] + rest[1..]
  }

  /** The pieces glued back together with `sep` between them. */
  function Join(ps: seq<string>, sep: string): string
    requires |ps| >= 1
  {
    if |ps| == 1 then ps[0] else ps[0] + sep + Join(ps[1..], sep)
  }

  /** Splitting loses nothing: joining the pieces with the search string gives `s` back. */
  lemma {:induction false} SplitJoin(s: string, f: string)
    requires f != ""
    ensures Join(Split(s, f), f) == s
    decreases |s|
  {
    if |s| < |f| {
    } else if s[..|f|] == f {
      SplitJoin(s[|f|..], f);
      JoinEmptyHead(Split(s[|f|..], f), f);
      assert s == s[..|f|] + s[|f|..];
    } else {
      SplitJoin(s[1..], f);
      JoinHeadExtend([s[0]], Split(s[1..], f), f);
      assert s == [s[0]] + s[1..];
    }
  }

  /** Joining after an empty first piece starts with the separator. */
  lemma JoinEmptyHead(rest: seq<string>, sep: string)
    requires |rest| >= 1
    ensures Join([""] + rest, sep) == sep + Join(rest, sep)
  {
    assert ([""] + rest)[1..] == rest;
  }

  /** Lengthening the first piece at its front lengthens the join the same way. */
  lemma JoinHeadExtend(c: string, rest: seq<string>, sep: string)
    requires |rest| >= 1
    ensures Join([c + rest[0]] + rest[1..], sep) == c + Join(rest, sep)
  {
    if |rest| > 1 {
      assert ([c + rest[0]] + rest[1..])[1..] == rest[1..];
    }
  }

  /** The first piece is a prefix of the string. */
  lemma {:induction false} SplitHeadPrefix(s: string, f: string)
    requires f != ""
    ensures |Split(s, f)[0]| <= |s| && s[..|Split(s, f)[0]|] == Split(s, f)[0]
    decreases |s|
  {
    if |s| >= |f| && s[..|f|] != f {
      SplitHeadPrefix(s[1..], f);
    }
  }

  /** No piece contains the search string: every occurrence was cut out. */
  lemma {:induction false} SplitPiecesFree(s: string, f: string)
    requires f != ""
    ensures forall i :: 0 <= i < |Split(s, f)| ==> !Occurs(Split(s, f)[i], f)
    decreases |s|
  {
    var ps := Split(s, f);
    if |s| < |f| {
      NoRoom(s, f);
    } else if s[..|f|] == f {
      SplitPiecesFree(s[|f|..], f);
      NoRoom("", f);
      assert forall i :: 1 <= i < |ps| ==> ps[i] == Split(s[|f|..], f)[i - 1];
    } else {
      var rest := Split(s[1..], f);
      SplitPiecesFree(s[1..], f);
      SplitHeadPrefix(s[1..], f);
      var h := [s[0]] + rest[0];
      assert h[1..] == rest[0];
      assert !Occurs(h, f) by {
        if |h| >= |f| {
          assert h[..|f|] == s[..|f|];
        }
      }
      assert forall i :: 1 <= i < |ps| ==> ps[i] == rest[i];
    }
  }

  lemma NoRoom(s: string, f: string)
    requires |s| < |f|
    ensures !Occurs(s, f)
  {
  }

  /** `str_replace` is the split-then-join with the replacement string. */
  lemma {:induction false} ReplaceAllIsJoin(s: string, from: string, to: string)
    requires from != ""
    ensures ReplaceAll(s, from, to) == Join(Split(s, from), to)
    decreases |s|
  {
    if |s| < |from| {
    } else if s[..|from|] == from {
      ReplaceAllIsJoin(s[|from|..], from, to);
      JoinEmptyHead(Split(s[|from|..], from), to);
    } else {
      ReplaceAllIsJoin(s[1..], from, to);
      JoinHeadExtend([s[0]], Split(s[1..], from), to);
    }
  }

  /** A string that does not contain the search string comes back unchanged. */
  lemma {:induction false} ReplaceAllAbsent(s: string, from: string, to: string)
    requires !Occurs(s, from)
    ensures ReplaceAll(s, from, to) == s
    decreases |s|
  {
    if from != "" && |s| >= |from| {
      ReplaceAllAbsent(s[1..], from, to);
      assert s == [s[0]] + s[1..];
    }
  }
}
