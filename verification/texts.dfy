/** Plain text: stripping and joining. What counts as blank is the language's choice. */
module Texts {
  import opened Seqs

  function StripLeft(blank: char -> bool, s: string): string {
    if s != "" && blank(s[0]) then StripLeft(blank, s[1..]) else s
  }

  function StripRight(blank: char -> bool, s: string): string {
    if s != "" && blank(s[|s| - 1]) then StripRight(blank, s[..|s| - 1]) else s
  }

  function Strip(blank: char -> bool, s: string): string {
    StripRight(blank, StripLeft(blank, s))
  }

  // Nothing to strip, and something left.
  predicate Tight(blank: char -> bool, s: string) {
    s != "" && !blank(s[0]) && !blank(s[|s| - 1])
  }

  function Concat(parts: seq<string>): string {
    if parts == [] then "" else parts[0] + Concat(parts[1..])
  }

  lemma TightStays(blank: char -> bool, s: string)
    requires Tight(blank, s)
    ensures Strip(blank, s) == s
  {
  }

  lemma {:induction false} StripLeftIs(blank: char -> bool, s: string)
    ensures StripLeft(blank, s) == "" || !blank(StripLeft(blank, s)[0])
    ensures StripLeft(blank, s) == "" <==> forall i :: 0 <= i < |s| ==> blank(s[i])
  {
    if s != "" && blank(s[0]) {
      StripLeftIs(blank, s[1..]);
      assert forall i :: 0 < i < |s| ==> s[1..][i - 1] == s[i];
    }
  }

  lemma {:induction false} StripRightIs(blank: char -> bool, s: string)
    requires s == "" || !blank(s[0])
    ensures StripRight(blank, s) == "" <==> s == ""
    ensures s != "" ==> Tight(blank, StripRight(blank, s))
  {
    if s != "" && blank(s[|s| - 1]) {
      StripRightIs(blank, s[..|s| - 1]);
    }
  }

  // What is left after stripping is tight, or nothing if all was blank.
  lemma StripIs(blank: char -> bool, s: string)
    ensures Strip(blank, s) == "" <==> forall i :: 0 <= i < |s| ==> blank(s[i])
    ensures Strip(blank, s) != "" ==> Tight(blank, Strip(blank, s))
  {
    StripLeftIs(blank, s);
    StripRightIs(blank, StripLeft(blank, s));
  }

  lemma {:induction false} StripLeftCuts(blank: char -> bool, s: string) returns (i: nat)
    ensures i <= |s| && StripLeft(blank, s) == s[i..] && forall k :: 0 <= k < i ==> blank(s[k])
  {
    i := 0;
    if s != "" && blank(s[0]) {
      var j := StripLeftCuts(blank, s[1..]);
      i := j + 1;
      forall k | 0 < k < i
        ensures blank(s[k])
      {
        assert s[1..][k - 1] == s[k];
      }
    }
  }

  lemma {:induction false} StripRightCuts(blank: char -> bool, s: string) returns (j: nat)
    ensures j <= |s| && StripRight(blank, s) == s[..j] && forall k :: j <= k < |s| ==> blank(s[k])
  {
    j := |s|;
    if s != "" && blank(s[|s| - 1]) {
      j := StripRightCuts(blank, s[..|s| - 1]);
      assert forall k :: 0 <= k < |s| - 1 ==> s[..|s| - 1][k] == s[k];
    }
  }

  /** Stripping cuts blanks off both ends, and nothing else, until there is none. */
  lemma StripCuts(blank: char -> bool, s: string) returns (i: nat, j: nat)
    ensures i <= j <= |s| && Strip(blank, s) == s[i..j]
    ensures forall k :: 0 <= k < i || j <= k < |s| ==> blank(s[k])
    ensures Strip(blank, s) == "" || Tight(blank, Strip(blank, s))
  {
    i := StripLeftCuts(blank, s);
    var n := StripRightCuts(blank, s[i..]);
    j := i + n;
    assert s[i..][..n] == s[i..j];
    assert forall k :: 0 <= k < |s| - i ==> s[i..][k] == s[i + k];
    StripIs(blank, s);
  }

  lemma {:induction false} ConcatAppend(a: seq<string>, b: seq<string>)
    ensures Concat(a + b) == Concat(a) + Concat(b)
  {
    if a == [] {
      assert a + b == b;
    } else {
      var c := a + b;
      ConcatAppend(a[1..], b);
      assert c[0] == a[0] && c[1..] == a[1..] + b;
      Associates(a[0], Concat(a[1..]), Concat(b));
    }
  }

  lemma {:induction false} StripLeftShorter(blank: char -> bool, s: string)
    ensures |StripLeft(blank, s)| <= |s|
  {
    if s != "" && blank(s[0]) {
      StripLeftShorter(blank, s[1..]);
    }
  }

  lemma {:induction false} StripRightShorter(blank: char -> bool, s: string)
    ensures |StripRight(blank, s)| <= |s|
  {
    if s != "" && blank(s[|s| - 1]) {
      StripRightShorter(blank, s[..|s| - 1]);
    }
  }

  lemma StripShorter(blank: char -> bool, s: string)
    ensures |Strip(blank, s)| <= |s|
  {
    StripLeftShorter(blank, s);
    StripRightShorter(blank, StripLeft(blank, s));
  }
}
