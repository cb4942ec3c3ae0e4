/**
 * JavaScript string operations the client relies on: `startsWith`, and
 * `split` with a non-empty separator, together with their characterisation
 * in terms of where a pattern occurs.
 */
module Text {
  import opened Results

  /** `pat` occurs in `s` starting at index `i`. */
  predicate OccursAt(s: string, pat: string, i: nat) {
    i + |pat| <= |s| && s[i..i + |pat|] == pat
  }

  /** `pat` occurs nowhere in `s`. */
  predicate Absent(s: string, pat: string) {
    forall i: nat | i <= |s| :: !OccursAt(s, pat, i)
  }

  /** `s.startsWith(p)`. */
  predicate StartsWith(s: string, p: string) {
    p <= s
  }

  /** The index of the first occurrence of `pat` in `s` at or after `from`. */
  function FindFrom(s: string, pat: string, from: nat): (r: Option<nat>)
    ensures r.Some? ==> from <= r.value && OccursAt(s, pat, r.value)
    ensures r.Some? ==> forall j: nat :: from <= j < r.value ==> !OccursAt(s, pat, j)
    ensures r.None? ==> forall j: nat :: from <= j ==> !OccursAt(s, pat, j)
    decreases |s| - from
  {
    if |s| < from + |pat| then None
    else if s[from..from + |pat|] == pat then Some(from)
    else FindFrom(s, pat, from + 1)
  }

  /** The index of the first occurrence of `pat` in `s`. */
  function Find(s: string, pat: string): (r: Option<nat>)
    ensures r.Some? ==> OccursAt(s, pat, r.value)
    ensures r.Some? ==> forall j: nat :: j < r.value ==> !OccursAt(s, pat, j)
    ensures r.None? <==> Absent(s, pat)
  {
    FindFrom(s, pat, 0)
  }

  /** `s.split(sep)` for a non-empty separator: the pieces between successive occurrences. */
  function Split(s: string, sep: string): (parts: seq<string>)
    requires |sep| > 0
    ensures |parts| >= 1
    decreases |s|
  {
    match Find(s, sep)
    case None => [s]
    case Some(i) => [s[..i]] + Split(s[i + |sep|..], sep)
  }

  /** `parts.join(sep)`. */
  function Join(parts: seq<string>, sep: string): string
  {
    if |parts| == 0 then ""
    else if |parts| == 1 then parts[0]
    else parts[0] + sep + Join(parts[1..], sep)
  }

  /** The text before the first occurrence of `pat` does not contain `pat`. */
  lemma AbsentBeforeFirst(s: string, pat: string, i: nat)
    requires |pat| > 0
    requires i <= |s|
    requires forall j: nat :: j < i ==> !OccursAt(s, pat, j)
    ensures Absent(s[..i], pat)
  {
    forall j: nat | OccursAt(s[..i], pat, j)
      ensures false
    {
      assert s[..i][j..j + |pat|] == s[j..j + |pat|];
      assert OccursAt(s, pat, j);
    }
  }

  /** Every piece of a split is free of the separator. */
  lemma {:induction false} SplitPiecesAbsent(s: string, sep: string)
    requires |sep| > 0
    ensures forall k :: 0 <= k < |Split(s, sep)| ==> Absent(Split(s, sep)[k], sep)
    decreases |s|
  {
    match Find(s, sep)
    case None =>
    case Some(i) =>
      AbsentBeforeFirst(s, sep, i);
      SplitPiecesAbsent(s[i + |sep|..], sep);
      var parts := Split(s, sep);
      var rest := Split(s[i + |sep|..], sep);
      assert parts == [s[..i]] + rest;
      forall k | 0 <= k < |parts|
        ensures Absent(parts[k], sep)
      {
        if k > 0 {
          assert parts[k] == rest[k - 1];
        }
      }
  }

  /** Joining the pieces of a split with the same separator gives back the string. */
  lemma {:induction false} JoinSplit(s: string, sep: string)
    requires |sep| > 0
    ensures Join(Split(s, sep), sep) == s
    decreases |s|
  {
    match Find(s, sep)
    case None =>
    case Some(i) =>
      var rest := Split(s[i + |sep|..], sep);
      JoinSplit(s[i + |sep|..], sep);
      assert Split(s, sep) == [s[..i]] + rest;
      assert (Split(s, sep))[1..] == rest;
      assert s == s[..i] + s[i..i + |sep|] + s[i + |sep|..];
  }

  /**
   * The first piece of a split ends where the first occurrence of the
   * separator begins, or at the end of the string when there is none.
   */
  lemma FirstPiece(s: string, sep: string)
    requires |sep| > 0
    ensures Split(s, sep)[0] <= s
    ensures forall j: nat :: j < |Split(s, sep)[0]| ==> !OccursAt(s, sep, j)
    ensures Split(s, sep)[0] == s || OccursAt(s, sep, |Split(s, sep)[0]|)
  {
    match Find(s, sep)
    case None =>
    case Some(i) =>
      assert Split(s, sep)[0] == s[..i];
  }

  /**
   * A split has a second piece exactly when the separator occurs, and that
   * piece is the first piece of the text after the first separator.
   */
  lemma SecondPiece(s: string, sep: string)
    requires |sep| > 0
    ensures |Split(s, sep)| >= 2 <==> !Absent(s, sep)
    ensures |Split(s, sep)| >= 2 ==>
      Split(s, sep)[1] == Split(s[|Split(s, sep)[0]| + |sep|..], sep)[0]
  {
    var parts := Split(s, sep);
    match Find(s, sep)
    case None =>
      assert parts == [s];
    case Some(i) =>
      var rest := Split(s[i + |sep|..], sep);
      assert parts == [s[..i]] + rest;
      assert |parts[0]| == i;
      assert parts[1] == rest[0];
      assert OccursAt(s, sep, i);
  }
}
