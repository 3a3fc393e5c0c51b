/** Spelling tests between two canonical team names (team-aliases.ts).

    A canonical name is lower-case text whose words are separated by single
    spaces, so it is modelled as the sequence of its words. */
module TeamNames {

  type Word = string
  type Name = seq<Word>

  // --- Edit distance: the independent reference ------------------------------

  function Min(a: nat, b: nat): nat {
    if a <= b then a else b
  }

  /** Levenshtein distance, by the textbook recurrence. */
  ghost function Lev(a: Word, b: Word): nat
    decreases |a| + |b|
  {
    if a == [] then |b|
    else if b == [] then |a|
    else
      Min(Lev(a[1..], b[1..]) + (if a[0] == b[0] then 0 else 1),
          Min(Lev(a[1..], b) + 1, Lev(a, b[1..]) + 1))
  }

  lemma {:induction false} LevSymmetric(a: Word, b: Word)
    ensures Lev(a, b) == Lev(b, a)
    decreases |a| + |b|
  {
    if a != [] && b != [] {
      LevSymmetric(a[1..], b[1..]);
      LevSymmetric(a[1..], b);
      LevSymmetric(a, b[1..]);
    }
  }

  lemma {:induction false} LevBounds(a: Word, b: Word)
    ensures Lev(a, b) >= |a| - |b|
    ensures Lev(a, b) >= |b| - |a|
    decreases |a| + |b|
  {
    if a != [] && b != [] {
      LevBounds(a[1..], b[1..]);
      LevBounds(a[1..], b);
      LevBounds(a, b[1..]);
    }
  }

  lemma {:induction false} LevZero(a: Word, b: Word)
    ensures Lev(a, b) == 0 <==> a == b
    decreases |a| + |b|
  {
    if a != [] && b != [] {
      LevZero(a[1..], b[1..]);
      LevBounds(a[1..], b);
      LevBounds(a, b[1..]);
      assert a == [a[0]] + a[1..] && b == [b[0]] + b[1..];
    }
  }

  // --- One insertion, deletion or substitution -------------------------------

  /** Letters of equally long words that disagree, counted as the source does. */
  function Mismatches(a: Word, b: Word): nat
    requires |a| == |b|
  {
    if a == [] then 0 else (if a[0] == b[0] then 0 else 1) + Mismatches(a[1..], b[1..])
  }

  lemma {:induction false} MismatchesZero(a: Word, b: Word)
    requires |a| == |b|
    ensures Mismatches(a, b) == 0 <==> a == b
  {
    if a != [] {
      MismatchesZero(a[1..], b[1..]);
      assert a == [a[0]] + a[1..] && b == [b[0]] + b[1..];
    }
  }

  /** `shorter` is `longer` without one letter. */
  ghost predicate OneLetterLess(longer: Word, shorter: Word) {
    exists k :: DropsLetter(longer, shorter, k)
  }

  ghost predicate DropsLetter(longer: Word, shorter: Word, k: int) {
    0 <= k < |longer| && shorter == longer[..k] + longer[k + 1..]
  }

  /** Dropping a letter behind the first is dropping one from the tails. */
  lemma {:induction false} DropBehindHead(longer: Word, shorter: Word, k: nat)
    requires |longer| == |shorter| + 1 && shorter != [] && k < |shorter|
    ensures DropsLetter(longer, shorter, k + 1) <==> longer[0] == shorter[0] && DropsLetter(longer[1..], shorter[1..], k)
  {
    var dropped := longer[1..][..k] + longer[1..][k + 1..];
    assert longer[..k + 1] + longer[k + 2..] == [longer[0]] + dropped;
    assert shorter == [shorter[0]] + shorter[1..];
    if longer[0] == shorter[0] && shorter[1..] == dropped {
      assert shorter == [longer[0]] + dropped;
    }
    if shorter == [longer[0]] + dropped {
      assert shorter[1..] == dropped;
    }
  }

  lemma {:induction false} OneLetterLessCases(longer: Word, shorter: Word)
    requires |longer| == |shorter| + 1 && shorter != []
    ensures OneLetterLess(longer, shorter)
            <==> longer[1..] == shorter || (longer[0] == shorter[0] && OneLetterLess(longer[1..], shorter[1..]))
  {
    assert DropsLetter(longer, shorter, 0) <==> longer[1..] == shorter by {
      assert longer[..0] + longer[1..] == longer[1..];
    }
    forall k | 0 <= k < |shorter|
      ensures DropsLetter(longer, shorter, k + 1) <==> longer[0] == shorter[0] && DropsLetter(longer[1..], shorter[1..], k)
    {
      DropBehindHead(longer, shorter, k);
    }
    if longer[1..] == shorter { assert DropsLetter(longer, shorter, 0); }
    if OneLetterLess(longer, shorter) {
      var k :| DropsLetter(longer, shorter, k);
      if k > 0 {
        DropBehindHead(longer, shorter, k - 1);
        assert DropsLetter(longer[1..], shorter[1..], k - 1);
      }
    }
    if longer[0] == shorter[0] && OneLetterLess(longer[1..], shorter[1..]) {
      var k :| DropsLetter(longer[1..], shorter[1..], k);
      assert DropsLetter(longer, shorter, k + 1);
    }
  }

  /** For words one letter apart in length, distance 1 means one letter dropped. */
  lemma {:induction false} LevOneLetter(longer: Word, shorter: Word)
    requires |longer| == |shorter| + 1
    ensures Lev(longer, shorter) == 1 <==> OneLetterLess(longer, shorter)
    decreases |longer|
  {
    if shorter == [] {
      assert DropsLetter(longer, shorter, 0);
    } else {
      LevOneLetter(longer[1..], shorter[1..]);
      OneLetterLessCases(longer, shorter);
      LevZero(longer[1..], shorter);
      LevBounds(longer, shorter[1..]);
      LevBounds(longer[1..], shorter[1..]);
    }
  }

  /** For equally long words, distance 1 means exactly one letter differs. */
  lemma {:induction false} LevSubstitution(a: Word, b: Word)
    requires |a| == |b|
    ensures Lev(a, b) == 1 <==> Mismatches(a, b) == 1
    decreases |a|
  {
    if a != [] {
      LevSubstitution(a[1..], b[1..]);
      LevZero(a[1..], b[1..]);
      MismatchesZero(a[1..], b[1..]);
      LevBounds(a[1..], b);
      LevBounds(a, b[1..]);
    }
  }

  // --- The source's tests ----------------------------------------------------

  /** Positions at which two equally long names have different words. */
  function Different(left: Name, right: Name): (r: seq<nat>)
    requires |left| == |right|
    ensures forall k :: 0 <= k < |r| ==> r[k] < |left|
  {
    if left == [] then []
    else
      var n: nat := |left| - 1;
      Different(left[..n], right[..n]) + (if left[n] == right[n] then [] else [n])
  }

  lemma {:induction false} DifferentNone(left: Name, right: Name)
    requires |left| == |right|
    ensures Different(left, right) == [] <==> left == right
  {
    if left != [] {
      var n := |left| - 1;
      DifferentNone(left[..n], right[..n]);
      assert left == left[..n] + [left[n]] && right == right[..n] + [right[n]];
    }
  }

  /** Exactly one position differs, and it is `i`. */
  ghost predicate OnlyDifference(left: Name, right: Name, i: int) {
    && |left| == |right| && 0 <= i < |left|
    && left[i] != right[i]
    && (forall j :: 0 <= j < |left| && j != i ==> left[j] == right[j])
  }

  lemma {:induction false} OneDifference(left: Name, right: Name, i: nat)
    requires |left| == |right|
    ensures Different(left, right) == [i] <==> OnlyDifference(left, right, i)
  {
    if left != [] {
      var n := |left| - 1;
      var l, r := left[..n], right[..n];
      OneDifference(l, r, i);
      DifferentNone(l, r);
      if left[n] == right[n] {
        assert OnlyDifference(left, right, i) <==> OnlyDifference(l, r, i);
      } else {
        assert OnlyDifference(left, right, i) <==> i == n && l == r;
        assert Different(left, right) == Different(l, r) + [n];
        assert Different(left, right)[|Different(l, r)|] == n;
      }
    }
  }

  function Abs(x: int): nat { if x < 0 then -x else x }

  /** What `oneEditTeamName` answers: one word differs, and that pair of words is
      long enough and at edit distance exactly 1. */
  ghost predicate OneEdit(a: Name, b: Name) {
    && |a| >= 2
    && exists i :: OnlyDifference(a, b, i) && |a[i]| >= 5 && |b[i]| >= 5 && Lev(a[i], b[i]) == 1
  }

  /** The greedy scan over a word and the same word with one letter more. */
  method OneLetterScan(longer: Word, shorter: Word) returns (r: bool)
    requires |longer| == |shorter| + 1
    ensures r <==> OneLetterLess(longer, shorter)
  {
    var skipped, j := false, 0;
    ghost var at := 0;
    for i := 0 to |longer|
      invariant 0 <= j <= |shorter|
      invariant !skipped ==> j == i && longer[..i] == shorter[..i]
      invariant skipped ==> j == i - 1 && 0 <= at < i && longer[..at] == shorter[..at]
      invariant skipped ==> (at < |shorter| ==> longer[at] != shorter[at])
      invariant skipped ==> forall k :: at <= k < j ==> shorter[k] == longer[k + 1]
    {
      if j < |shorter| && longer[i] == shorter[j] {
        j := j + 1;
      } else if !skipped {
        skipped := true;
        at := i;
      } else {
        if OneLetterLess(longer, shorter) {
          var k :| DropsLetter(longer, shorter, k);
          FirstMismatchDropped(longer, shorter, at, k, j);
        }
        return false;
      }
    }
    assert skipped;
    assert shorter == longer[..at] + longer[at + 1..];
    assert DropsLetter(longer, shorter, at);
    return true;
  }

  /** If dropping letter k works, the scan's skip at the first mismatch works too. */
  lemma {:induction false} FirstMismatchDropped(longer: Word, shorter: Word, at: nat, k: int, j: nat)
    requires |longer| == |shorter| + 1 && at <= j < |shorter|
    requires DropsLetter(longer, shorter, k)
    requires longer[..at] == shorter[..at] && longer[at] != shorter[at]
    ensures shorter[j] == longer[j + 1]
  {
    assert k <= at;
  }

  /** team-aliases.ts, `oneEditTeamName`. */
  method OneEditTeamName(left: Name, right: Name) returns (r: bool)
    ensures r <==> OneEdit(left, right)
  {
    if |left| < 2 || |left| != |right| {
      return false;
    }
    var different := Different(left, right);
    if |different| != 1 {
      if OneEdit(left, right) {
        var i :| OnlyDifference(left, right, i);
        OneDifference(left, right, i);
      }
      return false;
    }
    OneDifference(left, right, different[0]);
    var first, second := left[different[0]], right[different[0]];
    LevBounds(first, second);
    if Min(|first|, |second|) < 5 || Abs(|first| - |second|) > 1 {
      return false;
    }
    if |first| == |second| {
      LevSubstitution(first, second);
      return Mismatches(first, second) == 1;
    }
    var shorter := if |first| < |second| then first else second;
    var longer := if |first| < |second| then second else first;
    LevOneLetter(longer, shorter);
    LevSymmetric(first, second);
    r := OneLetterScan(longer, shorter);
  }

  lemma {:induction false} OneEditSymmetric(a: Name, b: Name)
    ensures OneEdit(a, b) <==> OneEdit(b, a)
  {
    forall a: Name, b: Name | OneEdit(a, b)
      ensures OneEdit(b, a)
    {
      var i :| OnlyDifference(a, b, i) && |a[i]| >= 5 && |b[i]| >= 5 && Lev(a[i], b[i]) == 1;
      LevSymmetric(a[i], b[i]);
      assert OnlyDifference(b, a, i);
    }
  }

  /** `plural` is `singular` plus a final s, and has at least five letters. */
  predicate PluralOf(plural: Word, singular: Word) {
    |plural| >= 5 && plural == singular + "s"
  }

  /** team-aliases.ts, `inflectedTeamName`. */
  predicate InflectedTeamName(left: Name, right: Name) {
    && |left| >= 2 && |left| == |right|
    && var different := Different(left, right);
       && |different| == 1
       && var first, second := left[different[0]], right[different[0]];
          PluralOf(first, second) || PluralOf(second, first)
  }

  lemma {:induction false} InflectedSymmetric(a: Name, b: Name)
    ensures InflectedTeamName(a, b) <==> InflectedTeamName(b, a)
  {
    if |a| == |b| {
      var d, e := Different(a, b), Different(b, a);
      if |d| == 1 {
        OneDifference(a, b, d[0]);
        OneDifference(b, a, d[0]);
      } else if |e| == 1 {
        OneDifference(b, a, e[0]);
        OneDifference(a, b, e[0]);
      }
    }
  }

  /** One word of several differs, and there one name adds a final s, making it five
      letters or more. */
  lemma {:induction false} InflectedMeans(a: Name, b: Name)
    ensures InflectedTeamName(a, b) <==>
              |a| >= 2 && exists i :: OnlyDifference(a, b, i) && ((a[i] == b[i] + ['s'] && |a[i]| >= 5) || (b[i] == a[i] + ['s'] && |b[i]| >= 5))
  {
    if |a| == |b| {
      forall i | OnlyDifference(a, b, i) ensures Different(a, b) == [i] { OneDifference(a, b, i); }
      if |Different(a, b)| == 1 {
        OneDifference(a, b, Different(a, b)[0]);
        assert Different(a, b) == [Different(a, b)[0]];
      }
    }
  }

  /** A plural whose singular has at least five letters is one edit away; the two
      tests overlap exactly there. */
  lemma {:induction false} InflectedIsOneEdit(a: Name, b: Name)
    ensures InflectedTeamName(a, b) ==>
              (OneEdit(a, b) <==> |a[Different(a, b)[0]]| >= 5 && |b[Different(a, b)[0]]| >= 5)
  {
    if InflectedTeamName(a, b) {
      var i := Different(a, b)[0];
      OneDifference(a, b, i);
      var plural := if PluralOf(a[i], b[i]) then a[i] else b[i];
      var singular := if PluralOf(a[i], b[i]) then b[i] else a[i];
      assert DropsLetter(plural, singular, |singular|);
      LevOneLetter(plural, singular);
      LevSymmetric(a[i], b[i]);
    }
  }

  // --- Abbreviations ---------------------------------------------------------

  /** First letters of the words; an empty word contributes nothing. */
  function Initials(words: Name): Word {
    if words == [] then "" else words[0][..Min(1, |words[0]|)] + Initials(words[1..])
  }

  /** The first `n` words of `long` contracted: first word, then initials. */
  function Abbreviation(long: Name, n: nat): Word
    requires 1 <= n <= |long|
  {
    long[0] + Initials(long[1..n])
  }

  /** One split point of `long` explains `short`. */
  predicate SplitsAt(short: Name, long: Name, n: int) {
    && 2 <= n < |long| && |short| >= 1
    && long[n..] == short[1..]
    && |short[0]| >= 3 && short[0] == Abbreviation(long, n)
  }

  /** What `abbreviatedTeamName` answers: only one split can have a suffix of the
      right length, and it is tested alone. */
  predicate Abbreviated(short: Name, long: Name) {
    && 2 <= |short| < |long|
    && SplitsAt(short, long, |long| - |short| + 1)
  }

  /** team-aliases.ts, `abbreviatedTeamName`: the search over all split points. */
  method AbbreviatedTeamName(short: Name, long: Name) returns (r: bool)
    ensures r <==> Abbreviated(short, long)
    ensures r <==> 2 <= |short| < |long| && exists n :: SplitsAt(short, long, n)
  {
    if |short| < 2 || |long| <= |short| {
      return false;
    }
    assert forall n :: SplitsAt(short, long, n) ==> n == |long| - |short| + 1 by {
      forall n | SplitsAt(short, long, n) ensures n == |long| - |short| + 1 {
        assert |long[n..]| == |short[1..]|;
      }
    }
    for prefixLength := 2 to |long|
      invariant forall n :: 2 <= n < prefixLength ==> !SplitsAt(short, long, n)
    {
      if long[prefixLength..] == short[1..] {
        var abbreviation := Abbreviation(long, prefixLength);
        if |short[0]| >= 3 && short[0] == abbreviation {
          assert SplitsAt(short, long, prefixLength);
          return true;
        }
      }
    }
    return false;
  }

  lemma {:induction false} InitialsMeans(words: Name)
    requires forall k :: 0 <= k < |words| ==> words[k] != ""
    ensures |Initials(words)| == |words|
    ensures forall k :: 0 <= k < |words| ==> Initials(words)[k] == words[k][0]
  {
    if words != [] {
      InitialsMeans(words[1..]);
    }
  }

  /** Letter by letter, for names without empty words: past its first word the short name
      is the end of the long one, and its first word is the long name's first word followed
      by the first letter of each word that is left out. */
  lemma {:induction false} AbbreviatedMeans(short: Name, long: Name)
    requires forall k :: 0 <= k < |long| ==> long[k] != ""
    ensures Abbreviated(short, long) <==>
              && 2 <= |short| < |long| && |short[0]| >= 3
              && var n := |long| - |short| + 1;
                 && short[1..] == long[n..]
                 && |short[0]| == |long[0]| + n - 1 && short[0][..|long[0]|] == long[0]
                 && forall k :: 1 <= k < n ==> short[0][|long[0]| + k - 1] == long[k][0]
  {
    if 2 <= |short| < |long| {
      var n := |long| - |short| + 1;
      InitialsMeans(long[1..n]);
      var initials := Initials(long[1..n]);
      assert forall k :: 1 <= k < n ==> initials[k - 1] == long[1..n][k - 1][0] == long[k][0];
      if |short[0]| == |long[0]| + n - 1 && short[0][..|long[0]|] == long[0]
         && forall k :: 1 <= k < n ==> short[0][|long[0]| + k - 1] == long[k][0] {
        forall k | 0 <= k < |short[0]| ensures short[0][k] == (long[0] + initials)[k] {
          if k < |long[0]| { assert short[0][..|long[0]|][k] == long[0][k]; } else { assert short[0][|long[0]| + (k - |long[0]| + 1) - 1] == long[k - |long[0]| + 1][0]; }
        }
        assert short[0] == long[0] + initials;
      } else if short[0] == long[0] + initials {
        forall k | 1 <= k < n ensures short[0][|long[0]| + k - 1] == long[k][0] { assert (long[0] + initials)[|long[0]| + k - 1] == initials[k - 1]; }
      }
    }
  }

  /** An abbreviation always has fewer words, so it never holds both ways. */
  lemma {:induction false} AbbreviationIsOneWay(a: Name, b: Name)
    ensures !(Abbreviated(a, b) && Abbreviated(b, a))
  {
  }

  // --- The combined spelling test used by matching ---------------------------

  /** Different names, one an abbreviation, inflection or single edit of the other. */
  ghost predicate Similar(a: Name, b: Name) {
    && a != b
    && (Abbreviated(a, b) || Abbreviated(b, a) || InflectedTeamName(a, b) || OneEdit(a, b))
  }

  lemma {:induction false} SimilarSymmetric(a: Name, b: Name)
    ensures Similar(a, b) <==> Similar(b, a)
  {
    InflectedSymmetric(a, b);
    OneEditSymmetric(a, b);
  }

  /** The test as the source evaluates it, left to right. */
  method SimilarNames(a: Name, b: Name) returns (r: bool)
    ensures r <==> Similar(a, b)
  {
    if a == b { return false; }
    r := AbbreviatedTeamName(a, b);
    if !r { r := AbbreviatedTeamName(b, a); }
    if !r { r := InflectedTeamName(a, b); }
    if !r { r := OneEditTeamName(a, b); }
  }
}
