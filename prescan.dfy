/** The pre-scan `parse_network` runs over the raw text before any token is read: for each
    section keyword in turn it looks for a free-standing occurrence (one with a space or a
    newline on both sides), and remembers the last keyword it could not find.  The string
    primitives follow Python's semantics: `find` answers -1 when there is no occurrence,
    `count` counts non-overlapping occurrences, and a negative index counts from the end. */
module KeywordScan {
  import opened Common
  import opened Lexicon

  /** `s[k]` with Python's negative indices; None is an IndexError. */
  function PyIndex(s: seq<char>, k: int): (r: Option<char>)
    ensures r.Some? <==> -|s| <= k < |s|
    ensures 0 <= k < |s| ==> r == Some(s[k])
    ensures -|s| <= k < 0 ==> r == Some(s[|s| + k])
  {
    if 0 <= k < |s| then Some(s[k])
    else if -|s| <= k < 0 then Some(s[|s| + k])
    else None
  }

  predicate OccursAt(s: seq<char>, pat: seq<char>, i: nat) {
    i + |pat| <= |s| && s[i..i + |pat|] == pat
  }

  /** `s.find(pat, start)`: the first occurrence at or after `start`, or -1. */
  function Find(s: seq<char>, pat: seq<char>, start: nat): (r: int)
    ensures r == -1 || (start <= r && OccursAt(s, pat, r))
    ensures r == -1 ==> forall i: nat :: start <= i ==> !OccursAt(s, pat, i)
    ensures r >= 0 ==> forall i: nat :: start <= i < r ==> !OccursAt(s, pat, i)
    decreases |s| - start
  {
    if start + |pat| > |s| then -1
    else if OccursAt(s, pat, start) then start
    else Find(s, pat, start + 1)
  }

  /** `pat in s`. */
  predicate Contains(s: seq<char>, pat: seq<char>) {
    Find(s, pat, 0) >= 0
  }

  /** `s.count(pat)` restricted to the suffix from `start`: occurrences counted left to
      right, each search resuming after the previous match. */
  function CountFrom(s: seq<char>, pat: seq<char>, start: nat): (n: nat)
    requires pat != []
    ensures n == 0 <==> forall i: nat :: start <= i ==> !OccursAt(s, pat, i)
    decreases |s| - start
  {
    var k := Find(s, pat, start);
    if k < 0 then 0 else 1 + CountFrom(s, pat, k + |pat|)
  }

  function Count(s: seq<char>, pat: seq<char>): (n: nat)
    requires pat != []
    ensures n == 0 <==> !Contains(s, pat)
  {
    CountFrom(s, pat, 0)
  }

  /** The characters the pre-scan accepts beside a keyword. */
  predicate IsBoundary(c: char) {
    c == ' ' || c == '\n'
  }

  /** The remaining `j` rounds of the pre-scan's inner loop for keyword `kw`, as the code
      is written: the search restarts at `start`, the character before the match is read
      with Python indexing (so a match at 0 looks at the last character), the one after
      is read only when the one before is a boundary, and the restart point grows by
      `ind + 1` on top of its old value. */
  function SearchFrom(file: seq<char>, kw: seq<char>, start: nat, j: nat): (r: Result<bool>)
    ensures r.Err? ==> r.error == IndexError
    decreases j
  {
    if j == 0 then Ok(false)
    else
      var ind := Find(file, kw, start);
      match PyIndex(file, ind - 1)
      case None => Err(IndexError)
      case Some(before) =>
        if !IsBoundary(before) then SearchFrom(file, kw, start + ind + 1, j - 1)
        else match PyIndex(file, ind + |kw|)
          case None => Err(IndexError)
          case Some(after) =>
            if IsBoundary(after) then Ok(true)
            else SearchFrom(file, kw, start + ind + 1, j - 1)
  }

  /** Whether the pre-scan finds keyword `kw` in `file`, or the error it stops with. */
  function KeywordFound(file: seq<char>, kw: seq<char>): (r: Result<bool>)
    requires kw != []
    ensures !Contains(file, kw) ==> r == Ok(false)
    ensures r.Err? ==> r.error == IndexError
  {
    if !Contains(file, kw) then Ok(false) else SearchFrom(file, kw, 0, Count(file, kw))
  }

  /** The inner `for j in range(count)` loop with its `break` and `else`. */
  method SearchKeyword(file: seq<char>, kw: seq<char>) returns (r: Result<bool>)
    requires kw != []
    ensures r == KeywordFound(file, kw)
  {
    if !Contains(file, kw) {
      return Ok(false);
    }
    var count := Count(file, kw);
    var start: nat := 0;
    var rounds := count;
    while rounds > 0
      invariant SearchFrom(file, kw, start, rounds) == KeywordFound(file, kw)
    {
      var done, answer, next := SearchRound(file, kw, start, rounds);
      if done {
        return answer;
      }
      start, rounds := next, rounds - 1;
    }
    return Ok(false);
  }

  /** One pass of the inner loop's body: either it settles the search (a `break` with the
      keyword found, or an `IndexError`), or it hands on to the next restart point. */
  method SearchRound(file: seq<char>, kw: seq<char>, start: nat, rounds: nat)
      returns (done: bool, answer: Result<bool>, next: nat)
    requires rounds > 0
    ensures done ==> answer == SearchFrom(file, kw, start, rounds)
    ensures !done ==> SearchFrom(file, kw, start, rounds) == SearchFrom(file, kw, next, rounds - 1)
  {
    var ind := Find(file, kw, start);
    var before := PyIndex(file, ind - 1);
    if before.None? {
      return true, Err(IndexError), start;
    }
    if IsBoundary(before.value) {
      var after := PyIndex(file, ind + |kw|);
      if after.None? {
        return true, Err(IndexError), start;
      }
      if IsBoundary(after.value) {
        return true, Ok(true), start;
      }
    }
    return false, Ok(false), start + ind + 1;
  }

  /** The value MISSING holds after the pre-scan started from `missing`, over the keywords
      `kws` still to check: each keyword not found overwrites it. */
  function MissingAfter(file: seq<char>, kws: seq<string>, missing: string): (r: Result<string>)
    requires forall i :: 0 <= i < |kws| ==> kws[i] != []
    ensures r.Err? ==> r.error == IndexError
    ensures r.Ok? && r.value != missing ==> r.value in kws
    decreases |kws|
  {
    if kws == [] then Ok(missing)
    else
      var found :- KeywordFound(file, kws[0]);
      MissingAfter(file, kws[1..], if found then missing else kws[0])
  }

  /** The whole pre-scan, starting from an empty MISSING. */
  function PreScan(file: seq<char>): Result<string> {
    MissingAfter(file, Keywords, "")
  }

  /** The pre-scan loop over the four keywords, in order. */
  method ScanKeywords(file: seq<char>) returns (r: Result<string>)
    ensures r == PreScan(file)
  {
    var missing := "";
    for i := 0 to |Keywords|
      invariant MissingAfter(file, Keywords[i..], missing) == PreScan(file)
    {
      assert Keywords[i..][1..] == Keywords[i + 1..];
      var found :- SearchKeyword(file, Keywords[i]);
      if !found {
        missing := Keywords[i];
      }
    }
    return Ok(missing);
  }

  /** When every keyword is found, the pre-scan leaves MISSING as it was. */
  lemma {:induction false} AllFoundKeepsMissing(file: seq<char>, kws: seq<string>, missing: string)
    requires forall i :: 0 <= i < |kws| ==> kws[i] != []
    requires forall i :: 0 <= i < |kws| ==> KeywordFound(file, kws[i]) == Ok(true)
    ensures MissingAfter(file, kws, missing) == Ok(missing)
    decreases |kws|
  {
    if kws != [] {
      assert KeywordFound(file, kws[0]) == Ok(true);
      assert forall i :: 0 <= i < |kws[1..]| ==> kws[1..][i] == kws[i + 1];
      AllFoundKeepsMissing(file, kws[1..], missing);
    }
  }

  /** MISSING ends as the LAST keyword that was not found: if keyword `k` is missing and
      every later one is found, the pre-scan's outcome is keyword `k`. */
  lemma {:induction false} MissingIsLast(file: seq<char>, kws: seq<string>, missing: string, k: nat)
    requires forall i :: 0 <= i < |kws| ==> kws[i] != []
    requires k < |kws| && KeywordFound(file, kws[k]) == Ok(false)
    requires forall l :: k < l < |kws| ==> KeywordFound(file, kws[l]) == Ok(true)
    requires forall l :: 0 <= l < k ==> KeywordFound(file, kws[l]).Ok?
    ensures MissingAfter(file, kws, missing) == Ok(kws[k])
    decreases |kws|
  {
    assert forall i :: 0 <= i < |kws[1..]| ==> kws[1..][i] == kws[i + 1];
    if k == 0 {
      AllFoundKeepsMissing(file, kws[1..], kws[0]);
    } else {
      var found := KeywordFound(file, kws[0]).value;
      MissingIsLast(file, kws[1..], if found then missing else kws[0], k - 1);
    }
  }

  /** The character at `i` separates words: it is a space or newline, or `i` lies outside
      the text (the intended reading of the pre-scan's `''` alternative). */
  predicate Boundary(s: seq<char>, i: int) {
    i < 0 || i >= |s| || IsBoundary(s[i])
  }

  /** `kw` stands free at `i`: it occurs there with a boundary on either side. */
  predicate FreeAt(s: seq<char>, kw: seq<char>, i: nat) {
    OccursAt(s, kw, i) && Boundary(s, i - 1) && Boundary(s, i + |kw|)
  }

  predicate FreeStanding(s: seq<char>, kw: seq<char>) {
    exists i: nat :: i <= |s| && FreeAt(s, kw, i)
  }

  /** The corrected search: visit every occurrence from `start` on, each search resuming
      one past the previous match, reading no character outside the text. */
  function FreeFrom(s: seq<char>, kw: seq<char>, start: nat): bool
    requires kw != []
    decreases |s| - start
  {
    var k := Find(s, kw, start);
    if k < 0 then false else FreeAt(s, kw, k) || FreeFrom(s, kw, k + 1)
  }

  /** The corrected search answers exactly whether a free-standing occurrence exists. */
  lemma FreeFromExact(s: seq<char>, kw: seq<char>, start: nat)
    requires kw != []
    ensures FreeFrom(s, kw, start) <==> exists i: nat :: start <= i && FreeAt(s, kw, i)
  {
    if FreeFrom(s, kw, start) {
      FreeFromSound(s, kw, start);
    }
    forall i: nat | start <= i && FreeAt(s, kw, i)
      ensures FreeFrom(s, kw, start)
    {
      FreeFromComplete(s, kw, start, i);
    }
  }

  /** What the corrected search reports is a free-standing occurrence. */
  lemma {:induction false} FreeFromSound(s: seq<char>, kw: seq<char>, start: nat)
    requires kw != [] && FreeFrom(s, kw, start)
    ensures exists i: nat :: start <= i && FreeAt(s, kw, i)
    decreases |s| - start
  {
    var k := Find(s, kw, start);
    if FreeAt(s, kw, k) {
      assert start <= k;
    } else {
      FreeFromSound(s, kw, k + 1);
      var i: nat :| k + 1 <= i && FreeAt(s, kw, i);
      assert start <= i;
    }
  }

  /** The corrected search misses no free-standing occurrence at or after its start. */
  lemma {:induction false} FreeFromComplete(s: seq<char>, kw: seq<char>, start: nat, i: nat)
    requires kw != [] && start <= i && FreeAt(s, kw, i)
    ensures FreeFrom(s, kw, start)
    decreases |s| - start
  {
    FreeAtFound(s, kw, start, i);
    var k := Find(s, kw, start);
    if k != i {
      FreeFromComplete(s, kw, k + 1, i);
    }
  }

  /** A free-standing occurrence at or after `start` is at or after the first match. */
  lemma FreeAtFound(s: seq<char>, kw: seq<char>, start: nat, i: nat)
    requires start <= i && FreeAt(s, kw, i)
    ensures 0 <= Find(s, kw, start) <= i && i + |kw| <= |s|
  {
    assert OccursAt(s, kw, i);
  }

  /** The corrected keyword test. */
  function CorrectedFound(file: seq<char>, kw: seq<char>): (r: bool)
    requires kw != []
    ensures r <==> FreeStanding(file, kw)
  {
    FreeFromExact(file, kw, 0);
    FreeFrom(file, kw, 0)
  }

  /** The corrected pre-scan: the last keyword of `kws` that does not stand free in
      `file`, or "" when they all do.  It never fails. */
  function CorrectedMissing(file: seq<char>, kws: seq<string>): (r: string)
    requires forall i :: 0 <= i < |kws| ==> kws[i] != []
    ensures r == "" ==> forall i :: 0 <= i < |kws| && kws[i] != "" ==> FreeStanding(file, kws[i])
    ensures r != "" ==> exists k :: 0 <= k < |kws| && r == kws[k] && !FreeStanding(file, kws[k])
                          && forall l :: k < l < |kws| ==> FreeStanding(file, kws[l])
    decreases |kws|
  {
    if kws == [] then ""
    else if !CorrectedFound(file, kws[|kws| - 1]) then kws[|kws| - 1]
    else
      var r := CorrectedMissing(file, kws[..|kws| - 1]);
      assert forall i :: 0 <= i < |kws| - 1 ==> kws[..|kws| - 1][i] == kws[i];
      r
  }

  /** A round whose match has a non-separator before it hands on to the next restart
      point. */
  lemma RoundSkips(file: seq<char>, kw: seq<char>, start: nat, j: nat, ind: int, c: char)
    requires j > 0 && Find(file, kw, start) == ind
    requires PyIndex(file, ind - 1) == Some(c) && !IsBoundary(c)
    ensures start + ind + 1 >= 0
    ensures SearchFrom(file, kw, start, j) == SearchFrom(file, kw, start + ind + 1, j - 1)
  {
  }

  /** A round whose match has a separator on both sides ends the search with success. */
  lemma RoundHits(file: seq<char>, kw: seq<char>, start: nat, j: nat, ind: int, c: char, d: char)
    requires j > 0 && Find(file, kw, start) == ind
    requires PyIndex(file, ind - 1) == Some(c) && IsBoundary(c)
    requires PyIndex(file, ind + |kw|) == Some(d) && IsBoundary(d)
    ensures SearchFrom(file, kw, start, j) == Ok(true)
  {
  }

  /** The corrected search passes over a match that does not stand free. */
  lemma FreeFromNext(s: seq<char>, kw: seq<char>, start: nat, k: nat)
    requires kw != [] && Find(s, kw, start) == k && !FreeAt(s, kw, k)
    ensures FreeFrom(s, kw, start) == FreeFrom(s, kw, k + 1)
  {
  }

  /** `s.find(pat, start)` is `k` when `k` is the first occurrence from `start`. */
  lemma FindIs(s: seq<char>, pat: seq<char>, start: nat, k: nat)
    requires start <= k && OccursAt(s, pat, k)
    requires forall i: nat :: start <= i < k ==> !OccursAt(s, pat, i)
    ensures Find(s, pat, start) == k
  {
  }

  /** A search from a position whose character cannot start `pat` moves on by one. */
  lemma FindSkip(s: seq<char>, pat: seq<char>, start: nat)
    requires pat != [] && start < |s| && s[start] != pat[0]
    ensures Find(s, pat, start) == Find(s, pat, start + 1)
  {
    if start + |pat| <= |s| {
      assert s[start..start + |pat|][0] == s[start];
    }
  }

  /** A search skips a stretch in which no character can start `pat`. */
  lemma {:induction false} FindJump(s: seq<char>, pat: seq<char>, start: nat, k: nat)
    requires pat != [] && start <= k <= |s|
    requires forall i :: start <= i < k ==> s[i] != pat[0]
    ensures Find(s, pat, start) == Find(s, pat, k)
    decreases k - start
  {
    if start < k {
      FindSkip(s, pat, start);
      FindJump(s, pat, start + 1, k);
    }
  }

  /** A search for a three-character pattern lands on the first place it is spelled out,
      when no character before it can start the pattern. */
  lemma FindLands(s: seq<char>, pat: seq<char>, start: nat, k: nat)
    requires |pat| == 3 && start <= k && k + 3 <= |s|
    requires forall i :: start <= i < k ==> s[i] != pat[0]
    requires s[k] == pat[0] && s[k + 1] == pat[1] && s[k + 2] == pat[2]
    ensures Find(s, pat, start) == k
  {
    FindJump(s, pat, start, k);
    assert s[k..k + 3] == pat;
  }

  /** `s.find(pat, start)` is -1 when nothing occurs from `start` on. */
  lemma FindNone(s: seq<char>, pat: seq<char>, start: nat)
    requires forall i: nat :: start <= i ==> !OccursAt(s, pat, i)
    ensures Find(s, pat, start) == -1
  {
  }

  /** A keyword that ends the text right after a newline is free-standing, but the
      pre-scan reads one character past the end and fails. */
  lemma KeywordAtEndFails()
    ensures KeywordFound("\nEND", "END") == Err(IndexError)
    ensures FreeStanding("\nEND", "END")
  {
    var s := "\nEND";
    assert s[0..3][0] != "END"[0];
    assert OccursAt(s, "END", 1);
    FindIs(s, "END", 0, 1);
    FindNone(s, "END", 4);
    assert Count(s, "END") == 1;
    assert FreeAt(s, "END", 1);
  }

  /** A text that starts with the keyword is checked against its LAST character, so a
      text consisting of the keyword alone reports it missing. */
  lemma LeadingKeywordWraps()
    ensures KeywordFound("END", "END") == Ok(false)
    ensures FreeStanding("END", "END")
  {
    var s := "END";
    assert OccursAt(s, "END", 0);
    FindIs(s, "END", 0, 0);
    FindNone(s, "END", 3);
    assert Count(s, "END") == 1;
    assert FreeAt(s, "END", 0);
  }

  /** The text "xxxEND yEND END ", character by character. */
  predicate OvershootText(s: seq<char>) {
    |s| == 16
    && s[0] == 'x' && s[1] == 'x' && s[2] == 'x' && s[3] == 'E' && s[4] == 'N' && s[5] == 'D'
    && s[6] == ' ' && s[7] == 'y' && s[8] == 'E' && s[9] == 'N' && s[10] == 'D' && s[11] == ' '
    && s[12] == 'E' && s[13] == 'N' && s[14] == 'D' && s[15] == ' '
  }

  lemma OvershootSpelled(s: seq<char>)
    requires s == "xxxEND yEND END "
    ensures OvershootText(s)
  {
  }

  /** The text "ab xEND yEND zEND\n\n", character by character. */
  predicate PhantomText(s: seq<char>) {
    |s| == 19
    && s[0] == 'a' && s[1] == 'b' && s[2] == ' ' && s[3] == 'x' && s[4] == 'E' && s[5] == 'N'
    && s[6] == 'D' && s[7] == ' ' && s[8] == 'y' && s[9] == 'E' && s[10] == 'N' && s[11] == 'D'
    && s[12] == ' ' && s[13] == 'z' && s[14] == 'E' && s[15] == 'N' && s[16] == 'D' && s[17] == '\n'
    && s[18] == '\n'
  }

  lemma PhantomSpelled(s: seq<char>)
    requires s == "ab xEND yEND zEND\n\n"
    ensures PhantomText(s)
  {
  }

  /** Where `find` lands in the text "xxxEND yEND END ". */
  lemma OvershootFinds(s: seq<char>)
    requires OvershootText(s)
    ensures Find(s, "END", 0) == 3 && Find(s, "END", 4) == 8
    ensures Find(s, "END", 6) == 8 && Find(s, "END", 11) == 12
    ensures Find(s, "END", 13) == -1 && Find(s, "END", 15) == -1
  {
    FindLands(s, "END", 0, 3);
    FindLands(s, "END", 4, 8);
    FindLands(s, "END", 6, 8);
    FindLands(s, "END", 11, 12);
    assert Find(s, "END", 13) == -1 by { FindJump(s, "END", 13, 14); FindNone(s, "END", 14); }
    FindNone(s, "END", 15);
  }

  lemma OvershootCount(s: seq<char>)
    requires OvershootText(s)
    ensures Count(s, "END") == 3
  {
    OvershootFinds(s);
    assert CountFrom(s, "END", 15) == 0;
    assert CountFrom(s, "END", 11) == 1;
    assert CountFrom(s, "END", 6) == 2;
  }

  lemma OvershootRounds(s: seq<char>)
    requires OvershootText(s)
    ensures SearchFrom(s, "END", 0, 3) == Ok(false)
  {
    OvershootFinds(s);
    RoundSkips(s, "END", 0, 3, 3, s[2]);
    RoundSkips(s, "END", 4, 2, 8, s[7]);
    RoundSkips(s, "END", 13, 1, -1, s[14]);
  }

  /** Because each restart adds the match position to the OLD restart point, the search
      overshoots: in this text the third round starts past the free-standing END at 12. */
  lemma OvershootMisses(s: seq<char>)
    requires s == "xxxEND yEND END "
    ensures KeywordFound(s, "END") == Ok(false)
    ensures FreeStanding(s, "END")
  {
    OvershootSpelled(s);
    OvershootCount(s);
    OvershootRounds(s);
    OvershootFinds(s);
    assert FreeAt(s, "END", 12);
  }

  /** Where `find` lands in the text "ab xEND yEND zEND\n\n". */
  lemma PhantomFinds(s: seq<char>)
    requires PhantomText(s)
    ensures Find(s, "END", 0) == 4 && Find(s, "END", 5) == 9 && Find(s, "END", 7) == 9
    ensures Find(s, "END", 10) == 14 && Find(s, "END", 12) == 14
    ensures Find(s, "END", 15) == -1 && Find(s, "END", 17) == -1
  {
    FindLands(s, "END", 0, 4);
    FindLands(s, "END", 5, 9);
    FindLands(s, "END", 7, 9);
    FindLands(s, "END", 10, 14);
    FindLands(s, "END", 12, 14);
    assert Find(s, "END", 15) == -1 by { FindJump(s, "END", 15, 17); FindNone(s, "END", 17); }
    FindNone(s, "END", 17);
  }

  lemma PhantomCount(s: seq<char>)
    requires PhantomText(s)
    ensures Count(s, "END") == 3
  {
    PhantomFinds(s);
    assert CountFrom(s, "END", 17) == 0;
    assert CountFrom(s, "END", 12) == 1;
    assert CountFrom(s, "END", 7) == 2;
  }

  lemma PhantomRounds(s: seq<char>)
    requires PhantomText(s)
    ensures SearchFrom(s, "END", 0, 3) == Ok(true)
  {
    PhantomFinds(s);
    RoundSkips(s, "END", 0, 3, 4, s[3]);
    RoundSkips(s, "END", 5, 2, 9, s[8]);
    RoundHits(s, "END", 15, 1, -1, s[17], s[2]);
  }

  lemma PhantomNotFree(s: seq<char>)
    requires PhantomText(s)
    ensures !FreeStanding(s, "END")
  {
    PhantomFinds(s);
    assert !FreeAt(s, "END", 4) by { assert s[3] == 'x'; }
    assert !FreeAt(s, "END", 9) by { assert s[8] == 'y'; }
    assert !FreeAt(s, "END", 14) by { assert s[13] == 'z'; }
    FreeFromNext(s, "END", 0, 4);
    FreeFromNext(s, "END", 5, 9);
    FreeFromNext(s, "END", 10, 14);
    assert !CorrectedFound(s, "END");
  }

  /** The overshoot can also invent a keyword: here the third round's `find` fails, the
      indices -2 and 2 both hold separators, and END is reported present although none of
      its three occurrences stands free. */
  lemma OvershootInvents(s: seq<char>)
    requires s == "ab xEND yEND zEND\n\n"
    ensures KeywordFound(s, "END") == Ok(true)
    ensures !FreeStanding(s, "END")
  {
    PhantomSpelled(s);
    PhantomCount(s);
    PhantomRounds(s);
    PhantomNotFree(s);
    PhantomFinds(s);
  }
}
