/** Matching the task text as the day-3 script's regular expressions do:
    the file name after "save as" or "save it as", and the first `.csv`
    path the task mentions. */
module Day3Text {
  import opened Wrappers
  import opened Strings

  /** A character of the class `[\w\-.\/]`, with ASCII letters, digits and
      `_` standing for `\w`. */
  predicate PathChar(c: char) {
    ('a' <= c <= 'z') || ('A' <= c <= 'Z') || ('0' <= c <= '9') || c == '_' || c == '-' || c == '.' || c == '/'
  }

  predicate PathChars(s: string) {
    forall k | 0 <= k < |s| :: PathChar(s[k])
  }

  /** No ASCII capital letter: what `str.lower()` leaves. */
  predicate NoUpper(s: string) {
    forall k | 0 <= k < |s| :: !('A' <= s[k] <= 'Z')
  }

  /** The length of the longest run of path characters starting at `i`. */
  function PathRun(t: string, i: nat): (n: nat)
    requires i <= |t|
    ensures i + n <= |t|
    ensures forall k | i <= k < i + n :: PathChar(t[k])
    ensures i + n < |t| ==> !PathChar(t[i + n])
    decreases |t| - i
  {
    if i < |t| && PathChar(t[i]) then 1 + PathRun(t, i + 1) else 0
  }

  /** A run of `n` path characters at `i` is covered by the longest one. */
  lemma {:induction false} PathRunCovers(t: string, i: nat, n: nat)
    requires i + n <= |t| && forall k | i <= k < i + n :: PathChar(t[k])
    ensures PathRun(t, i) >= n
    decreases n
  {
    if n > 0 {
      PathRunCovers(t, i + 1, n - 1);
    }
  }

  /** What `save (?:it )?as ([\w\-.\/]+)` captures when its match starts
      at `i`. Without `it `, the text after `save ` would have to read
      `as `, so the two forms never compete at one position. */
  function SaveAsAt(t: string, i: nat): Option<string>
    requires i <= |t|
  {
    if OccursAt(t, "save it as ", i) && PathRun(t, i + 11) > 0 then Some(t[i + 11..i + 11 + PathRun(t, i + 11)])
    else if OccursAt(t, "save as ", i) && PathRun(t, i + 8) > 0 then Some(t[i + 8..i + 8 + PathRun(t, i + 8)])
    else None
  }

  /** A match of the "save as" pattern starts at `i`. */
  predicate SaveAsStart(t: string, i: nat) {
    || (OccursAt(t, "save it as ", i) && i + 11 < |t| && PathChar(t[i + 11]))
    || (OccursAt(t, "save as ", i) && i + 8 < |t| && PathChar(t[i + 8]))
  }

  predicate MentionsSaveAs(t: string) {
    exists i | 0 <= i <= |t| :: SaveAsStart(t, i)
  }

  /** The first position from `i` on where the "save as" pattern matches,
      or -1. */
  function FirstSaveAs(t: string, i: nat): (k: int)
    requires i <= |t|
    ensures k == -1 || i <= k <= |t|
    ensures k == -1 ==> forall j | i <= j <= |t| :: SaveAsAt(t, j).None?
    ensures k >= 0 ==> SaveAsAt(t, k).Some? && forall j | i <= j < k :: SaveAsAt(t, j).None?
    decreases |t| - i
  {
    if SaveAsAt(t, i).Some? then i
    else if i == |t| then -1
    else FirstSaveAs(t, i + 1)
  }

  /** `re.search(r"save (?:it )?as ([\w\-.\/]+)", t)`, group 1. */
  function SaveAsName(t: string): Option<string> {
    var k := FirstSaveAs(t, 0);
    if k < 0 then None else SaveAsAt(t, k)
  }

  /** The search finds a name exactly when the pattern starts somewhere,
      and the name is a non-empty run of path characters taken from the
      text right after `save as ` or `save it as `. */
  lemma SaveAsNameFacts(t: string)
    ensures SaveAsName(t).Some? <==> MentionsSaveAs(t)
    ensures SaveAsName(t).Some? ==> var f := SaveAsName(t).value;
      f != [] && PathChars(f) && Contains(t, f) && (Contains(t, "save as " + f) || Contains(t, "save it as " + f))
  {
    var k := FirstSaveAs(t, 0);
    if k >= 0 {
      SaveAsAtStart(t, k);
      SaveAsAtFacts(t, k);
    } else if MentionsSaveAs(t) {
      var j :| 0 <= j <= |t| && SaveAsStart(t, j);
      SaveAsAtStart(t, j);
    }
  }

  lemma SaveAsAtStart(t: string, j: nat)
    requires j <= |t|
    ensures SaveAsAt(t, j).Some? <==> SaveAsStart(t, j)
  {
  }

  /** A capture is a non-empty run of path characters right after the
      words that introduce it. */
  lemma SaveAsAtFacts(t: string, k: nat)
    requires k <= |t| && SaveAsAt(t, k).Some?
    ensures var f := SaveAsAt(t, k).value;
      f != [] && PathChars(f) && Contains(t, f) && (Contains(t, "save as " + f) || Contains(t, "save it as " + f))
  {
    var f := SaveAsAt(t, k).value;
    if OccursAt(t, "save it as ", k) && PathRun(t, k + 11) > 0 {
      RunIsPiece(t, k + 11);
      OccursThen(t, "save it as ", f, k);
    } else {
      RunIsPiece(t, k + 8);
      OccursThen(t, "save as ", f, k);
    }
  }

  /** The longest run of path characters at `i` is a piece of the text
      made of path characters. */
  lemma RunIsPiece(t: string, i: nat)
    requires i <= |t|
    ensures var f := t[i..i + PathRun(t, i)];
      PathChars(f) && OccursAt(t, f, i)
  {
    var f := t[i..i + PathRun(t, i)];
    forall m | 0 <= m < |f|
      ensures PathChar(f[m])
    {
      assert f[m] == t[i + m];
    }
  }

  /** The last `j` with `lo <= j` and `.csv` at `j` ending by `hi`, or -1. */
  function LastCsv(t: string, lo: nat, hi: nat): (j: int)
    requires hi <= |t|
    ensures j == -1 || (lo <= j && j + 4 <= hi && OccursAt(t, ".csv", j))
    ensures j == -1 ==> forall m | lo <= m && m + 4 <= hi :: !OccursAt(t, ".csv", m)
    ensures j >= 0 ==> forall m | j < m && m + 4 <= hi :: !OccursAt(t, ".csv", m)
    decreases hi
  {
    if hi < lo + 4 then -1
    else if OccursAt(t, ".csv", hi - 4) then hi - 4
    else LastCsv(t, lo, hi - 1)
  }

  /** The match of `[\w\-.\/]+\.csv` starting at `i`: the greedy run of
      path characters backs off to the last `.csv` inside it that leaves
      at least one character in front. */
  function CsvAt(t: string, i: nat): Option<string>
    requires i <= |t|
  {
    var j := LastCsv(t, i + 1, i + PathRun(t, i));
    if j >= 0 then Some(t[i..j + 4]) else None
  }

  function FirstCsv(t: string, i: nat): (k: int)
    requires i <= |t|
    ensures k == -1 || i <= k <= |t|
    ensures k == -1 ==> forall j | i <= j <= |t| :: CsvAt(t, j).None?
    ensures k >= 0 ==> CsvAt(t, k).Some?
    decreases |t| - i
  {
    if CsvAt(t, i).Some? then i
    else if i == |t| then -1
    else FirstCsv(t, i + 1)
  }

  /** `re.search(r"([\w\-.\/]+\.csv)", t)`, group 1. */
  function CsvMention(t: string): Option<string> {
    var k := FirstCsv(t, 0);
    if k < 0 then None else CsvAt(t, k)
  }

  /** A file name is found exactly when `.csv` occurs right after a path
      character; it is then a run of path characters of at least five,
      ending in `.csv`, taken from the text. */
  lemma CsvMentionFacts(t: string)
    ensures CsvMention(t).None? <==> forall j | 1 <= j <= |t| - 4 :: !(OccursAt(t, ".csv", j) && PathChar(t[j - 1]))
    ensures CsvMention(t).Some? ==> var f := CsvMention(t).value;
      |f| >= 5 && f[|f| - 4..] == ".csv" && PathChars(f) && Contains(t, f)
  {
    var k := FirstCsv(t, 0);
    if k >= 0 {
      CsvAtFacts(t, k);
    } else {
      forall j | 1 <= j <= |t| - 4 && OccursAt(t, ".csv", j)
        ensures !PathChar(t[j - 1])
      {
        if PathChar(t[j - 1]) {
          CsvAtEnd(t, j);
        }
      }
    }
  }

  /** A match at `k` is a run of path characters ending in `.csv`, with a
      path character in front of that `.csv`. */
  lemma CsvAtFacts(t: string, k: nat)
    requires k <= |t| && CsvAt(t, k).Some?
    ensures var f := CsvAt(t, k).value;
      |f| >= 5 && f[|f| - 4..] == ".csv" && PathChars(f) && Contains(t, f)
    ensures var j := k + |CsvAt(t, k).value| - 4;
      1 <= j <= |t| - 4 && OccursAt(t, ".csv", j) && PathChar(t[j - 1])
  {
    var j := LastCsv(t, k + 1, k + PathRun(t, k));
    var f := t[k..j + 4];
    assert f[|f| - 4..] == t[j..j + 4];
    forall m | 0 <= m < |f|
      ensures PathChar(f[m])
    {
      assert f[m] == t[k + m];
    }
    assert OccursAt(t, f, k);
  }

  /** `.csv` after a path character at `j - 1` makes the pattern match there. */
  lemma CsvAtEnd(t: string, j: nat)
    requires 1 <= j <= |t| - 4 && OccursAt(t, ".csv", j) && PathChar(t[j - 1])
    ensures CsvAt(t, j - 1).Some?
  {
    assert t[j..j + 4] == ".csv";
    assert forall m | j - 1 <= m < j + 4 :: PathChar(t[m]);
    PathRunCovers(t, j - 1, 5);
  }

  /** A piece of lowered text has no capital letter. */
  lemma LoweredPiece(task: string, f: string)
    requires Contains(Lower(task), f)
    ensures NoUpper(f)
  {
    var i :| 0 <= i <= |Lower(task)| - |f| && OccursAt(Lower(task), f, i);
    forall k | 0 <= k < |f|
      ensures !('A' <= f[k] <= 'Z')
    {
      assert f[k] == Lower(task)[i + k];
    }
  }
}
