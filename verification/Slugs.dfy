/** Slug generation: the suffix loops of `workflow-stages.service.ts` and
    `organisations.service.ts`, and the organisation `slugify` pipeline. */
module Slugs {
  import opened Common

  // ----- Decimal printing, as a template string prints a number -----

  function Digit(d: nat): char
    requires d < 10
  {
    ['0', '1', '2', '3', '4', '5', '6', '7', '8', '9'][d]
  }

  function Decimal(n: nat): (s: string)
    ensures s != ""
  {
    if n < 10 then [Digit(n)] else Decimal(n / 10) + [Digit(n % 10)]
  }

  lemma {:induction false} DecimalInjective(m: nat, n: nat)
    requires Decimal(m) == Decimal(n)
    ensures m == n
    decreases m + n
  {
    var s, t := Decimal(m), Decimal(n);
    assert s[|s| - 1] == Digit(m % 10) && t[|t| - 1] == Digit(n % 10);
    if m >= 10 && n >= 10 {
      assert s[..|s| - 1] == Decimal(m / 10) && t[..|t| - 1] == Decimal(n / 10);
      DecimalInjective(m / 10, n / 10);
    }
  }

  /** Reading the digits back. */
  function ValueOf(s: string): int {
    if s == "" then 0 else 10 * ValueOf(s[..|s| - 1]) + (s[|s| - 1] as int - '0' as int)
  }

  lemma DigitValue(d: nat)
    requires d < 10
    ensures '0' <= Digit(d) <= '9' && Digit(d) as int - '0' as int == d
  {
    assert Digit(d) in ['0', '1', '2', '3', '4', '5', '6', '7', '8', '9'];
  }

  /** What is printed is the number: digits only, no leading zero, and read back it is n. */
  lemma {:induction false} DecimalReadsBack(n: nat)
    ensures ValueOf(Decimal(n)) == n
    ensures forall i :: 0 <= i < |Decimal(n)| ==> '0' <= Decimal(n)[i] <= '9'
    ensures n > 0 ==> Decimal(n)[0] != '0'
  {
    DigitValue(n % 10);
    if n >= 10 {
      DecimalReadsBack(n / 10);
      assert Decimal(n)[..|Decimal(n)| - 1] == Decimal(n / 10);
    } else {
      assert Decimal(n)[..0] == "";
    }
  }

  function Pow10(k: nat): nat {
    if k == 0 then 1 else 10 * Pow10(k - 1)
  }

  lemma {:induction false} DecimalLength(n: nat, k: nat)
    requires k >= 1 && n < Pow10(k)
    ensures |Decimal(n)| <= k
  {
    if n >= 10 {
      if k > 1 { DecimalLength(n / 10, k - 1); }
    }
  }

  // ----- Candidates -----

  /** The k-th slug the loop tries: the bare name, then suffixes 2, 3, ... */
  function Candidate(base: string, sep: char, k: nat): string {
    if k == 0 then base else base + [sep] + Decimal(k + 1)
  }

  lemma CandidatesDistinct(base: string, sep: char, j: nat, k: nat)
    requires j != k
    ensures Candidate(base, sep, j) != Candidate(base, sep, k)
  {
    if j > 0 && k > 0 && Candidate(base, sep, j) == Candidate(base, sep, k) {
      var n := |base| + 1;
      assert Candidate(base, sep, j)[n..] == Decimal(j + 1);
      assert Candidate(base, sep, k)[n..] == Decimal(k + 1);
      DecimalInjective(j + 1, k + 1);
    }
  }

  ghost predicate AllTaken(taken: set<string>, base: string, sep: char, k: nat) {
    forall j: nat :: j < k ==> Candidate(base, sep, j) in taken
  }

  function Tried(base: string, sep: char, k: nat): (s: set<string>)
    ensures forall c :: c in s ==> exists j: nat :: j < k && c == Candidate(base, sep, j)
    ensures forall j: nat :: j < k ==> Candidate(base, sep, j) in s
  {
    if k == 0 then {} else Tried(base, sep, k - 1) + {Candidate(base, sep, k - 1)}
  }

  lemma {:induction false} TriedSize(base: string, sep: char, k: nat)
    ensures |Tried(base, sep, k)| == k
  {
    if k > 0 {
      TriedSize(base, sep, k - 1);
      if Candidate(base, sep, k - 1) in Tried(base, sep, k - 1) {
        var j: nat :| j < k - 1 && Candidate(base, sep, k - 1) == Candidate(base, sep, j);
        CandidatesDistinct(base, sep, j, k - 1);
      }
    }
  }

  /** Pigeonhole: no more candidates are taken than there are slugs. */
  lemma TakenBound(taken: set<string>, base: string, sep: char, k: nat)
    requires AllTaken(taken, base, sep, k)
    ensures k <= |taken|
  {
    TriedSize(base, sep, k);
    SubsetSize(Tried(base, sep, k), taken);
  }

  /** The index of the first free candidate from the k-th on. */
  function FirstFreeFrom(taken: set<string>, base: string, sep: char, k: nat): (i: nat)
    requires AllTaken(taken, base, sep, k)
    ensures k <= i <= |taken|
    ensures AllTaken(taken, base, sep, i) && Candidate(base, sep, i) !in taken
    decreases |taken| - k
  {
    TakenBound(taken, base, sep, k);
    if Candidate(base, sep, k) !in taken then k else
      assert AllTaken(taken, base, sep, k + 1);
      TakenBound(taken, base, sep, k + 1);
      FirstFreeFrom(taken, base, sep, k + 1)
  }

  function FirstFree(taken: set<string>, base: string, sep: char): (slug: string)
    ensures slug !in taken
    ensures exists i: nat :: i <= |taken| && slug == Candidate(base, sep, i) && AllTaken(taken, base, sep, i)
  {
    Candidate(base, sep, FirstFreeFrom(taken, base, sep, 0))
  }

  /** The bare name if it is free, else the name with the smallest number from 2 on that is. */
  lemma FirstFreeOutcome(taken: set<string>, base: string, sep: char)
    ensures base !in taken ==> FirstFree(taken, base, sep) == base
    ensures base in taken ==>
              exists n: nat :: && 2 <= n <= |taken| + 1 && FirstFree(taken, base, sep) == base + [sep] + Decimal(n)
                               && base + [sep] + Decimal(n) !in taken
                               && forall m: nat :: 2 <= m < n ==> base + [sep] + Decimal(m) in taken
  {
    var i := FirstFreeFrom(taken, base, sep, 0);
    assert Candidate(base, sep, 0) == base;
    if base in taken {
      assert FirstFree(taken, base, sep) == base + [sep] + Decimal(i + 1);
      forall m: nat | 2 <= m < i + 1 ensures base + [sep] + Decimal(m) in taken {
        assert Candidate(base, sep, m - 1) in taken;
      }
    }
  }

  /** The loop itself. With N slugs taken it looks up at most N + 1 candidates, and it stops
      at the first one that is free. */
  method UniqueSlug(taken: set<string>, base: string, sep: char) returns (candidate: string, lookups: nat)
    ensures candidate !in taken && candidate == FirstFree(taken, base, sep)
    ensures 1 <= lookups <= |taken| + 1
    ensures candidate == Candidate(base, sep, lookups - 1)
    ensures AllTaken(taken, base, sep, lookups - 1)
  {
    candidate := base;
    var suffix: nat := 2;
    lookups := 1;
    while candidate in taken
      invariant lookups == suffix - 1 >= 1
      invariant candidate == Candidate(base, sep, lookups - 1)
      invariant AllTaken(taken, base, sep, lookups - 1)
      invariant lookups - 1 <= |taken|
      decreases |taken| + 1 - lookups
    {
      TakenBound(taken, base, sep, lookups);
      candidate := base + [sep] + Decimal(suffix);
      suffix := suffix + 1;
      lookups := lookups + 1;
    }
    TakenBound(taken, base, sep, lookups - 1);
    FirstFreeIsUnique(taken, base, sep, lookups - 1);
  }

  lemma FirstFreeIsUnique(taken: set<string>, base: string, sep: char, i: nat)
    requires AllTaken(taken, base, sep, i) && Candidate(base, sep, i) !in taken
    ensures FirstFree(taken, base, sep) == Candidate(base, sep, i)
  {
    var f := FirstFreeFrom(taken, base, sep, 0);
    assert !(f < i) && !(i < f);
  }

  // ----- The organisation slug: lower-case, dash out, trim, cut at 128 -----

  const MAX_BASE: nat := 128
  const MAX_SLUG: nat := 140

  predicate IsAlnum(c: char) {
    'a' <= c <= 'z' || '0' <= c <= '9'
  }

  /** `replace(/[^a-z0-9]+/g, '-')`; `inRun` says that the current run has its dash already. */
  function Dashed(s: string, inRun: bool): string {
    if s == "" then ""
    else if IsAlnum(s[0]) then [s[0]] + Dashed(s[1..], false)
    else (if inRun then "" else "-") + Dashed(s[1..], true)
  }

  function TrimLeft(s: string): string {
    if s != "" && s[0] == '-' then TrimLeft(s[1..]) else s
  }

  function TrimRight(s: string): (r: string)
    ensures r == "" || r[|r| - 1] != '-'
  {
    if s != "" && s[|s| - 1] == '-' then TrimRight(s[..|s| - 1]) else s
  }

  /** `lowered` is the name after `toLowerCase()`. */
  function Slugify(lowered: string): string {
    var trimmed := TrimRight(TrimLeft(Dashed(lowered, false)));
    if |trimmed| <= MAX_BASE then trimmed else trimmed[..MAX_BASE]
  }

  predicate IsSlugChar(c: char) {
    IsAlnum(c) || c == '-'
  }

  /** Letters, digits and dashes, no two dashes next to each other. */
  ghost predicate IsDashed(s: string) {
    && (forall i :: 0 <= i < |s| ==> IsSlugChar(s[i]))
    && (forall i, j :: 0 <= i < j < |s| && j == i + 1 ==> s[i] != '-' || s[j] != '-')
  }

  /** Only the cut can leave a dash at the end. */
  ghost predicate IsSlug(s: string) {
    IsDashed(s) && (s != "" ==> s[0] != '-')
  }

  lemma {:induction false} DashedShape(s: string, inRun: bool)
    ensures IsDashed(Dashed(s, inRun))
    ensures inRun ==> IsSlug(Dashed(s, inRun))
  {
    if s != "" {
      var rest := Dashed(s[1..], !IsAlnum(s[0]));
      DashedShape(s[1..], !IsAlnum(s[0]));
      if IsAlnum(s[0]) {
        PrependKeepsDashed(s[0], rest);
      } else if !inRun {
        PrependKeepsDashed('-', rest);
      }
    }
  }

  lemma PrependKeepsDashed(c: char, rest: string)
    requires IsSlugChar(c) && IsDashed(rest) && (c == '-' && rest != "" ==> rest[0] != '-')
    ensures IsDashed([c] + rest)
  {}

  lemma {:induction false} DashedFixes(s: string, inRun: bool)
    requires IsDashed(s)
    requires inRun && s != "" ==> s[0] != '-'
    ensures Dashed(s, inRun) == s
  {
    if s != "" {
      DashedFixes(s[1..], !IsAlnum(s[0]));
      assert s == [s[0]] + s[1..];
    }
  }

  /** After the dashes are collapsed there is at most one to trim on either side. */
  lemma SlugifyIsSlug(lowered: string)
    ensures IsSlug(Slugify(lowered)) && |Slugify(lowered)| <= MAX_BASE
    ensures |Slugify(lowered)| < MAX_BASE ==> Slugify(lowered) == "" || Slugify(lowered)[|Slugify(lowered)| - 1] != '-'
  {
    var d := Dashed(lowered, false);
    DashedShape(lowered, false);
    var l := TrimLeft(d);
    assert l == d || (d[0] == '-' && l == d[1..]) by {
      if d != "" && d[0] == '-' {
        assert |d| > 1 ==> d[1] != '-';
        assert TrimLeft(d[1..]) == d[1..];
      }
    }
    assert IsSlug(l);
    var r := TrimRight(l);
    assert r == l || (l[|l| - 1] == '-' && r == l[..|l| - 1]) by {
      if l != "" && l[|l| - 1] == '-' {
        assert |l| > 1 ==> l[|l| - 2] != '-';
        assert TrimRight(l[..|l| - 1]) == l[..|l| - 1];
      }
    }
  }

  /** Slugifying a slug again gives it back exactly when the cut at 128 characters has not
      left a dash at its end; otherwise it drops that dash. */
  lemma SlugifyAgain(slug: string)
    requires IsSlug(slug) && |slug| <= MAX_BASE
    ensures Slugify(slug) == slug <==> slug == "" || slug[|slug| - 1] != '-'
    ensures slug != "" && slug[|slug| - 1] == '-' ==> Slugify(slug) == slug[..|slug| - 1]
  {
    DashedFixes(slug, false);
    assert TrimLeft(slug) == slug;
    if slug != "" && slug[|slug| - 1] == '-' {
      assert TrimRight(slug) == TrimRight(slug[..|slug| - 1]) == slug[..|slug| - 1];
    }
  }

  // ----- What the pipeline comes to: the words of the name, joined by dashes, and cut -----

  predicate IsWordChar(c: char) {
    ('a' <= c && c <= 'z') || ('0' <= c && c <= '9')
  }

  function WordOrNone(word: string): seq<string> {
    if word == "" then [] else [word]
  }

  /** The maximal runs of letters and digits; `word` is the one being read. */
  function Words(s: string, word: string): seq<string>
    decreases |s|
  {
    if s == "" then WordOrNone(word)
    else if IsWordChar(s[0]) then Words(s[1..], word + [s[0]])
    else WordOrNone(word) + Words(s[1..], "")
  }

  function Joined(words: seq<string>): string {
    if words == [] then "" else if |words| == 1 then words[0] else words[0] + "-" + Joined(words[1..])
  }

  lemma {:induction false} TrimRightKeeps(a: string, b: string)
    requires TrimRight(b) != ""
    ensures TrimRight(a + b) == a + TrimRight(b)
    decreases |b|
  {
    assert b != "";
    var last := |b| - 1;
    if b[last] == '-' {
      assert (a + b)[..|a + b| - 1] == a + b[..last];
      TrimRightKeeps(a, b[..last]);
    }
  }

  lemma {:induction false} JoinedAfter(word: string, words: seq<string>)
    requires words != []
    ensures Joined([word] + words) == word + "-" + Joined(words)
  {
    assert ([word] + words)[1..] == words;
  }

  lemma {:induction false} JoinedNonEmpty(s: string, word: string)
    ensures word != "" ==> Words(s, word) != []
    ensures Words(s, word) != [] ==> Joined(Words(s, word)) != ""
    decreases |s|
  {
    if s != "" {
      JoinedNonEmpty(s[1..], if IsWordChar(s[0]) then word + [s[0]] else "");
      if !IsWordChar(s[0]) && word != "" && Words(s[1..], "") != [] { JoinedAfter(word, Words(s[1..], "")); }
    }
  }

  /** A word that has begun, and what follows it. */
  lemma {:induction false} DashedWords(s: string, word: string)
    requires word != "" && word[|word| - 1] != '-'
    ensures TrimRight(word + Dashed(s, false)) == Joined(Words(s, word))
    decreases |s|, 1
  {
    if s == "" {
      assert word + Dashed(s, false) == word;
    } else if IsWordChar(s[0]) {
      DashedWords(s[1..], word + [s[0]]);
      assert word + Dashed(s, false) == word + [s[0]] + Dashed(s[1..], false);
    } else {
      DashedFromGap(s[1..]);
      JoinedNonEmpty(s[1..], "");
      assert word + Dashed(s, false) == word + "-" + Dashed(s[1..], true);
      WordThenGap(word, Dashed(s[1..], true), Words(s[1..], ""));
    }
  }

  lemma WordThenGap(word: string, rest: string, words: seq<string>)
    requires word != "" && word[|word| - 1] != '-' && TrimRight(rest) == Joined(words)
    requires if words == [] then rest == "" else Joined(words) != ""
    ensures TrimRight(word + "-" + rest) == Joined([word] + words)
  {
    if words == [] {
      assert word + "-" + rest == word + "-" && (word + "-")[..|word|] == word;
      assert [word] + words == [word];
    } else {
      TrimRightKeeps(word + "-", rest);
      JoinedAfter(word, words);
    }
  }

  /** Between words, with the dash already written. */
  lemma {:induction false} DashedFromGap(s: string)
    ensures TrimRight(Dashed(s, true)) == Joined(Words(s, ""))
    ensures Words(s, "") == [] ==> Dashed(s, true) == ""
    decreases |s|, 0
  {
    if s != "" {
      if IsWordChar(s[0]) {
        DashedWords(s[1..], [s[0]]);
        JoinedNonEmpty(s[1..], [s[0]]);
        assert "" + [s[0]] == [s[0]];
      } else {
        DashedFromGap(s[1..]);
        assert Dashed(s, true) == "" + Dashed(s[1..], true) == Dashed(s[1..], true);
        assert Words(s, "") == [] + Words(s[1..], "") == Words(s[1..], "");
      }
    }
  }

  lemma TrimmedLeft(s: string)
    ensures TrimLeft(Dashed(s, false)) == Dashed(s, true)
  {
    DashedShape(s, true);
    var rest := Dashed(s, true);
    assert TrimLeft(rest) == rest;
    if s != "" && !IsWordChar(s[0]) {
      assert Dashed(s, false) == "-" + rest && Dashed(s, false)[1..] == rest;
    }
  }

  /** The slug is the words of the lowered name, in order, joined by single dashes, and the first 128
      characters of that if it is longer. */
  lemma SlugifyJoinsWords(lowered: string)
    ensures var joined := Joined(Words(lowered, ""));
            Slugify(lowered) == if |joined| <= 128 then joined else joined[..128]
  {
    TrimmedLeft(lowered);
    DashedFromGap(lowered);
  }

  /** `toLowerCase` turns the capital dotted I (U+0130) into an i and a combining dot above. */
  function LoweredDottedI(n: nat): string {
    if n == 0 then "" else ['i', '\U{0307}'] + LoweredDottedI(n - 1)
  }

  function DashedI(n: nat): (s: string)
    ensures |s| == 2 * n
  {
    if n == 0 then "" else "i-" + DashedI(n - 1)
  }

  lemma {:induction false} DashedIAt(n: nat, k: nat)
    requires k < 2 * n
    ensures DashedI(n)[k] == if k % 2 == 0 then 'i' else '-'
  {
    if k >= 2 { DashedIAt(n - 1, k - 2); }
  }

  lemma {:induction false} DottedIDashes(n: nat, inRun: bool)
    ensures Dashed(LoweredDottedI(n), inRun) == DashedI(n)
  {
    if n > 0 {
      var rest := LoweredDottedI(n - 1);
      var tail := ['\U{0307}'] + rest;
      assert LoweredDottedI(n) == ['i'] + tail;
      assert LoweredDottedI(n)[1..] == tail && tail[1..] == rest;
      DottedIDashes(n - 1, true);
      assert Dashed(tail, false) == "-" + Dashed(rest, true);
      assert Dashed(LoweredDottedI(n), inRun) == ['i'] + Dashed(tail, false);
    }
  }

  /** The cut does leave a dash, although a stored name has at most 100 characters: lower-casing
      makes 130 of 65 capital dotted I's, and the last of the 128 that are kept is a dash. */
  lemma CutCanLeaveDash()
    ensures var slug := Slugify(LoweredDottedI(65));
            |slug| == MAX_BASE && slug[MAX_BASE - 1] == '-' && Slugify(slug) != slug
  {
    var d := DashedI(65);
    DottedIDashes(65, false);
    DashedIAt(65, 0);
    DashedIAt(65, 127);
    DashedIAt(65, 128);
    DashedIAt(65, 129);
    assert TrimLeft(d) == d;
    assert TrimRight(d) == TrimRight(d[..129]) == d[..129];
    var slug := Slugify(LoweredDottedI(65));
    assert slug == d[..129][..128];
    SlugifyIsSlug(LoweredDottedI(65));
    SlugifyAgain(slug);
  }

  /** `generateUniqueSlug`: a free slug that fits the column, unless 10^11 are taken. */
  method GenerateUniqueSlug(taken: set<string>, lowered: string) returns (slug: string, lookups: nat)
    ensures slug !in taken && slug != "" && 1 <= lookups <= |taken| + 1
    ensures slug == FirstFree(taken, if Slugify(lowered) == "" then "organisation" else Slugify(lowered), '-')
    ensures |taken| + 1 < Pow10(11) ==> |slug| <= MAX_SLUG
  {
    var base := Slugify(lowered);
    if base == "" { base := "organisation"; }
    slug, lookups := UniqueSlug(taken, base, '-');
    SlugifyIsSlug(lowered);
    if |taken| + 1 < Pow10(11) && lookups > 1 {
      DecimalLength(lookups, 11);
    }
  }
}
