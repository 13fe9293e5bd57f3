/**
  The three Python string operations the conversation handlers rely on:
  `str.strip()` and `str.split()` with no arguments (both governed by
  Python's notion of a whitespace character), and `str.lower()` restricted
  to the Latin and Cyrillic letters the bot's answers are compared against.
 */
module Text {

  /** Python's `str.isspace` for a single character: the characters that
      `strip()` removes and `split()` splits on. */
  predicate IsSpace(c: char) {
    var n := c as int;
    (0x09 <= n <= 0x0D) || (0x1C <= n <= 0x20) || n == 0x85 || n == 0xA0
    || n == 0x1680 || (0x2000 <= n <= 0x200A) || n == 0x2028 || n == 0x2029
    || n == 0x202F || n == 0x205F || n == 0x3000
  }

  predicate AllSpace(s: string) {
    forall k :: 0 <= k < |s| ==> IsSpace(s[k])
  }

  predicate NoSpace(s: string) {
    forall k :: 0 <= k < |s| ==> !IsSpace(s[k])
  }

  /** The length of the run of whitespace at the start of `s`. */
  function LeadingSpaces(s: string): (n: nat)
    ensures n <= |s|
    ensures forall k :: 0 <= k < n ==> IsSpace(s[k])
    ensures n < |s| ==> !IsSpace(s[n])
  {
    if |s| == 0 || !IsSpace(s[0]) then 0 else 1 + LeadingSpaces(s[1..])
  }

  /** The length of the run of whitespace at the end of `s`. */
  function TrailingSpaces(s: string): (n: nat)
    ensures n <= |s|
    ensures forall k :: |s| - n <= k < |s| ==> IsSpace(s[k])
    ensures n < |s| ==> !IsSpace(s[|s| - 1 - n])
  {
    if |s| == 0 || !IsSpace(s[|s| - 1]) then 0 else 1 + TrailingSpaces(s[..|s| - 1])
  }

  /** The length of the run of non-whitespace at the start of `s`. */
  function WordLength(s: string): (n: nat)
    ensures n <= |s|
    ensures forall k :: 0 <= k < n ==> !IsSpace(s[k])
    ensures n < |s| ==> IsSpace(s[n])
  {
    if |s| == 0 || IsSpace(s[0]) then 0 else 1 + WordLength(s[1..])
  }

  /** Python's `s.strip()`: `s` without its leading and trailing whitespace. */
  function Strip(s: string): (r: string)
    ensures |r| <= |s|
  {
    var lead := LeadingSpaces(s);
    var rest := s[lead..];
    rest[..|rest| - TrailingSpaces(rest)]
  }

  /** What `strip()` keeps: the infix of `s` that starts after its leading
      whitespace, leaves only whitespace after it, and neither starts nor
      ends with whitespace; it is empty exactly for an all-whitespace `s`. */
  lemma StripSpec(s: string)
    ensures LeadingSpaces(s) + |Strip(s)| <= |s|
    ensures Strip(s) == s[LeadingSpaces(s)..LeadingSpaces(s) + |Strip(s)|]
    ensures AllSpace(s[LeadingSpaces(s) + |Strip(s)|..])
    ensures Strip(s) != [] ==> !IsSpace(Strip(s)[0]) && !IsSpace(Strip(s)[|Strip(s)| - 1])
    ensures Strip(s) == [] <==> AllSpace(s)
  {
    StripIsInfix(s);
    StripLeavesSpaces(s);
    StripEnds(s);
    StripEmptyIff(s);
  }

  lemma StripIsInfix(s: string)
    ensures LeadingSpaces(s) + |Strip(s)| <= |s|
    ensures Strip(s) == s[LeadingSpaces(s)..LeadingSpaces(s) + |Strip(s)|]
  {
    var lead := LeadingSpaces(s);
    PrefixOfSuffix(s, lead, |s[lead..]| - TrailingSpaces(s[lead..]));
  }

  lemma StripLeavesSpaces(s: string)
    ensures AllSpace(s[LeadingSpaces(s) + |Strip(s)|..])
  {
    var lead := LeadingSpaces(s);
    var rest := s[lead..];
    var m := |rest| - TrailingSpaces(rest);
    assert |Strip(s)| == m;
    var tail := s[lead + m..];
    forall k | 0 <= k < |tail| ensures IsSpace(tail[k]) {
      assert tail[k] == rest[m + k];
    }
  }

  /** A prefix of a suffix is an infix. */
  lemma PrefixOfSuffix(s: string, i: nat, m: nat)
    requires i + m <= |s|
    ensures s[i..][..m] == s[i..i + m]
  {
  }

  lemma StripEnds(s: string)
    ensures Strip(s) != [] ==> !IsSpace(Strip(s)[0]) && !IsSpace(Strip(s)[|Strip(s)| - 1])
  {
    var lead := LeadingSpaces(s);
    var rest := s[lead..];
    var t := TrailingSpaces(rest);
    var r := Strip(s);
    assert r == rest[..|rest| - t];
    if r != [] {
      assert r[0] == rest[0] == s[lead];
      assert r[|r| - 1] == rest[|rest| - 1 - t];
    }
  }

  lemma StripEmptyIff(s: string)
    ensures Strip(s) == [] <==> AllSpace(s)
  {
    var lead := LeadingSpaces(s);
    var rest := s[lead..];
    var t := TrailingSpaces(rest);
    assert Strip(s) == rest[..|rest| - t];
    if lead < |s| {
      assert rest[0] == s[lead];
      assert !AllSpace(s);
    }
  }

  /** Python's `s.split()`: the maximal runs of non-whitespace, in order. */
  function Words(s: string): (ws: seq<string>)
    ensures forall i :: 0 <= i < |ws| ==> ws[i] != [] && NoSpace(ws[i])
    ensures ws == [] <==> AllSpace(s)
    decreases |s|
  {
    var lead := LeadingSpaces(s);
    if lead == |s| then []
    else
      var rest := s[lead..];
      assert rest[0] == s[lead];
      var n := WordLength(rest);
      var word := rest[..n];
      assert word != [] && NoSpace(word);
      var more := Words(rest[n..]);
      var ws := [word] + more;
      assert forall i :: 0 < i < |ws| ==> ws[i] == more[i - 1];
      ws
  }

  /** Positions `i < j < k` of `s` hold a non-whitespace, a whitespace and a
      non-whitespace character. */
  ghost predicate GapAt(s: string, i: int, j: int, k: int) {
    0 <= i < j < k < |s| && !IsSpace(s[i]) && IsSpace(s[j]) && !IsSpace(s[k])
  }

  /** `s` holds two non-whitespace characters with whitespace between them. */
  ghost predicate HasInnerGap(s: string) {
    exists i, j, k :: GapAt(s, i, j, k)
  }

  /** `s.split()` yields at least two words exactly when some whitespace
      separates two non-whitespace characters. */
  lemma TwoWordsIff(s: string)
    ensures |Words(s)| >= 2 <==> HasInnerGap(s)
  {
    var lead := LeadingSpaces(s);
    if lead < |s| {
      var n := WordLength(s[lead..]);
      FirstWord(s, lead, n);
      WordsAfterFirst(s, lead, n);
      if HasInnerGap(s) {
        GapImpliesSecondWord(s, lead, n);
      }
      if !AllSpace(s[lead + n..]) {
        SecondWordImpliesGap(s, lead, n);
      }
    }
  }

  /** The first word of `s` in terms of positions of `s`. */
  lemma FirstWord(s: string, lead: nat, n: nat)
    requires lead == LeadingSpaces(s) < |s|
    requires n == WordLength(s[lead..])
    ensures lead + n <= |s| && !IsSpace(s[lead])
    ensures forall x :: lead <= x < lead + n ==> !IsSpace(s[x])
    ensures lead + n < |s| ==> IsSpace(s[lead + n])
  {
    var rest := s[lead..];
    forall x | lead <= x < lead + n ensures !IsSpace(s[x]) {
      assert s[x] == rest[x - lead];
    }
    assert lead + n < |s| ==> s[lead + n] == rest[n];
  }

  /** After the first word, `split()` goes on with the rest of `s`. */
  lemma WordsAfterFirst(s: string, lead: nat, n: nat)
    requires lead == LeadingSpaces(s) < |s|
    requires n == WordLength(s[lead..])
    ensures lead + n <= |s|
    ensures |Words(s)| == 1 + |Words(s[lead + n..])|
  {
    assert s[lead..][n..] == s[lead + n..];
  }

  /** With whitespace before `lead` and a word from `lead` to `lead + n`,
      a gap in `s` leaves non-whitespace after that word. */
  lemma GapImpliesSecondWord(s: string, lead: nat, n: nat)
    requires HasInnerGap(s)
    requires lead + n <= |s|
    requires forall x :: 0 <= x < lead ==> IsSpace(s[x])
    requires forall x :: lead <= x < lead + n ==> !IsSpace(s[x])
    ensures !AllSpace(s[lead + n..])
  {
    var i, j, k :| GapAt(s, i, j, k);
    assert lead + n <= j;
    assert s[lead + n..][k - lead - n] == s[k];
  }

  /** A word from `lead` to `lead + n` that ends at whitespace, followed by
      more non-whitespace, makes a gap. */
  lemma SecondWordImpliesGap(s: string, lead: nat, n: nat)
    requires lead + n <= |s|
    requires lead < |s| && !IsSpace(s[lead])
    requires lead + n < |s| ==> IsSpace(s[lead + n])
    requires !AllSpace(s[lead + n..])
    ensures HasInnerGap(s)
  {
    var tail := s[lead + n..];
    var k :| 0 <= k < |tail| && !IsSpace(tail[k]);
    assert tail[k] == s[lead + n + k];
    assert GapAt(s, lead, lead + n, lead + n + k);
  }

  /** A text with no surrounding whitespace is its own stripped form. */
  lemma StripUnpadded(t: string)
    requires t != [] && !IsSpace(t[0]) && !IsSpace(t[|t| - 1])
    ensures Strip(t) == t
  {
    assert LeadingSpaces(t) == 0;
    assert t[0..] == t;
    assert TrailingSpaces(t) == 0;
  }

  /** Stripping twice strips nothing more. */
  lemma StripIdempotent(s: string)
    ensures Strip(Strip(s)) == Strip(s)
  {
    var r := Strip(s);
    if r != [] {
      assert LeadingSpaces(r) == 0;
      assert TrailingSpaces(r) == 0;
    }
  }

  /** Python's `str.lower()` on one character, for Latin A-Z, Cyrillic А-Я and
      Ѐ-Џ; every other character is left as it is. */
  function LowerChar(c: char): char {
    var n := c as int;
    if 0x41 <= n <= 0x5A || 0x410 <= n <= 0x42F then (n + 0x20) as char
    else if 0x400 <= n <= 0x40F then (n + 0x50) as char
    else c
  }

  /** Python's `s.lower()`, character by character. */
  function Lower(s: string): (r: string)
    ensures |r| == |s|
    ensures forall k :: 0 <= k < |s| ==> r[k] == LowerChar(s[k])
  {
    if s == [] then [] else [LowerChar(s[0])] + Lower(s[1..])
  }

  /** Only `д` and `Д` lower-case to `д`, and so on for the other letters
      of the two insurance answers. */
  lemma LowerCharPreimages(c: char)
    ensures LowerChar(c) == 'д' <==> c == 'д' || c == 'Д'
    ensures LowerChar(c) == 'а' <==> c == 'а' || c == 'А'
    ensures LowerChar(c) == 'н' <==> c == 'н' || c == 'Н'
    ensures LowerChar(c) == 'е' <==> c == 'е' || c == 'Е'
    ensures LowerChar(c) == 'т' <==> c == 'т' || c == 'Т'
  {
  }

  /** `s.lower() == "да"` holds exactly for the four spellings of "да". */
  lemma LowerIsYes(s: string)
    ensures Lower(s) == "да" <==> s in {"да", "дА", "Да", "ДА"}
  {
    if Lower(s) == "да" {
      assert |s| == 2;
      LowerCharPreimages(s[0]);
      LowerCharPreimages(s[1]);
      assert s == [s[0], s[1]];
    }
  }

  /** `s.lower() == "нет"` holds exactly for the eight spellings of "нет". */
  lemma LowerIsNo(s: string)
    ensures Lower(s) == "нет" <==>
      s in {"нет", "неТ", "нЕт", "нЕТ", "Нет", "НеТ", "НЕт", "НЕТ"}
  {
    if Lower(s) == "нет" {
      assert |s| == 3;
      LowerCharPreimages(s[0]);
      LowerCharPreimages(s[1]);
      LowerCharPreimages(s[2]);
      assert s == [s[0], s[1], s[2]];
    }
  }
}
