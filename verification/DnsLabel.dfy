/**
 Turning any string into a DNS label: section 2.1 of RFC 1123 for its characters, section 2.3.4 of
 RFC 1035 for its length.
 */
module DnsLabel {

  predicate Alnum(c: char) {
    'a' <= c <= 'z' || '0' <= c <= '9'
  }

  predicate LabelChar(c: char) {
    Alnum(c) || c == '-'
  }

  predicate LabelChars(s: string) {
    forall c :: c in s ==> LabelChar(c)
  }

  /** Python's lower: any function that leaves lower-case letters, digits and hyphens alone. */
  type Lower = f: string -> string | forall s :: LabelChars(s) ==> f(s) == s
    witness (s: string) => s

  const LOWER: Lower

  const MAX_LABEL := 63

  // ---------------------------------------------------------------- the steps

  /** `re.sub("^[^a-z0-9]*", "", s)` */
  function DropHead(s: string): string {
    if s == "" || Alnum(s[0]) then s else DropHead(s[1..])
  }

  /** `re.sub("[^a-z0-9]*$", "", s)` */
  function DropTail(s: string): string {
    if s == "" || Alnum(s[|s| - 1]) then s else DropTail(s[..|s| - 1])
  }

  lemma {:induction false} DropHeadShorter(s: string)
    ensures |DropHead(s)| <= |s|
  {
    if s != "" {
      DropHeadShorter(s[1..]);
    }
  }

  /** `re.sub("[^a-z0-9]+", "-", s)` */
  function Collapse(s: string): string
    decreases |s|
  {
    if s == "" then ""
    else if Alnum(s[0]) then [s[0]] + Collapse(s[1..])
    else
      DropHeadShorter(s[1..]);
      "-" + Collapse(DropHead(s[1..]))
  }

  /** `label[:63]` */
  function Cut(s: string): string {
    if |s| > MAX_LABEL then s[..MAX_LABEL] else s
  }

  function SanitizeDnsLabel(text: string): string {
    DropTail(Cut(DropHead(Collapse(LOWER(text)))))
  }

  // ---------------------------------------------------------------- what a label is

  /** A host label: letters, digits and hyphens, no hyphen at either end, 1 to 63 characters. */
  predicate HostLabel(s: string) {
    && 1 <= |s| <= MAX_LABEL
    && LabelChars(s)
    && Alnum(s[0]) && Alnum(s[|s| - 1])
  }

  predicate NoAdjacentHyphens(s: string) {
    forall i :: 0 <= i < |s| - 1 ==> !(s[i] == '-' && s[i + 1] == '-')
  }

  /** The letters and digits of a string, in order. */
  function Alnums(s: string): string {
    if s == "" then "" else (if Alnum(s[0]) then [s[0]] else "") + Alnums(s[1..])
  }

  // ---------------------------------------------------------------- lemmas, step by step

  lemma {:induction false} DropHeadResult(s: string)
    ensures var r := DropHead(s);
            && |r| <= |s| && r == s[|s| - |r|..]
            && (r != "" ==> Alnum(r[0]))
            && Alnums(r) == Alnums(s)
  {
    if s != "" && !Alnum(s[0]) {
      DropHeadResult(s[1..]);
    }
  }

  lemma {:induction false} CollapseResult(s: string)
    ensures var r := Collapse(s);
            && LabelChars(r) && NoAdjacentHyphens(r)
            && Alnums(r) == Alnums(s)
            && (r != "" && s != "" && Alnum(s[0]) ==> Alnum(r[0]))
    decreases |s|
  {
    if s != "" {
      if Alnum(s[0]) {
        CollapseResult(s[1..]);
        assert ([s[0]] + Collapse(s[1..]))[1..] == Collapse(s[1..]);
      } else {
        var rest := DropHead(s[1..]);
        DropHeadResult(s[1..]);
        CollapseResult(rest);
        assert ("-" + Collapse(rest))[1..] == Collapse(rest);
        if rest != "" {
          assert Collapse(rest)[0] == rest[0];
        }
      }
    }
  }

  lemma {:induction false} AlnumsAppend(a: string, b: string)
    ensures Alnums(a + b) == Alnums(a) + Alnums(b)
  {
    if a == "" {
      assert a + b == b;
    } else {
      var head := if Alnum(a[0]) then [a[0]] else "";
      assert (a + b)[1..] == a[1..] + b;
      AlnumsAppend(a[1..], b);
      assert head + (Alnums(a[1..]) + Alnums(b)) == head + Alnums(a[1..]) + Alnums(b);
    }
  }

  lemma {:induction false} DropTailResult(s: string)
    ensures var r := DropTail(s);
            && r <= s
            && (r != "" ==> Alnum(r[|r| - 1]))
            && Alnums(r) == Alnums(s)
  {
    if s != "" && !Alnum(s[|s| - 1]) {
      var last := [s[|s| - 1]];
      DropTailResult(s[..|s| - 1]);
      AlnumsAppend(s[..|s| - 1], last);
      assert s == s[..|s| - 1] + last;
      assert Alnums(last) == "" by {
        assert last[1..] == "";
      }
    }
  }

  lemma {:induction false} PrefixAlnums(a: string, b: string)
    requires a <= b
    ensures Alnums(a) <= Alnums(b)
  {
    AlnumsAppend(a, b[|a|..]);
    assert b == a + b[|a|..];
  }

  // ---------------------------------------------------------------- the theorems

  lemma {:induction false} SuffixChars(s: string, suffix: string)
    requires LabelChars(s) && NoAdjacentHyphens(s)
    requires |suffix| <= |s| && suffix == s[|s| - |suffix|..]
    ensures LabelChars(suffix) && NoAdjacentHyphens(suffix)
  {
  }

  /** A collapsed string that starts with a letter or digit: what the cut and the last step see. */
  lemma {:induction false} BeforeCut(text: string)
    ensures var headed := DropHead(Collapse(LOWER(text)));
            && LabelChars(headed) && NoAdjacentHyphens(headed)
            && (headed != "" ==> Alnum(headed[0]))
            && Alnums(headed) == Alnums(LOWER(text))
  {
    hide *;
    CollapseResult(LOWER(text));
    DropHeadResult(Collapse(LOWER(text)));
    SuffixChars(Collapse(LOWER(text)), DropHead(Collapse(LOWER(text))));
  }

  /**
   * For every input the result is empty or a host label, without two hyphens in a row. Its letters
   * and digits are the first ones of the lower-cased input, and all of them unless the cut fell.
   */
  lemma {:induction false} ValidLabel(text: string)
    ensures var r := SanitizeDnsLabel(text);
            && (r == "" || HostLabel(r))
            && NoAdjacentHyphens(r)
            && Alnums(r) <= Alnums(LOWER(text))
            && (|DropHead(Collapse(LOWER(text)))| <= MAX_LABEL ==> Alnums(r) == Alnums(LOWER(text)))
  {
    BeforeCut(text);
    var headed := DropHead(Collapse(LOWER(text)));
    var cut := Cut(headed);
    DropTailResult(cut);
    PrefixAlnums(cut, headed);
  }

  /** It is empty exactly when the lower-cased input has no letter or digit. */
  lemma {:induction false} EmptyLabel(text: string)
    ensures SanitizeDnsLabel(text) == "" <==> Alnums(LOWER(text)) == ""
  {
    BeforeCut(text);
    var headed := DropHead(Collapse(LOWER(text)));
    var cut := Cut(headed);
    DropTailResult(cut);
    StartsNonEmpty(headed);
    StartsNonEmpty(cut);
    hide DropTail, DropHead, Collapse, Alnums;
    if headed != "" {
      assert cut[0] == headed[0];
      StartsNonEmpty(DropTail(cut));
    }
    NoAlnums();
  }

  lemma {:induction false} StartsNonEmpty(s: string)
    ensures s != "" && Alnum(s[0]) ==> Alnums(s) != ""
  {
  }

  lemma {:induction false} NoAlnums()
    ensures Alnums("") == ""
  {
  }

  lemma {:induction false} CollapsedStays(s: string)
    requires LabelChars(s) && NoAdjacentHyphens(s)
    ensures Collapse(s) == s
  {
    if s != "" {
      var rest := s[1..];
      assert forall i :: 0 <= i < |rest| ==> rest[i] == s[i + 1];
      assert LabelChars(rest) && NoAdjacentHyphens(rest);
      CollapsedStays(rest);
      assert s[0] in s;
      if !Alnum(s[0]) {
        assert rest != "" ==> rest[0] == s[1] && s[1] in s;
        assert DropHead(rest) == rest;
      }
      assert s == [s[0]] + rest;
    }
  }

  lemma {:induction false} EndsStay(s: string)
    requires s == "" || (Alnum(s[0]) && Alnum(s[|s| - 1]))
    ensures DropHead(s) == s && DropTail(s) == s
  {
  }

  lemma {:induction false} LabelStays(s: string)
    requires s == "" || (HostLabel(s) && NoAdjacentHyphens(s))
    ensures SanitizeDnsLabel(s) == s
  {
    assert LabelChars(s) && Cut(s) == s;
    assert s == "" || (Alnum(s[0]) && Alnum(s[|s| - 1]));
    hide Collapse, DropHead, DropTail, LabelChars, NoAdjacentHyphens, HostLabel, Alnum, Cut;
    CollapsedStays(s);
    EndsStay(s);
    LowerStays(s);
  }

  lemma {:induction false} LowerStays(s: string)
    requires LabelChars(s)
    ensures LOWER(s) == s
  {
  }

  /** Sanitising again changes nothing. */
  lemma {:induction false} SanitizeTwice(text: string)
    ensures SanitizeDnsLabel(SanitizeDnsLabel(text)) == SanitizeDnsLabel(text)
  {
    hide *;
    ValidLabel(text);
    LabelStays(SanitizeDnsLabel(text));
  }

  /** A string is a fixed point exactly when it is empty or a host label without adjacent hyphens. */
  lemma {:induction false} FixedPoints(s: string)
    ensures SanitizeDnsLabel(s) == s <==> s == "" || (HostLabel(s) && NoAdjacentHyphens(s))
  {
    hide *;
    ValidLabel(s);
    if s == "" || (HostLabel(s) && NoAdjacentHyphens(s)) {
      LabelStays(s);
    }
  }

  // ---------------------------------------------------------------- the label, word by word

  predicate AllAlnum(s: string) {
    forall c :: c in s ==> Alnum(c)
  }

  predicate NoneAlnum(s: string) {
    forall c :: c in s ==> !Alnum(c)
  }

  /** The words with gaps around and between them: gap, word, gap, ..., word, gap. */
  function Woven(words: seq<string>, gaps: seq<string>): string
    requires |gaps| == |words| + 1
  {
    if words == [] then gaps[0] else gaps[0] + words[0] + Woven(words[1..], gaps[1..])
  }

  /** The words are the maximal runs of letters and digits: other characters between any two of them. */
  predicate Runs(words: seq<string>, gaps: seq<string>) {
    && |gaps| == |words| + 1
    && (forall w :: w in words ==> w != "" && AllAlnum(w))
    && (forall g :: g in gaps ==> NoneAlnum(g))
    && (forall i :: 0 < i < |words| ==> gaps[i] != "")
  }

  /** `"-".join(words)` */
  function Hyphenated(words: seq<string>): string {
    if words == [] then ""
    else if |words| == 1 then words[0]
    else words[0] + "-" + Hyphenated(words[1..])
  }

  lemma {:induction false} RunsRest(words: seq<string>, gaps: seq<string>)
    requires Runs(words, gaps) && words != []
    ensures Runs(words[1..], gaps[1..])
    ensures words[0] != "" && AllAlnum(words[0]) && NoneAlnum(gaps[0])
    ensures |words| > 1 ==> gaps[1] != ""
  {
    assert forall w :: w in words[1..] ==> w in words;
    assert forall g :: g in gaps[1..] ==> g in gaps;
    assert forall i :: 0 < i < |words[1..]| ==> gaps[1..][i] == gaps[i + 1];
    assert words[0] in words && gaps[0] in gaps;
  }

  lemma {:induction false} FirstRun(c: char, words: seq<string>, gaps: seq<string>)
    requires Runs(words, gaps) && Alnum(c)
    ensures words != [] && gaps[0] == "" ==> Runs([[c] + words[0]] + words[1..], gaps)
    ensures words == [] || gaps[0] != "" ==> Runs([[c]] + words, [""] + gaps)
  {
    if words != [] && gaps[0] == "" {
      var w' := [[c] + words[0]] + words[1..];
      forall w | w in w'
        ensures w != "" && AllAlnum(w)
      {
        assert words[0] in words && AllAlnum(words[0]);
        assert forall x :: x in [c] + words[0] ==> x == c || x in words[0];
        assert w == w'[0] || w in words[1..];
        assert w in words[1..] ==> w in words;
      }
    }
    if words == [] || gaps[0] != "" {
      assert forall w :: w in [[c]] + words ==> w == [c] || w in words;
      assert forall g :: g in [""] + gaps ==> g == "" || g in gaps;
    }
  }

  /** Every string is some words with gaps. */
  lemma {:induction false} RunsExist(s: string) returns (words: seq<string>, gaps: seq<string>)
    ensures Runs(words, gaps) && Woven(words, gaps) == s
  {
    if s == "" {
      words, gaps := [], [""];
    } else {
      var ws, gs := RunsExist(s[1..]);
      var c := s[0];
      assert s == [c] + s[1..];
      if !Alnum(c) {
        words, gaps := ws, [[c] + gs[0]] + gs[1..];
        assert gs[0] in gs && forall g :: g in gaps ==> g == [c] + gs[0] || g in gs[1..];
        assert gaps[1..] == gs[1..];
      } else {
        FirstRun(c, ws, gs);
        if ws != [] && gs[0] == "" {
          words, gaps := [[c] + ws[0]] + ws[1..], gs;
          assert words[1..] == ws[1..];
        } else {
          words, gaps := [[c]] + ws, [""] + gs;
          assert words[1..] == ws && gaps[1..] == gs;
        }
      }
    }
  }

  lemma {:induction false} DropGap(gap: string, rest: string)
    requires NoneAlnum(gap) && (rest != "" ==> Alnum(rest[0]))
    ensures DropHead(gap + rest) == rest
  {
    if gap == "" {
      assert gap + rest == rest;
    } else {
      assert gap[0] in gap && (gap + rest)[1..] == gap[1..] + rest;
      DropGap(gap[1..], rest);
    }
  }

  lemma {:induction false} CollapseWord(word: string, rest: string)
    requires AllAlnum(word)
    ensures Collapse(word + rest) == word + Collapse(rest)
  {
    if word == "" {
      assert word + rest == rest;
    } else {
      assert word[0] in word && (word + rest)[1..] == word[1..] + rest;
      CollapseWord(word[1..], rest);
      assert word == [word[0]] + word[1..];
    }
  }

  lemma {:induction false} CollapseGap(gap: string, rest: string)
    requires NoneAlnum(gap) && gap != "" && (rest != "" ==> Alnum(rest[0]))
    ensures Collapse(gap + rest) == "-" + Collapse(rest)
  {
    assert gap[0] in gap && (gap + rest)[1..] == gap[1..] + rest;
    DropGap(gap[1..], rest);
  }

  function HyphenIf(gap: string): string {
    if gap == "" then "" else "-"
  }

  /** What the first substitution makes of them. */
  lemma {:induction false} CollapseRuns(words: seq<string>, gaps: seq<string>)
    requires Runs(words, gaps)
    ensures Collapse(Woven(words, gaps))
         == HyphenIf(gaps[0]) + if words == [] then "" else Hyphenated(words) + HyphenIf(gaps[|words|])
  {
    var first := gaps[0];
    assert first in gaps;
    if words == [] {
      assert first + "" == first;
      if first != "" {
        CollapseGap(first, "");
      }
    } else {
      RunsRest(words, gaps);
      var tail := Woven(words[1..], gaps[1..]);
      var after := words[0] + tail;
      CollapseRuns(words[1..], gaps[1..]);
      CollapseWord(words[0], tail);
      assert Woven(words, gaps) == first + after;
      assert words[0][0] in words[0] && after[0] == words[0][0];
      if first == "" {
        assert first + after == after;
      } else {
        CollapseGap(first, after);
      }
      AfterWord(words, gaps);
    }
  }

  lemma {:induction false} AfterWord(words: seq<string>, gaps: seq<string>)
    requires Runs(words, gaps) && words != []
    ensures words[0] + (HyphenIf(gaps[1..][0]) + if words[1..] == [] then "" else Hyphenated(words[1..]) + HyphenIf(gaps[1..][|words[1..]|]))
         == Hyphenated(words) + HyphenIf(gaps[|words|])
  {
    RunsRest(words, gaps);
    var last := HyphenIf(gaps[|words|]);
    if |words| == 1 {
      assert words[0] + (last + "") == words[0] + last;
    } else {
      var rest := Hyphenated(words[1..]);
      assert words[0] + ("-" + (rest + last)) == words[0] + "-" + rest + last;
    }
  }

  /** The hyphenated words begin and end with a letter or digit. */
  lemma {:induction false} HyphenatedEnds(words: seq<string>)
    requires words != [] && forall w :: w in words ==> w != "" && AllAlnum(w)
    ensures var h := Hyphenated(words);
            h != "" && Alnum(h[0]) && Alnum(h[|h| - 1]) && LabelChars(h) && NoAdjacentHyphens(h)
  {
    var w := words[0];
    assert w in words && w[0] in w && w[|w| - 1] in w;
    if |words| > 1 {
      var rest := Hyphenated(words[1..]);
      assert forall x :: x in words[1..] ==> x in words;
      HyphenatedEnds(words[1..]);
      assert Hyphenated(words) == w + "-" + rest;
      forall i | 0 <= i < |w + "-" + rest| - 1
        ensures !((w + "-" + rest)[i] == '-' && (w + "-" + rest)[i + 1] == '-')
      {
        if i < |w| {
          assert w[i] in w;
        }
      }
    } else {
      assert forall i :: 0 <= i < |w| ==> w[i] in w;
    }
  }

  lemma {:induction false} DropTailOf(s: string, tail: string)
    requires (s != "" ==> Alnum(s[|s| - 1])) && NoneAlnum(tail)
    ensures DropTail(s + tail) == s
  {
    if tail == "" {
      assert s + tail == s;
    } else {
      var c := tail[|tail| - 1];
      assert c in tail && (s + tail)[|s + tail| - 1] == c;
      assert (s + tail)[..|s + tail| - 1] == s + tail[..|tail| - 1];
      DropTailOf(s, tail[..|tail| - 1]);
    }
  }

  /** The label before the cut: at most one hyphen follows the last word. */
  lemma {:induction false} HeadedRuns(words: seq<string>, gaps: seq<string>)
    requires Runs(words, gaps)
    ensures DropHead(Collapse(Woven(words, gaps))) == if words == [] then "" else Hyphenated(words) + HyphenIf(gaps[|words|])
  {
    CollapseRuns(words, gaps);
    var rest := if words == [] then "" else Hyphenated(words) + HyphenIf(gaps[|words|]);
    if words != [] {
      HyphenatedEnds(words);
      assert rest[0] == Hyphenated(words)[0];
    }
    DropGap(HyphenIf(gaps[0]), rest);
  }

  /** The cut of a string that has no two hyphens in a row. */
  lemma {:induction false} CutEnds(h: string, tail: string)
    requires h != "" && Alnum(h[|h| - 1]) && LabelChars(h) && NoAdjacentHyphens(h)
    requires tail == "" || tail == "-"
    ensures DropTail(Cut(h + tail)) == if |h| <= 63 then h else if h[62] == '-' then h[..62] else h[..63]
  {
    if |h| <= 63 {
      DropTailOf(h, tail);
      DropTailOf(h, "");
      assert h + "" == h;
      assert |h| == 63 ==> (h + tail)[..63] == h;
    } else {
      assert (h + tail)[..63] == h[..63] == h[..62] + [h[62]];
      assert h[61] in h && h[62] in h;
      if h[62] == '-' {
        assert h[61] != '-';
        DropTailOf(h[..62], "-");
      } else {
        DropTailOf(h[..63], "");
        assert h[..63] + "" == h[..63];
      }
    }
  }

  /**
   * The label of any input, whose maximal runs of letters and digits, lower-cased, are these words:
   * the words joined by single hyphens; of a longer string the first 63 characters, less a final hyphen.
   */
  lemma {:induction false} LabelOfRuns(text: string, words: seq<string>, gaps: seq<string>)
    requires Runs(words, gaps) && LOWER(text) == Woven(words, gaps)
    ensures var joined := Hyphenated(words);
            SanitizeDnsLabel(text) == if |joined| <= 63 then joined
                                      else if joined[62] == '-' then joined[..62]
                                      else joined[..63]
  {
    hide Collapse, DropHead, DropTail, Hyphenated, Woven, Runs, Cut, LabelChars, NoAdjacentHyphens, Alnum;
    HeadedRuns(words, gaps);
    if words == [] {
      NoWords();
    } else {
      RunsWords(words, gaps);
      HyphenatedEnds(words);
      CutEnds(Hyphenated(words), HyphenIf(gaps[|words|]));
    }
  }

  lemma {:induction false} NoWords()
    ensures Hyphenated([]) == "" && DropTail(Cut("")) == ""
  {
  }

  lemma {:induction false} RunsWords(words: seq<string>, gaps: seq<string>)
    requires Runs(words, gaps)
    ensures |gaps| == |words| + 1 && forall w :: w in words ==> w != "" && AllAlnum(w)
  {
  }
}
