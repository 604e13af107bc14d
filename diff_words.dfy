/**
 * Word-level diff (src/lib/diffWords.ts): both texts are split into words,
 * a longest common subsequence of the word lists is found with a dynamic
 * programming table and a backtracking walk, and each new word is marked
 * "unchanged" when a greedy left-to-right scan matches it against the next
 * word of that subsequence, "added" otherwise.
 *
 * `LcsLen`, `Backtrack`, `Greedy` and `Diff` specify the algorithm; the
 * methods `FindLcs` and `ComputeDiff` follow the source's loops and are proved
 * to compute them. The lemmas show that the unchanged words form a longest
 * common subsequence of the old and new word lists.
 */
module DiffWords {

  // ---------------------------------------------------------------------
  // Tokenising: `text.split(/\s+/).filter((w) => w)`
  // ---------------------------------------------------------------------

  /** The characters the regular expression class `\s` matches. */
  predicate IsSpace(c: char) {
    c == '\t' || c == '\n' || c == '\U{000B}' || c == '\U{000C}' || c == '\r' || c == ' ' ||
    c == '\U{00A0}' || c == '\U{1680}' || ('\U{2000}' <= c <= '\U{200A}') ||
    c == '\U{2028}' || c == '\U{2029}' || c == '\U{202F}' || c == '\U{205F}' ||
    c == '\U{3000}' || c == '\U{FEFF}'
  }

  /** A non-empty run of characters none of which is whitespace. */
  predicate IsWord(w: string) {
    |w| > 0 && forall i :: 0 <= i < |w| ==> !IsSpace(w[i])
  }

  predicate AllSpace(s: string) {
    forall i :: 0 <= i < |s| ==> IsSpace(s[i])
  }

  /** The number of whitespace characters `s` starts with. */
  function LeadingSpaces(s: string): (n: nat)
    ensures n <= |s|
    ensures n < |s| ==> !IsSpace(s[n])
  {
    if s == [] || !IsSpace(s[0]) then 0 else 1 + LeadingSpaces(s[1..])
  }

  /** The number of non-whitespace characters `s` starts with. */
  function WordLength(s: string): (n: nat)
    ensures n <= |s|
    ensures n < |s| ==> IsSpace(s[n])
  {
    if s == [] || IsSpace(s[0]) then 0 else 1 + WordLength(s[1..])
  }

  lemma {:induction false} LeadingSpacesAreSpace(s: string)
    ensures AllSpace(s[..LeadingSpaces(s)])
  {
    if s != [] && IsSpace(s[0]) {
      LeadingSpacesAreSpace(s[1..]);
      assert s[..LeadingSpaces(s)] == [s[0]] + s[1..][..LeadingSpaces(s[1..])];
    }
  }

  lemma {:induction false} WordLengthIsWord(s: string)
    ensures forall i :: 0 <= i < WordLength(s) ==> !IsSpace(s[i])
  {
    if s != [] && !IsSpace(s[0]) {
      WordLengthIsWord(s[1..]);
      assert forall i :: 1 <= i < WordLength(s) ==> s[i] == s[1..][i - 1];
    }
  }

  /** The first word of `s`: the run of non-whitespace after its leading whitespace. */
  function FirstWord(s: string): (w: string)
    requires LeadingSpaces(s) < |s|
    ensures IsWord(w)
  {
    var rest := s[LeadingSpaces(s)..];
    WordLengthIsWord(rest);
    rest[..WordLength(rest)]
  }

  /** What follows the first word of `s`: empty, or starting with whitespace. */
  function AfterFirstWord(s: string): (t: string)
    requires LeadingSpaces(s) < |s|
    ensures |t| < |s|
    ensures t == [] || IsSpace(t[0])
  {
    var rest := s[LeadingSpaces(s)..];
    rest[WordLength(rest)..]
  }

  /** The words of `s`: its maximal runs of non-whitespace characters, in order. */
  function Words(s: string): seq<string>
    decreases |s|
  {
    if LeadingSpaces(s) == |s| then [] else [FirstWord(s)] + Words(AfterFirstWord(s))
  }

  lemma {:induction false} LeadingSpacesOfSpace(sp: string, s: string)
    requires AllSpace(sp)
    ensures LeadingSpaces(sp + s) == |sp| + LeadingSpaces(s)
    decreases |sp|
  {
    if sp != [] {
      assert (sp + s)[1..] == sp[1..] + s;
      LeadingSpacesOfSpace(sp[1..], s);
    } else {
      assert sp + s == s;
    }
  }

  lemma {:induction false} LeadingSpacesOfPrefix(a: string, s: string)
    requires LeadingSpaces(a) < |a|
    ensures LeadingSpaces(a + s) == LeadingSpaces(a)
    decreases |a|
  {
    if IsSpace(a[0]) {
      assert (a + s)[1..] == a[1..] + s;
      LeadingSpacesOfPrefix(a[1..], s);
    }
  }

  lemma {:induction false} WordLengthOfWord(w: string, s: string)
    requires forall i :: 0 <= i < |w| ==> !IsSpace(w[i])
    requires s == [] || IsSpace(s[0])
    ensures WordLength(w + s) == |w|
    decreases |w|
  {
    if w != [] {
      assert (w + s)[1..] == w[1..] + s;
      WordLengthOfWord(w[1..], s);
    } else {
      assert w + s == s;
    }
  }

  lemma {:induction false} WordLengthOfPrefix(a: string, s: string)
    requires WordLength(a) < |a|
    ensures WordLength(a + s) == WordLength(a)
    decreases |a|
  {
    if !IsSpace(a[0]) {
      assert (a + s)[1..] == a[1..] + s;
      WordLengthOfPrefix(a[1..], s);
    }
  }

  /** Whitespace in front of a text changes neither its first word nor what follows it. */
  lemma FirstWordAfterSpace(sp: string, s: string)
    requires AllSpace(sp) && LeadingSpaces(s) < |s|
    ensures LeadingSpaces(sp + s) < |sp + s|
    ensures FirstWord(sp + s) == FirstWord(s) && AfterFirstWord(sp + s) == AfterFirstWord(s)
  {
    LeadingSpacesOfSpace(sp, s);
    assert (sp + s)[|sp| + LeadingSpaces(s)..] == s[LeadingSpaces(s)..];
  }

  /** A text's first word ends at whitespace or at the text's end, so what follows it cannot extend it. */
  lemma WordLengthOfRest(rest: string, t: string)
    requires t == [] || IsSpace(t[0])
    ensures WordLength(rest + t) == WordLength(rest)
  {
    if WordLength(rest) < |rest| {
      WordLengthOfPrefix(rest, t);
    } else {
      WordLengthIsWord(rest);
      assert rest[..WordLength(rest)] == rest;
      WordLengthOfWord(rest, t);
    }
  }

  /** Text appended after whitespace, or right after a text's first word, leaves that word alone. */
  lemma FirstWordOfPrefix(a: string, t: string)
    requires LeadingSpaces(a) < |a|
    requires t == [] || IsSpace(t[0])
    ensures LeadingSpaces(a + t) < |a + t|
    ensures FirstWord(a + t) == FirstWord(a) && AfterFirstWord(a + t) == AfterFirstWord(a) + t
  {
    var k := LeadingSpaces(a);
    LeadingSpacesOfPrefix(a, t);
    SliceOfAppend(a, t, k);
    var rest := a[k..];
    WordLengthOfRest(rest, t);
    SliceOfAppend(rest, t, WordLength(rest));
  }

  lemma SliceOfAppend<T>(x: seq<T>, y: seq<T>, n: nat)
    requires n <= |x|
    ensures (x + y)[..n] == x[..n] && (x + y)[n..] == x[n..] + y
  {
  }

  /** Every word is a non-empty run without whitespace: the empty strings `split` leaves are filtered out. */
  lemma {:induction false} WordsAreWords(s: string)
    ensures forall i :: 0 <= i < |Words(s)| ==> IsWord(Words(s)[i])
    decreases |s|
  {
    if LeadingSpaces(s) < |s| {
      WordsAreWords(AfterFirstWord(s));
    }
  }

  /** Whitespace alone yields no words, not even empty ones. */
  lemma WordsOfSpace(sp: string)
    requires AllSpace(sp)
    ensures Words(sp) == []
  {
    LeadingSpacesOfSpace(sp, []);
    assert sp + [] == sp;
  }

  /** A run without whitespace is a single word. */
  lemma WordsOfWord(w: string)
    requires IsWord(w)
    ensures Words(w) == [w]
  {
    WordLengthOfWord(w, []);
    assert w + [] == w;
    assert w[0..] == w;
  }

  /** Whitespace in front of a text adds no words. */
  lemma WordsAfterSpace(sp: string, s: string)
    requires AllSpace(sp)
    ensures Words(sp + s) == Words(s)
  {
    LeadingSpacesOfSpace(sp, s);
    if LeadingSpaces(s) < |s| {
      FirstWordAfterSpace(sp, s);
    }
  }

  /** A text that is all whitespace, then a whitespace character, then `b`: only `b`'s words. */
  lemma WordsSplitSpace(a: string, c: char, b: string)
    requires IsSpace(c) && LeadingSpaces(a) == |a|
    ensures Words(a + [c] + b) == Words(a) + Words(b)
  {
    LeadingSpacesAreSpace(a);
    assert a[..LeadingSpaces(a)] == a;
    assert AllSpace(a + [c]);
    WordsAfterSpace(a + [c], b);
    WordsOfSpace(a);
  }

  /** The words of `a + t`, with `t` starting at whitespace: `a`'s first word, then the words of the rest. */
  lemma WordsCons(a: string, t: string)
    requires LeadingSpaces(a) < |a|
    requires t == [] || IsSpace(t[0])
    ensures Words(a + t) == [FirstWord(a)] + Words(AfterFirstWord(a) + t)
  {
    FirstWordOfPrefix(a, t);
  }

  /** `a`'s first word, then the words of what follows it in `a + [c] + b`. */
  lemma WordsConsSpace(a: string, c: char, b: string)
    requires IsSpace(c) && LeadingSpaces(a) < |a|
    ensures Words(a + [c] + b) == [FirstWord(a)] + Words(AfterFirstWord(a) + [c] + b)
  {
    var r := AfterFirstWord(a);
    assert a + [c] + b == a + ([c] + b);
    WordsCons(a, [c] + b);
    assert r + ([c] + b) == r + [c] + b;
  }

  /** The step of `WordsSplit` past the first word of `a`. */
  lemma WordsSplitWord(a: string, c: char, b: string)
    requires IsSpace(c) && LeadingSpaces(a) < |a|
    requires Words(AfterFirstWord(a) + [c] + b) == Words(AfterFirstWord(a)) + Words(b)
    ensures Words(a + [c] + b) == Words(a) + Words(b)
  {
    var w, r := FirstWord(a), AfterFirstWord(a);
    WordsConsSpace(a, c, b);
    assert Words(a) == [w] + Words(r);
    ConsAppend(w, Words(r), Words(b));
  }

  lemma ConsAppend<T>(x: T, s: seq<T>, t: seq<T>)
    ensures [x] + (s + t) == ([x] + s) + t
  {
  }

  /**
   * Words never span whitespace: the words of a text cut at a whitespace
   * character are the words of the part before it, then those of the part after it.
   */
  lemma {:induction false} WordsSplit(a: string, c: char, b: string)
    requires IsSpace(c)
    ensures Words(a + [c] + b) == Words(a) + Words(b)
    decreases |a|
  {
    if LeadingSpaces(a) == |a| {
      WordsSplitSpace(a, c, b);
    } else {
      WordsSplit(AfterFirstWord(a), c, b);
      WordsSplitWord(a, c, b);
    }
  }

  // ---------------------------------------------------------------------
  // Subsequences and the longest common subsequence
  // ---------------------------------------------------------------------

  /** `s` can be obtained from `t` by deleting elements. */
  predicate IsSubseq<T(==)>(s: seq<T>, t: seq<T>)
    decreases |t|
  {
    if |s| == 0 then true
    else if |t| == 0 then false
    else (s[|s| - 1] == t[|t| - 1] && IsSubseq(s[..|s| - 1], t[..|t| - 1])) || IsSubseq(s, t[..|t| - 1])
  }

  function Max(x: nat, y: nat): nat {
    if x >= y then x else y
  }

  /** The recurrence the table `dp` fills in: `dp[i][j] == LcsLen(a[..i], b[..j])`. */
  function LcsLen<T(==)>(a: seq<T>, b: seq<T>): nat
    decreases |a| + |b|
  {
    if |a| == 0 || |b| == 0 then 0
    else if a[|a| - 1] == b[|b| - 1] then LcsLen(a[..|a| - 1], b[..|b| - 1]) + 1
    else Max(LcsLen(a[..|a| - 1], b), LcsLen(a, b[..|b| - 1]))
  }

  /** The sequence the backtracking walk from `dp[m][n]` collects. */
  function Backtrack<T(==)>(a: seq<T>, b: seq<T>): seq<T>
    decreases |a| + |b|
  {
    if |a| == 0 || |b| == 0 then []
    else if a[|a| - 1] == b[|b| - 1] then Backtrack(a[..|a| - 1], b[..|b| - 1]) + [a[|a| - 1]]
    else if LcsLen(a[..|a| - 1], b) > LcsLen(a, b[..|b| - 1]) then Backtrack(a[..|a| - 1], b)
    else Backtrack(a, b[..|b| - 1])
  }

  lemma {:induction false} SubseqLength<T>(s: seq<T>, t: seq<T>)
    requires IsSubseq(s, t)
    ensures |s| <= |t|
    decreases |t|
  {
    if |s| > 0 {
      if s[|s| - 1] == t[|t| - 1] && IsSubseq(s[..|s| - 1], t[..|t| - 1]) {
        SubseqLength(s[..|s| - 1], t[..|t| - 1]);
      } else {
        SubseqLength(s, t[..|t| - 1]);
      }
    }
  }

  /** What the backtracking walk collects is a common subsequence of length `LcsLen(a, b)`. */
  lemma {:induction false} BacktrackIsCommon<T>(a: seq<T>, b: seq<T>)
    ensures IsSubseq(Backtrack(a, b), a) && IsSubseq(Backtrack(a, b), b)
    ensures |Backtrack(a, b)| == LcsLen(a, b)
    decreases |a| + |b|
  {
    if |a| > 0 && |b| > 0 {
      var ai, bi := a[..|a| - 1], b[..|b| - 1];
      var r := Backtrack(a, b);
      if a[|a| - 1] == b[|b| - 1] {
        BacktrackIsCommon(ai, bi);
        assert r[..|r| - 1] == Backtrack(ai, bi);
      } else if LcsLen(ai, b) > LcsLen(a, bi) {
        BacktrackIsCommon(ai, b);
      } else {
        BacktrackIsCommon(a, bi);
      }
    }
  }

  lemma {:induction false} LcsSymmetric<T>(a: seq<T>, b: seq<T>)
    ensures LcsLen(a, b) == LcsLen(b, a)
    decreases |a| + |b|
  {
    if |a| > 0 && |b| > 0 {
      var ai, bi := a[..|a| - 1], b[..|b| - 1];
      if a[|a| - 1] == b[|b| - 1] {
        LcsSymmetric(ai, bi);
      } else {
        LcsSymmetric(ai, b);
        LcsSymmetric(a, bi);
      }
    }
  }

  /** Dropping the last element of the first sequence never lengthens the LCS. */
  lemma {:induction false} LcsDropFirst<T>(a: seq<T>, b: seq<T>)
    requires |a| > 0
    ensures LcsLen(a[..|a| - 1], b) <= LcsLen(a, b)
    decreases |a| + |b|, 0
  {
    if |b| > 0 && a[|a| - 1] == b[|b| - 1] {
      LcsGrowSecond(a[..|a| - 1], b);
    }
  }

  /** Adding one element to the second sequence lengthens the LCS by at most one. */
  lemma {:induction false} LcsGrowSecond<T>(a: seq<T>, b: seq<T>)
    requires |b| > 0
    ensures LcsLen(a, b) <= LcsLen(a, b[..|b| - 1]) + 1
    decreases |a| + |b|, 1
  {
    if |a| > 0 {
      var ai, bi := a[..|a| - 1], b[..|b| - 1];
      if a[|a| - 1] == b[|b| - 1] {
        LcsDropFirst(a, bi);
      } else {
        LcsGrowSecond(ai, b);
        LcsDropFirst(a, bi);
      }
    }
  }

  lemma LcsDropSecond<T>(a: seq<T>, b: seq<T>)
    requires |b| > 0
    ensures LcsLen(a, b[..|b| - 1]) <= LcsLen(a, b)
  {
    LcsDropFirst(b, a);
    LcsSymmetric(a, b);
    LcsSymmetric(a, b[..|b| - 1]);
  }

  /** No common subsequence is longer than `LcsLen(a, b)`. */
  lemma {:induction false} LcsIsLongest<T>(c: seq<T>, a: seq<T>, b: seq<T>)
    requires IsSubseq(c, a) && IsSubseq(c, b)
    ensures |c| <= LcsLen(a, b)
    decreases |a| + |b|
  {
    if |c| > 0 {
      var ai, bi, ci := a[..|a| - 1], b[..|b| - 1], c[..|c| - 1];
      if IsSubseq(c, ai) {
        LcsIsLongest(c, ai, b);
        LcsDropFirst(a, b);
      } else if IsSubseq(c, bi) {
        LcsIsLongest(c, a, bi);
        LcsDropSecond(a, b);
      } else {
        LcsIsLongest(ci, ai, bi);
      }
    }
  }

  lemma {:induction false} LcsOfSelf<T>(a: seq<T>)
    ensures LcsLen(a, a) == |a|
    decreases |a|
  {
    if |a| > 0 {
      LcsOfSelf(a[..|a| - 1]);
    }
  }

  // ---------------------------------------------------------------------
  // Greedy marking of the new words
  // ---------------------------------------------------------------------

  /** For each word of `ws`: is it matched, scanning left to right, against the next element of `l`? */
  function Greedy<T(==)>(ws: seq<T>, l: seq<T>): (marks: seq<bool>)
    ensures |marks| == |ws|
    decreases |ws|
  {
    if ws == [] then []
    else if l != [] && ws[0] == l[0] then [true] + Greedy(ws[1..], l[1..])
    else [false] + Greedy(ws[1..], l)
  }

  lemma {:induction false} SubseqDropFront<T>(y: T, s: seq<T>, t: seq<T>)
    requires IsSubseq([y] + s, [y] + t)
    ensures IsSubseq(s, t)
    decreases |t|
  {
    if s != [] {
      if t == [] {
        SubseqLength([y] + s, [y] + t);
      } else {
        var S, T := [y] + s, [y] + t;
        var si, ti := s[..|s| - 1], t[..|t| - 1];
        assert S[..|S| - 1] == [y] + si;
        assert T[..|T| - 1] == [y] + ti;
        if s[|s| - 1] == t[|t| - 1] && IsSubseq([y] + si, [y] + ti) {
          SubseqDropFront(y, si, ti);
        } else {
          SubseqDropFront(y, s, ti);
        }
      }
    }
  }

  lemma {:induction false} SubseqSkipFront<T>(y: T, s: seq<T>, t: seq<T>)
    requires IsSubseq(s, [y] + t)
    requires s != [] && s[0] != y
    ensures IsSubseq(s, t)
    decreases |t|
  {
    var T := [y] + t;
    var si := s[..|s| - 1];
    if t == [] {
      assert false;
    } else {
      var ti := t[..|t| - 1];
      assert T[..|T| - 1] == [y] + ti;
      if s[|s| - 1] == t[|t| - 1] && IsSubseq(si, [y] + ti) {
        if si != [] {
          SubseqSkipFront(y, si, ti);
        }
      } else {
        SubseqSkipFront(y, s, ti);
      }
    }
  }

  datatype WordState = Unchanged | Added

  datatype DiffWord = DiffWord(text: string, state: WordState)

  /** `newWords.map(...)`: each word with the state its mark gives it. */
  function Label(ws: seq<string>, marks: seq<bool>): (r: seq<DiffWord>)
    requires |marks| == |ws|
  {
    seq(|ws|, i requires 0 <= i < |ws| => DiffWord(ws[i], if marks[i] then Unchanged else Added))
  }

  /** The texts of the entries marked unchanged, in order. */
  function UnchangedWords(r: seq<DiffWord>): (u: seq<string>)
    ensures |u| <= |r|
  {
    if r == [] then []
    else (if r[0].state == Unchanged then [r[0].text] else []) + UnchangedWords(r[1..])
  }

  /** The greedy scan matches every element of a subsequence of the words. */
  lemma {:induction false} GreedyMatchesAll(ws: seq<string>, l: seq<string>)
    requires IsSubseq(l, ws)
    ensures UnchangedWords(Label(ws, Greedy(ws, l))) == l
    decreases |ws|
  {
    if ws == [] {
      SubseqLength(l, ws);
    } else {
      var marks := Greedy(ws, l);
      assert Label(ws, marks)[1..] == Label(ws[1..], marks[1..]);
      assert ws == [ws[0]] + ws[1..];
      if l != [] && ws[0] == l[0] {
        assert l == [l[0]] + l[1..];
        SubseqDropFront(ws[0], l[1..], ws[1..]);
        GreedyMatchesAll(ws[1..], l[1..]);
      } else {
        if l != [] {
          SubseqSkipFront(ws[0], l, ws[1..]);
        }
        GreedyMatchesAll(ws[1..], l);
      }
    }
  }

  lemma {:induction false} AllUnchanged(r: seq<DiffWord>)
    requires |UnchangedWords(r)| == |r|
    ensures forall i :: 0 <= i < |r| ==> r[i].state == Unchanged
  {
    if r != [] {
      AllUnchanged(r[1..]);
      assert forall i :: 1 <= i < |r| ==> r[i] == r[1..][i - 1];
    }
  }

  /** `diffWords(oldText, newText)` as a function. */
  function Diff(oldText: string, newText: string): seq<DiffWord> {
    var oldWords := Words(oldText);
    var newWords := Words(newText);
    if |oldWords| == 0 then Label(newWords, seq(|newWords|, _ => false))
    else Label(newWords, Greedy(newWords, Backtrack(oldWords, newWords)))
  }

  /**
   * One entry per new word, with its text, in order; the unchanged words form
   * a common subsequence of the old and new words, and no common subsequence
   * is longer. Without old words everything is added.
   */
  lemma DiffIsLcs(oldText: string, newText: string)
    ensures var r, ow, nw := Diff(oldText, newText), Words(oldText), Words(newText);
            |r| == |nw| && (forall i :: 0 <= i < |r| ==> r[i].text == nw[i]) &&
            IsSubseq(UnchangedWords(r), ow) && IsSubseq(UnchangedWords(r), nw) &&
            |UnchangedWords(r)| == LcsLen(ow, nw) &&
            (forall c :: IsSubseq(c, ow) && IsSubseq(c, nw) ==> |c| <= |UnchangedWords(r)|) &&
            (ow == [] ==> forall i :: 0 <= i < |r| ==> r[i].state == Added)
  {
    var r, ow, nw := Diff(oldText, newText), Words(oldText), Words(newText);
    if |ow| == 0 {
      NoneUnchanged(nw);
      assert UnchangedWords(r) == [];
    } else {
      BacktrackIsCommon(ow, nw);
      GreedyMatchesAll(nw, Backtrack(ow, nw));
    }
    forall c | IsSubseq(c, ow) && IsSubseq(c, nw)
      ensures |c| <= |UnchangedWords(r)|
    {
      LcsIsLongest(c, ow, nw);
    }
  }

  lemma {:induction false} NoneUnchanged(ws: seq<string>)
    ensures UnchangedWords(Label(ws, seq(|ws|, _ => false))) == []
    decreases |ws|
  {
    if ws != [] {
      assert Label(ws, seq(|ws|, _ => false))[1..] == Label(ws[1..], seq(|ws| - 1, _ => false));
      NoneUnchanged(ws[1..]);
    }
  }

  /** Diffing a text against itself marks every word unchanged. */
  lemma DiffOfSame(text: string)
    ensures forall i :: 0 <= i < |Diff(text, text)| ==> Diff(text, text)[i].state == Unchanged
  {
    var ws := Words(text);
    DiffIsLcs(text, text);
    LcsOfSelf(ws);
    AllUnchanged(Diff(text, text));
  }

  /** A subsequence as long as the sequence it is taken from is that sequence. */
  lemma {:induction false} SubseqOfSameLength<T>(s: seq<T>, t: seq<T>)
    requires IsSubseq(s, t) && |s| == |t|
    ensures s == t
    decreases |t|
  {
    if |t| > 0 {
      if s[|s| - 1] == t[|t| - 1] && IsSubseq(s[..|s| - 1], t[..|t| - 1]) {
        SubseqOfSameLength(s[..|s| - 1], t[..|t| - 1]);
        assert s == s[..|s| - 1] + [s[|s| - 1]];
        assert t == t[..|t| - 1] + [t[|t| - 1]];
      } else {
        SubseqLength(s, t[..|t| - 1]);
      }
    }
  }

  /** Scanning `a + [w]` against `a` matches every word of `a` and leaves `w` over. */
  lemma {:induction false} GreedyOfPrefix<T>(a: seq<T>, w: T)
    ensures Greedy(a + [w], a) == seq(|a|, _ => true) + [false]
    decreases |a|
  {
    if a == [] {
      assert Greedy([w], a) == [false] + Greedy([w][1..], a);
    } else {
      assert (a + [w])[1..] == a[1..] + [w];
      GreedyOfPrefix(a[1..], w);
      assert seq(|a|, _ => true) == [true] + seq(|a| - 1, _ => true);
    }
  }

  /**
   * Appending one word to a text: the diff marks every old word unchanged and
   * only the appended word added, whether or not that word occurs earlier.
   */
  lemma DiffAppendWord(text: string, w: string)
    requires IsWord(w)
    ensures Diff(text, text + " " + w) == Label(Words(text) + [w], seq(|Words(text)|, _ => true) + [false])
  {
    var ow := Words(text);
    WordsSplit(text, ' ', w);
    WordsOfWord(w);
    assert text + " " + w == text + [' '] + w;
    var nw := ow + [w];
    assert Words(text + " " + w) == nw;
    if ow == [] {
      assert seq(|nw|, _ => false) == seq(0, _ => true) + [false];
    } else {
      BacktrackIsCommon(ow, nw);
      assert nw[..|nw| - 1] == ow;
      LcsDropSecond(ow, nw);
      LcsOfSelf(ow);
      SubseqLength(Backtrack(ow, nw), ow);
      SubseqOfSameLength(Backtrack(ow, nw), ow);
      GreedyOfPrefix(ow, w);
    }
  }

  /**
   * Appending one word to a three-word text: only the new word is marked
   * "added". The texts are parameters fixed by the precondition, so that the
   * verifier does not evaluate the tokeniser on the literals.
   */
  lemma DiffCatSat(oldText: string, newText: string)
    requires oldText == "the cat sat" && newText == "the cat sat here"
    ensures Diff(oldText, newText) ==
              [DiffWord("the", Unchanged), DiffWord("cat", Unchanged), DiffWord("sat", Unchanged), DiffWord("here", Added)]
  {
    ThreeLetterWords();
    HereIsWord();
    assert oldText == "the" + [' '] + ("cat" + [' '] + "sat");
    assert newText == oldText + " " + "here";
    DiffThreePlusOne(oldText, newText, "the", "cat", "sat", "here");
  }

  /** The diff of three words against the same three words and one more. */
  lemma DiffThreePlusOne(oldText: string, newText: string, a: string, b: string, c: string, d: string)
    requires IsWord(a) && IsWord(b) && IsWord(c) && IsWord(d)
    requires oldText == a + [' '] + (b + [' '] + c) && newText == oldText + " " + d
    ensures Diff(oldText, newText) ==
              [DiffWord(a, Unchanged), DiffWord(b, Unchanged), DiffWord(c, Unchanged), DiffWord(d, Added)]
  {
    WordsOfThree(oldText, a, b, c);
    DiffAppendWord(oldText, d);
    LabelFour(a, b, c, d);
  }

  /** Three words joined by single spaces split back into those words. */
  lemma WordsOfThree(s: string, a: string, b: string, c: string)
    requires IsWord(a) && IsWord(b) && IsWord(c)
    requires s == a + [' '] + (b + [' '] + c)
    ensures Words(s) == [a, b, c]
  {
    WordsOfWord(c);
    WordsOfWord(b);
    WordsOfWord(a);
    WordsSplit(b, ' ', c);
    WordsSplit(a, ' ', b + [' '] + c);
  }

  /** The labels of four words of which only the last is unmatched. */
  lemma LabelFour(a: string, b: string, c: string, d: string)
    ensures Label([a, b, c] + [d], seq(3, _ => true) + [false]) ==
              [DiffWord(a, Unchanged), DiffWord(b, Unchanged), DiffWord(c, Unchanged), DiffWord(d, Added)]
  {
  }

  lemma ThreeLetterWords()
    ensures IsWord("the") && IsWord("cat") && IsWord("sat")
  {
  }

  lemma HereIsWord()
    ensures IsWord("here")
  {
  }

  // ---------------------------------------------------------------------
  // The source's algorithm
  // ---------------------------------------------------------------------

  /** One row of the table: `dp[i][j]` for `j` in `1..n` from row `i - 1` and the cell to the left. */
  method FillRow(dp: array2<nat>, a: seq<string>, b: seq<string>, i: nat)
    requires dp.Length0 == |a| + 1 && dp.Length1 == |b| + 1
    requires 1 <= i <= |a|
    requires forall q :: 0 <= q <= |b| ==> dp[i - 1, q] == LcsLen(a[..i - 1], b[..q])
    requires dp[i, 0] == 0
    modifies dp
    ensures forall q :: 0 <= q <= |b| ==> dp[i, q] == LcsLen(a[..i], b[..q])
    ensures forall p, q :: 0 <= p < dp.Length0 && p != i && 0 <= q < dp.Length1 ==> dp[p, q] == old(dp[p, q])
  {
    var j := 1;
    while j <= |b|
      invariant 1 <= j <= |b| + 1
      invariant forall q :: 0 <= q < j ==> dp[i, q] == LcsLen(a[..i], b[..q])
      invariant forall p, q :: 0 <= p < dp.Length0 && p != i && 0 <= q < dp.Length1 ==> dp[p, q] == old(dp[p, q])
    {
      LcsStep(a[..i], b[..j]);
      assert a[..i][..i - 1] == a[..i - 1] && b[..j][..j - 1] == b[..j - 1];
      if a[i - 1] == b[j - 1] {
        dp[i, j] := dp[i - 1, j - 1] + 1;
      } else {
        dp[i, j] := Max(dp[i - 1, j], dp[i, j - 1]);
      }
      j := j + 1;
    }
  }

  /** The recurrence, stated for prefixes that are both non-empty. */
  lemma LcsStep(a: seq<string>, b: seq<string>)
    requires |a| > 0 && |b| > 0
    ensures LcsLen(a, b) ==
              if a[|a| - 1] == b[|b| - 1] then LcsLen(a[..|a| - 1], b[..|b| - 1]) + 1
              else Max(LcsLen(a[..|a| - 1], b), LcsLen(a, b[..|b| - 1]))
  {
  }

  /** The filled table: `dp[i][j]` is the LCS length of `a[..i]` and `b[..j]`. */
  method FillTable(a: seq<string>, b: seq<string>) returns (dp: array2<nat>)
    ensures fresh(dp) && dp.Length0 == |a| + 1 && dp.Length1 == |b| + 1
    ensures forall p, q :: 0 <= p <= |a| && 0 <= q <= |b| ==> dp[p, q] == LcsLen(a[..p], b[..q])
  {
    dp := new nat[|a| + 1, |b| + 1]((_, _) => 0);
    var i := 1;
    while i <= |a|
      invariant 1 <= i <= |a| + 1
      invariant forall p, q :: 0 <= p < i && 0 <= q <= |b| ==> dp[p, q] == LcsLen(a[..p], b[..q])
      invariant forall p :: i <= p <= |a| ==> dp[p, 0] == 0
    {
      FillRow(dp, a, b, i);
      i := i + 1;
    }
  }

  /** `findLCS`: fill the table, then walk back from `dp[m][n]` collecting matches. */
  method FindLcs(a: seq<string>, b: seq<string>) returns (lcs: seq<string>)
    ensures lcs == Backtrack(a, b)
    ensures IsSubseq(lcs, a) && IsSubseq(lcs, b) && |lcs| == LcsLen(a, b)
  {
    var dp := FillTable(a, b);
    lcs := [];
    var i, j := |a|, |b|;
    assert a[..i] == a && b[..j] == b;
    while i > 0 && j > 0
      invariant 0 <= i <= |a| && 0 <= j <= |b|
      invariant Backtrack(a, b) == Backtrack(a[..i], b[..j]) + lcs
      modifies {}
    {
      BacktrackStep(a, b, i, j);
      assert dp[i - 1, j] == LcsLen(a[..i - 1], b[..j]) && dp[i, j - 1] == LcsLen(a[..i], b[..j - 1]);
      if a[i - 1] == b[j - 1] {
        AppendAssoc(Backtrack(a[..i - 1], b[..j - 1]), [a[i - 1]], lcs);
        lcs := [a[i - 1]] + lcs;
        i, j := i - 1, j - 1;
      } else if dp[i - 1, j] > dp[i, j - 1] {
        i := i - 1;
      } else {
        j := j - 1;
      }
    }
    BacktrackIsCommon(a, b);
  }

  /** One step of the walk back from `dp[i][j]`. */
  lemma BacktrackStep<T>(a: seq<T>, b: seq<T>, i: nat, j: nat)
    requires 0 < i <= |a| && 0 < j <= |b|
    ensures Backtrack(a[..i], b[..j]) ==
              if a[i - 1] == b[j - 1] then Backtrack(a[..i - 1], b[..j - 1]) + [a[i - 1]]
              else if LcsLen(a[..i - 1], b[..j]) > LcsLen(a[..i], b[..j - 1]) then Backtrack(a[..i - 1], b[..j])
              else Backtrack(a[..i], b[..j - 1])
  {
    assert a[..i][..i - 1] == a[..i - 1] && b[..j][..j - 1] == b[..j - 1];
  }

  /** The scan over the new words that records which positions match the next LCS word. */
  method MarkPositions(newWords: seq<string>, lcs: seq<string>) returns (lcsPositions: set<nat>)
    ensures forall k: nat :: k in lcsPositions <==> k < |newWords| && Greedy(newWords, lcs)[k]
  {
    var lcsIdx := 0;
    lcsPositions := {};
    ghost var marks: seq<bool> := [];
    var i := 0;
    while i < |newWords| && lcsIdx < |lcs|
      invariant 0 <= i <= |newWords| && 0 <= lcsIdx <= |lcs|
      invariant |marks| == i
      invariant Greedy(newWords, lcs) == marks + Greedy(newWords[i..], lcs[lcsIdx..])
      invariant lcsPositions == Marked(marks)
    {
      GreedyStep(newWords, lcs, i, lcsIdx);
      if newWords[i] == lcs[lcsIdx] {
        AppendAssoc(marks, [true], Greedy(newWords[i + 1..], lcs[lcsIdx + 1..]));
        MarkedSnoc(marks, true);
        lcsPositions := lcsPositions + {i};
        lcsIdx := lcsIdx + 1;
        marks := marks + [true];
      } else {
        AppendAssoc(marks, [false], Greedy(newWords[i + 1..], lcs[lcsIdx..]));
        MarkedSnoc(marks, false);
        marks := marks + [false];
      }
      i := i + 1;
    }
    GreedyExhausted(newWords[i..], lcs[lcsIdx..]);
    MarkedPrefix(marks, Greedy(newWords[i..], lcs[lcsIdx..]));
  }

  /** The positions a list of marks marks. */
  ghost function Marked(m: seq<bool>): set<nat> {
    set k: nat | k < |m| && m[k]
  }

  lemma MarkedSnoc(m: seq<bool>, b: bool)
    ensures Marked(m + [b]) == Marked(m) + (if b then {|m|} else {})
  {
    var m2 := m + [b];
    assert forall k: nat :: k < |m| ==> m2[k] == m[k];
  }

  /** Marks followed only by unmarked ones mark the same positions as the prefix. */
  lemma MarkedPrefix(m: seq<bool>, rest: seq<bool>)
    requires forall i :: 0 <= i < |rest| ==> !rest[i]
    ensures forall k: nat :: k in Marked(m) <==> k < |m + rest| && (m + rest)[k]
  {
    forall k: nat | k < |m + rest|
      ensures (m + rest)[k] <==> k < |m| && m[k]
    {
      if k >= |m| {
        assert (m + rest)[k] == rest[k - |m|];
      }
    }
  }

  /** One step of the scan, stated on the suffixes still to be scanned. */
  lemma GreedyStep<T>(ws: seq<T>, l: seq<T>, i: nat, j: nat)
    requires i < |ws| && j < |l|
    ensures Greedy(ws[i..], l[j..]) ==
              if ws[i] == l[j] then [true] + Greedy(ws[i + 1..], l[j + 1..]) else [false] + Greedy(ws[i + 1..], l[j..])
  {
    assert ws[i..][1..] == ws[i + 1..];
    assert l[j..][1..] == l[j + 1..];
  }

  lemma AppendAssoc<T>(a: seq<T>, b: seq<T>, c: seq<T>)
    ensures a + (b + c) == (a + b) + c
  {
  }

  /** Once the subsequence is used up, or no words remain, nothing more is marked. */
  lemma {:induction false} GreedyExhausted(ws: seq<string>, l: seq<string>)
    requires ws == [] || l == []
    ensures forall i :: 0 <= i < |ws| ==> !Greedy(ws, l)[i]
    decreases |ws|
  {
    if ws != [] {
      GreedyExhausted(ws[1..], l);
    }
  }

  /** `diffWords(oldText, newText)`. */
  method ComputeDiff(oldText: string, newText: string) returns (r: seq<DiffWord>)
    ensures r == Diff(oldText, newText)
  {
    var oldWords := Words(oldText);
    var newWords := Words(newText);
    if |oldWords| == 0 {
      r := seq(|newWords|, i requires 0 <= i < |newWords| => DiffWord(newWords[i], Added));
      return;
    }
    var lcs := FindLcs(oldWords, newWords);
    var lcsPositions := MarkPositions(newWords, lcs);
    r := LabelPositions(newWords, lcsPositions);
    LabelPositionsIsLabel(newWords, Greedy(newWords, lcs), lcsPositions);
  }

  /** `newWords.map((word, k) => ...)` with the state read from the set of matched positions. */
  function LabelPositions(ws: seq<string>, positions: set<nat>): (r: seq<DiffWord>)
    ensures |r| == |ws|
  {
    seq(|ws|, k requires 0 <= k < |ws| => DiffWord(ws[k], if k in positions then Unchanged else Added))
  }

  /** Labelling by the set of marked positions is labelling by the marks. */
  lemma LabelPositionsIsLabel(ws: seq<string>, marks: seq<bool>, positions: set<nat>)
    requires |marks| == |ws|
    requires forall k: nat :: k in positions <==> k < |ws| && marks[k]
    ensures LabelPositions(ws, positions) == Label(ws, marks)
  {
    var r, l := LabelPositions(ws, positions), Label(ws, marks);
    forall k | 0 <= k < |ws|
      ensures r[k] == l[k]
    {
      assert k in positions <==> marks[k];
    }
  }
}
