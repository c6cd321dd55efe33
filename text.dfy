/**
 * String primitives of Python as the resume code uses them, restricted to
 * ASCII: `str.lower()`, `str.title()`, the `in` substring test,
 * `str.strip()`, `str.split(sep)`, `str.split()`, `sep.join(xs)` and the
 * `re.sub(r'\s+', ' ', s)` whitespace collapse.
 */
module Text {
  import opened Seqs

  predicate IsUpper(c: char) { 'A' <= c <= 'Z' }
  predicate IsLower(c: char) { 'a' <= c <= 'z' }
  predicate IsAlpha(c: char) { IsUpper(c) || IsLower(c) }
  predicate IsDigit(c: char) { '0' <= c <= '9' }

  /** Python's `\w` on ASCII. */
  predicate IsWordChar(c: char) { IsAlpha(c) || IsDigit(c) || c == '_' }

  /** Python's `\s` and `str.isspace()` on ASCII: tab to carriage return, the four separators, space. */
  predicate IsSpace(c: char) { '\t' <= c <= '\r' || '\U{1C}' <= c <= ' ' }

  function LowerChar(c: char): char
  {
    if IsUpper(c) then (c as int + 32) as char else c
  }

  function UpperChar(c: char): char
  {
    if IsLower(c) then (c as int - 32) as char else c
  }

  /** `s.lower()` */
  function Lower(s: string): (r: string)
    ensures |r| == |s|
    ensures forall i :: 0 <= i < |s| ==> r[i] == LowerChar(s[i])
  {
    seq(|s|, i requires 0 <= i < |s| => LowerChar(s[i]))
  }

  /** The character `s.title()` puts at position `i`: a letter is upper-cased after a non-letter, lower-cased after a letter. */
  function TitleCharAt(s: string, i: nat): char
    requires i < |s|
  {
    if !IsAlpha(s[i]) then s[i]
    else if i > 0 && IsAlpha(s[i - 1]) then LowerChar(s[i])
    else UpperChar(s[i])
  }

  /** `s.title()` */
  function Title(s: string): (r: string)
    ensures |r| == |s|
    ensures forall i :: 0 <= i < |s| ==> r[i] == TitleCharAt(s, i)
  {
    seq(|s|, i requires 0 <= i < |s| => TitleCharAt(s, i))
  }

  /** Title-casing changes only the case of letters: lower-casing undoes it. */
  lemma TitleLower(s: string)
    ensures Lower(Title(s)) == Lower(s)
  {
    forall i | 0 <= i < |s|
      ensures Lower(Title(s))[i] == Lower(s)[i]
    {
      var c := s[i];
      assert IsUpper(c) ==> LowerChar(UpperChar(c)) == LowerChar(c);
      assert IsLower(c) ==> LowerChar(UpperChar(c)) == c == LowerChar(c);
    }
  }

  /** Title-casing looks at letters only up to case. */
  lemma TitleOfLower(s: string)
    ensures Title(Lower(s)) == Title(s)
  {
    forall i | 0 <= i < |s|
      ensures TitleCharAt(Lower(s), i) == TitleCharAt(s, i)
    {
      assert IsAlpha(LowerChar(s[i])) == IsAlpha(s[i]);
      assert i > 0 ==> IsAlpha(LowerChar(s[i - 1])) == IsAlpha(s[i - 1]);
      assert UpperChar(LowerChar(s[i])) == UpperChar(s[i]);
      assert LowerChar(LowerChar(s[i])) == LowerChar(s[i]);
    }
  }

  /** `s` has `lit` at position `i`. */
  predicate At(s: string, i: nat, lit: string)
  {
    i + |lit| <= |s| && s[i..i + |lit|] == lit
  }

  /** Python's `sub in s`. */
  predicate Contains(s: string, sub: string)
  {
    exists i: nat | i <= |s| :: At(s, i, sub)
  }

  /** `any(t in s for t in terms)` */
  predicate ContainsAny(s: string, terms: seq<string>)
  {
    exists t :: t in terms && Contains(s, t)
  }

  /** A text ends with what was appended to it. */
  lemma ContainsAppended(a: string, x: string)
    ensures Contains(a + x, x)
  {
    assert (a + x)[|a|..|a| + |x|] == x;
    assert At(a + x, |a|, x);
  }

  /** An occurrence stays one when the text is extended. */
  lemma ContainsExtended(s: string, t: string, x: string)
    requires Contains(s, x)
    ensures Contains(s + t, x)
  {
    var i: nat :| i <= |s| && At(s, i, x);
    assert (s + t)[i..i + |x|] == s[i..i + |x|];
    assert At(s + t, i, x);
  }

  lemma ContainsSlice(s: string, i: nat, j: nat)
    requires i <= j <= |s|
    ensures Contains(s, s[i..j])
  {
    assert At(s, i, s[i..j]);
  }

  lemma LowerSlice(s: string, i: nat, j: nat)
    requires i <= j <= |s|
    ensures Lower(s[i..j]) == Lower(s)[i..j]
  {
  }

  /** A piece of the text, lower-cased, occurs in the lower-cased text. */
  lemma ContainsLowerSlice(s: string, i: nat, j: nat)
    requires i <= j <= |s|
    ensures Contains(Lower(s), Lower(s[i..j]))
  {
    LowerSlice(s, i, j);
    ContainsSlice(Lower(s), i, j);
  }

  /** Lower-casing keeps an occurrence an occurrence. */
  lemma ContainsLower(s: string, t: string)
    requires Contains(s, t)
    ensures Contains(Lower(s), Lower(t))
  {
    var i: nat :| i <= |s| && At(s, i, t);
    LowerSlice(s, i, i + |t|);
    assert At(Lower(s), i, Lower(t));
  }

  /** `[t for t in vocab if t in text]`: the vocabulary terms occurring in `text`, in vocabulary order. */
  function Occurring(vocab: seq<string>, text: string): (r: seq<string>)
    ensures IsSubseq(r, vocab)
    ensures forall t :: t in r <==> t in vocab && Contains(text, t)
  {
    var p := (t: string) => Contains(text, t);
    FilterIsSubseq(vocab, p);
    Filter(vocab, p)
  }

  /** Testing one more term appends it, or not, after the hits so far: the loop that builds the list. */
  lemma OccurringAppend(vocab: seq<string>, t: string, text: string)
    ensures Occurring(vocab + [t], text) == Occurring(vocab, text) + (if Contains(text, t) then [t] else [])
  {
    var p := (t: string) => Contains(text, t);
    FilterAppend(vocab, [t], p);
    assert Filter([t], p) == (if p(t) then [t] else []) + Filter([t][1..], p);
  }

  /** No hits when no term occurs. */
  lemma OccurringNone(vocab: seq<string>, text: string)
    requires forall t :: t in vocab ==> !Contains(text, t)
    ensures Occurring(vocab, text) == []
  {
    var p := (t: string) => Contains(text, t);
    FilterNone(vocab, p);
  }

  /** `sum(1 for t in terms if t in text)`: how many of the terms occur in the text. */
  function CountContained(terms: seq<string>, text: string): nat
  {
    if terms == [] then 0 else (if Contains(text, terms[0]) then 1 else 0) + CountContained(terms[1..], text)
  }

  /** Counting the hits is the same as taking the length of the list of hits. */
  lemma {:induction false} CountContainedIsOccurring(terms: seq<string>, text: string)
    ensures CountContained(terms, text) == |Occurring(terms, text)|
  {
    if terms != [] {
      CountContainedIsOccurring(terms[1..], text);
    }
  }

  function TrimStart(s: string): (r: string)
    ensures |r| <= |s| && r == s[|s| - |r|..]
    ensures r == [] || !IsSpace(r[0])
    ensures |s| > 0 && IsSpace(s[0]) ==> |r| < |s|
  {
    if |s| > 0 && IsSpace(s[0]) then TrimStart(s[1..]) else s
  }

  /** What trimming the start cuts off is whitespace. */
  lemma {:induction false} TrimStartCut(s: string)
    ensures forall k :: 0 <= k < |s| - |TrimStart(s)| ==> IsSpace(s[k])
    decreases |s|
  {
    if |s| > 0 && IsSpace(s[0]) {
      TrimStartCut(s[1..]);
      assert forall k :: 1 <= k < |s| ==> s[k] == s[1..][k - 1];
    }
  }

  /** The whitespace prefix ends at `i`: trimming the start cuts exactly there. */
  lemma TrimStartAt(s: string, i: nat)
    requires i <= |s|
    requires forall k :: 0 <= k < i ==> IsSpace(s[k])
    requires i == |s| || !IsSpace(s[i])
    ensures TrimStart(s) == s[i..]
  {
    TrimStartCut(s);
  }

  function TrimEnd(s: string): (r: string)
    ensures |r| <= |s| && r == s[..|r|]
    ensures r == [] || !IsSpace(r[|r| - 1])
  {
    if |s| > 0 && IsSpace(s[|s| - 1]) then TrimEnd(s[..|s| - 1]) else s
  }

  /** What trimming the end cuts off is whitespace. */
  lemma {:induction false} TrimEndCut(s: string)
    ensures forall k :: |TrimEnd(s)| <= k < |s| ==> IsSpace(s[k])
    decreases |s|
  {
    if |s| > 0 && IsSpace(s[|s| - 1]) {
      TrimEndCut(s[..|s| - 1]);
    }
  }

  /** Nothing but whitespace. */
  predicate AllSpace(s: string)
  {
    forall k :: 0 <= k < |s| ==> IsSpace(s[k])
  }

  /**
   * `s.strip()`: `s` with only whitespace cut off before and after, and no
   * whitespace left at either end.
   */
  function Strip(s: string): (r: string)
    ensures |r| <= |s|
    ensures r == [] || (!IsSpace(r[0]) && !IsSpace(r[|r| - 1]))
    ensures forall c :: c in r ==> c in s
  {
    var t := TrimStart(s);
    var r := TrimEnd(t);
    TrimStartCut(s);
    TrimEndCut(t);
    StripCut(s, t, r);
    r
  }

  /** What `strip` cuts off on either side is whitespace only: `s` is that whitespace around `Strip(s)`. */
  lemma StripIsCut(s: string)
    ensures exists before, after :: s == before + Strip(s) + after && AllSpace(before) && AllSpace(after)
  {
    var t := TrimStart(s);
    TrimStartCut(s);
    TrimEndCut(t);
    StripCut(s, t, TrimEnd(t));
  }

  /** Trimming the end of the trimmed start cuts whitespace only, and keeps a slice of `s`. */
  lemma StripCut(s: string, t: string, r: string)
    requires |t| <= |s| && t == s[|s| - |t|..] && forall k :: 0 <= k < |s| - |t| ==> IsSpace(s[k])
    requires |r| <= |t| && r == t[..|r|] && forall k :: |r| <= k < |t| ==> IsSpace(t[k])
    ensures forall c :: c in r ==> c in s
    ensures exists before, after :: s == before + r + after && AllSpace(before) && AllSpace(after)
  {
    var i := |s| - |t|;
    var j := i + |r|;
    TakeOfDrop(s, i, |r|);
    assert s == s[..i] + r + s[j..];
    assert forall k :: j <= k < |s| ==> IsSpace(s[k]) by {
      forall k | j <= k < |s| ensures IsSpace(s[k]) {
        assert s[k] == t[k - i];
      }
    }
    assert AllSpace(s[..i]) && AllSpace(s[j..]);
    assert forall c :: c in r ==> c in s by {
      forall c | c in r ensures c in s {
        var k :| 0 <= k < |r| && r[k] == c;
        assert s[i + k] == c;
      }
    }
  }


  lemma TakeOfDrop(s: string, i: nat, n: nat)
    requires i + n <= |s|
    ensures s[i..][..n] == s[i..i + n]
  {
  }

  /** A stripped piece strips to itself. */
  lemma StripStripped(s: string)
    requires s == [] || (!IsSpace(s[0]) && !IsSpace(s[|s| - 1]))
    ensures Strip(s) == s
  {
  }

  /** `[p.strip() for p in pieces]` */
  function StripAll(pieces: seq<string>): (r: seq<string>)
    ensures |r| == |pieces|
    ensures forall i :: 0 <= i < |pieces| ==> r[i] == Strip(pieces[i])
    ensures forall x :: x in r ==> Strip(x) == x
  {
    var r := seq(|pieces|, i requires 0 <= i < |pieces| => Strip(pieces[i]));
    assert forall x :: x in r ==> Strip(x) == x by {
      forall x | x in r ensures Strip(x) == x {
        var i :| 0 <= i < |r| && r[i] == x;
        StripStripped(x);
      }
    }
    r
  }

  /** Stripping one more piece adds its stripped form at the end. */
  lemma StripAllSnoc(pieces: seq<string>, piece: string)
    ensures StripAll(pieces + [piece]) == StripAll(pieces) + [Strip(piece)]
  {
    var all := pieces + [piece];
    var a := StripAll(all);
    var b := StripAll(pieces) + [Strip(piece)];
    assert |a| == |b|;
    forall i | 0 <= i < |a| ensures a[i] == b[i] {
      if i < |pieces| {
        assert all[i] == pieces[i];
        assert a[i] == Strip(pieces[i]) == b[i];
      } else {
        assert all[i] == piece;
      }
    }
    assert a == b;
  }

  /** A piece that is not empty. */
  predicate NonBlank(x: string)
  {
    x != []
  }

  /** `s.split(sep)` for a one-character separator, and `re.split('[...]', s)` for a class of them. */
  function Split(s: string, seps: set<char>): (r: seq<string>)
    ensures |r| >= 1
    ensures forall piece :: piece in r ==> NoneOf(piece, seps)
  {
    if |s| == 0 then [""]
    else
      var rest := Split(s[1..], seps);
      if s[0] in seps then [""] + rest
      else
        var head := [s[0]] + rest[0];
        assert NoneOf(rest[0], seps);
        assert forall piece :: piece in rest[1..] ==> piece in rest;
        [head] + rest[1..]
  }

  /** `piece` holds none of the characters in `seps`. */
  predicate NoneOf(piece: string, seps: set<char>)
  {
    forall i :: 0 <= i < |piece| ==> piece[i] !in seps
  }

  /** `s.split('\n')` */
  function Lines(s: string): (r: seq<string>)
    ensures |r| >= 1
    ensures forall line :: line in r ==> '\n' !in line
  {
    var r := Split(s, {'\n'});
    assert forall line :: line in r ==> NoneOf(line, {'\n'});
    r
  }

  /** `sep.join(xs)` */
  function Join(xs: seq<string>, sep: string): string
  {
    if |xs| == 0 then "" else if |xs| == 1 then xs[0] else xs[0] + sep + Join(xs[1..], sep)
  }

  /** Joining the pieces of a split puts the text back together. */
  lemma {:induction false} JoinSplit(s: string, sep: char)
    ensures Join(Split(s, {sep}), [sep]) == s
  {
    if |s| > 0 {
      var rest := Split(s[1..], {sep});
      JoinSplit(s[1..], sep);
      if s[0] == sep {
        assert Split(s, {sep}) == [""] + rest;
        assert ([""] + rest)[1..] == rest;
        assert Join([""] + rest, [sep]) == "" + [sep] + Join(rest, [sep]);
        assert s == [s[0]] + s[1..];
      } else {
        var first := [s[0]] + rest[0];
        assert Split(s, {sep}) == [first] + rest[1..];
        if |rest| == 1 {
          assert Join([first] + rest[1..], [sep]) == first;
          assert rest == [rest[0]];
        } else {
          assert ([first] + rest[1..])[1..] == rest[1..];
          assert Join(rest, [sep]) == rest[0] + [sep] + Join(rest[1..], [sep]);
        }
        assert s == [s[0]] + s[1..];
      }
    }
  }

  /** Splitting lines that hold no separator, once joined, gives those lines back. */
  lemma {:induction false} SplitJoin(xs: seq<string>, sep: char)
    requires |xs| >= 1
    requires forall x :: x in xs ==> sep !in x
    ensures Split(Join(xs, [sep]), {sep}) == xs
    decreases |xs|, |xs[0]|
  {
    if |xs[0]| > 0 {
      var head := xs[0];
      var ys := [head[1..]] + xs[1..];
      assert head == [head[0]] + head[1..];
      assert ys[1..] == xs[1..];
      assert forall y :: y in ys ==> sep !in y by {
        forall y | y in ys ensures sep !in y {
          if y == head[1..] {
            assert forall c :: c in head[1..] ==> c in head;
          } else {
            assert y in xs[1..];
          }
        }
      }
      SplitJoin(ys, sep);
      assert head[0] != sep by { assert head[0] in head; }
      if |xs| == 1 {
        assert Join(xs, [sep]) == head && Join(ys, [sep]) == head[1..];
      } else {
        assert Join(xs, [sep]) == head + [sep] + Join(xs[1..], [sep]);
        assert Join(ys, [sep]) == head[1..] + [sep] + Join(xs[1..], [sep]);
        AppendAssoc([head[0]], head[1..], [sep]);
        AppendAssoc([head[0]], head[1..] + [sep], Join(xs[1..], [sep]));
      }
      assert Join(xs, [sep]) == [head[0]] + Join(ys, [sep]);
      assert Join(xs, [sep])[1..] == Join(ys, [sep]);
    } else if |xs| > 1 {
      SplitJoin(xs[1..], sep);
      assert Join(xs, [sep]) == [sep] + Join(xs[1..], [sep]);
      assert Join(xs, [sep])[1..] == Join(xs[1..], [sep]);
      assert [""] + xs[1..] == xs;
    }
  }

  /** A text holding no separator is a single piece. */
  lemma {:induction false} SplitWhole(s: string, seps: set<char>)
    requires NoneOf(s, seps)
    ensures Split(s, seps) == [s]
    decreases |s|
  {
    if s != [] {
      SplitWhole(s[1..], seps);
      assert s == [s[0]] + s[1..];
    }
  }

  /** A separator between two texts splits them apart: the pieces of the first, then those of the second. */
  lemma {:induction false} SplitAtSep(a: string, c: char, b: string, seps: set<char>)
    requires c in seps
    ensures Split(a + [c] + b, seps) == Split(a, seps) + Split(b, seps)
    decreases |a|
  {
    if a == [] {
      assert a + [c] + b == [c] + b;
      assert ([c] + b)[1..] == b;
    } else {
      var s := a + [c] + b;
      assert s[0] == a[0] && s[1..] == a[1..] + [c] + b;
      SplitAtSep(a[1..], c, b, seps);
      if a[0] !in seps {
        var front := Split(a[1..], seps);
        assert (front + Split(b, seps))[0] == front[0];
        assert (front + Split(b, seps))[1..] == front[1..] + Split(b, seps);
      }
    }
  }

  /** Joining pieces free of a whole class of separators with one of them, then splitting on the class, gives the pieces back. */
  lemma {:induction false} SplitJoinSeps(xs: seq<string>, sep: char, seps: set<char>)
    requires |xs| >= 1 && sep in seps
    requires forall x :: x in xs ==> NoneOf(x, seps)
    ensures Split(Join(xs, [sep]), seps) == xs
    decreases |xs|
  {
    assert xs[0] in xs;
    SplitWhole(xs[0], seps);
    if |xs| == 1 {
      assert Join(xs, [sep]) == xs[0];
    } else {
      var rest := xs[1..];
      assert forall x :: x in rest ==> x in xs;
      SplitJoinSeps(rest, sep, seps);
      var tail := Join(rest, [sep]);
      SplitAtSep(xs[0], sep, tail, seps);
      calc {
        Split(Join(xs, [sep]), seps);
        Split(xs[0] + [sep] + tail, seps);
        Split(xs[0], seps) + Split(tail, seps);
        [xs[0]] + rest;
        xs;
      }
    }
  }

  /** Lower-casing a concatenation lower-cases each part. */
  lemma LowerAppend(a: string, b: string)
    ensures Lower(a + b) == Lower(a) + Lower(b)
  {
  }

  /** End of the longest run of characters satisfying `p` that starts at `i`: a greedy `[...]*`. */
  function RunEnd(s: string, i: nat, p: char -> bool): (j: nat)
    requires i <= |s|
    ensures i <= j <= |s|
    ensures forall k :: i <= k < j ==> p(s[k])
    ensures j == |s| || !p(s[j])
    decreases |s| - i
  {
    if i < |s| && p(s[i]) then RunEnd(s, i + 1, p) else i
  }

  predicate NotSpace(c: char) { !IsSpace(c) }

  /** End of the run of non-whitespace characters that starts at `i`. */
  function WordEnd(s: string, i: nat): (j: nat)
    requires i <= |s|
    ensures i <= j <= |s|
    ensures forall k :: i <= k < j ==> !IsSpace(s[k])
    ensures j == |s| || IsSpace(s[j])
  {
    RunEnd(s, i, NotSpace)
  }

  /** `s.split()`: the maximal runs of non-whitespace characters, in order. */
  function Words(s: string): (r: seq<string>)
    ensures forall w :: w in r ==> |w| > 0 && forall c :: c in w ==> !IsSpace(c)
    decreases |s|
  {
    if s == [] then []
    else if IsSpace(s[0]) then Words(s[1..])
    else
      var j := WordEnd(s, 0);
      assert forall c :: c in s[..j] ==> !IsSpace(c);
      [s[..j]] + Words(s[j..])
  }

  /** Every character of a word comes from the text. */
  lemma {:induction false} WordsChars(s: string)
    ensures forall w :: w in Words(s) ==> forall c :: c in w ==> c in s
    decreases |s|
  {
    if s != [] {
      if IsSpace(s[0]) {
        WordsChars(s[1..]);
        assert forall c :: c in s[1..] ==> c in s;
      } else {
        var j := WordEnd(s, 0);
        WordsChars(s[j..]);
        assert forall c :: c in s[..j] ==> c in s;
        assert forall c :: c in s[j..] ==> c in s;
      }
    }
  }

  /** The run of characters satisfying `p` from `i` ends at `j` when `j` is the first place it fails. */
  lemma RunEndAt(s: string, i: nat, p: char -> bool, j: nat)
    requires i <= j <= |s|
    requires forall k :: i <= k < j ==> p(s[k])
    requires j == |s| || !p(s[j])
    ensures RunEnd(s, i, p) == j
  {
  }

  /** A text without whitespace is one word. */
  lemma WordsOfWord(w: string)
    requires |w| > 0 && forall c :: c in w ==> !IsSpace(c)
    ensures Words(w) == [w]
  {
    assert w[0] in w;
    RunEndAt(w, 0, NotSpace, |w|);
    assert w[..|w|] == w;
    assert w[|w|..] == [];
  }

  /** Whitespace between two texts splits them apart: the words of the first, then those of the second. */
  lemma {:induction false} WordsAtSpace(a: string, c: char, b: string)
    requires IsSpace(c)
    ensures Words(a + [c] + b) == Words(a) + Words(b)
    decreases |a|, 1
  {
    var s := a + [c] + b;
    if a == [] {
      assert s == [c] + b;
      assert s[1..] == b;
    } else if IsSpace(a[0]) {
      assert s[1..] == a[1..] + [c] + b;
      WordsAtSpace(a[1..], c, b);
    } else {
      WordsAtSpaceAfterWord(a, c, b);
    }
  }

  /** WordsAtSpace when `a` starts with a word: that word comes first on both sides. */
  lemma {:induction false} WordsAtSpaceAfterWord(a: string, c: char, b: string)
    requires IsSpace(c) && a != [] && !IsSpace(a[0])
    ensures Words(a + [c] + b) == Words(a) + Words(b)
    decreases |a|, 0
  {
    var s := a + [c] + b;
    var j := WordEnd(a, 0);
    WordEndBeforeSpace(a, c, b);
    assert s[..j] == a[..j];
    assert s[j..] == a[j..] + [c] + b;
    WordsAtSpace(a[j..], c, b);
    assert Words(s) == [a[..j]] + Words(a[j..] + [c] + b);
    assert Words(a) == [a[..j]] + Words(a[j..]);
    AppendAssoc([a[..j]], Words(a[j..]), Words(b));
  }

  /** The first word of `a` is the first word of `a` followed by whitespace. */
  lemma WordEndBeforeSpace(a: string, c: char, b: string)
    requires IsSpace(c)
    ensures WordEnd(a + [c] + b, 0) == WordEnd(a, 0)
  {
    var s := a + [c] + b;
    var j := WordEnd(a, 0);
    assert forall k :: 0 <= k < j ==> NotSpace(s[k]) by {
      forall k | 0 <= k < j ensures NotSpace(s[k]) {
        assert s[k] == a[k];
      }
    }
    assert !NotSpace(s[j]) by {
      if j < |a| { assert s[j] == a[j]; } else { assert s[j] == c; }
    }
    RunEndAt(s, 0, NotSpace, j);
  }


  /** `re.sub(r'\s+', ' ', s)`: every whitespace run becomes one space. */
  function CollapseSpace(s: string): (r: string)
    ensures forall i :: 0 <= i < |r| && IsSpace(r[i]) ==> r[i] == ' '
    ensures forall i, j :: 0 <= i && j == i + 1 && j < |r| ==> !(IsSpace(r[i]) && IsSpace(r[j]))
    ensures |s| > 0 ==> |r| > 0 && r[0] == (if IsSpace(s[0]) then ' ' else s[0])
    ensures |s| == 0 ==> r == []
    decreases |s|
  {
    if s == [] then []
    else if IsSpace(s[0]) then
      var rest := CollapseSpace(TrimStart(s));
      ConsSingleSpaced(' ', rest);
      [' '] + rest
    else
      var rest := CollapseSpace(s[1..]);
      ConsSingleSpaced(s[0], rest);
      [s[0]] + rest
  }

  /** Putting one character before a collapsed text keeps it collapsed, unless that makes two spaces. */
  lemma ConsSingleSpaced(c: char, rest: string)
    requires IsSpace(c) ==> c == ' ' && (rest == [] || !IsSpace(rest[0]))
    requires forall i :: 0 <= i < |rest| && IsSpace(rest[i]) ==> rest[i] == ' '
    requires forall i, j :: 0 <= i && j == i + 1 && j < |rest| ==> !(IsSpace(rest[i]) && IsSpace(rest[j]))
    ensures forall i :: 0 <= i < |[c] + rest| && IsSpace(([c] + rest)[i]) ==> ([c] + rest)[i] == ' '
    ensures forall i, j :: 0 <= i && j == i + 1 && j < |[c] + rest| ==> !(IsSpace(([c] + rest)[i]) && IsSpace(([c] + rest)[j]))
  {
    var r := [c] + rest;
    forall i, j | 0 <= i && j == i + 1 && j < |r|
      ensures !(IsSpace(r[i]) && IsSpace(r[j]))
    {
      assert r[j] == rest[i];
      if i > 0 { assert r[i] == rest[i - 1]; }
    }
  }

  /** Text without whitespace has nothing to collapse. */
  lemma {:induction false} CollapseNoSpace(s: string)
    requires forall c :: c in s ==> !IsSpace(c)
    ensures CollapseSpace(s) == s
    decreases |s|
  {
    if s != [] {
      assert forall c :: c in s[1..] ==> c in s;
      CollapseNoSpace(s[1..]);
      assert s == [s[0]] + s[1..];
    }
  }

  /**
   * A whitespace run between two texts, neither of which has whitespace on
   * that side, becomes a single space; with CollapseNoSpace this fixes the
   * result on every text.
   */
  lemma {:induction false} CollapseRun(a: string, ws: string, b: string)
    requires a == [] || !IsSpace(a[|a| - 1])
    requires |ws| > 0 && forall k :: 0 <= k < |ws| ==> IsSpace(ws[k])
    requires b == [] || !IsSpace(b[0])
    ensures CollapseSpace(a + ws + b) == CollapseSpace(a) + " " + CollapseSpace(b)
    decreases |a|, 1
  {
    if a == [] {
      CollapseLeadingRun(a, ws, b);
    } else if IsSpace(a[0]) {
      CollapseRunAfterSpace(a, ws, b);
    } else {
      CollapseRunAfterWord(a, ws, b);
    }
  }

  /** CollapseRun when `a` starts with whitespace: that run becomes the first space of both sides. */
  lemma {:induction false} CollapseRunAfterSpace(a: string, ws: string, b: string)
    requires a != [] && IsSpace(a[0]) && !IsSpace(a[|a| - 1])
    requires |ws| > 0 && forall k :: 0 <= k < |ws| ==> IsSpace(ws[k])
    requires b == [] || !IsSpace(b[0])
    ensures CollapseSpace(a + ws + b) == CollapseSpace(a) + " " + CollapseSpace(b)
    decreases |a|, 0
  {
    var t := TrimStart(a);
    TrimStartKeepsEnd(a, ws + b);
    AppendAssoc(a, ws, b);
    AppendAssoc(t, ws, b);
    CollapseRun(t, ws, b);
    CollapseLead(a + ws + b);
    CollapseLead(a);
    ConsAround(' ', CollapseSpace(t), CollapseSpace(b));
  }

  /** CollapseRun when `a` starts with a non-space character: it is kept in front of both sides. */
  lemma {:induction false} CollapseRunAfterWord(a: string, ws: string, b: string)
    requires a != [] && !IsSpace(a[0]) && !IsSpace(a[|a| - 1])
    requires |ws| > 0 && forall k :: 0 <= k < |ws| ==> IsSpace(ws[k])
    requires b == [] || !IsSpace(b[0])
    ensures CollapseSpace(a + ws + b) == CollapseSpace(a) + " " + CollapseSpace(b)
    decreases |a|, 0
  {
    var s := a + ws + b;
    assert s[0] == a[0];
    assert s[1..] == a[1..] + ws + b;
    CollapseRun(a[1..], ws, b);
    assert CollapseSpace(s) == [a[0]] + CollapseSpace(a[1..] + ws + b);
    assert CollapseSpace(a) == [a[0]] + CollapseSpace(a[1..]);
    ConsAround(a[0], CollapseSpace(a[1..]), CollapseSpace(b));
  }

  lemma ConsAround(x: char, p: string, q: string)
    ensures [x] + (p + " " + q) == [x] + p + " " + q
  {
  }

  /** CollapseRun when `a` is empty: a leading whitespace run becomes one space. */
  lemma CollapseLeadingRun(a: string, ws: string, b: string)
    requires a == []
    requires |ws| > 0 && forall k :: 0 <= k < |ws| ==> IsSpace(ws[k])
    requires b == [] || !IsSpace(b[0])
    ensures CollapseSpace(a + ws + b) == CollapseSpace(a) + " " + CollapseSpace(b)
  {
    var s := a + ws + b;
    assert s == ws + b;
    assert s[0] == ws[0];
    assert forall k :: 0 <= k < |ws| ==> IsSpace(s[k]) by {
      forall k | 0 <= k < |ws| ensures IsSpace(s[k]) { assert s[k] == ws[k]; }
    }
    TrimStartAt(s, |ws|);
    assert s[|ws|..] == b;
    assert CollapseSpace(s) == [' '] + CollapseSpace(b);
    assert CollapseSpace(a) == [];
    assert CollapseSpace(a) + " " == " ";
  }


  /** A text ending in a non-space character trims to a non-empty piece with the same end, whatever follows it. */
  lemma TrimStartKeepsEnd(a: string, x: string)
    requires a != [] && !IsSpace(a[|a| - 1])
    ensures TrimStart(a) != [] && TrimStart(a)[|TrimStart(a)| - 1] == a[|a| - 1]
    ensures TrimStart(a + x) == TrimStart(a) + x
  {
    var t := TrimStart(a);
    var cut := |a| - |t|;
    TrimStartCut(a);
    assert cut < |a|;
    assert t == a[cut..];
    assert a[cut] == t[0];
    TrimStartAppend(a, cut, x);
  }

  /** The leading whitespace run becomes one space. */
  lemma CollapseLead(x: string)
    requires x != [] && IsSpace(x[0])
    ensures CollapseSpace(x) == [' '] + CollapseSpace(TrimStart(x))
  {
  }

  /** Trimming a text whose leading whitespace ends at `cut` inside `a` is unaffected by what follows `a`. */
  lemma TrimStartAppend(a: string, cut: nat, x: string)
    requires cut < |a| && !IsSpace(a[cut]) && forall k :: 0 <= k < cut ==> IsSpace(a[k])
    ensures TrimStart(a + x) == a[cut..] + x
  {
    var s := a + x;
    assert forall k :: 0 <= k < cut ==> IsSpace(s[k]) by {
      forall k | 0 <= k < cut ensures IsSpace(s[k]) { assert s[k] == a[k]; }
    }
    assert s[cut] == a[cut];
    TrimStartAt(s, cut);
    assert s[cut..] == a[cut..] + x;
  }


}
