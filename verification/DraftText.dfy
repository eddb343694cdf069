/** Free text as the draft analysis compares it: words, case folding, and joined paragraphs. */
module DraftText {
  import opened Core

  /** The characters that separate words. */
  predicate IsSpace(c: char) {
    || ('\t' <= c <= '\r') || ('\U{1C}' <= c <= ' ') || c == '\U{85}' || c == '\U{A0}' || c == '\U{1680}'
    || ('\U{2000}' <= c <= '\U{200A}') || c == '\U{2028}' || c == '\U{2029}' || c == '\U{202F}' || c == '\U{205F}' || c == '\U{3000}'
  }

  function Words(s: string): (words: seq<string>)
    ensures s != "" && !IsSpace(s[0]) ==> words != []
    decreases |s|
  {
    if s == "" then []
    else if IsSpace(s[0]) then Words(s[1..])
    else if |s| == 1 || IsSpace(s[1]) then [[s[0]]] + Words(s[1..])
    else
      var rest := Words(s[1..]);
      [[s[0]] + rest[0]] + rest[1..]
  }

  /** How case folding spells out one character. */
  type Folding = char -> string

  function Folded(word: string, fold: Folding): string {
    if word == "" then "" else fold(word[0]) + Folded(word[1..], fold)
  }

  function FoldedJoin(words: seq<string>, fold: Folding): string
    decreases |words|
  {
    if words == [] then ""
    else if |words| == 1 then Folded(words[0], fold)
    else Folded(words[0], fold) + (" " + FoldedJoin(words[1..], fold))
  }

  /** Text without regard to spacing and case. */
  function Normalized(text: Option<string>, fold: Folding): string {
    if text.None? then "" else FoldedJoin(Words(text.value), fold)
  }

  predicate OccursAt(part: string, text: string, i: nat) {
    i + |part| <= |text| && text[i..i + |part|] == part
  }

  predicate Occurs(part: string, text: string) {
    exists i :: 0 <= i <= |text| && OccursAt(part, text, i)
  }

  /** Paragraphs joined by an empty line. */
  function Paragraphs(parts: seq<string>): string
    decreases |parts|
  {
    if parts == [] then ""
    else if |parts| == 1 then parts[0]
    else parts[0] + ("\n\n" + Paragraphs(parts[1..]))
  }

  // ---------------------------------------------------------------- words

  predicate HasSpace(s: string) {
    exists i :: 0 <= i < |s| && IsSpace(s[i])
  }

  /** A text without spaces is one word; together with `WordsAcrossSpace` that says what the words of any text are. */
  lemma {:induction false} OneWord(w: string)
    requires w != "" && !HasSpace(w)
    ensures Words(w) == [w]
    decreases |w|
  {
    assert !IsSpace(w[0]);
    if |w| > 1 {
      assert !IsSpace(w[1]);
      forall i | 0 <= i < |w[1..]| ensures !IsSpace(w[1..][i]) {
        assert w[1..][i] == w[i + 1];
      }
      OneWord(w[1..]);
      assert [w[0]] + w[1..] == w;
    } else {
      assert [w[0]] == w;
    }
  }

  /** Folding goes letter by letter. */
  lemma {:induction false} FoldedLetters(v: string, c: char, w: string, fold: Folding)
    ensures Folded(v + [c] + w, fold) == Folded(v, fold) + fold(c) + Folded(w, fold)
    decreases |v|
  {
    if v == "" {
      assert v + [c] + w == [c] + w;
    } else {
      assert (v + [c] + w)[1..] == v[1..] + [c] + w;
      FoldedLetters(v[1..], c, w, fold);
    }
  }

  /** So the normal form of a text with one space is that of its parts with one plain space between them. */
  lemma NormalOfTwo(v: string, c: char, w: string, fold: Folding)
    requires v != "" && w != "" && !HasSpace(v) && !HasSpace(w) && IsSpace(c)
    ensures Normalized(Some(v + ([c] + w)), fold) == Folded(v, fold) + (" " + Folded(w, fold))
  {
    hide Words, Folded, HasSpace;
    WordsAcrossSpace(v, c, w);
    OneWord(v);
    OneWord(w);
    assert [v] + [w] == [v, w] && [v, w][1..] == [w];
    assert FoldedJoin([w], fold) == Folded(w, fold);
    assert FoldedJoin([v, w], fold) == Folded(v, fold) + (" " + FoldedJoin([w], fold));
  }

  // ---------------------------------------------------------------- a joined text contains its parts

  lemma {:induction false} WordsAcrossSpace(a: string, c: char, b: string)
    requires IsSpace(c)
    ensures Words(a + ([c] + b)) == Words(a) + Words(b)
    decreases |a|
  {
    var s := a + ([c] + b);
    if a == "" {
      assert s == [c] + b && s[1..] == b;
    } else {
      assert s[0] == a[0] && s[1..] == a[1..] + ([c] + b);
      WordsAcrossSpace(a[1..], c, b);
      if !IsSpace(a[0]) {
        if |a| == 1 {
          assert s[1] == c;
          assert a[1..] == "";
        } else {
          assert s[1] == a[1];
        }
      }
    }
  }

  lemma WordsOfTwoParagraphs(a: string, b: string)
    ensures Words(a + ("\n\n" + b)) == Words(a) + Words(b)
  {
    assert "\n\n" + b == ['\n'] + (['\n'] + b);
    WordsAcrossSpace(a, '\n', ['\n'] + b);
    WordsAcrossSpace("", '\n', b);
    assert "" + (['\n'] + b) == ['\n'] + b;
    assert Words("") == [];
  }

  lemma {:induction false} WordsOfParagraphs(parts: seq<string>, k: nat) returns (before: seq<string>, after: seq<string>)
    requires k < |parts|
    ensures Words(Paragraphs(parts)) == before + Words(parts[k]) + after
    ensures k == 0 ==> before == []
    decreases |parts|
  {
    hide Words;
    if |parts| == 1 {
      before, after := [], [];
      assert [] + Words(parts[k]) + [] == Words(parts[k]);
    } else {
      WordsOfTwoParagraphs(parts[0], Paragraphs(parts[1..]));
      if k == 0 {
        before, after := [], Words(Paragraphs(parts[1..]));
        assert [] + Words(parts[0]) == Words(parts[0]);
      } else {
        var inner, rest := WordsOfParagraphs(parts[1..], k - 1);
        before, after := Words(parts[0]) + inner, rest;
        assert Words(parts[0]) + (inner + Words(parts[k]) + rest) == before + Words(parts[k]) + after;
      }
    }
  }

  lemma {:induction false} FoldedJoinSplits(a: seq<string>, b: seq<string>, fold: Folding)
    requires a != [] && b != []
    ensures FoldedJoin(a + b, fold) == FoldedJoin(a, fold) + (" " + FoldedJoin(b, fold))
    decreases |a|
  {
    assert (a + b)[0] == a[0] && (a + b)[1..] == a[1..] + b;
    if |a| == 1 {
      assert a[1..] + b == b;
    } else {
      FoldedJoinSplits(a[1..], b, fold);
    }
  }

  lemma OccursInside(before: string, part: string, after: string)
    ensures Occurs(part, before + part + after)
  {
    assert OccursAt(part, before + part + after, |before|);
  }

  lemma OccursIsTransitive(a: string, b: string, c: string)
    requires Occurs(a, b) && Occurs(b, c)
    ensures Occurs(a, c)
  {
    var i :| 0 <= i <= |b| && OccursAt(a, b, i);
    var j :| 0 <= j <= |c| && OccursAt(b, c, j);
    assert forall n :: 0 <= n < |b| ==> b[n] == c[j..j + |b|][n] == c[j + n];
    assert forall n :: 0 <= n < |a| ==> a[n] == b[i..i + |a|][n] == b[i + n];
    assert c[j + i..j + i + |a|] == a;
    assert OccursAt(a, c, j + i);
  }

  /** Some of the words of a text, taken in a row, occur in the normalized text. */
  lemma WordsOccur(before: seq<string>, words: seq<string>, after: seq<string>, fold: Folding)
    requires words != []
    ensures Occurs(FoldedJoin(words, fold), FoldedJoin(before + words + after, fold))
  {
    hide FoldedJoin, Occurs;
    FirstWordsOccur(words, after, fold);
    LastWordsOccur(before, words + after, fold);
    assert before + words + after == before + (words + after);
    OccursIsTransitive(FoldedJoin(words, fold), FoldedJoin(words + after, fold), FoldedJoin(before + words + after, fold));
  }

  lemma FirstWordsOccur(words: seq<string>, after: seq<string>, fold: Folding)
    requires words != []
    ensures Occurs(FoldedJoin(words, fold), FoldedJoin(words + after, fold))
  {
    hide FoldedJoin, Occurs;
    var part := FoldedJoin(words, fold);
    if after == [] {
      assert words + after == words;
      OccursInside("", part, "");
      assert "" + part + "" == part;
    } else {
      FoldedJoinSplits(words, after, fold);
      OccursInside("", part, " " + FoldedJoin(after, fold));
      assert "" + part + (" " + FoldedJoin(after, fold)) == part + (" " + FoldedJoin(after, fold));
    }
  }

  lemma LastWordsOccur(before: seq<string>, words: seq<string>, fold: Folding)
    requires words != []
    ensures Occurs(FoldedJoin(words, fold), FoldedJoin(before + words, fold))
  {
    hide FoldedJoin, Occurs;
    var part := FoldedJoin(words, fold);
    if before == [] {
      assert before + words == words;
      OccursInside("", part, "");
      assert "" + part + "" == part;
    } else {
      FoldedJoinSplits(before, words, fold);
      OccursInside(FoldedJoin(before, fold) + " ", part, "");
      assert FoldedJoin(before, fold) + " " + part + "" == FoldedJoin(before, fold) + (" " + part);
    }
  }

  /** Whatever paragraph a text is joined from, its normalized form occurs in that of the text. */
  lemma ParagraphOccurs(parts: seq<string>, k: nat, fold: Folding)
    requires k < |parts| && Words(parts[k]) != []
    ensures Occurs(Normalized(Some(parts[k]), fold), Normalized(Some(Paragraphs(parts)), fold))
  {
    var before, after := WordsOfParagraphs(parts, k);
    WordsOccur(before, Words(parts[k]), after, fold);
  }

  // ---------------------------------------------------------------- texts without repetition

  /** The values whose normalized form was not seen before, in order. */
  function Unique(values: seq<string>, seen: set<string>, fold: Folding): seq<string>
    decreases |values|
  {
    if values == [] then []
    else
      var key := Normalized(Some(values[0]), fold);
      if key in seen then Unique(values[1..], seen, fold)
      else [values[0]] + Unique(values[1..], seen + {key}, fold)
  }

  /** Some value of the list says the same. */
  predicate Said(values: seq<string>, value: string, fold: Folding) {
    exists i :: 0 <= i < |values| && Normalized(Some(values[i]), fold) == Normalized(Some(value), fold)
  }

  /** Nothing is lost but repetition: every value is represented, nothing is invented, and no two remaining values
      say the same. */
  lemma {:induction false} UniqueIs(values: seq<string>, seen: set<string>, fold: Folding)
    ensures var u := Unique(values, seen, fold);
            && (forall i :: 0 <= i < |u| ==> u[i] in values && Normalized(Some(u[i]), fold) !in seen)
            && (forall i :: 0 <= i < |values| ==> Normalized(Some(values[i]), fold) in seen || Said(u, values[i], fold))
            && (forall i, j :: 0 <= i < j < |u| ==> Normalized(Some(u[i]), fold) != Normalized(Some(u[j]), fold))
    decreases |values|
  {
    hide Normalized, Said;
    if values != [] {
      var key := Normalized(Some(values[0]), fold);
      var next := if key in seen then seen else seen + {key};
      var rest := Unique(values[1..], next, fold);
      UniqueIs(values[1..], next, fold);
      assert forall i :: 0 <= i < |rest| ==> rest[i] in values[1..] && Normalized(Some(rest[i]), fold) !in next;
      var u := Unique(values, seen, fold);
      assert forall i :: 0 < i < |values| ==> values[i] == values[1..][i - 1];
      if key !in seen {
        assert u == [values[0]] + rest && forall j :: 0 < j < |u| ==> u[j] == rest[j - 1];
        forall i, j | 0 <= i < j < |u| ensures Normalized(Some(u[i]), fold) != Normalized(Some(u[j]), fold) {
          assert u[j] == rest[j - 1] && rest[j - 1] in values[1..];
          if i > 0 {
            assert u[i] == rest[i - 1];
          }
        }
        forall i | 0 <= i < |values| ensures Normalized(Some(values[i]), fold) in seen || Said(u, values[i], fold) {
          SaidLater(values[0], rest, values[i], fold);
        }
      }
    }
  }

  lemma SaidLater(first: string, rest: seq<string>, value: string, fold: Folding)
    ensures Said(rest, value, fold) ==> Said([first] + rest, value, fold)
    ensures Normalized(Some(first), fold) == Normalized(Some(value), fold) ==> Said([first] + rest, value, fold)
  {
    hide Normalized;
    var all := [first] + rest;
    assert all[0] == first && forall i :: 0 <= i < |rest| ==> all[i + 1] == rest[i];
  }

  /** The loop that collects them, over one list after another. */
  method UniqueTexts(groups: seq<seq<string>>, fold: Folding) returns (values: seq<string>)
    ensures values == Unique(Concatenated(groups), {}, fold)
  {
    hide Normalized;
    values := [];
    var seen: set<string> := {};
    for g := 0 to |groups|
      invariant values + Unique(Concatenated(groups[g..]), seen, fold) == Unique(Concatenated(groups), {}, fold)
    {
      var group := groups[g];
      assert groups[g..][0] == group && groups[g..][1..] == groups[g + 1..];
      ghost var later := Concatenated(groups[g + 1..]);
      assert group[0..] == group;
      for n := 0 to |group|
        invariant values + Unique(group[n..] + later, seen, fold) == Unique(Concatenated(groups), {}, fold)
      {
        var value := group[n];
        assert (group[n..] + later)[0] == value && (group[n..] + later)[1..] == group[n + 1..] + later;
        var key := Normalized(Some(value), fold);
        if key !in seen {
          seen := seen + {key};
          values := values + [value];
        }
      }
      assert group[|group|..] + later == later;
    }
    assert groups[|groups|..] == [];
  }

  function Concatenated(groups: seq<seq<string>>): seq<string>
    decreases |groups|
  {
    if groups == [] then [] else groups[0] + Concatenated(groups[1..])
  }
}
