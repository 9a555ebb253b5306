/** The text reductions the engine and the criterion rules share, over ASCII. */
module Text {

  predicate IsDigit(c: char) { '0' <= c <= '9' }

  predicate IsUpper(c: char) { 'A' <= c <= 'Z' }

  predicate IsLower(c: char) { 'a' <= c <= 'z' }

  predicate IsAlphanumeric(c: char) { IsDigit(c) || IsUpper(c) || IsLower(c) }

  predicate IsWhitespace(c: char) { c == ' ' || '\t' <= c <= '\r' }

  function ToLower(c: char): char {
    if IsUpper(c) then (c as int + 32) as char else c
  }

  function Lowered(s: string): string {
    seq(|s|, i requires 0 <= i < |s| => ToLower(s[i]))
  }

  /** Maximal runs of alphanumeric characters, in order: `split(!alphanumeric)` less the empty
      pieces. `word` is the run being read. */
  function WordsFrom(word: string, s: string): seq<string>
    decreases |s|
  {
    if s == [] then (if word == [] then [] else [word])
    else if IsAlphanumeric(s[0]) then WordsFrom(word + [s[0]], s[1..])
    else (if word == [] then [] else [word]) + WordsFrom([], s[1..])
  }

  function Words(s: string): seq<string> { WordsFrom([], s) }

  function Join(parts: seq<string>, separator: string): string {
    if parts == [] then ""
    else if |parts| == 1 then parts[0]
    else parts[0] + separator + Join(parts[1..], separator)
  }

  /** `text` holds each of `parts`, one after another. */
  ghost predicate HoldsInOrder(text: string, parts: seq<string>)
    decreases |parts|
  {
    parts == []
    || exists i, j :: 0 <= i <= j <= |text| && text[i..j] == parts[|parts| - 1]
                      && HoldsInOrder(text[..i], parts[..|parts| - 1])
  }

  lemma HoldsMore(text: string, parts: seq<string>, more: string)
    requires HoldsInOrder(text, parts)
    ensures HoldsInOrder(text + more, parts)
  {
    if parts != [] {
      var i, j :| 0 <= i <= j <= |text| && text[i..j] == parts[|parts| - 1]
                  && HoldsInOrder(text[..i], parts[..|parts| - 1]);
      assert (text + more)[i..j] == text[i..j] && (text + more)[..i] == text[..i];
    }
  }

  lemma HoldsSnoc(text: string, i: nat, j: nat, most: seq<string>, last: string)
    requires i <= j <= |text| && text[i..j] == last && HoldsInOrder(text[..i], most)
    ensures HoldsInOrder(text, most + [last])
  {
    assert (most + [last])[..|most|] == most;
  }

  lemma HoldsLast(text: string, parts: seq<string>) returns (i: nat, j: nat)
    requires HoldsInOrder(text, parts) && parts != []
    ensures i <= j <= |text| && text[i..j] == parts[|parts| - 1] && HoldsInOrder(text[..i], parts[..|parts| - 1])
  {
    i, j :| 0 <= i <= j <= |text| && text[i..j] == parts[|parts| - 1]
            && HoldsInOrder(text[..i], parts[..|parts| - 1]);
  }

  lemma {:induction false} HoldsConcat(a: string, p: seq<string>, b: string, q: seq<string>)
    requires HoldsInOrder(a, p) && HoldsInOrder(b, q)
    ensures HoldsInOrder(a + b, p + q)
    decreases |q|
  {
    hide HoldsInOrder;
    if q == [] {
      HoldsMore(a, p, b);
      assert p + q == p;
    } else {
      var most, last := q[..|q| - 1], q[|q| - 1];
      var i, j := HoldsLast(b, q);
      HoldsConcat(a, p, b[..i], most);
      assert (a + b)[|a| + i..|a| + j] == b[i..j] && (a + b)[..|a| + i] == a + b[..i];
      HoldsSnoc(a + b, |a| + i, |a| + j, p + most, last);
      assert p + most + [last] == p + q;
    }
  }

  lemma HoldsOne(before: string, part: string)
    ensures HoldsInOrder(before + part, [part])
  {
    var all := before + part;
    assert all[|before|..|all|] == part;
  }

  lemma HoldsNone(text: string)
    ensures HoldsInOrder(text, [])
  {
  }

  /** What is joined holds every part. */
  lemma {:induction false} JoinHolds(parts: seq<string>, separator: string)
    ensures HoldsInOrder(Join(parts, separator), parts)
  {
    hide HoldsInOrder;
    if parts == [] {
      HoldsNone("");
    } else {
      var first, rest := parts[0], parts[1..];
      HoldsOne("", first);
      assert "" + first == first && parts == [first] + rest;
      if |parts| == 1 {
        assert parts == [first];
      } else {
        JoinHolds(rest, separator);
        HoldsMore(first, [first], separator);
        HoldsConcat(first + separator, [first], Join(rest, separator), rest);
      }
    }
  }

  predicate Blank(s: string) {
    forall i :: 0 <= i < |s| ==> IsWhitespace(s[i])
  }

  function TrimEnd(s: string): (t: string)
    ensures t <= s
  {
    if s != [] && IsWhitespace(s[|s| - 1]) then TrimEnd(s[..|s| - 1]) else s
  }

  function TrimStart(s: string): string {
    if s != [] && IsWhitespace(s[0]) then TrimStart(s[1..]) else s
  }

  function Trimmed(s: string): string { TrimEnd(TrimStart(s)) }

  lemma {:induction false} TrimEndBlank(s: string)
    ensures TrimEnd(s) == "" <==> Blank(s)
  {
    if s != [] && IsWhitespace(s[|s| - 1]) {
      TrimEndBlank(s[..|s| - 1]);
      forall i | 0 <= i < |s| - 1 ensures s[i] == s[..|s| - 1][i] {}
    }
  }

  lemma {:induction false} TrimmedBlank(s: string)
    ensures Trimmed(s) == "" <==> Blank(s)
  {
    if s != [] && IsWhitespace(s[0]) {
      TrimmedBlank(s[1..]);
      forall i | 1 <= i < |s| ensures s[i] == s[1..][i - 1] {}
    } else {
      TrimEndBlank(s);
    }
  }

  lemma {:induction false} TrimEndIs(s: string)
    ensures TrimEnd(s) != "" ==> !IsWhitespace(TrimEnd(s)[|TrimEnd(s)| - 1])
    ensures s == "" || !IsWhitespace(s[|s| - 1]) ==> TrimEnd(s) == s
  {
    if s != [] && IsWhitespace(s[|s| - 1]) { TrimEndIs(s[..|s| - 1]); }
  }

  lemma {:induction false} TrimStartIs(s: string)
    ensures TrimStart(s) != "" ==> !IsWhitespace(TrimStart(s)[0])
    ensures s == "" || !IsWhitespace(s[0]) ==> TrimStart(s) == s
  {
    if s != [] && IsWhitespace(s[0]) { TrimStartIs(s[1..]); }
  }

  lemma TrimmedTwice(s: string)
    ensures Trimmed(Trimmed(s)) == Trimmed(s)
  {
    hide TrimStart, TrimEnd;
    var started := TrimStart(s);
    TrimStartIs(s);
    TrimEndIs(started);
    TrimStartIs(TrimEnd(started));
    TrimEndIs(TrimEnd(started));
  }

  lemma {:induction false} TrimEndOuter(s: string)
    ensures TrimEnd(s) == s[..|TrimEnd(s)|] && Blank(s[|TrimEnd(s)|..])
  {
    if s != [] && IsWhitespace(s[|s| - 1]) {
      var most := s[..|s| - 1];
      TrimEndOuter(most);
      var n := |TrimEnd(s)|;
      forall k | 0 <= k < |s[n..]| ensures IsWhitespace(s[n..][k]) {
        if k < |most[n..]| { assert s[n..][k] == most[n..][k]; }
      }
    }
  }

  lemma {:induction false} TrimStartOuter(s: string)
    ensures |TrimStart(s)| <= |s|
    ensures var i := |s| - |TrimStart(s)|; TrimStart(s) == s[i..] && Blank(s[..i])
  {
    if s != [] && IsWhitespace(s[0]) {
      var rest := s[1..];
      TrimStartOuter(rest);
      var i := |s| - |TrimStart(s)|;
      assert s[i..] == rest[i - 1..];
      forall k | 0 <= k < i ensures IsWhitespace(s[..i][k]) {
        if k > 0 { assert s[..i][k] == rest[..i - 1][k - 1]; }
      }
    }
  }

  /** Trimming takes away the whitespace around a text, all of it and nothing else. */
  lemma TrimmedOuter(s: string) returns (i: nat, j: nat)
    ensures i <= j <= |s| && Trimmed(s) == s[i..j] && Blank(s[..i]) && Blank(s[j..])
    ensures Trimmed(s) != "" ==> !IsWhitespace(Trimmed(s)[0]) && !IsWhitespace(Trimmed(s)[|Trimmed(s)| - 1])
  {
    hide TrimStart, TrimEnd, Blank, IsWhitespace;
    var started := TrimStart(s);
    TrimStartOuter(s);
    TrimEndOuter(started);
    i := |s| - |started|;
    j := i + |TrimEnd(started)|;
    SuffixOfSuffix(s, i, |TrimEnd(started)|);
    TrimStartIs(s);
    TrimEndIs(started);
  }

  lemma SuffixOfSuffix(s: string, i: nat, n: nat)
    requires i + n <= |s|
    ensures s[i..][..n] == s[i..i + n] && s[i..][n..] == s[i + n..]
  {
  }

  /** What a reply said, less its punctuation and case (engine.rs `normalize`). */
  function Normalize(s: string): string {
    Join(Words(Lowered(s)), " ")
  }

  // ---------------------------------------------------------------- words

  /** `s[i..j]` is alphanumeric, and as much of it as there is. */
  predicate IsRun(s: string, i: nat, j: nat) {
    && i < j <= |s| && (forall k :: i <= k < j ==> IsAlphanumeric(s[k]))
    && (i == 0 || !IsAlphanumeric(s[i - 1])) && (j == |s| || !IsAlphanumeric(s[j]))
  }

  /** `words` are the maximal alphanumeric runs of `s`, each once and in order; `runs` says where they stand. */
  ghost predicate RunsAt(s: string, words: seq<string>, runs: seq<(nat, nat)>) {
    && |runs| == |words|
    && (forall k :: 0 <= k < |runs| ==> IsRun(s, runs[k].0, runs[k].1) && words[k] == s[runs[k].0..runs[k].1])
    && (forall k, l :: 0 <= k < l < |runs| ==> runs[k].1 < runs[l].0)
    && forall p :: 0 <= p < |s| && IsAlphanumeric(s[p]) ==> InRun(runs, p)
  }

  predicate InRun(runs: seq<(nat, nat)>, p: int) {
    exists k :: 0 <= k < |runs| && runs[k].0 <= p < runs[k].1
  }

  predicate Solid(word: string) {
    forall k :: 0 <= k < |word| ==> IsAlphanumeric(word[k])
  }

  function Alone(word: string): seq<string> {
    if word == [] then [] else [word]
  }

  lemma {:induction false} WordsFromRuns(word: string, s: string) returns (runs: seq<(nat, nat)>)
    requires Solid(word)
    ensures RunsAt(word + s, WordsFrom(word, s), runs)
    decreases |s|
  {
    hide RunsAt, IsAlphanumeric;
    if s == [] {
      assert word + s == word;
      runs := if word == [] then [] else [(0, |word|)];
      OneRun(word);
    } else if IsAlphanumeric(s[0]) {
      runs := WordsFromRuns(word + [s[0]], s[1..]);
      assert word + [s[0]] + s[1..] == word + s;
    } else {
      var rest := WordsFromRuns([], s[1..]);
      assert [] + s[1..] == s[1..];
      runs := RunsAfter(word, s[0], s[1..], WordsFrom([], s[1..]), rest);
      assert word + [s[0]] + s[1..] == word + s;
    }
  }

  lemma OneRun(word: string)
    requires Solid(word)
    ensures RunsAt(word, Alone(word), if word == [] then [] else [(0, |word|)])
  {
    if word != [] {
      assert word[0..|word|] == word;
      forall p | 0 <= p < |word| ensures InRun([(0, |word|)], p) {
        assert [(0, |word|)][0].0 <= p < [(0, |word|)][0].1;
      }
    }
  }

  /** The runs of a text after a run and the character that ended it. */
  lemma RunsAfter(word: string, c: char, rest: string, words: seq<string>, runs: seq<(nat, nat)>)
    returns (all: seq<(nat, nat)>)
    requires Solid(word) && !IsAlphanumeric(c) && RunsAt(rest, words, runs)
    ensures RunsAt(word + [c] + rest, Alone(word) + words, all)
  {
    hide IsRun, InRun, Solid, Shifted, IsAlphanumeric;
    var later := Shifted(runs, |word| + 1);
    ShiftedLength(runs, |word| + 1);
    var first: seq<(nat, nat)> := if word == [] then [] else [(0, |word|)];
    all := first + later;
    RunsShifted(word, c, rest, words, runs);
    CoverShifted(word, c, rest, runs);
    FirstRun(word, c, rest);
    RunsCover(word, c, rest, first, later);
  }

  lemma RunsCover(word: string, c: char, rest: string, first: seq<(nat, nat)>, later: seq<(nat, nat)>)
    requires first == (if word == [] then [] else [(0, |word|)]) && !IsAlphanumeric(c)
    requires var s := word + [c] + rest;
             forall p :: |word| < p < |s| && IsAlphanumeric(s[p]) ==> InRun(later, p)
    ensures var s := word + [c] + rest;
            forall p :: 0 <= p < |s| && IsAlphanumeric(s[p]) ==> InRun(first + later, p)
  {
    hide IsAlphanumeric;
    var s := word + [c] + rest;
    forall p | 0 <= p < |s| && IsAlphanumeric(s[p]) ensures InRun(first + later, p) {
      if p < |word| {
        assert (first + later)[0] == (0, |word|);
      } else {
        assert s[|word|] == c;
        var k :| 0 <= k < |later| && later[k].0 <= p < later[k].1;
        assert (first + later)[|first| + k] == later[k];
      }
    }
  }

  lemma FirstRun(word: string, c: char, rest: string)
    requires Solid(word) && !IsAlphanumeric(c)
    ensures word != [] ==> IsRun(word + [c] + rest, 0, |word|) && (word + [c] + rest)[0..|word|] == word
  {
  }

  function Shifted(runs: seq<(nat, nat)>, n: nat): seq<(nat, nat)> {
    seq(|runs|, k requires 0 <= k < |runs| => (runs[k].0 + n, runs[k].1 + n))
  }

  lemma ShiftedLength(runs: seq<(nat, nat)>, n: nat)
    ensures |Shifted(runs, n)| == |runs|
  {
  }

  lemma RunsShifted(word: string, c: char, rest: string, words: seq<string>, runs: seq<(nat, nat)>)
    requires !IsAlphanumeric(c) && RunsAt(rest, words, runs)
    ensures var s, later := word + [c] + rest, Shifted(runs, |word| + 1);
            && (forall k :: 0 <= k < |later| ==>
                  IsRun(s, later[k].0, later[k].1) && words[k] == s[later[k].0..later[k].1])
            && (forall k, l :: 0 <= k < l < |later| ==> later[k].1 < later[l].0)
            && (forall k :: 0 <= k < |later| ==> later[k].0 > |word|)
  {
    hide InRun, IsAlphanumeric;
    var s, later := word + [c] + rest, Shifted(runs, |word| + 1);
    forall k | 0 <= k < |later|
      ensures IsRun(s, later[k].0, later[k].1) && words[k] == s[later[k].0..later[k].1]
    {
      RunMoves(word, c, rest, runs[k].0, runs[k].1);
    }
  }

  lemma CoverShifted(word: string, c: char, rest: string, runs: seq<(nat, nat)>)
    requires forall p :: 0 <= p < |rest| && IsAlphanumeric(rest[p]) ==> InRun(runs, p)
    ensures var s, later := word + [c] + rest, Shifted(runs, |word| + 1);
            forall p :: |word| < p < |s| && IsAlphanumeric(s[p]) ==> InRun(later, p)
  {
    hide IsAlphanumeric;
    var n := |word| + 1;
    var s, later := word + [c] + rest, Shifted(runs, n);
    forall p | |word| < p < |s| && IsAlphanumeric(s[p]) ensures InRun(later, p) {
      assert s[p] == rest[p - n] && InRun(runs, p - n);
      var k :| 0 <= k < |runs| && runs[k].0 <= p - n < runs[k].1;
      assert later[k].0 <= p < later[k].1;
    }
  }

  lemma RunMoves(word: string, c: char, rest: string, i: nat, j: nat)
    requires !IsAlphanumeric(c) && IsRun(rest, i, j)
    ensures var n := |word| + 1;
            var s := word + [c] + rest;
            IsRun(s, i + n, j + n) && s[i + n..j + n] == rest[i..j]
  {
    var n := |word| + 1;
    var s := word + [c] + rest;
    assert forall k :: 0 <= k < |rest| ==> s[k + n] == rest[k];
    forall k | i + n <= k < j + n ensures IsAlphanumeric(s[k]) {
      assert s[k] == rest[k - n];
    }
  }

  /** The words of a text are its maximal alphanumeric runs, in order. */
  lemma WordsAreRuns(s: string) returns (runs: seq<(nat, nat)>)
    ensures RunsAt(s, Words(s), runs)
  {
    runs := WordsFromRuns([], s);
    assert [] + s == s;
  }

  predicate Spaceless(words: seq<string>) {
    forall k :: 0 <= k < |words| ==> words[k] != "" && ' ' !in words[k]
  }

  lemma WordsSpaceless(s: string)
    ensures Spaceless(Words(s))
  {
    hide WordsFrom;
    var runs := WordsAreRuns(s);
  }

  /** Words joined by spaces can be told apart again. */
  lemma {:induction false} JoinTells(a: seq<string>, b: seq<string>)
    requires Spaceless(a) && Spaceless(b) && Join(a, " ") == Join(b, " ")
    ensures a == b
    decreases |a|
  {
    JoinOpens(a);
    JoinOpens(b);
    if a != [] && b != [] {
      FirstWordSame(a, b);
      if |a| > 1 && |b| > 1 {
        var n := |a[0]| + 1;
        assert Join(a, " ")[n..] == Join(a[1..], " ") && Join(b, " ")[n..] == Join(b[1..], " ");
        JoinTells(a[1..], b[1..]);
      }
      assert a == [a[0]] + a[1..] && b == [b[0]] + b[1..];
    }
  }

  /** A joined text opens with its first word, and then ends or has a space. */
  lemma JoinOpens(a: seq<string>)
    requires Spaceless(a)
    ensures a == [] <==> Join(a, " ") == ""
    ensures a != [] ==>
              var whole, n := Join(a, " "), |a[0]|;
              n <= |whole| && whole[..n] == a[0] && (|whole| == n <==> |a| == 1) && (n < |whole| ==> whole[n] == ' ')
  {
  }

  lemma FirstWordSame(a: seq<string>, b: seq<string>)
    requires Spaceless(a) && Spaceless(b) && a != [] && b != [] && Join(a, " ") == Join(b, " ")
    ensures a[0] == b[0] && (|a| == 1 <==> |b| == 1)
  {
    hide Join;
    JoinOpens(a);
    JoinOpens(b);
    var whole := Join(a, " ");
    NoSpaceBefore(whole, a[0]);
    NoSpaceBefore(whole, b[0]);
  }

  /** No space stands in what a text opens with, when that has none. */
  lemma NoSpaceBefore(whole: string, word: string)
    requires word <= whole && ' ' !in word
    ensures forall n :: 0 <= n < |word| ==> whole[n] != ' '
  {
    assert forall n :: 0 <= n < |word| ==> whole[n] == word[n];
  }

  /** The same letter in either case. */
  predicate SameLetter(a: char, b: char) {
    (IsUpper(a) && IsLower(b) && a as int + 32 == b as int) || (IsLower(a) && IsUpper(b) && b as int + 32 == a as int)
  }

  /** Lowering forgets the case of letters and nothing else. */
  lemma LoweredTells(a: string, b: string)
    ensures Lowered(a) == Lowered(b)
            <==> |a| == |b| && forall i :: 0 <= i < |a| ==> a[i] == b[i] || SameLetter(a[i], b[i])
  {
    if Lowered(a) == Lowered(b) {
      assert |a| == |Lowered(a)| == |Lowered(b)| == |b|;
      forall i | 0 <= i < |a| ensures a[i] == b[i] || SameLetter(a[i], b[i]) {
        assert ToLower(a[i]) == Lowered(a)[i] == Lowered(b)[i] == ToLower(b[i]);
      }
    }
  }

  /** Two replies are the same answer exactly when they say the same words, whatever their case and whatever
      stands between. */
  lemma NormalizeTells(a: string, b: string)
    ensures Normalize(a) == Normalize(b) <==> Words(Lowered(a)) == Words(Lowered(b))
  {
    hide Words, Lowered, Join;
    WordsSpaceless(Lowered(a));
    WordsSpaceless(Lowered(b));
    if Normalize(a) == Normalize(b) { JoinTells(Words(Lowered(a)), Words(Lowered(b))); }
  }

  lemma SliceOfSlice(s: string, from: nat, to: nat, i: nat, j: nat)
    requires from <= to <= |s| && i <= j <= to - from
    ensures s[from..to][i..j] == s[from + i..from + j]
  {
    var piece, whole := s[from..to][i..j], s[from + i..from + j];
    assert |piece| == |whole|;
    forall k | 0 <= k < |piece| ensures piece[k] == whole[k] {
      assert piece[k] == s[from..to][i + k] == s[from + (i + k)];
    }
  }
}
