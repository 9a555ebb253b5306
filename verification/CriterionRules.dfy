/** What may be bound as an acceptance criterion (note.rs): the scanners of its refusal rules, and
    the text shapes each of them finds. */
module CriterionRules {
  import opened Wrappers
  import opened Text

  // ---------------------------------------------------------------- phrases

  /** `phrase` stands in `words` at `at`. */
  predicate StandsAt(words: seq<string>, at: nat, phrase: seq<string>) {
    at + |phrase| <= |words| && words[at..at + |phrase|] == phrase
  }

  ghost predicate Says(words: seq<string>, phrase: seq<string>) {
    exists at :: 0 <= at <= |words| && StandsAt(words, at, phrase)
  }

  function FirstFrom(words: seq<string>, at: nat, phrase: seq<string>): Option<nat>
    decreases |words| - at
  {
    if at + |phrase| > |words| then None
    else if StandsAt(words, at, phrase) then Some(at)
    else FirstFrom(words, at + 1, phrase)
  }

  /** `sequence_at`, as where the phrase first stands. */
  function SequenceAt(words: seq<string>, phrase: seq<string>): Option<nat>
    requires phrase != []
  {
    FirstFrom(words, 0, phrase)
  }

  lemma {:induction false} FirstIs(words: seq<string>, at: nat, phrase: seq<string>)
    ensures match FirstFrom(words, at, phrase)
            case Some(k) => k >= at && StandsAt(words, k, phrase)
                            && forall i :: at <= i < k ==> !StandsAt(words, i, phrase)
            case None => forall i :: i >= at ==> !StandsAt(words, i, phrase)
    decreases |words| - at
  {
    if at + |phrase| <= |words| && !StandsAt(words, at, phrase) {
      FirstIs(words, at + 1, phrase);
    }
  }

  lemma SequenceFinds(words: seq<string>, phrase: seq<string>)
    requires phrase != []
    ensures SequenceAt(words, phrase).Some? <==> Says(words, phrase)
  {
    FirstIs(words, 0, phrase);
  }

  const WORDING_ABOVE: seq<string> := ["the", "wording", "above"]

  const DEFERRAL_LEAD: seq<seq<string>> := [
    ["of", "the", "shape"], ["as"], ["exactly", "as"], ["in", "the", "form"], ["matching", "the", "wording"],
    ["per", "the"]]

  const DEFERRAL_TAIL: seq<seq<string>> := [
    ["described"], ["specified"], ["stated"], ["set", "out"], ["given"], ["above"], ["below"]]

  /** A lead-in stands at `at`, and right after it the word it defers with. */
  predicate DefersAt(words: seq<string>, at: nat, lead: seq<string>, tail: seq<string>) {
    StandsAt(words, at, lead) && StandsAt(words, at + |lead|, tail)
  }

  ghost predicate Defers(words: seq<string>) {
    || Says(words, WORDING_ABOVE)
    || exists at, lead, tail ::
         0 <= at <= |words| && lead in DEFERRAL_LEAD && tail in DEFERRAL_TAIL && DefersAt(words, at, lead, tail)
  }

  /** What a deferral names: its lead-in and the word it defers with. */
  method Tail(words: seq<string>, from: nat) returns (found: Option<seq<string>>)
    ensures match found
            case Some(tail) => tail in DEFERRAL_TAIL && StandsAt(words, from, tail)
            case None => forall tail :: tail in DEFERRAL_TAIL ==> !StandsAt(words, from, tail)
  {
    for i := 0 to |DEFERRAL_TAIL|
      invariant forall j :: 0 <= j < i ==> !StandsAt(words, from, DEFERRAL_TAIL[j])
    {
      if StandsAt(words, from, DEFERRAL_TAIL[i]) {
        return Some(DEFERRAL_TAIL[i]);
      }
    }
    found := None;
  }

  method Lead(words: seq<string>, lead: seq<string>) returns (found: Option<seq<string>>)
    ensures match found
            case Some(tail) =>
              exists at :: 0 <= at <= |words| && tail in DEFERRAL_TAIL && DefersAt(words, at, lead, tail)
            case None =>
              forall at, tail :: 0 <= at < |words| && tail in DEFERRAL_TAIL ==> !DefersAt(words, at, lead, tail)
  {
    for start := 0 to |words|
      invariant forall at, tail :: 0 <= at < start && tail in DEFERRAL_TAIL ==> !DefersAt(words, at, lead, tail)
    {
      if StandsAt(words, start, lead) {
        var tail := Tail(words, start + |lead|);
        if tail.Some? {
          assert DefersAt(words, start, lead, tail.value);
          return tail;
        }
      }
    }
    found := None;
  }

  lemma NoPhraseIsEmpty()
    ensures forall lead :: lead in DEFERRAL_LEAD ==> lead != []
    ensures forall tail :: tail in DEFERRAL_TAIL ==> tail != []
  {
  }

  /** `deferral` */
  method Deferral(words: seq<string>) returns (found: Option<seq<string>>)
    ensures found.Some? <==> Defers(words)
    ensures found.Some? ==> Says(words, found.value)
  {
    SequenceFinds(words, WORDING_ABOVE);
    if SequenceAt(words, WORDING_ABOVE).Some? {
      return Some(WORDING_ABOVE);
    }
    NoPhraseIsEmpty();
    for i := 0 to |DEFERRAL_LEAD|
      invariant forall j, at, tail :: 0 <= j < i && 0 <= at < |words| && tail in DEFERRAL_TAIL ==>
                  !DefersAt(words, at, DEFERRAL_LEAD[j], tail)
    {
      var tail := Lead(words, DEFERRAL_LEAD[i]);
      if tail.Some? {
        Together(words, DEFERRAL_LEAD[i], tail.value);
        return Some(DEFERRAL_LEAD[i] + tail.value);
      }
    }
    found := None;
  }

  lemma Together(words: seq<string>, lead: seq<string>, tail: seq<string>)
    requires exists at :: 0 <= at <= |words| && DefersAt(words, at, lead, tail)
    ensures Says(words, lead + tail)
  {
    var at :| 0 <= at <= |words| && DefersAt(words, at, lead, tail);
    var all := lead + tail;
    assert words[at..at + |all|] == words[at..at + |lead|] + words[at + |lead|..at + |lead| + |tail|];
    assert StandsAt(words, at, all);
  }

  // ---------------------------------------------------------------- versions

  predicate Digits(chars: string, from: nat, to: nat) {
    from < to <= |chars| && forall i :: from <= i < to ==> IsDigit(chars[i])
  }

  /** `n` digit runs from `from` to `to`, dots between them. */
  ghost predicate Dots(chars: string, from: nat, n: nat, to: nat)
    decreases n
  {
    if n <= 1 then n == 1 && Digits(chars, from, to)
    else exists mid: nat :: from < mid < to && Digits(chars, from, mid) && mid < |chars| && chars[mid] == '.'
                       && Dots(chars, mid + 1, n - 1, to)
  }

  function DigitsEnd(chars: string, at: nat): (end: nat)
    requires at <= |chars|
    ensures at <= end <= |chars| && (end < |chars| ==> !IsDigit(chars[end]))
    ensures forall i :: at <= i < end ==> IsDigit(chars[i])
    decreases |chars| - at
  {
    if at < |chars| && IsDigit(chars[at]) then DigitsEnd(chars, at + 1) else at
  }

  function DottedEnd(chars: string, at: nat, n: nat): (end: Option<nat>)
    requires at <= |chars| && n > 0
    ensures end.Some? ==> at < end.value <= |chars|
    decreases n
  {
    var run := DigitsEnd(chars, at);
    if run == at then None
    else if n == 1 then Some(run)
    else if run < |chars| && chars[run] == '.' then DottedEnd(chars, run + 1, n - 1)
    else None
  }

  /** The greedy scan finds dotted runs exactly when there are some, and then the longest. */
  lemma {:induction false} DottedFinds(chars: string, at: nat, n: nat)
    requires at <= |chars| && n > 0
    ensures DottedEnd(chars, at, n).Some? ==> Dots(chars, at, n, DottedEnd(chars, at, n).value)
    ensures forall to: nat :: Dots(chars, at, n, to) ==>
              DottedEnd(chars, at, n).Some? && to <= DottedEnd(chars, at, n).value
    decreases n
  {
    var run := DigitsEnd(chars, at);
    if n > 1 && run < |chars| && chars[run] == '.' {
      DottedFinds(chars, run + 1, n - 1);
    }
    forall to: nat | Dots(chars, at, n, to)
      ensures DottedEnd(chars, at, n).Some? && to <= DottedEnd(chars, at, n).value
    {
      if n > 1 {
        var mid: nat :| at < mid < to && Digits(chars, at, mid) && mid < |chars| && chars[mid] == '.'
                   && Dots(chars, mid + 1, n - 1, to);
        assert mid == run;
      }
    }
  }

  /** `dotted` */
  method Dotted(chars: string, from: nat, components: nat) returns (end: Option<nat>)
    requires from <= |chars| && components > 0
    ensures end == DottedEnd(chars, from, components)
  {
    var at: nat := from;
    for index := 0 to components
      invariant at <= |chars|
      invariant index == 0 ==> at == from
      invariant index > 0 ==>
                  DottedEnd(chars, from, components)
                  == (if index == components then Some(at)
                      else if at < |chars| && chars[at] == '.' then DottedEnd(chars, at + 1, components - index)
                      else None)
    {
      if index > 0 {
        if at == |chars| || chars[at] != '.' {
          return None;
        }
        at := at + 1;
      }
      var digits := at;
      while digits < |chars| && IsDigit(chars[digits])
        invariant at <= digits <= |chars| && DigitsEnd(chars, at) == DigitsEnd(chars, digits)
      {
        digits := digits + 1;
      }
      if digits == at {
        return None;
      }
      at := digits;
    }
    end := Some(at);
  }

  predicate InSuffix(c: char) { IsAlphanumeric(c) || c == '.' || c == '-' }

  /** Nothing word-like stands right before `at`. */
  predicate IsBoundary(chars: string, at: nat)
    requires at <= |chars|
  {
    at == 0 || !(IsAlphanumeric(chars[at - 1]) || chars[at - 1] == '_')
  }

  /** A suffix from `at` ends at `end`: past a `-`, `+` or `.` and whatever of a prerelease or build follows
      it, or right there when none of the three stands there. */
  predicate SuffixEnds(chars: string, at: nat, end: nat) {
    && at <= end <= |chars|
    && (end > at <==> at < |chars| && chars[at] in {'-', '+', '.'})
    && (forall i :: at < i < end ==> InSuffix(chars[i]))
    && (at < end < |chars| ==> !InSuffix(chars[end]))
  }

  /** `suffix` */
  method Suffix(chars: string, at: nat) returns (end: nat)
    requires at <= |chars|
    ensures SuffixEnds(chars, at, end)
  {
    if at == |chars| || chars[at] !in {'-', '+', '.'} {
      return at;
    }
    end := at + 1;
    while end < |chars| && InSuffix(chars[end])
      invariant at < end <= |chars|
      invariant forall i :: at < i < end ==> InSuffix(chars[i])
    {
      end := end + 1;
    }
  }

  predicate IsComparator(c: char) { c in {'>', '<', '=', '~', '^', '!'} }

  /** `v` may precede a release number. */
  function PastV(chars: string, at: nat): (past: nat)
    requires at < |chars|
    ensures at <= past <= |chars|
  {
    if chars[at] == 'v' then at + 1 else at
  }

  function PastSpace(chars: string, at: nat): (past: nat)
    requires at <= |chars|
    ensures at <= past <= |chars| && (past < |chars| ==> !IsWhitespace(chars[past]))
    ensures forall i :: at <= i < past ==> IsWhitespace(chars[i])
    decreases |chars| - at
  {
    if at < |chars| && IsWhitespace(chars[at]) then PastSpace(chars, at + 1) else at
  }

  /** Past a comparator, an `=` that doubles it, and any space. */
  function PastComparator(chars: string, at: nat): (past: nat)
    requires at < |chars|
    ensures at < past <= |chars|
  {
    PastSpace(chars, if at + 1 < |chars| && chars[at + 1] == '=' then at + 2 else at + 1)
  }

  /** `<major>.<minor>.<patch>`, a `v` before it or not, where a token may start. */
  ghost predicate ReleaseAt(chars: string, at: nat)
    requires at < |chars|
  {
    IsBoundary(chars, at) && exists to: nat :: Dots(chars, PastV(chars, at), 3, to)
  }

  /** `v<major>.<minor>` and no dot after it, where a token may start. */
  ghost predicate ShortReleaseAt(chars: string, at: nat)
    requires at < |chars|
  {
    && IsBoundary(chars, at) && chars[at] == 'v'
    && exists to: nat :: Dots(chars, at + 1, 2, to) && (to < |chars| ==> !IsDigit(chars[to]) && chars[to] != '.')
  }

  /** A comparator against `<major>.<minor>`. */
  ghost predicate ComparedAt(chars: string, at: nat)
    requires at < |chars|
  {
    IsComparator(chars[at]) && exists to: nat :: Dots(chars, PastComparator(chars, at), 2, to)
  }

  ghost predicate VersionAt(chars: string, at: nat) {
    at < |chars| && (ReleaseAt(chars, at) || ShortReleaseAt(chars, at) || ComparedAt(chars, at))
  }

  /** `from` is past a comparator at `at`, the `=` that may double it and all space after that. */
  predicate PastIt(chars: string, at: nat, from: nat) {
    var next := if at + 1 < |chars| && chars[at + 1] == '=' then at + 2 else at + 1;
    && next <= from <= |chars| && (forall i :: next <= i < from ==> IsWhitespace(chars[i]))
    && (from < |chars| ==> !IsWhitespace(chars[from]))
  }

  /** There is one such place, and it is where the code looks. */
  lemma PastComparatorIs(chars: string, at: nat, from: nat)
    requires at < |chars|
    ensures PastIt(chars, at, from) <==> from == PastComparator(chars, at)
  {
  }

  lemma ReleaseScans(chars: string, at: nat)
    requires at < |chars|
    ensures ReleaseAt(chars, at) <==> IsBoundary(chars, at) && DottedEnd(chars, PastV(chars, at), 3).Some?
  {
    hide Dots, DottedEnd;
    DottedFinds(chars, PastV(chars, at), 3);
  }

  lemma ComparedScans(chars: string, at: nat)
    requires at < |chars|
    ensures ComparedAt(chars, at) <==> IsComparator(chars[at]) && DottedEnd(chars, PastComparator(chars, at), 2).Some?
  {
    hide Dots, DottedEnd;
    DottedFinds(chars, PastComparator(chars, at), 2);
  }

  lemma ShortReleaseScans(chars: string, at: nat)
    requires at < |chars| && IsBoundary(chars, at) && chars[at] == 'v'
    ensures ShortReleaseAt(chars, at) <==>
              var end := DottedEnd(chars, at + 1, 2);
              end.Some? && (end.value < |chars| ==> chars[end.value] != '.')
  {
    hide Dots, DottedEnd;
    DottedFinds(chars, at + 1, 2);
    DottedMaximal(chars, at + 1, 2);
    forall to: nat | Dots(chars, at + 1, 2, to) && (to < |chars| ==> !IsDigit(chars[to]) && chars[to] != '.')
      ensures DottedEnd(chars, at + 1, 2) == Some(to)
    {
      TwoRunsEnd(chars, at + 1, to, DottedEnd(chars, at + 1, 2).value);
    }
  }

  /** Two dotted runs from one place that no digit follows end at one place. */
  lemma TwoRunsEnd(chars: string, at: nat, a: nat, b: nat)
    requires Dots(chars, at, 2, a) && Dots(chars, at, 2, b)
    requires a < |chars| ==> !IsDigit(chars[a])
    requires b < |chars| ==> !IsDigit(chars[b])
    ensures a == b
  {
    var mid: nat :| at < mid < a && Digits(chars, at, mid) && mid < |chars| && chars[mid] == '.'
                    && Dots(chars, mid + 1, 1, a);
    var mid': nat :| at < mid' < b && Digits(chars, at, mid') && mid' < |chars| && chars[mid'] == '.'
                     && Dots(chars, mid' + 1, 1, b);
    assert mid == mid';
  }

  lemma {:induction false} DottedMaximal(chars: string, at: nat, n: nat)
    requires at <= |chars| && n > 0
    ensures var end := DottedEnd(chars, at, n); end.Some? && end.value < |chars| ==> !IsDigit(chars[end.value])
    decreases n
  {
    var run := DigitsEnd(chars, at);
    if n > 1 && run < |chars| && chars[run] == '.' { DottedMaximal(chars, run + 1, n - 1); }
  }

  /** The dotted runs from `from` reach to `to` and no farther. */
  ghost predicate Longest(chars: string, from: nat, n: nat, to: nat) {
    Dots(chars, from, n, to) && forall far: nat :: Dots(chars, from, n, far) ==> far <= to
  }

  lemma DottedLongest(chars: string, at: nat, n: nat)
    requires at <= |chars| && n > 0
    ensures DottedEnd(chars, at, n).Some? ==> Longest(chars, at, n, DottedEnd(chars, at, n).value)
  {
    hide Dots, DottedEnd;
    DottedFinds(chars, at, n);
  }

  /** The literal at `at` ends at `end`: with a release's suffix, or with the last of the dotted runs of the
      shape that stands there, a release before the shorter two. */
  ghost predicate LiteralEnds(chars: string, at: nat, end: nat)
    requires at < |chars|
  {
    if ReleaseAt(chars, at) then exists to: nat :: Longest(chars, PastV(chars, at), 3, to) && SuffixEnds(chars, to, end)
    else if ShortReleaseAt(chars, at) then Longest(chars, at + 1, 2, end)
    else ComparedAt(chars, at) && Longest(chars, PastComparator(chars, at), 2, end)
  }

  /** The literal that starts at `start`, if one does. */
  method VersionFrom(chars: string, start: nat) returns (end: Option<nat>)
    requires start < |chars|
    ensures end.Some? <==> VersionAt(chars, start)
    ensures end.Some? ==> start < end.value <= |chars| && LiteralEnds(chars, start, end.value)
  {
    hide ReleaseAt, ShortReleaseAt, ComparedAt, Dots, DottedEnd, PastComparator, Longest, SuffixEnds;
    ReleaseScans(chars, start);
    ComparedScans(chars, start);
    DottedLongest(chars, PastV(chars, start), 3);
    DottedLongest(chars, PastComparator(chars, start), 2);
    if IsBoundary(chars, start) {
      var release := Dotted(chars, PastV(chars, start), 3);
      if release.Some? {
        var past := Suffix(chars, release.value);
        SuffixGrows(chars, release.value, past);
        return Some(past);
      }
      if chars[start] == 'v' {
        ShortReleaseScans(chars, start);
        DottedLongest(chars, start + 1, 2);
        var short := Dotted(chars, start + 1, 2);
        if short.Some? && (short.value == |chars| || chars[short.value] != '.') {
          return short;
        }
      }
    }
    OnlyShort(chars, start);
    if IsComparator(chars[start]) {
      var compared := Dotted(chars, PastComparator(chars, start), 2);
      if compared.Some? {
        return compared;
      }
    }
    end := None;
  }

  lemma SuffixGrows(chars: string, at: nat, end: nat)
    requires SuffixEnds(chars, at, end)
    ensures at <= end <= |chars|
  {
  }

  lemma OnlyShort(chars: string, at: nat)
    requires at < |chars|
    ensures ShortReleaseAt(chars, at) ==> IsBoundary(chars, at) && chars[at] == 'v'
  {
  }

  /** `version_literal`, as where the first literal is. */
  method VersionLiteral(text: string) returns (found: Option<(nat, nat)>)
    ensures match found
            case Some((start, end)) =>
              && start < end <= |text| && VersionAt(text, start) && LiteralEnds(text, start, end)
              && forall s :: 0 <= s < start ==> !VersionAt(text, s)
            case None => forall s: nat :: !VersionAt(text, s)
  {
    hide VersionAt, LiteralEnds;
    NoVersionPast(text);
    for start := 0 to |text|
      invariant forall s :: 0 <= s < start ==> !VersionAt(text, s)
    {
      var end := VersionFrom(text, start);
      if end.Some? {
        return Some((start, end.value));
      }
    }
    found := None;
  }

  lemma NoVersionPast(text: string)
    ensures forall at: nat :: at >= |text| ==> !VersionAt(text, at)
  {
  }

  // ---------------------------------------------------------------- invocations

  const SHELL_BINARIES: seq<string> := ["npm", "pnpm", "nx", "cargo", "pytest", "git"]

  /** `binary` is spelled at `at`, as a word, with space after it. */
  predicate SpelledAt(text: string, at: nat, binary: string) {
    && at + |binary| < |text|
    && IsBoundary(text, at)
    && text[at..at + |binary|] == binary
    && IsWhitespace(text[at + |binary|])
  }

  predicate Plain(binary: string) {
    binary != "" && forall i :: 0 <= i < |binary| ==> binary[i] != '`'
  }

  /** `binary` is spelled anywhere past a backtick, be it one that opens a span or one that closes
      it. */
  ghost predicate Invokes(text: string, binary: string) {
    exists tick, at :: 0 <= tick < at < |text| && text[tick] == '`' && SpelledAt(text, at, binary)
  }

  /** The next backtick from `at`, or the end of the text. */
  function TickFrom(text: string, at: nat): (tick: nat)
    requires at <= |text|
    ensures at <= tick <= |text| && (tick < |text| ==> text[tick] == '`')
    ensures forall i :: at <= i < tick ==> text[i] != '`'
    decreases |text| - at
  {
    if at < |text| && text[at] != '`' then TickFrom(text, at + 1) else at
  }

  ghost predicate Spells(span: string, binary: string) {
    exists at :: 0 <= at < |span| && SpelledAt(span, at, binary)
  }

  /** Whether `binary` is spelled within what follows one backtick. */
  method SpelledIn(span: string, binary: string) returns (found: bool)
    ensures found <==> Spells(span, binary)
  {
    found := false;
    for at := 0 to |span|
      invariant !found ==> forall a :: 0 <= a < at ==> !SpelledAt(span, a, binary)
    {
      if SpelledAt(span, at, binary) {
        return true;
      }
    }
  }

  /** What is spelled within a span is spelled within the text, past the span's backtick. */
  lemma SpanSpells(text: string, tick: nat, end: nat, binary: string)
    requires tick < end <= |text| && text[tick] == '`'
    requires Spells(text[tick + 1..end], binary)
    ensures Invokes(text, binary)
  {
    var span := text[tick + 1..end];
    var at :| 0 <= at < |span| && SpelledAt(span, at, binary);
    var there := tick + 1 + at;
    SliceOfSlice(text, tick + 1, end, at, at + |binary|);
    assert SpelledAt(text, there, binary);
  }

  function LastTick(text: string, before: nat): (tick: nat)
    requires before <= |text| && exists t :: 0 <= t < before && text[t] == '`'
    ensures tick < before && text[tick] == '`' && forall i :: tick < i < before ==> text[i] != '`'
  {
    if text[before - 1] == '`' then before - 1 else LastTick(text, before - 1)
  }

  /** What is spelled past any backtick is spelled in the span of the last one before it. */
  lemma SpelledInSpan(text: string, at: nat, binary: string) returns (tick: nat)
    requires Plain(binary) && SpelledAt(text, at, binary) && exists t :: 0 <= t < at && text[t] == '`'
    ensures tick < at && text[tick] == '`'
    ensures Spells(text[tick + 1..TickFrom(text, tick + 1)], binary)
  {
    tick := LastTick(text, at);
    var end := TickFrom(text, tick + 1);
    forall i | tick < i <= at + |binary| ensures text[i] != '`' {
      if at <= i < at + |binary| { assert binary[i - at] == text[at..at + |binary|][i - at] == text[i]; }
    }
    assert at + |binary| < end;
    var span := text[tick + 1..end];
    var a := at - tick - 1;
    SliceOfSlice(text, tick + 1, end, a, a + |binary|);
    assert SpelledAt(span, a, binary);
  }

  /** `code_span_invocation` */
  method CodeSpanInvocation(text: string, binaries: seq<string>) returns (found: Option<string>)
    requires forall b :: b in binaries ==> Plain(b)
    ensures match found
            case Some(binary) => binary in binaries && Invokes(text, binary)
            case None => forall binary :: binary in binaries ==> !Invokes(text, binary)
  {
    hide Spells, Invokes;
    for start := 0 to |text|
      invariant forall tick, j :: 0 <= tick < start && 0 <= j < |binaries| ==> !InSpanOf(text, tick, binaries[j])
    {
      if text[start] == '`' {
        var end := TickFrom(text, start + 1);
        for i := 0 to |binaries|
          invariant forall j :: 0 <= j < i ==> !InSpanOf(text, start, binaries[j])
        {
          var spelled := SpelledIn(text[start + 1..end], binaries[i]);
          if spelled {
            SpanSpells(text, start, end, binaries[i]);
            return Some(binaries[i]);
          }
        }
      }
    }
    forall binary | binary in binaries ensures !Invokes(text, binary) {
      InvokesInSpan(text, binary);
    }
    found := None;
  }

  ghost predicate InSpanOf(text: string, tick: nat, binary: string) {
    tick < |text| && text[tick] == '`'
    && Spells(text[tick + 1..TickFrom(text, tick + 1)], binary)
  }

  lemma InvokesInSpan(text: string, binary: string)
    requires Plain(binary)
    ensures Invokes(text, binary) ==> exists tick :: 0 <= tick < |text| && InSpanOf(text, tick, binary)
  {
    if Invokes(text, binary) {
      var t, at :| 0 <= t < at < |text| && text[t] == '`' && SpelledAt(text, at, binary);
      var tick := SpelledInSpan(text, at, binary);
      assert InSpanOf(text, tick, binary);
    }
  }

  /** The rule in its own terms: a backtick, and then text with no backtick in it that has the
      binary spelled in it. */
  lemma InvokesIsOwnRule(text: string, binary: string)
    requires Plain(binary)
    ensures Invokes(text, binary) <==> exists tick :: 0 <= tick < |text| && InSpanOf(text, tick, binary)
  {
    hide Invokes, Spells;
    InvokesInSpan(text, binary);
    forall tick | 0 <= tick < |text| && InSpanOf(text, tick, binary) ensures Invokes(text, binary) {
      var end := TickFrom(text, tick + 1);
      SpanSpells(text, tick, end, binary);
    }
  }

  /** How many backticks stand before `at`. */
  function TicksBefore(text: string, at: nat): nat
    requires at <= |text|
  {
    if at == 0 then 0 else TicksBefore(text, at - 1) + if text[at - 1] == '`' then 1 else 0
  }

  lemma {:induction false} TicksPast(text: string, at: nat)
    requires at <= |text|
    ensures TicksBefore(text, at) > 0 <==> exists tick :: 0 <= tick < at && text[tick] == '`'
  {
    if at > 0 { TicksPast(text, at - 1); }
  }

  /** A word at `at` stands inside a code span: the last backtick before it opens one. */
  predicate InsideSpan(text: string, at: nat)
    requires at <= |text|
  {
    TicksBefore(text, at) % 2 == 1
  }

  /** `binary` is spelled inside a code span. */
  ghost predicate InvokesInside(text: string, binary: string) {
    exists at :: 0 <= at < |text| && SpelledAt(text, at, binary) && InsideSpan(text, at)
  }

  /** `binary` is spelled before any backtick, if at all. */
  ghost predicate OnlyBefore(text: string, binary: string) {
    forall at :: 0 <= at < |text| && SpelledAt(text, at, binary) ==> TicksBefore(text, at) == 0
  }

  lemma InvokesWhere(text: string, binary: string)
    ensures Invokes(text, binary) <==> !OnlyBefore(text, binary)
    ensures InvokesInside(text, binary) ==> Invokes(text, binary)
  {
    hide SpelledAt, TicksBefore;
    forall at | 0 <= at < |text| && SpelledAt(text, at, binary) && TicksBefore(text, at) > 0
      ensures Invokes(text, binary)
    {
      TicksPast(text, at);
      var tick :| 0 <= tick < at && text[tick] == '`';
    }
    if Invokes(text, binary) {
      var tick, at :| 0 <= tick < at < |text| && text[tick] == '`' && SpelledAt(text, at, binary);
      TicksPast(text, at);
    }
  }

  /** The refusal is the span rule's exactly on the texts in which some binary is spelled inside a code span,
      or none past a backtick: it is too much on those, and only those, whose binaries past a backtick all
      stand between spans. */
  lemma SpanRule(text: string, binaries: seq<string>)
    ensures ((exists b :: b in binaries && Invokes(text, b)) <==> (exists b :: b in binaries && InvokesInside(text, b)))
            <==> (exists b :: b in binaries && InvokesInside(text, b))
                 || (forall b :: b in binaries ==> OnlyBefore(text, b))
    ensures (exists b :: b in binaries && InvokesInside(text, b)) ==> exists b :: b in binaries && Invokes(text, b)
  {
    hide Invokes, InvokesInside, OnlyBefore;
    forall b | b in binaries
      ensures Invokes(text, b) <==> !OnlyBefore(text, b)
      ensures InvokesInside(text, b) ==> Invokes(text, b)
    {
      InvokesWhere(text, b);
    }
  }

  const BETWEEN := "`x` just do it `y`"

  /** A word between two spans, and inside none: refused all the same. */
  lemma BetweenSpans()
    ensures Invokes(BETWEEN, "just") && !InvokesInside(BETWEEN, "just")
  {
    assert BETWEEN[4..8] == "just";
    assert SpelledAt(BETWEEN, 4, "just");
    assert BETWEEN[0] == '`';
    assert TicksBefore(BETWEEN, 1) == 1 && TicksBefore(BETWEEN, 2) == 1 && TicksBefore(BETWEEN, 3) == 2;
    forall at | 0 <= at < |BETWEEN| && SpelledAt(BETWEEN, at, "just") ensures at == 4 {
      assert BETWEEN[at..at + 4][0] == BETWEEN[at] == 'j';
    }
  }

  // ---------------------------------------------------------------- the rules together

  const OUT_OF_DISPATCH: seq<string> := [
    "branch publishes", "is published", "pr is merged", "pull request is merged", "lands on master", "lands on main",
    "deploy"]

  const PHRASE: seq<seq<string>> := [
    ["verbatim"], ["word", "for", "word"], ["the", "exact", "phrase"], ["the", "exact", "wording"],
    ["the", "exact", "words"]]

  predicate HasAt(text: string, at: nat, part: string) {
    at + |part| <= |text| && text[at..at + |part|] == part
  }

  predicate Contains(text: string, part: string) {
    exists i :: 0 <= i <= |text| && HasAt(text, i, part)
  }

  datatype Refusal =
    | NothingSaid
    | OutsideDispatch(phrase: string)
    | DefersContent(found: seq<string>)
    | DemandsString(found: seq<string>)
    | NamesVersion(version: string)
    | NamesInvocation(binary: string)
    | ChainsCommands

  /** The text states a property: none of the shapes a criterion may not have. */
  ghost predicate Acceptable(text: string) {
    && text != ""
    && (forall p :: p in OUT_OF_DISPATCH ==> !Contains(Lowered(text), p))
    && !Defers(Words(Lowered(text)))
    && (forall p :: p in PHRASE ==> !Says(Words(Lowered(text)), p))
    && (forall at: nat :: !VersionAt(text, at))
    && !Invokes(text, "just")
    && !Contains(text, "&&")
    && (forall b :: b in SHELL_BINARIES ==> !Invokes(text, b))
  }

  /** The first of `phrases` said, if any is. */
  method FirstSaid(words: seq<string>, phrases: seq<seq<string>>) returns (found: Option<seq<string>>)
    requires forall p :: p in phrases ==> p != []
    ensures match found
            case Some(p) => p in phrases && Says(words, p)
            case None => forall p :: p in phrases ==> !Says(words, p)
  {
    hide Says, FirstFrom;
    for i := 0 to |phrases|
      invariant forall j :: 0 <= j < i ==> !Says(words, phrases[j])
    {
      assert phrases[i] in phrases;
      SequenceFinds(words, phrases[i]);
      if SequenceAt(words, phrases[i]).Some? {
        return Some(phrases[i]);
      }
    }
    found := None;
  }

  method FirstContained(text: string, parts: seq<string>) returns (found: Option<string>)
    ensures match found
            case Some(p) => p in parts && Contains(text, p)
            case None => forall p :: p in parts ==> !Contains(text, p)
  {
    for i := 0 to |parts|
      invariant forall j :: 0 <= j < i ==> !Contains(text, parts[j])
    {
      if Contains(text, parts[i]) {
        return Some(parts[i]);
      }
    }
    found := None;
  }

  /** What a refusal names is there. */
  ghost predicate Warranted(text: string, why: Refusal) {
    match why
    case NothingSaid => text == ""
    case OutsideDispatch(phrase) => phrase in OUT_OF_DISPATCH && Contains(Lowered(text), phrase)
    case DefersContent(found) => Defers(Words(Lowered(text))) && Says(Words(Lowered(text)), found)
    case DemandsString(found) => found in PHRASE && Says(Words(Lowered(text)), found)
    case NamesVersion(found) =>
      exists at, end ::
        0 <= at < end <= |text| && VersionAt(text, at) && LiteralEnds(text, at, end) && text[at..end] == found
    case NamesInvocation(binary) => (binary == "just" || binary in SHELL_BINARIES) && Invokes(text, binary)
    case ChainsCommands => Contains(text, "&&")
  }

  lemma AllPlain()
    ensures Plain("just") && forall b :: b in SHELL_BINARIES ==> Plain(b)
    ensures forall p :: p in PHRASE ==> p != []
  {
  }

  /** The rules on words. */
  method WordRefusal(text: string) returns (why: Option<Refusal>)
    ensures match why
            case Some(w) => Warranted(text, w)
            case None =>
              && (forall p :: p in OUT_OF_DISPATCH ==> !Contains(Lowered(text), p))
              && !Defers(Words(Lowered(text)))
              && (forall p :: p in PHRASE ==> !Says(Words(Lowered(text)), p))
  {
    hide Contains, Says, Defers, Lowered, Words;
    AllPlain();
    var lowered := Lowered(text);
    var outside := FirstContained(lowered, OUT_OF_DISPATCH);
    if outside.Some? {
      return Some(OutsideDispatch(outside.value));
    }
    var words := Words(lowered);
    var deferred := Deferral(words);
    if deferred.Some? {
      return Some(DefersContent(deferred.value));
    }
    var said := FirstSaid(words, PHRASE);
    if said.Some? {
      return Some(DemandsString(said.value));
    }
    why := None;
  }

  /** The rules on spellings. */
  method SpellingRefusal(text: string) returns (why: Option<Refusal>)
    ensures match why
            case Some(w) => Warranted(text, w)
            case None =>
              && (forall at: nat :: !VersionAt(text, at))
              && !Invokes(text, "just") && !Contains(text, "&&")
              && (forall b :: b in SHELL_BINARIES ==> !Invokes(text, b))
  {
    hide Contains, VersionAt, Invokes, Plain;
    AllPlain();
    var version := VersionLiteral(text);
    if version.Some? {
      var (start, end) := version.value;
      return Some(NamesVersion(text[start..end]));
    }
    var just := CodeSpanInvocation(text, ["just"]);
    if just.Some? {
      return Some(NamesInvocation(just.value));
    }
    if Contains(text, "&&") {
      return Some(ChainsCommands);
    }
    var shell := CodeSpanInvocation(text, SHELL_BINARIES);
    if shell.Some? {
      return Some(NamesInvocation(shell.value));
    }
    assert "just" in ["just"];
    why := None;
  }

  /** `refusal` */
  method RefusalOf(text: string) returns (why: Option<Refusal>)
    ensures why.None? <==> Acceptable(text)
    ensures why.Some? ==> Warranted(text, why.value)
  {
    hide Contains, VersionAt, Invokes, Says, Defers, Lowered, Words;
    if text == "" {
      return Some(NothingSaid);
    }
    why := WordRefusal(text);
    if why.Some? {
      WarrantedRefuses(text, why.value);
      return;
    }
    why := SpellingRefusal(text);
    if why.Some? { WarrantedRefuses(text, why.value); }
  }

  lemma WarrantedRefuses(text: string, why: Refusal)
    requires Warranted(text, why)
    ensures !Acceptable(text)
  {
    hide Contains, VersionAt, Invokes, Says, Defers, Lowered, Words;
  }

  /** A criterion's text, as it was accepted. */
  datatype Criterion = Criterion(text: string)

  /** `TryFrom<String>` */
  method TryFrom(text: string) returns (accepted: Result<Criterion, Refusal>)
    ensures accepted.Ok? <==> Acceptable(Trimmed(text))
    ensures accepted.Ok? ==> accepted.value == Criterion(Trimmed(text))
    ensures accepted.Err? ==> Warranted(Trimmed(text), accepted.error)
  {
    hide Acceptable, Warranted, TrimEnd, TrimStart;
    var trimmed := Trimmed(text);
    var why := RefusalOf(trimmed);
    accepted := if why.Some? then Err(why.value) else Ok(Criterion(trimmed));
  }

  /** Whatever text a criterion came from, its own text gives it back. */
  method RoundTrip(text: string) returns (first: Result<Criterion, Refusal>, again: Result<Criterion, Refusal>)
    ensures first.Ok? ==> again == first
  {
    first := TryFrom(text);
    again := first;
    if first.Ok? {
      TrimmedTwice(text);
      again := TryFrom(first.value.text);
    }
  }
}
