/** The no-op streak: an incremental count kept beside the loop, and what it counts. */
module Noop {
  import opened Wrappers
  import opened Text
  import opened Transcripts

  const NOOP_SETTLE_LIMIT: nat := 2
  const NOOP_EXCHANGE_CHARS: nat := 240

  /** One successful worker call: what it was asked, what it said and did, and whether it said it
      was done. */
  datatype Exchange = Exchange(instruction: string, reply: string, events: seq<ToolEvent>, done: bool)

  predicate IsTiny(text: string) { |text| <= NOOP_EXCHANGE_CHARS }

  predicate Quiet(x: Exchange) {
    x.events == [] && IsTiny(x.instruction) && IsTiny(x.reply)
  }

  /** Both quiet, and the same answer twice. */
  predicate Repeats(a: Exchange, b: Exchange) {
    Quiet(a) && Quiet(b) && Normalize(a.reply) == Normalize(b.reply)
  }

  /** Two exchanges repeat exactly when neither did anything, all four messages are short, and both replies say the
      same words whatever their case and punctuation. */
  lemma RepeatsSameWords(a: Exchange, b: Exchange)
    ensures Repeats(a, b) <==>
              && a.events == [] && b.events == []
              && |a.instruction| <= 240 && |a.reply| <= 240 && |b.instruction| <= 240 && |b.reply| <= 240
              && Words(Lowered(a.reply)) == Words(Lowered(b.reply))
  {
    hide Normalize, Words, Lowered;
    NormalizeTells(a.reply, b.reply);
  }

  /** `n` is the length of the longest suffix of quiet exchanges that all give the last answer. */
  predicate IsStreak(xs: seq<Exchange>, n: nat) {
    && n <= |xs|
    && (forall i :: |xs| - n <= i < |xs| ==> Repeats(xs[i], xs[|xs| - 1]))
    && (n < |xs| ==> !Repeats(xs[|xs| - n - 1], xs[|xs| - 1]))
  }

  /** The loop has repeated itself: the last two exchanges are quiet and give the same answer. */
  predicate Settled(xs: seq<Exchange>) {
    |xs| >= 2 && Repeats(xs[|xs| - 2], xs[|xs| - 1])
  }

  /** At most one length is the longest. */
  lemma StreakUnique(xs: seq<Exchange>, m: nat, n: nat)
    requires IsStreak(xs, m) && IsStreak(xs, n)
    ensures m == n
  {
    var shorter := if m < n then m else n;
    if shorter < |xs| {
      assert !Repeats(xs[|xs| - shorter - 1], xs[|xs| - 1]);
    }
  }

  /** Reaching the limit is repeating once. */
  lemma StreakSettles(xs: seq<Exchange>, n: nat)
    requires IsStreak(xs, n)
    ensures n >= NOOP_SETTLE_LIMIT <==> Settled(xs)
  {
    if |xs| >= 2 && n < 2 {
      assert !Repeats(xs[|xs| - n - 1], xs[|xs| - 1]);
    }
  }

  /** The two ways one more quiet exchange moves the streak. */
  lemma StreakGrows(xs: seq<Exchange>, n: nat, x: Exchange)
    requires IsStreak(xs, n) && Quiet(x)
    ensures IsStreak(xs + [x],
                     if n > 0 && Normalize(xs[|xs| - 1].reply) == Normalize(x.reply) then n + 1 else 1)
  {
    var n' := if n > 0 && Normalize(xs[|xs| - 1].reply) == Normalize(x.reply) then n + 1 else 1;
    var ys := xs + [x];
    if n' <= |xs| {
      assert ys[|ys| - n' - 1] == xs[|ys| - n' - 1];
      if n == 0 { assert !Repeats(xs[|xs| - 1], xs[|xs| - 1]); }
    }
  }

  /** engine.rs `NoopStreak`; `exchanges` is everything it has been shown. */
  class NoopStreak {
    var repeated: Option<string>
    var count: nat
    ghost var exchanges: seq<Exchange>

    ghost predicate Valid()
      reads this
    {
      && IsStreak(exchanges, count)
      && (repeated.Some? <==> count > 0)
      && (count > 0 ==> repeated == Some(Normalize(exchanges[|exchanges| - 1].reply)))
    }

    constructor ()
      ensures Valid() && exchanges == []
    {
      repeated, count, exchanges := None, 0, [];
    }

    method Observe(x: Exchange) returns (settled: bool)
      requires Valid()
      modifies this
      ensures Valid() && exchanges == old(exchanges) + [x]
      ensures settled <==> Settled(exchanges)
    {
      ghost var before, length := exchanges, count;
      exchanges := exchanges + [x];
      var quiet := x.events == [] && IsTiny(x.instruction) && IsTiny(x.reply);
      if !quiet {
        repeated, count := None, 0;
        StreakSettles(exchanges, count);
        return false;
      }
      var normalized := Normalize(x.reply);
      if repeated == Some(normalized) {
        count := count + 1;
      } else {
        repeated, count := Some(normalized), 1;
      }
      StreakGrows(before, length, x);
      StreakSettles(exchanges, count);
      settled := count >= NOOP_SETTLE_LIMIT;
    }
  }
}
