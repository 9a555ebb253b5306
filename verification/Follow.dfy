/** Runs publishing under one session name and a watch following one of them (cli/watch.rs), as a
    small-step machine. A run is named by its place in `runs`, so names are unique as queues are. */
module Follow {
  import opened Wrappers

  const READ_BATCH: nat := 256

  type Record = string

  /** How far a publisher's start has come: the previous run's queue read, the session's document
      written, and that queue's log removed. */
  datatype Start = Unnamed | Named(previous: Option<nat>) | Written(previous: Option<nat>) | Started

  /** `offered` is every record the run had to publish, `published` every one appended, `log` what can be
      read of them, and `drops` how many had been published at each removal of its log. */
  datatype Run = Run(start: Start, offered: seq<Record>, published: seq<Record>, log: seq<Record>, drops: seq<nat>,
                     failed: bool)

  predicate Removed(run: Run) { run.drops != [] }

  /** How many records are gone from before the log as it stands. */
  function Base(run: Run): nat { if run.drops == [] then 0 else run.drops[|run.drops| - 1] }

  datatype End = Code(code: int) | Replaced | BusError | RecordError

  datatype Follower =
    | Seeking
    | Reading(run: nat)
    | Handing(run: nat, batch: seq<Record>, from: nat)
    | Checking(run: nat, failed: bool)
    | Ended(run: nat, end: End)

  /** `places` is where in its run's records each record handed on stands. */
  datatype State = State(runs: seq<Run>, current: Option<nat>, follower: Follower, handed: seq<Record>,
                         places: seq<nat>)

  /** What the follower's caller makes of a record. */
  datatype Verdict = GoOn | Ends(code: int) | Refuses

  /** The caller, and whether the transport makes a removed log anew when it is appended to. */
  datatype Config = Config(verdict: Record -> Verdict, recreates: bool)

  datatype Action =
    | Begin
    | Name(run: nat)
    | Write(run: nat)
    | Clean(run: nat)
    | Publish(run: nat, record: Record, appended: bool)
    | See
    | Read
    | ReadFails
    | Hand
    | Check

  function Init(): State { State([], None, Seeking, [], []) }

  function NewRun(): Run { Run(Unnamed, [], [], [], [], false) }

  function Dropped(run: Run): Run { run.(log := [], drops := run.drops + [|run.published|]) }

  /** `Publisher::start`, in its steps. */
  function StartStep(s: State, a: Action): Option<State> {
    match a
    case Begin => Some(s.(runs := s.runs + [NewRun()]))
    case Name(r) =>
      if r < |s.runs| && s.runs[r].start.Unnamed?
      then Some(s.(runs := s.runs[r := s.runs[r].(start := Named(s.current))])) else None
    case Write(r) =>
      if r < |s.runs| && s.runs[r].start.Named?
      then Some(s.(current := Some(r), runs := s.runs[r := s.runs[r].(start := Written(s.runs[r].start.previous))]))
      else None
    case Clean(r) =>
      if r < |s.runs| && s.runs[r].start.Written? then
        var runs := s.runs[r := s.runs[r].(start := Started)];
        match s.runs[r].start.previous
        case Some(p) =>
          if p < |runs| && p != r then Some(s.(runs := runs[p := Dropped(runs[p])]))
          else Some(s.(runs := runs))
        case None => Some(s.(runs := runs))
      else None
    case _ => None
  }

  /** `publish`: nothing after the first append that failed. */
  function Published(c: Config, run: Run, record: Record, appended: bool): Run {
    var offered := run.offered + [record];
    if run.failed || !appended then run.(offered := offered, failed := true)
    else run.(offered := offered, published := run.published + [record],
              log := if Removed(run) && !c.recreates then run.log else run.log + [record])
  }

  /** What can be read of a queue after the records already handed on. */
  function Batch(log: seq<Record>, position: nat): seq<Record> {
    if position >= |log| then []
    else if |log| - position <= READ_BATCH then log[position..] else log[position..position + READ_BATCH]
  }

  function FollowStep(c: Config, s: State, a: Action): Option<State> {
    var f := s.follower;
    match a
    case See => if f.Seeking? && s.current.Some? then Some(s.(follower := Reading(s.current.value))) else None
    case Read =>
      if f.Reading? && f.run < |s.runs| then
        var batch := Batch(s.runs[f.run].log, |s.handed|);
        Some(s.(follower := if batch == [] then Checking(f.run, false)
                            else Handing(f.run, batch, Base(s.runs[f.run]) + |s.handed|)))
      else None
    case ReadFails => if f.Reading? then Some(s.(follower := Checking(f.run, true))) else None
    case Hand =>
      if f.Handing? && f.batch != [] then
        Some(s.(handed := s.handed + [f.batch[0]], places := s.places + [f.from],
                follower := match c.verdict(f.batch[0])
                            case Ends(code) => Ended(f.run, Code(code))
                            case Refuses => Ended(f.run, RecordError)
                            case GoOn =>
                              if |f.batch| == 1 then Reading(f.run) else Handing(f.run, f.batch[1..], f.from + 1)))
      else None
    case Check =>
      if f.Checking? then
        Some(s.(follower := if s.current.Some? && s.current.value != f.run then Ended(f.run, Replaced)
                            else if f.failed then Ended(f.run, BusError) else Reading(f.run)))
      else None
    case _ => None
  }

  function Next(c: Config, s: State, a: Action): Option<State> {
    if a.Begin? || a.Name? || a.Write? || a.Clean? then StartStep(s, a)
    else if a.Publish? then
      if a.run < |s.runs| && s.runs[a.run].start.Started?
      then Some(s.(runs := s.runs[a.run := Published(c, s.runs[a.run], a.record, a.appended)])) else None
    else FollowStep(c, s, a)
  }

  function Execute(c: Config, actions: seq<Action>): Option<State>
    decreases |actions|
  {
    if actions == [] then Some(Init())
    else
      var before := Execute(c, actions[..|actions| - 1]);
      if before.None? then None else Next(c, before.value, actions[|actions| - 1])
  }

  // ---------------------------------------------------------------- runs replace one another for good

  predicate HasWritten(s: State, r: nat) {
    r < |s.runs| && (s.runs[r].start.Written? || s.runs[r].start.Started?)
  }

  /** A run whose document was overwritten is never the session's run again. */
  predicate Superseded(s: State, r: nat) {
    HasWritten(s, r) && s.current.Some? && s.current.value != r
  }

  predicate Successions(s: State) {
    && (s.current.Some? ==> HasWritten(s, s.current.value))
    && (forall r :: 0 <= r < |s.runs| && s.runs[r].start.Named? && s.runs[r].start.previous.Some? ==>
          HasWritten(s, s.runs[r].start.previous.value))
    && (forall r :: 0 <= r < |s.runs| && s.runs[r].start.Written? && s.runs[r].start.previous.Some? ==>
          Superseded(s, s.runs[r].start.previous.value))
    && (forall r :: 0 <= r < |s.runs| && Removed(s.runs[r]) ==> Superseded(s, r))
  }

  predicate LogFits(c: Config, run: Run) {
    && run.published <= run.offered
    && (!run.failed ==> run.published == run.offered)
    && (forall i, j :: 0 <= i < j < |run.drops| ==> run.drops[i] <= run.drops[j])
    && (forall i :: 0 <= i < |run.drops| ==> run.drops[i] <= |run.published|)
    && (Removed(run) && !c.recreates ==> run.log == [])
    && (!Removed(run) || c.recreates ==> run.log == run.published[Base(run)..])
  }

  /** Whether nothing can have gone missing from the log a follower reads. */
  predicate Whole(c: Config, run: Run) { !Removed(run) || !c.recreates }

  /** The record at `place` was published after a removal that dropped records before it. */
  predicate AfterLoss(run: Run, place: nat) {
    exists i :: 0 <= i < |run.drops| && 0 < run.drops[i] <= place
  }

  /** The `k`-th record handed on stands at `place`: no earlier than `k`, and later exactly when a removal
      had dropped records before it. */
  predicate PlaceFits(c: Config, run: Run, k: nat, place: nat) {
    && k <= place < |run.published| && place <= Base(run) + k
    && (place == k <==> !AfterLoss(run, place))
    && (!c.recreates ==> place == k)
  }

  predicate Increasing(places: seq<nat>) {
    forall i, j :: 0 <= i < j < |places| ==> places[i] < places[j]
  }

  predicate PlacesFit(c: Config, run: Run, handed: seq<Record>, places: seq<nat>) {
    && |places| == |handed| && Increasing(places)
    && forall k :: 0 <= k < |places| ==> PlaceFits(c, run, k, places[k]) && handed[k] == run.published[places[k]]
  }

  /** Some record before one handed on is not. */
  predicate Skips(places: seq<nat>) {
    exists k :: 0 <= k < |places| && places[k] != k
  }

  /** Everything handed on, and about to be, are records of one run, each where it is said to stand. */
  predicate FollowFits(c: Config, s: State) {
    match s.follower
    case Seeking => s.handed == [] && s.places == []
    case Handing(r, batch, from) =>
      && HasWritten(s, r)
      && PlacesFit(c, s.runs[r], s.handed + batch, s.places + Row(from, |batch|))
    case _ => HasWritten(s, s.follower.run) && PlacesFit(c, s.runs[s.follower.run], s.handed, s.places)
  }

  /** `n` places in a row. */
  function Row(from: nat, n: nat): (row: seq<nat>)
    ensures |row| == n && forall i :: 0 <= i < n ==> row[i] == from + i
  {
    seq(n, i requires 0 <= i < n => from + i)
  }

  /** Every record handed on but the last said to go on; the last says how following ended. */
  predicate VerdictsFit(c: Config, s: State) {
    var n := |s.handed|;
    && (forall i :: 0 <= i < n - 1 ==> c.verdict(s.handed[i]).GoOn?)
    && match s.follower
       case Ended(_, Code(code)) => n > 0 && c.verdict(s.handed[n - 1]) == Ends(code)
       case Ended(_, RecordError) => n > 0 && c.verdict(s.handed[n - 1]).Refuses?
       case Ended(r, Replaced) => Superseded(s, r) && (n > 0 ==> c.verdict(s.handed[n - 1]).GoOn?)
       case _ => n > 0 ==> c.verdict(s.handed[n - 1]).GoOn?
  }

  predicate Inv(c: Config, s: State) {
    && Successions(s)
    && (forall r :: 0 <= r < |s.runs| ==> LogFits(c, s.runs[r]))
    && FollowFits(c, s)
    && VerdictsFit(c, s)
  }

  // ---------------------------------------------------------------- what every step keeps

  /** Steps that leave every start, every removal and the session's run alone. */
  lemma SameStarts(s: State, t: State)
    requires Successions(s) && |t.runs| == |s.runs| && t.current == s.current
    requires forall r :: 0 <= r < |s.runs| ==>
               t.runs[r].start == s.runs[r].start && t.runs[r].drops == s.runs[r].drops
    ensures Successions(t)
    ensures forall r :: Superseded(s, r) ==> Superseded(t, r)
    ensures forall r :: HasWritten(s, r) ==> HasWritten(t, r)
  {
  }

  lemma BeginSucceeds(s: State)
    requires Successions(s)
    ensures Successions(s.(runs := s.runs + [NewRun()]))
  {
    var t := s.(runs := s.runs + [NewRun()]);
    forall r | Superseded(s, r) ensures Superseded(t, r) {}
    forall r | HasWritten(s, r) ensures HasWritten(t, r) {}
  }

  lemma NameSucceeds(s: State, r: nat)
    requires Successions(s) && StartStep(s, Name(r)).Some?
    ensures Successions(StartStep(s, Name(r)).value)
  {
    var t := StartStep(s, Name(r)).value;
    forall p | Superseded(s, p) ensures Superseded(t, p) {}
    forall p | HasWritten(s, p) ensures HasWritten(t, p) {}
  }

  lemma WriteSucceeds(s: State, r: nat)
    requires Successions(s) && StartStep(s, Write(r)).Some?
    ensures Successions(StartStep(s, Write(r)).value)
  {
    var t := StartStep(s, Write(r)).value;
    forall p | HasWritten(s, p) ensures Superseded(t, p) {}
  }

  lemma CleanSucceeds(s: State, r: nat)
    requires Successions(s) && StartStep(s, Clean(r)).Some?
    ensures Successions(StartStep(s, Clean(r)).value)
  {
    var t := StartStep(s, Clean(r)).value;
    forall p | Superseded(s, p) ensures Superseded(t, p) {}
    forall p | HasWritten(s, p) ensures HasWritten(t, p) {}
  }

  lemma StartSuccession(s: State, a: Action)
    requires Successions(s) && StartStep(s, a).Some?
    ensures Successions(StartStep(s, a).value)
  {
    hide Successions;
    match a
    case Begin => BeginSucceeds(s);
    case Name(r) => NameSucceeds(s, r);
    case Write(r) => WriteSucceeds(s, r);
    case Clean(r) => CleanSucceeds(s, r);
    case _ =>
  }

  /** What has been written stays written, and what is superseded stays so. */
  lemma StartsLast(s: State, a: Action)
    requires StartStep(s, a).Some?
    ensures forall r :: HasWritten(s, r) ==> HasWritten(StartStep(s, a).value, r)
    ensures forall r :: Superseded(s, r) ==> Superseded(StartStep(s, a).value, r)
  {
  }

  /** A run later on: more published, or its log removed once more. */
  predicate Later(before: Run, after: Run) {
    && before.published <= after.published
    && (after.drops == before.drops
        || (after.published == before.published && after.drops == before.drops + [|before.published|]))
  }

  lemma PlaceStays(c: Config, before: Run, after: Run, k: nat, place: nat)
    requires LogFits(c, before) && Later(before, after) && PlaceFits(c, before, k, place)
    ensures place < |before.published| <= |after.published|
    ensures PlaceFits(c, after, k, place) && after.published[place] == before.published[place]
  {
    forall i | 0 <= i < |before.drops| ensures after.drops[i] == before.drops[i] {}
  }

  lemma PlacesStay(c: Config, before: Run, after: Run, handed: seq<Record>, places: seq<nat>)
    requires LogFits(c, before) && Later(before, after) && PlacesFit(c, before, handed, places)
    ensures PlacesFit(c, after, handed, places)
  {
    hide LogFits, Later, PlaceFits;
    forall k | 0 <= k < |places|
      ensures PlaceFits(c, after, k, places[k])
      ensures places[k] < |after.published| && handed[k] == after.published[places[k]]
    {
      PlaceStays(c, before, after, k, places[k]);
    }
  }

  /** A follower's records stay where they stand while its run goes on. */
  lemma FollowStays(c: Config, s: State, t: State)
    requires FollowFits(c, s) && t.follower == s.follower && t.handed == s.handed && t.places == s.places
    requires |s.runs| <= |t.runs|
    requires forall r :: 0 <= r < |s.runs| ==> LogFits(c, s.runs[r]) && Later(s.runs[r], t.runs[r])
    requires forall r :: HasWritten(s, r) ==> HasWritten(t, r)
    ensures FollowFits(c, t)
  {
    hide LogFits, Later, PlacesFit;
    match s.follower
    case Seeking =>
    case Handing(r, batch, from) =>
      PlacesStay(c, s.runs[r], t.runs[r], s.handed + batch, s.places + Row(from, |batch|));
    case _ => PlacesStay(c, s.runs[s.follower.run], t.runs[s.follower.run], s.handed, s.places);
  }

  lemma DropFits(c: Config, run: Run)
    requires LogFits(c, run)
    ensures LogFits(c, Dropped(run)) && Later(run, Dropped(run))
  {
  }

  lemma StartFits(c: Config, run: Run, start: Start)
    requires LogFits(c, run)
    ensures LogFits(c, run.(start := start)) && Later(run, run.(start := start))
  {
  }

  /** Every run's records are as they were, or one log was removed. */
  predicate LogsLater(c: Config, before: seq<Run>, after: seq<Run>) {
    && |before| <= |after|
    && (forall r :: 0 <= r < |after| ==> LogFits(c, after[r]))
    && (forall r :: 0 <= r < |before| ==> Later(before[r], after[r]))
  }

  lemma CleanLogs(c: Config, s: State, r: nat)
    requires StartStep(s, Clean(r)).Some? && forall r :: 0 <= r < |s.runs| ==> LogFits(c, s.runs[r])
    ensures LogsLater(c, s.runs, StartStep(s, Clean(r)).value.runs)
  {
    hide LogFits, Later, Dropped;
    var after := StartStep(s, Clean(r)).value.runs;
    forall q | 0 <= q < |s.runs| ensures LogFits(c, after[q]) && Later(s.runs[q], after[q]) {
      StartFits(c, s.runs[q], Started);
      StartFits(c, s.runs[q], s.runs[q].start);
      DropFits(c, s.runs[q]);
    }
  }

  /** What a start leaves of every run's records. */
  lemma StartLogs(c: Config, s: State, a: Action)
    requires StartStep(s, a).Some? && forall r :: 0 <= r < |s.runs| ==> LogFits(c, s.runs[r])
    ensures var t := StartStep(s, a).value;
            && LogsLater(c, s.runs, t.runs)
            && t.follower == s.follower && t.handed == s.handed && t.places == s.places
  {
    if a.Clean? {
      hide LogFits, Later, Dropped, LogsLater;
      CleanLogs(c, s, a.run);
    } else {
      hide LogFits, Later;
      NewFits(c);
      forall q | 0 <= q < |s.runs|
        ensures LogFits(c, StartStep(s, a).value.runs[q]) && Later(s.runs[q], StartStep(s, a).value.runs[q])
      {
        StartFits(c, s.runs[q], StartStep(s, a).value.runs[q].start);
      }
    }
  }

  lemma NewFits(c: Config)
    ensures LogFits(c, NewRun())
  {
  }

  lemma StartKeeps(c: Config, s: State, a: Action)
    requires Inv(c, s) && StartStep(s, a).Some?
    ensures Inv(c, StartStep(s, a).value)
  {
    hide Successions, Superseded, LogFits, Later, StartStep, FollowFits;
    StartSuccession(s, a);
    StartsLast(s, a);
    StartLogs(c, s, a);
    FollowStays(c, s, StartStep(s, a).value);
  }

  lemma PublishLogs(c: Config, run: Run, record: Record, appended: bool)
    requires LogFits(c, run)
    ensures LogFits(c, Published(c, run, record, appended)) && Later(run, Published(c, run, record, appended))
    ensures Published(c, run, record, appended).start == run.start
    ensures Published(c, run, record, appended).drops == run.drops
  {
  }

  lemma PublishKeeps(c: Config, s: State, r: nat, record: Record, appended: bool)
    requires Inv(c, s) && r < |s.runs| && s.runs[r].start.Started?
    ensures Inv(c, s.(runs := s.runs[r := Published(c, s.runs[r], record, appended)]))
  {
    hide Successions, Published, Superseded, LogFits, FollowFits;
    var t := s.(runs := s.runs[r := Published(c, s.runs[r], record, appended)]);
    PublishLogs(c, s.runs[r], record, appended);
    SameStarts(s, t);
    FollowStays(c, s, t);
  }

  lemma BatchIs(log: seq<Record>, position: nat)
    ensures var batch := Batch(log, position);
            batch != [] ==> position + |batch| <= |log| && batch == log[position..position + |batch|]
  {
  }

  /** Where the `i`-th record of a batch stands. */
  lemma BatchPlaces(c: Config, run: Run, n: nat, i: nat)
    requires LogFits(c, run) && n + i < |run.log|
    ensures PlaceFits(c, run, n + i, Base(run) + n + i) && run.log[n + i] == run.published[Base(run) + n + i]
  {
  }

  lemma BatchFits(c: Config, run: Run, handed: seq<Record>, places: seq<nat>)
    requires LogFits(c, run) && PlacesFit(c, run, handed, places) && Batch(run.log, |handed|) != []
    ensures var batch := Batch(run.log, |handed|);
            PlacesFit(c, run, handed + batch, places + Row(Base(run) + |handed|, |batch|))
  {
    hide LogFits, Batch;
    var n, batch, from := |handed|, Batch(run.log, |handed|), Base(run) + |handed|;
    BatchIs(run.log, n);
    var all, more := handed + batch, places + Row(from, |batch|);
    forall k | 0 <= k < |more| ensures PlaceFits(c, run, k, more[k]) && all[k] == run.published[more[k]] {
      if k >= n { BatchPlaces(c, run, n, k - n); }
    }
  }

  lemma ReadKeeps(c: Config, s: State)
    requires Inv(c, s) && FollowStep(c, s, Read).Some?
    ensures Inv(c, FollowStep(c, s, Read).value)
  {
    hide Successions, Batch, PlacesFit, LogFits;
    var run := s.runs[s.follower.run];
    if Batch(run.log, |s.handed|) != [] { BatchFits(c, run, s.handed, s.places); }
    SameStarts(s, FollowStep(c, s, Read).value);
  }

  lemma RowOn(from: nat, n: nat)
    requires n > 0
    ensures Row(from, n) == [from] + Row(from + 1, n - 1)
  {
  }

  lemma PrefixFits(c: Config, run: Run, handed: seq<Record>, places: seq<nat>, n: nat)
    requires PlacesFit(c, run, handed, places) && n <= |handed|
    ensures PlacesFit(c, run, handed[..n], places[..n])
  {
    hide PlaceFits;
  }

  lemma HandKeeps(c: Config, s: State)
    requires Inv(c, s) && FollowStep(c, s, Hand).Some?
    ensures Inv(c, FollowStep(c, s, Hand).value)
  {
    hide Successions, LogFits, PlacesFit;
    var f := s.follower;
    var all, places := s.handed + f.batch, s.places + Row(f.from, |f.batch|);
    var t := FollowStep(c, s, Hand).value;
    RowOn(f.from, |f.batch|);
    PlacesAsMany(c, s.runs[f.run], s.handed, f.batch, s.places, Row(f.from, |f.batch|));
    HandedOn(c, s.runs[f.run], s.handed, s.places, f.batch, f.from);
    assert t.handed[..|s.handed|] == s.handed;
    SameStarts(s, t);
  }

  lemma HandedOn(c: Config, run: Run, handed: seq<Record>, places: seq<nat>, batch: seq<Record>, from: nat)
    requires batch != [] && PlacesFit(c, run, handed + batch, places + Row(from, |batch|))
    requires |places| == |handed|
    ensures PlacesFit(c, run, handed + [batch[0]], places + [from])
    ensures PlacesFit(c, run, handed + [batch[0]] + batch[1..], places + [from] + Row(from + 1, |batch| - 1))
  {
    hide PlacesFit;
    RowOn(from, |batch|);
    var all, more := handed + batch, places + Row(from, |batch|);
    PrefixFits(c, run, all, more, |handed| + 1);
    assert all[..|handed| + 1] == handed + [batch[0]] && more[..|handed| + 1] == places + [from];
    assert handed + [batch[0]] + batch[1..] == all && places + [from] + Row(from + 1, |batch| - 1) == more;
  }

  lemma OtherKeeps(c: Config, s: State, a: Action)
    requires Inv(c, s) && (a.See? || a.ReadFails? || a.Check?) && FollowStep(c, s, a).Some?
    ensures Inv(c, FollowStep(c, s, a).value)
  {
    hide LogFits, PlacesFit;
    if a.See? { NothingPlaced(c, s.runs[s.current.value]); }
  }

  lemma NothingPlaced(c: Config, run: Run)
    ensures PlacesFit(c, run, [], [])
  {
  }

  lemma NextKeeps(c: Config, s: State, a: Action)
    requires Inv(c, s) && Next(c, s, a).Some?
    ensures Inv(c, Next(c, s, a).value)
  {
    hide Inv, StartStep, FollowStep, Published;
    if a.Begin? || a.Name? || a.Write? || a.Clean? {
      StartKeeps(c, s, a);
    } else if a.Publish? {
      PublishKeeps(c, s, a.run, a.record, a.appended);
    } else {
      FollowKeeps(c, s, a);
    }
  }

  lemma FollowKeeps(c: Config, s: State, a: Action)
    requires Inv(c, s) && FollowStep(c, s, a).Some?
    ensures Inv(c, FollowStep(c, s, a).value)
  {
    hide Inv;
    match a
    case Read => ReadKeeps(c, s);
    case Hand => HandKeeps(c, s);
    case See => OtherKeeps(c, s, a);
    case ReadFails => OtherKeeps(c, s, a);
    case Check => OtherKeeps(c, s, a);
    case _ =>
  }

  lemma {:induction false} RunKeeps(c: Config, actions: seq<Action>)
    requires Execute(c, actions).Some?
    ensures Inv(c, Execute(c, actions).value)
    decreases |actions|
  {
    if actions != [] {
      var most := actions[..|actions| - 1];
      RunKeeps(c, most);
      NextKeeps(c, Execute(c, most).value, actions[|actions| - 1]);
    }
  }

  // ---------------------------------------------------------------- what a follower may rely on

  /** In every interleaving of publishers and a follower, over any transport: what is handed on are
      records of one run in the order it published them, none twice; and none is skipped unless, and
      only unless, one handed on was published after a removal that dropped records before it. */
  lemma HandsOnOneRun(c: Config, actions: seq<Action>)
    requires Execute(c, actions).Some?
    ensures var s := Execute(c, actions).value;
            s.follower.Seeking? ==> s.handed == []
    ensures var s := Execute(c, actions).value;
            !s.follower.Seeking? ==>
              s.follower.run < |s.runs| && HandsOnRun(c, s.runs[s.follower.run], s.handed, s.places)
  {
    hide Inv;
    RunKeeps(c, actions);
    HandsOn(c, Execute(c, actions).value);
  }

  ghost predicate HandsOnRun(c: Config, run: Run, handed: seq<Record>, places: seq<nat>) {
    && |places| == |handed| && Increasing(places)
    && (forall k :: 0 <= k < |places| ==> places[k] < |run.published| && handed[k] == run.published[places[k]])
    && run.published <= run.offered
    && (Gap(places) <==> exists k :: 0 <= k < |places| && AfterLoss(run, places[k]))
    && (!Gap(places) ==> handed <= run.offered)
    && (Whole(c, run) ==> !Gap(places))
  }

  /** A record before one handed on was not. */
  ghost predicate Gap(places: seq<nat>) {
    exists missed: nat, k :: 0 <= k < |places| && missed < places[k] && missed !in places
  }

  /** Places in order leave no gap exactly when each is its own number. */
  lemma GapIs(places: seq<nat>)
    requires Increasing(places)
    ensures Gap(places) <==> Skips(places)
  {
    if Skips(places) {
      FirstSkip(places, 0);
    }
    if !Skips(places) {
      forall missed: nat, k | 0 <= k < |places| && missed < places[k] ensures missed in places {
        assert places[k] == k && places[missed] == missed;
      }
    }
  }

  lemma FirstSkip(places: seq<nat>, n: nat)
    requires Increasing(places) && Skips(places)
    requires n <= |places| && forall k :: 0 <= k < n ==> places[k] == k
    ensures Gap(places)
    decreases |places| - n
  {
    var k :| 0 <= k < |places| && places[k] != k;
    if places[n] == n {
      FirstSkip(places, n + 1);
    } else {
      assert n > 0 ==> places[n - 1] == n - 1;
      assert n < places[n] && n !in places;
    }
  }

  lemma HandsOn(c: Config, s: State)
    requires Inv(c, s)
    ensures s.follower.Seeking? ==> s.handed == []
    ensures !s.follower.Seeking? ==>
              s.follower.run < |s.runs| && HandsOnRun(c, s.runs[s.follower.run], s.handed, s.places)
  {
    hide Successions, HandsOnRun, PlacesFit, LogFits;
    if !s.follower.Seeking? {
      var run := s.runs[s.follower.run];
      if s.follower.Handing? {
        var f := s.follower;
        PrefixFits(c, run, s.handed + f.batch, s.places + Row(f.from, |f.batch|), |s.handed|);
        PlacesAsMany(c, run, s.handed, f.batch, s.places, Row(f.from, |f.batch|));
      }
      PlacesHandOn(c, run, s.handed, s.places);
    }
  }

  lemma PlacesAsMany(c: Config, run: Run, handed: seq<Record>, batch: seq<Record>, places: seq<nat>, row: seq<nat>)
    requires PlacesFit(c, run, handed + batch, places + row) && |batch| == |row|
    ensures |places| == |handed|
    ensures (handed + batch)[..|handed|] == handed && (places + row)[..|places|] == places
  {
  }

  lemma PlacesHandOn(c: Config, run: Run, handed: seq<Record>, places: seq<nat>)
    requires LogFits(c, run) && PlacesFit(c, run, handed, places)
    ensures HandsOnRun(c, run, handed, places)
  {
    hide Gap, Skips;
    GapIs(places);
    SkipsIs(c, run, handed, places);
  }

  lemma SkipsIs(c: Config, run: Run, handed: seq<Record>, places: seq<nat>)
    requires LogFits(c, run) && PlacesFit(c, run, handed, places)
    ensures Skips(places) <==> exists k :: 0 <= k < |places| && AfterLoss(run, places[k])
    ensures Whole(c, run) ==> !Skips(places)
    ensures !Skips(places) ==> handed <= run.offered
  {
    if !Skips(places) {
      forall k | 0 <= k < |handed| ensures k < |run.offered| && handed[k] == run.offered[k] {
        assert places[k] == k && PlaceFits(c, run, k, places[k]);
      }
      if handed != [] { assert PlaceFits(c, run, |handed| - 1, places[|handed| - 1]); }
    }
  }

  /** A code comes only from the first record that ended the run; a run is reported replaced only when
      it was, for good. */
  lemma EndsAsItShould(c: Config, actions: seq<Action>)
    requires Execute(c, actions).Some? && Execute(c, actions).value.follower.Ended?
    ensures var s := Execute(c, actions).value;
            var n := |s.handed|;
            && (forall i :: 0 <= i < n - 1 ==> c.verdict(s.handed[i]).GoOn?)
            && (s.follower.end.Code? ==> n > 0 && c.verdict(s.handed[n - 1]) == Ends(s.follower.end.code))
            && (s.follower.end.Replaced? ==>
                  Superseded(s, s.follower.run) && forall i :: 0 <= i < n ==> c.verdict(s.handed[i]).GoOn?)
  {
    hide Inv;
    RunKeeps(c, actions);
    EndsSo(c, Execute(c, actions).value);
  }

  lemma EndsSo(c: Config, s: State)
    requires Inv(c, s) && s.follower.Ended?
    ensures var n := |s.handed|;
            && (forall i :: 0 <= i < n - 1 ==> c.verdict(s.handed[i]).GoOn?)
            && (s.follower.end.Code? ==> n > 0 && c.verdict(s.handed[n - 1]) == Ends(s.follower.end.code))
            && (s.follower.end.Replaced? ==>
                  Superseded(s, s.follower.run) && forall i :: 0 <= i < n ==> c.verdict(s.handed[i]).GoOn?)
  {
    hide Successions, LogFits, FollowFits;
  }

  /** The run followed never changes. */
  lemma FollowsOneRun(c: Config, s: State, a: Action)
    requires Next(c, s, a).Some? && !s.follower.Seeking?
    ensures var t := Next(c, s, a).value;
            !t.follower.Seeking? && t.follower.run == s.follower.run && s.handed <= t.handed
  {
  }

  /** A log is removed only once its run has been replaced for good. */
  lemma RemovedIsReplaced(c: Config, actions: seq<Action>, r: nat)
    requires Execute(c, actions).Some? && r < |Execute(c, actions).value.runs|
    ensures Removed(Execute(c, actions).value.runs[r]) ==> Superseded(Execute(c, actions).value, r)
  {
    RunKeeps(c, actions);
  }

  // ---------------------------------------------------------------- a transport that makes a log anew

  ghost predicate Reachable(c: Config, s: State) {
    exists actions :: Execute(c, actions) == Some(s)
  }

  lemma After(c: Config, s: State, a: Action, t: State)
    requires Reachable(c, s) && Next(c, s, a).Some?
    requires var u := Next(c, s, a).value;
             && u.runs == t.runs && u.current == t.current && u.follower == t.follower
             && u.handed == t.handed && u.places == t.places
    ensures Reachable(c, t)
  {
    var actions :| Execute(c, actions) == Some(s);
    assert (actions + [a])[..|actions|] == actions;
    assert Execute(c, actions + [a]) == Next(c, s, a);
  }

  function GoesOn(record: Record): Verdict { GoOn }

  const RECREATES := Config(GoesOn, true)

  /** A run in the course of its start. */
  function Starting(start: Start): Run { NewRun().(start := start) }

  const FIRST := Run(Started, ["a"], ["a"], ["a"], [], false)

  /** The first run, being followed, and the second. */
  function Both(first: Run, second: Start, current: nat, follower: Follower, handed: seq<Record>,
                places: seq<nat>): State
  {
    State([first, Starting(second)], Some(current), follower, handed, places)
  }

  /** Only the first run, while nothing has been handed on. */
  function Alone(first: Run, current: Option<nat>, follower: Follower): State {
    State([first], current, follower, [], [])
  }

  lemma FirstStarts()
    ensures Reachable(RECREATES, Alone(Starting(Started), Some(0), Seeking))
  {
    hide Execute;
    assert Execute(RECREATES, []) == Some(Init()) by { Empty(RECREATES); }
    After(RECREATES, Init(), Begin, Alone(NewRun(), None, Seeking));
    After(RECREATES, Alone(NewRun(), None, Seeking), Name(0), Alone(Starting(Named(None)), None, Seeking));
    After(RECREATES, Alone(Starting(Named(None)), None, Seeking), Write(0),
          Alone(Starting(Written(None)), Some(0), Seeking));
    After(RECREATES, Alone(Starting(Written(None)), Some(0), Seeking), Clean(0),
          Alone(Starting(Started), Some(0), Seeking));
  }

  lemma FirstPublishes()
    ensures Reachable(RECREATES, Alone(FIRST, Some(0), Reading(0)))
  {
    hide Execute;
    FirstStarts();
    var none: seq<Record> := [];
    assert none + ["a"] == ["a"];
    After(RECREATES, Alone(Starting(Started), Some(0), Seeking), Publish(0, "a", true),
          Alone(FIRST, Some(0), Seeking));
    After(RECREATES, Alone(FIRST, Some(0), Seeking), See, Alone(FIRST, Some(0), Reading(0)));
  }

  lemma Empty(c: Config)
    ensures Execute(c, []) == Some(Init())
  {
  }

  lemma SecondReplaces()
    ensures Reachable(RECREATES, Both(Dropped(FIRST), Started, 1, Reading(0), [], []))
  {
    hide Execute;
    FirstPublishes();
    After(RECREATES, Alone(FIRST, Some(0), Reading(0)), Begin, Both(FIRST, Unnamed, 0, Reading(0), [], []));
    After(RECREATES, Both(FIRST, Unnamed, 0, Reading(0), [], []), Name(1),
          Both(FIRST, Named(Some(0)), 0, Reading(0), [], []));
    After(RECREATES, Both(FIRST, Named(Some(0)), 0, Reading(0), [], []), Write(1),
          Both(FIRST, Written(Some(0)), 1, Reading(0), [], []));
    After(RECREATES, Both(FIRST, Written(Some(0)), 1, Reading(0), [], []), Clean(1),
          Both(Dropped(FIRST), Started, 1, Reading(0), [], []));
  }

  /** The first run is replaced and its log removed, publishes once more, and its follower reads on from
      the start of the log made anew: what it hands on has a gap before it. */
  lemma GapAfterRemoval() returns (s: State)
    ensures Reachable(RECREATES, s) && s.follower == Reading(0) && |s.runs| == 2
    ensures s.handed == ["b"] && s.runs[0].offered == s.runs[0].published == ["a", "b"] && Gap(s.places)
  {
    hide Execute;
    SecondReplaces();
    var gone := Dropped(FIRST);
    var again := Run(Started, ["a", "b"], ["a", "b"], ["b"], [1], false);
    var none: seq<Record> := [];
    var noDrops: seq<nat> := [];
    assert ["a"] + ["b"] == ["a", "b"] && none + ["b"] == ["b"] && noDrops + [1] == [1];
    After(RECREATES, Both(gone, Started, 1, Reading(0), [], []), Publish(0, "b", true),
          Both(again, Started, 1, Reading(0), [], []));
    assert Batch(again.log, 0) == ["b"];
    After(RECREATES, Both(again, Started, 1, Reading(0), [], []), Read,
          Both(again, Started, 1, Handing(0, ["b"], 1), [], []));
    s := Both(again, Started, 1, Reading(0), ["b"], [1]);
    assert 0 < s.places[0] && 0 !in s.places;
    After(RECREATES, Both(again, Started, 1, Handing(0, ["b"], 1), [], []), Hand, s);
  }
}
