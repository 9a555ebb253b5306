/** The publisher and the follower of cli/watch.rs as the code they are: an object that changes a shared
    store, and a loop that reads one queue of it from its first record. */
module Publishing {
  import opened Wrappers
  import opened Follow

  /** One session's documents and logs: the latest run's queue, and what each queue
      holds; a removed log is no longer there, until something is appended to it again. */
  class Store {
    var current: Option<nat>
    var logs: map<nat, seq<Record>>
    /** Every queue whose log was ever removed. */
    ghost var removed: set<nat>

    constructor ()
      ensures current == None && logs == map[] && removed == {}
    {
      current, logs, removed := None, map[], {};
    }
  }

  class Publisher {
    const store: Store
    const queue: nat
    var failed: bool
    /** Every record it was given to publish, and every one it appended. */
    ghost var offered: seq<Record>
    ghost var published: seq<Record>

    /** What was appended is the start of what there was to publish, and its log holds the end of that:
        all of it, unless the log was removed. */
    ghost predicate Valid()
      reads this, store
    {
      && published <= offered && (!failed ==> published == offered)
      && EndOf(Log(store.logs, queue), published)
      && (queue !in store.removed ==> Log(store.logs, queue) == published)
    }

    /** `start`: the session is this run's before the previous run's log goes, and only that log does. */
    constructor Start(store: Store, queue: nat)
      requires queue !in store.logs && queue !in store.removed && store.current != Some(queue)
      modifies store
      ensures Valid() && fresh(this) && this.store == store && this.queue == queue && offered == [] && !failed
      ensures store.current == Some(queue)
      ensures store.logs == if old(store.current).None? then old(store.logs)
                            else old(store.logs) - {old(store.current.value)}
      ensures store.removed == if old(store.current).None? then old(store.removed)
                               else old(store.removed) + {old(store.current.value)}
    {
      this.store, this.queue, failed, offered, published := store, queue, false, [], [];
      new;
      var previous := store.current;
      store.current := Some(queue);
      if previous.Some? && previous.value != queue {
        store.logs := store.logs - {previous.value};
        store.removed := store.removed + {previous.value};
      }
    }

    /** `publish`: nothing is appended after the first append that failed. `appended` is whether the
        transport takes the record. */
    method Publish(record: Record, appended: bool)
      requires Valid()
      modifies this, store`logs
      ensures Valid() && offered == old(offered) + [record]
      ensures failed == (old(failed) || !appended)
      ensures store.logs == if failed then old(store.logs)
                            else old(store.logs)[queue := Log(old(store.logs), queue) + [record]]
      ensures published == if failed then old(published) else old(published) + [record]
    {
      offered := offered + [record];
      if failed {
        return;
      }
      if !appended {
        failed := true;
        return;
      }
      EndGrows(Log(store.logs, queue), published, record);
      store.logs := store.logs[queue := Log(store.logs, queue) + [record]];
      published := published + [record];
    }

    /** A later run's start leaves this one valid: all it may take is this run's log. */
    twostate lemma StaysValid()
      requires old(Valid()) && unchanged(this)
      requires store.logs == old(store.logs) || exists q :: store.logs == old(store.logs) - {q} && q in store.removed
      requires old(store.removed) <= store.removed
      ensures Valid()
    {
    }
  }

  predicate EndOf(part: seq<Record>, whole: seq<Record>) {
    |part| <= |whole| && part == whole[|whole| - |part|..]
  }

  lemma EndGrows(part: seq<Record>, whole: seq<Record>, record: Record)
    requires EndOf(part, whole)
    ensures EndOf(part + [record], whole + [record])
  {
  }

  function Log(logs: map<nat, seq<Record>>, queue: nat): seq<Record> {
    if queue in logs then logs[queue] else []
  }

  /** What a follower finds at each look: the session's run, and what a queue holds past a position. */
  datatype Transport = Transport(
    current: nat -> Option<nat>,
    read: (nat, nat, nat) -> Option<seq<Record>>)

  /** A read returns the records that follow a position, in the order they were published; at most a
      batch of them, and none when there are none yet. */
  ghost predicate InOrder(t: Transport, published: nat -> seq<Record>) {
    forall look: nat, queue: nat, position: nat :: t.read(look, queue, position).Some? ==>
      var batch := t.read(look, queue, position).value;
      |batch| <= READ_BATCH && position + |batch| <= |published(queue)|
      && batch == published(queue)[position..position + |batch|]
  }

  /** The run followed was the session's at some look, and what was handed on is the start of it. */
  ghost predicate Follows(t: Transport, published: nat -> seq<Record>, run: nat, handed: seq<Record>) {
    (exists look: nat :: t.current(look) == Some(run)) && handed <= published(run)
  }

  predicate AllGoOn(verdict: Record -> Verdict, handed: seq<Record>) {
    forall i :: 0 <= i < |handed| ==> verdict(handed[i]).GoOn?
  }

  /** How following ended, and why. */
  ghost predicate EndsWith(t: Transport, verdict: Record -> Verdict, run: nat, handed: seq<Record>, end: End) {
    match end
    case Code(code) =>
      handed != [] && AllGoOn(verdict, handed[..|handed| - 1]) && verdict(handed[|handed| - 1]) == Ends(code)
    case RecordError =>
      handed != [] && AllGoOn(verdict, handed[..|handed| - 1]) && verdict(handed[|handed| - 1]).Refuses?
    case Replaced =>
      && AllGoOn(verdict, handed)
      && exists look: nat :: Stops(t, run, handed, look) && Changed(t, run, look + 1)
    case BusError =>
      && AllGoOn(verdict, handed)
      && exists look: nat ::
           Stops(t, run, handed, look) && t.read(look, run, |handed|).None? && !Changed(t, run, look + 1)
  }

  /** Another run is the session's. */
  predicate Changed(t: Transport, run: nat, look: nat) {
    t.current(look).Some? && t.current(look).value != run
  }

  /** Nothing past what was handed on could be read. */
  predicate Stops(t: Transport, run: nat, handed: seq<Record>, look: nat) {
    var batch := t.read(look, run, |handed|);
    batch.None? || batch.value == []
  }

  /** One batch, record by record, until one ends the run. */
  method HandOn(batch: seq<Record>, verdict: Record -> Verdict, before: seq<Record>)
    returns (handed: seq<Record>, end: Option<End>)
    requires AllGoOn(verdict, before)
    ensures before <= handed <= before + batch
    ensures match end
            case None => handed == before + batch && AllGoOn(verdict, handed)
            case Some(Code(code)) =>
              handed != [] && AllGoOn(verdict, handed[..|handed| - 1]) && verdict(handed[|handed| - 1]) == Ends(code)
            case Some(RecordError) =>
              handed != [] && AllGoOn(verdict, handed[..|handed| - 1]) && verdict(handed[|handed| - 1]).Refuses?
            case Some(_) => false
  {
    handed := before;
    for i := 0 to |batch|
      invariant handed == before + batch[..i] && AllGoOn(verdict, handed)
    {
      ghost var most := handed;
      handed := handed + [batch[i]];
      assert handed[..|handed| - 1] == most;
      match verdict(batch[i])
      case Ends(code) => return handed, Some(Code(code));
      case Refuses => return handed, Some(RecordError);
      case GoOn =>
    }
    end := None;
  }

  /** `follow`. By look `bound` some run has started, and past it the transport reads no more. */
  method FollowRun(t: Transport, verdict: Record -> Verdict, ghost published: nat -> seq<Record>, ghost bound: nat)
    returns (end: End, handed: seq<Record>, run: nat)
    requires InOrder(t, published)
    requires t.current(bound).Some?
    requires forall look: nat, queue: nat, position: nat :: look >= bound ==> t.read(look, queue, position).None?
    ensures Follows(t, published, run, handed) && EndsWith(t, verdict, run, handed, end)
  {
    var look := 0;
    while t.current(look).None?
      invariant look <= bound
      decreases bound - look
    {
      look := look + 1;
    }
    run := t.current(look).value;
    handed := [];
    while true
      invariant Follows(t, published, run, handed) && AllGoOn(verdict, handed)
      decreases if look <= bound then bound + 1 - look else 0
    {
      var batch := t.read(look, run, |handed|);
      look := look + 1;
      if batch.None? {
        end := if t.current(look).Some? && t.current(look).value != run then Replaced else BusError;
        assert Stops(t, run, handed, look - 1);
        return;
      }
      if batch.value != [] {
        var more, ended := HandOn(batch.value, verdict, handed);
        HandsOnMore(t, published, look - 1, run, handed, more);
        handed := more;
        if ended.Some? {
          end := ended.value;
          return;
        }
      } else if t.current(look).Some? && t.current(look).value != run {
        end := Replaced;
        assert Stops(t, run, handed, look - 1);
        return;
      }
    }
  }

  lemma HandsOnMore(t: Transport, published: nat -> seq<Record>, look: nat, run: nat, handed: seq<Record>,
                    more: seq<Record>)
    requires InOrder(t, published) && Follows(t, published, run, handed)
    requires t.read(look, run, |handed|).Some?
    requires handed <= more <= handed + t.read(look, run, |handed|).value
    ensures Follows(t, published, run, more)
  {
    var batch := t.read(look, run, |handed|).value;
    var n := |more| - |handed|;
    assert more == handed + batch[..n];
    assert handed + published(run)[|handed|..|handed| + n] == published(run)[..|handed| + n];
  }
}
