/**
 What the classifier promises, for one broadcast and for a whole sequence
 of broadcasts delivered in order.
 */
module CallReceiverProperties {
  import opened Prefs
  import opened CallReceiverModel

  /** A RINGING broadcast without a caller number. */
  predicate EmptyRinging(intent: Intent) {
    intent.PhoneStateChanged? && intent.state.Ringing? && IsNullOrEmpty(intent.state.incomingNumber)
  }

  // ---------------------------------------------------------------------
  // One broadcast
  // ---------------------------------------------------------------------

  /** A foreign action, or any broadcast while blocking is disabled (IDLE included), changes nothing. */
  lemma IgnoredUnlessEnabledPhoneState(s: Snapshot, intent: Intent, now: Millis)
    requires WellTyped(s.entries)
    requires !intent.PhoneStateChanged? || !Enabled(s.entries)
    ensures Receive(s, intent, now) == (s, NoAction)
  {
  }

  /** A RINGING broadcast that carries a number marks the session and never blocks. */
  lemma NumberMarksSession(s: Snapshot, number: string, now: Millis)
    requires WellTyped(s.entries) && Enabled(s.entries) && number != ""
    ensures Receive(s, PhoneStateChanged(Ringing(Some(number))), now) == (s.(hasReceivedNumber := true), NoAction)
  {
  }

  /** A RINGING broadcast without a number counts one more empty signal (as a Kotlin `Int`). */
  lemma EmptyRingingCounts(s: Snapshot, intent: Intent, now: Millis)
    requires WellTyped(s.entries) && Enabled(s.entries) && EmptyRinging(intent)
    ensures Receive(s, intent, now).0.nullCount == Inc(s.nullCount)
    ensures Receive(s, intent, now).0.hasReceivedNumber == s.hasReceivedNumber
  {
  }

  /**
   A broadcast blocks exactly when it is an empty RINGING while enabled,
   the incremented count of empty signals is at least two, no number has
   been seen in the session, and the previous block is at least 3000 ms old.
   */
  lemma BlocksExactlyWhen(s: Snapshot, intent: Intent, now: Millis)
    requires WellTyped(s.entries)
    ensures Receive(s, intent, now).1 == Block <==>
      && intent.PhoneStateChanged? && Enabled(s.entries) && EmptyRinging(intent)
      && Inc(s.nullCount) >= 2 && !s.hasReceivedNumber
      && now - s.lastBlockedTime >= DEBOUNCE_MILLIS
  {
  }

  /** The first empty RINGING of a session never blocks. */
  lemma FirstEmptyRingingWaits(s: Snapshot, intent: Intent, now: Millis)
    requires WellTyped(s.entries) && s.nullCount == 0
    ensures Receive(s, intent, now).1 == NoAction
  {
  }

  /** A block stamps the time and adds one to the persisted counter, and touches no other entry. */
  lemma BlockCountsOnce(s: Snapshot, intent: Intent, now: Millis)
    requires WellTyped(s.entries)
    ensures var (t, d) := Receive(s, intent, now);
      if d == Block then
        && t.lastBlockedTime == now
        && BlockedCount(t.entries) == Inc(BlockedCount(s.entries))
        && t.entries == s.entries[BLOCKED_COUNT := IntValue(Inc(BlockedCount(s.entries)))]
      else
        t.lastBlockedTime == s.lastBlockedTime && t.entries == s.entries
  {
  }

  /** IDLE while enabled starts a new session and leaves the block time and the store alone. */
  lemma IdleResets(s: Snapshot, now: Millis)
    requires WellTyped(s.entries) && Enabled(s.entries)
    ensures var (t, d) := Receive(s, PhoneStateChanged(Idle), now);
      && d == NoAction && t.nullCount == 0 && !t.hasReceivedNumber
      && t.lastBlockedTime == s.lastBlockedTime && t.entries == s.entries
  {
  }

  /** A second IDLE in a row changes nothing. */
  lemma IdleIdempotent(s: Snapshot, now: Millis, later: Millis)
    requires WellTyped(s.entries)
    ensures var t := Receive(s, PhoneStateChanged(Idle), now).0;
      Receive(t, PhoneStateChanged(Idle), later) == (t, NoAction)
  {
  }

  /** OFFHOOK and any other phone state leave the classifier alone. */
  lemma OtherStateInert(s: Snapshot, now: Millis)
    requires WellTyped(s.entries)
    ensures Receive(s, PhoneStateChanged(OtherState), now) == (s, NoAction)
  {
  }

  // ---------------------------------------------------------------------
  // Sequences of broadcasts
  // ---------------------------------------------------------------------

  datatype Event = Event(intent: Intent, now: Millis)

  /** The broadcasts handled in order: the final state and one decision per broadcast. */
  function Run(s: Snapshot, events: seq<Event>): (r: (Snapshot, seq<Decision>))
    requires WellTyped(s.entries)
    ensures WellTyped(r.0.entries) && |r.1| == |events|
    ensures Enabled(r.0.entries) == Enabled(s.entries)
    ensures r.0.lastBlockedTime >= s.lastBlockedTime
    decreases |events|
  {
    if events == [] then
      (s, [])
    else
      var (next, d) := Receive(s, events[0].intent, events[0].now);
      var (last, ds) := Run(next, events[1..]);
      (last, [d] + ds)
  }

  function CountBlocks(ds: seq<Decision>): nat {
    if ds == [] then 0 else (if ds[0] == Block then 1 else 0) + CountBlocks(ds[1..])
  }

  /** While blocking is disabled, no sequence of broadcasts changes anything or blocks. */
  lemma {:induction false} DisabledIsInert(s: Snapshot, events: seq<Event>)
    requires WellTyped(s.entries) && !Enabled(s.entries)
    ensures Run(s, events).0 == s
    ensures forall i :: 0 <= i < |events| ==> Run(s, events).1[i] == NoAction
    decreases |events|
  {
    if events != [] {
      DisabledIsInert(s, events[1..]);
    }
  }

  /** When every RINGING carries a number, no broadcast blocks and the counter stays put. */
  lemma {:induction false} IdentifiedCallsNeverBlocked(s: Snapshot, events: seq<Event>)
    requires WellTyped(s.entries)
    requires forall i :: 0 <= i < |events| ==> !EmptyRinging(events[i].intent)
    ensures forall i :: 0 <= i < |events| ==> Run(s, events).1[i] == NoAction
    ensures BlockedCount(Run(s, events).0.entries) == BlockedCount(s.entries)
    decreases |events|
  {
    if events != [] {
      var next := Receive(s, events[0].intent, events[0].now).0;
      BlockCountsOnce(s, events[0].intent, events[0].now);
      IdentifiedCallsNeverBlocked(next, events[1..]);
    }
  }

  /** Once a number has been seen, no broadcast of a sequence without IDLE blocks, and the mark stays. */
  lemma {:induction false} NumberSeenSuppressesBlocking(s: Snapshot, events: seq<Event>)
    requires WellTyped(s.entries) && s.hasReceivedNumber
    requires forall i :: 0 <= i < |events| ==> events[i].intent != PhoneStateChanged(Idle)
    ensures forall i :: 0 <= i < |events| ==> Run(s, events).1[i] == NoAction
    ensures Run(s, events).0.hasReceivedNumber
    decreases |events|
  {
    if events != [] {
      var next := Receive(s, events[0].intent, events[0].now).0;
      NumberSeenSuppressesBlocking(next, events[1..]);
    }
  }

  /** The decisions for a sequence begin with the decisions for any prefix of it. */
  lemma {:induction false} RunPrefix(s: Snapshot, a: seq<Event>, b: seq<Event>)
    requires WellTyped(s.entries)
    ensures Run(s, a + b).1[..|a|] == Run(s, a).1
    decreases |a|
  {
    if a != [] {
      var next := Receive(s, a[0].intent, a[0].now).0;
      assert (a + b)[0] == a[0];
      assert (a + b)[1..] == a[1..] + b;
      RunPrefix(next, a[1..], b);
    }
  }

  /**
   Once a number has been seen, no broadcast blocks before the first IDLE
   broadcast, whatever follows it.
   */
  lemma NumberSeenSuppressesBlockingUntilIdle(s: Snapshot, beforeIdle: seq<Event>, rest: seq<Event>)
    requires WellTyped(s.entries) && s.hasReceivedNumber
    requires forall i :: 0 <= i < |beforeIdle| ==> beforeIdle[i].intent != PhoneStateChanged(Idle)
    ensures forall i :: 0 <= i < |beforeIdle| ==> Run(s, beforeIdle + rest).1[i] == NoAction
  {
    NumberSeenSuppressesBlocking(s, beforeIdle);
    RunPrefix(s, beforeIdle, rest);
    forall i | 0 <= i < |beforeIdle|
      ensures Run(s, beforeIdle + rest).1[i] == NoAction
    {
      assert Run(s, beforeIdle + rest).1[..|beforeIdle|][i] == Run(s, beforeIdle + rest).1[i];
    }
  }

  /** Every block in a sequence comes at least 3000 ms after the block time the sequence started with. */
  lemma {:induction false} BlockAfterLast(s: Snapshot, events: seq<Event>, j: nat)
    requires WellTyped(s.entries) && j < |events|
    requires Run(s, events).1[j] == Block
    ensures events[j].now - s.lastBlockedTime >= DEBOUNCE_MILLIS
    decreases |events|
  {
    var next := Receive(s, events[0].intent, events[0].now).0;
    if j == 0 {
      BlocksExactlyWhen(s, events[0].intent, events[0].now);
    } else {
      assert Run(next, events[1..]).1[j - 1] == Block;
      BlockAfterLast(next, events[1..], j - 1);
    }
  }

  /**
   Any two blocks in a sequence are at least 3000 ms apart, IDLE broadcasts
   in between notwithstanding (and whatever the clock did in between).
   */
  lemma {:induction false} BlocksAreDebounced(s: Snapshot, events: seq<Event>, i: nat, j: nat)
    requires WellTyped(s.entries) && i < j < |events|
    requires Run(s, events).1[i] == Block && Run(s, events).1[j] == Block
    ensures events[j].now - events[i].now >= DEBOUNCE_MILLIS
    decreases |events|
  {
    var next := Receive(s, events[0].intent, events[0].now).0;
    assert Run(next, events[1..]).1[j - 1] == Block;
    if i == 0 {
      BlockCountsOnce(s, events[0].intent, events[0].now);
      BlockAfterLast(next, events[1..], j - 1);
    } else {
      assert Run(next, events[1..]).1[i - 1] == Block;
      BlocksAreDebounced(next, events[1..], i - 1, j - 1);
    }
  }

  /** One step of the counter law: what a decision adds, truncated with whatever follows. */
  lemma CountStep(c: Int32, d: Decision, n: nat)
    ensures Wrap32((if d == Block then Inc(c) else c) + n) == Wrap32(c + (if d == Block then 1 else 0) + n)
  {
    if d == Block {
      Wrap32Shift(c + 1, n);
    }
  }

  /** The persisted counter grows by exactly the number of blocks, as a Kotlin `Int`. */
  lemma {:induction false} CountTracksBlocks(s: Snapshot, events: seq<Event>)
    requires WellTyped(s.entries)
    ensures BlockedCount(Run(s, events).0.entries) == Wrap32(BlockedCount(s.entries) + CountBlocks(Run(s, events).1))
    decreases |events|
  {
    if events != [] {
      var (next, d) := Receive(s, events[0].intent, events[0].now);
      BlockCountsOnce(s, events[0].intent, events[0].now);
      CountTracksBlocks(next, events[1..]);
      var ds := Run(s, events).1;
      assert ds == [d] + Run(next, events[1..]).1;
      assert ds[1..] == Run(next, events[1..]).1;
      var n := CountBlocks(ds[1..]);
      assert CountBlocks(ds) == (if d == Block then 1 else 0) + n;
      assert BlockedCount(next.entries) == if d == Block then Inc(BlockedCount(s.entries)) else BlockedCount(s.entries);
      CountStep(BlockedCount(s.entries), d, n);
    }
  }

  /** Short of 2^31 blocks, the counter is the old one plus the number of blocks: it never goes down. */
  lemma CountNeverDecreases(s: Snapshot, events: seq<Event>)
    requires WellTyped(s.entries)
    requires BlockedCount(s.entries) + CountBlocks(Run(s, events).1) <= MAX_INT
    ensures BlockedCount(Run(s, events).0.entries) == BlockedCount(s.entries) + CountBlocks(Run(s, events).1)
    ensures BlockedCount(Run(s, events).0.entries) >= BlockedCount(s.entries)
  {
    CountTracksBlocks(s, events);
  }

  // ---------------------------------------------------------------------
  // Scenarios
  // ---------------------------------------------------------------------

  /** In a fresh process, two empty RINGINGs block on the second one. */
  lemma TwoEmptyRingsBlockOnSecond(entries: Store, t1: Millis, t2: Millis)
    requires WellTyped(entries) && Enabled(entries) && t2 >= DEBOUNCE_MILLIS
    ensures Run(Initial(entries), [Event(PhoneStateChanged(Ringing(None)), t1),
                                   Event(PhoneStateChanged(Ringing(None)), t2)]).1 == [NoAction, Block]
  {
  }

  /** A number followed by an empty RINGING in the same session blocks nothing. */
  lemma NumberThenEmptyNeverBlocks(entries: Store, t1: Millis, t2: Millis)
    requires WellTyped(entries) && Enabled(entries)
    ensures Run(Initial(entries), [Event(PhoneStateChanged(Ringing(Some("0312345678"))), t1),
                                   Event(PhoneStateChanged(Ringing(None)), t2)]).1 == [NoAction, NoAction]
  {
  }

  /**
   Two withheld calls separated by IDLE: the second is blocked when its
   second empty RINGING comes at least 3000 ms after the first block, and is
   suppressed otherwise, although IDLE reset the session.
   */
  lemma DebounceSurvivesIdle(entries: Store, t1: Millis, t2: Millis, t3: Millis, t4: Millis, t5: Millis)
    requires WellTyped(entries) && Enabled(entries) && t2 >= DEBOUNCE_MILLIS
    ensures Run(Initial(entries), [Event(PhoneStateChanged(Ringing(None)), t1),
                                   Event(PhoneStateChanged(Ringing(None)), t2),
                                   Event(PhoneStateChanged(Idle), t3),
                                   Event(PhoneStateChanged(Ringing(None)), t4),
                                   Event(PhoneStateChanged(Ringing(None)), t5)]).1
            == [NoAction, Block, NoAction, NoAction, if t5 - t2 >= DEBOUNCE_MILLIS then Block else NoAction]
  {
    var e := [Event(PhoneStateChanged(Ringing(None)), t1),
              Event(PhoneStateChanged(Ringing(None)), t2),
              Event(PhoneStateChanged(Idle), t3),
              Event(PhoneStateChanged(Ringing(None)), t4),
              Event(PhoneStateChanged(Ringing(None)), t5)];
    var s0 := Initial(entries);
    var s1 := Receive(s0, e[0].intent, e[0].now).0;
    var s2 := Receive(s1, e[1].intent, e[1].now).0;
    var s3 := Receive(s2, e[2].intent, e[2].now).0;
    var s4 := Receive(s3, e[3].intent, e[3].now).0;
    assert s2.lastBlockedTime == t2 && s3.lastBlockedTime == t2 && s4.lastBlockedTime == t2;
    assert s4.nullCount == 1 && !s4.hasReceivedNumber;
    assert Run(s4, e[4..]).1 == [Receive(s4, e[4].intent, e[4].now).1];
    assert Run(s3, e[3..]).1 == [NoAction] + Run(s4, e[4..]).1;
    assert Run(s2, e[2..]).1 == [NoAction] + Run(s3, e[3..]).1;
    assert Run(s1, e[1..]).1 == [Block] + Run(s2, e[2..]).1;
    assert Run(s0, e).1 == [NoAction] + Run(s1, e[1..]).1;
  }
}
