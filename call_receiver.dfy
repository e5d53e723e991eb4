/**
 The withheld-caller classifier of the phone-state broadcast receiver.

 Every phone-state broadcast is handled one at a time. While blocking is
 enabled, an empty caller number on a RINGING broadcast is counted; the
 second (or later) empty RINGING of a session in which no number has been
 seen is classified as a withheld call. Unless another block happened
 less than 3000 ms earlier, the receiver tries to end the call from API
 28 on, and the persisted `blocked_count` goes up by one whatever that
 attempt does (not made, ended, `false` returned, or an exception). IDLE ends the session.

 `Receive` is the specification of one broadcast as a function of the
 receiver's state; the class `CallReceiver` holds that state in fields and
 is proved to follow it.
 */
module CallReceiverModel {
  import opened Prefs

  const DEBOUNCE_MILLIS: int := 3000

  /** The `EXTRA_STATE` of a phone-state broadcast; OFFHOOK, a missing extra and anything else are `OtherState`. */
  datatype CallState = Ringing(incomingNumber: Option<string>) | Idle | OtherState

  /** A broadcast: a phone-state change, or any other action the receiver ignores. */
  datatype Intent = PhoneStateChanged(state: CallState) | OtherAction

  datatype Decision = NoAction | Block

  /** The process-wide classifier fields together with the persisted store. */
  datatype Snapshot = Snapshot(nullCount: Int32, hasReceivedNumber: bool, lastBlockedTime: Millis, entries: Store)

  /** The state of a freshly started process over a given store. */
  function Initial(entries: Store): (s: Snapshot)
    ensures s.entries == entries && s.nullCount == 0 && !s.hasReceivedNumber && s.lastBlockedTime == 0
  {
    Snapshot(0, false, 0, entries)
  }

  /** `isNullOrEmpty()` on the incoming number. */
  predicate IsNullOrEmpty(number: Option<string>)
    ensures IsNullOrEmpty(number) <==> !(number.Some? && |number.value| > 0)
  {
    match number
    case None => true
    case Some(v) => v == ""
  }

  predicate Enabled(entries: Store)
    requires WellTyped(entries)
  {
    GetBoolean(entries, BLOCKING_ENABLED, false)
  }

  function BlockedCount(entries: Store): Int32
    requires WellTyped(entries)
  {
    GetInt(entries, BLOCKED_COUNT, 0)
  }

  /**
   The debounce and counter update of a classified withheld call: nothing
   happens when the previous block is less than 3000 ms old; otherwise the
   block time is now and the persisted counter is one higher.
   */
  function Debounce(s: Snapshot, now: Millis): (r: (Snapshot, Decision))
    requires WellTyped(s.entries)
    ensures WellTyped(r.0.entries)
    ensures r.1 == Block <==> now - s.lastBlockedTime >= DEBOUNCE_MILLIS
    ensures r.1 == NoAction ==> r.0 == s
    ensures r.1 == Block ==>
      && r.0.lastBlockedTime == now
      && r.0.nullCount == s.nullCount && r.0.hasReceivedNumber == s.hasReceivedNumber
      && BlockedCount(r.0.entries) == Inc(BlockedCount(s.entries))
      && r.0.entries == s.entries[BLOCKED_COUNT := IntValue(BlockedCount(r.0.entries))]
  {
    if now - s.lastBlockedTime < DEBOUNCE_MILLIS then
      (s, NoAction)
    else
      var count := BlockedCount(s.entries);
      (s.(lastBlockedTime := now, entries := s.entries[BLOCKED_COUNT := IntValue(Inc(count))]), Block)
  }

  /** One broadcast received at wall-clock time `now`: the new state and whether the call is blocked. */
  function Receive(s: Snapshot, intent: Intent, now: Millis): (r: (Snapshot, Decision))
    requires WellTyped(s.entries)
    ensures WellTyped(r.0.entries)
    ensures Enabled(r.0.entries) == Enabled(s.entries)
    ensures r.0.lastBlockedTime >= s.lastBlockedTime
  {
    if !intent.PhoneStateChanged? || !Enabled(s.entries) then
      (s, NoAction)
    else
      match intent.state
      case Ringing(number) =>
        if !IsNullOrEmpty(number) then
          (s.(hasReceivedNumber := true), NoAction)
        else
          var counted := s.(nullCount := Inc(s.nullCount));
          if counted.nullCount >= 2 && !counted.hasReceivedNumber then
            Debounce(counted, now)
          else
            (counted, NoAction)
      case Idle =>
        (s.(nullCount := 0, hasReceivedNumber := false), NoAction)
      case OtherState =>
        (s, NoAction)
  }

  /**
   The platform facts `endCall` depends on: the API level, whether
   `endCall` throws, and the boolean it returns when it does not. They
   never reach the classifier's state.
   */
  datatype Platform = Platform(sdkInt: int, endCallThrows: bool, endCallResult: bool)

  /** What the attempt to end the call came to: not made, ended, returned false, or threw. */
  datatype EndCallOutcome = NotAttempted | Ended | NotEnded | Failed

  const SDK_P: int := 28

  /** The receiver's process-wide state; `prefs` is the shared preferences object of the application. */
  class CallReceiver {
    var nullCount: Int32
    var hasReceivedNumber: bool
    var lastBlockedTime: Millis
    const prefs: Preferences

    ghost function State(): Snapshot
      reads this, prefs
    {
      Snapshot(nullCount, hasReceivedNumber, lastBlockedTime, prefs.entries)
    }

    constructor (prefs: Preferences)
      ensures this.prefs == prefs
      ensures State() == Initial(prefs.entries)
    {
      this.prefs := prefs;
      nullCount := 0;
      hasReceivedNumber := false;
      lastBlockedTime := 0;
    }

    /** `onReceive`: handle one broadcast; `platform` only decides what `endCall` does. */
    method OnReceive(intent: Intent, now: Millis, platform: Platform) returns (d: Decision)
      requires prefs.Valid()
      modifies this, prefs
      ensures prefs.Valid()
      ensures (State(), d) == Receive(old(State()), intent, now)
    {
      if !intent.PhoneStateChanged? {
        return NoAction;
      }
      var isEnabled := GetBoolean(prefs.entries, BLOCKING_ENABLED, false);
      if !isEnabled {
        return NoAction;
      }
      match intent.state {
        case Ringing(incomingNumber) =>
          if !IsNullOrEmpty(incomingNumber) {
            hasReceivedNumber := true;
            d := NoAction;
          } else {
            nullCount := Inc(nullCount);
            if nullCount >= 2 && !hasReceivedNumber {
              d := CheckAndBlock(now, platform);
            } else {
              d := NoAction;
            }
          }
        case Idle =>
          nullCount := 0;
          hasReceivedNumber := false;
          d := NoAction;
        case OtherState =>
          d := NoAction;
      }
    }

    /** `checkAndBlock`: debounce, try to end the call, count it, whatever `endCall` did. */
    method CheckAndBlock(now: Millis, platform: Platform) returns (d: Decision)
      requires prefs.Valid()
      modifies this, prefs
      ensures prefs.Valid()
      ensures (State(), d) == Debounce(old(State()), now)
    {
      if now - lastBlockedTime < DEBOUNCE_MILLIS {
        return NoAction;
      }
      lastBlockedTime := now;
      var _ := BlockCall(platform);
      var currentCount := GetInt(prefs.entries, BLOCKED_COUNT, 0);
      prefs.PutInt(BLOCKED_COUNT, Inc(currentCount));
      d := Block;
    }
  }

  /**
   `blockCall`: `endCall` is only invoked from API level 28 on, and an
   exception it throws is caught. Its boolean result is only logged, so a
   call it did not end raises nothing either; no outcome changes any state.
   */
  method BlockCall(platform: Platform) returns (outcome: EndCallOutcome)
    ensures outcome == NotAttempted <==> platform.sdkInt < SDK_P
    ensures outcome == Failed <==> platform.sdkInt >= SDK_P && platform.endCallThrows
    ensures outcome == Ended <==> platform.sdkInt >= SDK_P && !platform.endCallThrows && platform.endCallResult
    ensures outcome == NotEnded <==> platform.sdkInt >= SDK_P && !platform.endCallThrows && !platform.endCallResult
  {
    if platform.sdkInt >= SDK_P {
      if platform.endCallThrows {
        outcome := Failed;
      } else {
        var endCallResult := platform.endCallResult;
        outcome := if endCallResult then Ended else NotEnded;
      }
    } else {
      outcome := NotAttempted;
    }
  }
}
