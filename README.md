# Withheld-number call blocker: classifier and rule-set store

This project models the decision core of an Android app that ends incoming
calls whose caller number is withheld, and proves properties of that model
in Dafny.

- **The phone-state receiver** (`CallReceiver.kt`). Each phone-state
  broadcast is handled while the `blocking_enabled` preference is on.
  - A RINGING broadcast that carries a number marks the session as
    identified.
  - A RINGING broadcast without a number (null or empty) is counted.
  - The second or later empty RINGING of a session with no number seen is
    classified as a withheld call.
  - For a withheld call, unless the previous block happened less than
    3000 ms earlier, the receiver tries to end the call from API 28 on.
    The call is counted in the persisted `blocked_count` whatever that
    attempt does: it is counted when the API level is lower and no attempt
    is made, when `endCall` returns `false` (the call was not ended, and
    that result is only logged), and when ending the call throws.
  - IDLE resets the session.

  The process-wide fields `nullCount`, `hasReceivedNumber` and
  `lastBlockedTime` are the fields of the class
  `CallReceiverModel.CallReceiver`. Its `OnReceive` and `CheckAndBlock`
  are proved to follow the pure functions `Receive` and `Debounce`. The
  properties are lemmas about those functions: about one broadcast, and
  about any sequence of broadcasts handled in order (`Run`).
- **The rule-set store of the settings screen** (`SettingsActivity.kt`).
  There are three string sets under the keys `blocked_numbers`,
  `blocked_prefixes` and `blocked_country_codes`. Each is edited one value
  at a time, and values typed into the add dialog are trimmed first.
- **The shared preferences** (`call_blocker_prefs`). Both screens and the
  receiver use this one store. It is modelled by the class
  `Prefs.Preferences`, whose field `entries` maps each key to a boolean, a
  32-bit integer or a string set. These are the only kinds of value this
  application stores.

The wall clock (`System.currentTimeMillis()`) is the parameter `now`. The
platform's `endCall` is the method `BlockCall`. Its outcome depends on a
`Platform` parameter (API level, whether `endCall` throws, and the boolean
it returns otherwise). The outcome never affects the state: a call that
`endCall` reports as not ended is counted like any other block.

Kotlin `Int` arithmetic is modelled with explicit 32-bit wrap-around
(`Prefs.Inc`). This applies to `nullCount++` and to `blocked_count + 1`.

Facts about the code that shape the model:
- The typed getters throw when a preference holds a value of another
  type. The model makes "every known key holds its type" the store's
  invariant (`Prefs.WellTyped`), which every writer in the app keeps.
- `blocked_count` is a Kotlin `Int` and wraps after 2^31 - 1 blocks.
  `CountTracksBlocks` states the wrapping law, and `CountNeverDecreases`
  states that the counter grows by exactly the number of blocks short of
  wrap-around.
- The rule sets are only stored, read and displayed. No code consults
  them when deciding whether to block.
- IDLE while blocking is disabled does not reset the session, because the
  enabled check comes first.

## Model

| member | source | states |
|---|---|---|
| `Prefs.Inc` | app/src/main/java/com/uirusuniki/nonumberblock/CallReceiver.kt:54 | Kotlin `Int` increment: one more, except that `Int.MAX_VALUE` wraps to `Int.MIN_VALUE` |
| `Prefs.GetBoolean` | app/src/main/java/com/uirusuniki/nonumberblock/CallReceiver.kt:34 | `getBoolean` returns the stored flag, or the default when the key is absent |
| `Prefs.GetInt` | app/src/main/java/com/uirusuniki/nonumberblock/CallReceiver.kt:90 | `getInt` returns the stored integer, or the default when the key is absent |
| `Prefs.GetStringSet` | app/src/main/java/com/uirusuniki/nonumberblock/SettingsActivity.kt:116 | `getStringSet(..) ?: default` returns the stored set, or the default when the key is absent |
| `Prefs.Preferences.PutInt` | app/src/main/java/com/uirusuniki/nonumberblock/CallReceiver.kt:91 | writing an integer replaces exactly that key's entry and keeps the store well typed |
| `Prefs.Preferences.PutStringSet` | app/src/main/java/com/uirusuniki/nonumberblock/SettingsActivity.kt:118 | writing a string set replaces exactly that key's entry and keeps the store well typed |
| `Prefs.Preferences.ClearHistory` | app/src/main/java/com/uirusuniki/nonumberblock/MainActivity.kt:60 | "clear history" sets `blocked_count` to 0 and changes no other entry |
| `CallReceiverModel.IsNullOrEmpty` | app/src/main/java/com/uirusuniki/nonumberblock/CallReceiver.kt:48 | `isNullOrEmpty()` on the incoming number holds exactly when no non-empty number is present |
| `CallReceiverModel.Initial` | app/src/main/java/com/uirusuniki/nonumberblock/CallReceiver.kt:22-25 | a fresh process starts with no empty signals, no number seen, and block time 0 |
| `CallReceiverModel.Debounce` | app/src/main/java/com/uirusuniki/nonumberblock/CallReceiver.kt:75-94 | blocks iff the last block is at least 3000 ms old. On a block, the time becomes `now`, the counter goes up by one (wrapping), and nothing else changes. Otherwise the state is unchanged |
| `CallReceiverModel.Receive` | app/src/main/java/com/uirusuniki/nonumberblock/CallReceiver.kt:28-73 | one broadcast keeps the store well typed, never changes the enable flag, and never moves the block time backwards |
| `CallReceiverModel.CallReceiver.constructor` | app/src/main/java/com/uirusuniki/nonumberblock/CallReceiver.kt:19-26 | the companion fields start at 0, false and 0 |
| `CallReceiverModel.CallReceiver.OnReceive` | app/src/main/java/com/uirusuniki/nonumberblock/CallReceiver.kt:28-73 | the field updates of `onReceive` give the new state and decision that `Receive` specifies, whatever `endCall` does |
| `CallReceiverModel.CallReceiver.CheckAndBlock` | app/src/main/java/com/uirusuniki/nonumberblock/CallReceiver.kt:75-94 | the field and store updates of `checkAndBlock` are `Debounce`, and the count goes up even if ending the call fails |
| `CallReceiverModel.BlockCall` | app/src/main/java/com/uirusuniki/nonumberblock/CallReceiver.kt:96-107 | `endCall` is not attempted below API 28. From API 28 on, the outcome is `Failed` exactly when it throws, `Ended` exactly when it returns true, and `NotEnded` exactly when it returns false without throwing. It changes no state |
| `CallReceiverProperties.IgnoredUnlessEnabledPhoneState` | app/src/main/java/com/uirusuniki/nonumberblock/CallReceiver.kt:29-38 | a foreign action, or any broadcast while disabled (IDLE included), changes nothing and blocks nothing |
| `CallReceiverProperties.NumberMarksSession` | app/src/main/java/com/uirusuniki/nonumberblock/CallReceiver.kt:48-51 | a RINGING with a non-empty number sets `hasReceivedNumber`, changes nothing else and does not block |
| `CallReceiverProperties.EmptyRingingCounts` | app/src/main/java/com/uirusuniki/nonumberblock/CallReceiver.kt:52-54 | a RINGING with a null or empty number adds exactly one to `nullCount` and keeps `hasReceivedNumber` |
| `CallReceiverProperties.BlocksExactlyWhen` | app/src/main/java/com/uirusuniki/nonumberblock/CallReceiver.kt:57-62 | a broadcast blocks iff it is an empty RINGING while enabled, `nullCount` after the increment is at least 2, no number has been seen, and the last block is at least 3000 ms old |
| `CallReceiverProperties.FirstEmptyRingingWaits` | app/src/main/java/com/uirusuniki/nonumberblock/CallReceiver.kt:57 | with `nullCount` at 0, as after a reset, no broadcast blocks |
| `CallReceiverProperties.BlockCountsOnce` | app/src/main/java/com/uirusuniki/nonumberblock/CallReceiver.kt:84-91 | a block sets the block time to `now` and replaces `blocked_count` by its successor, with no other entry touched. A non-block leaves the block time and the store alone |
| `CallReceiverProperties.IdleResets` | app/src/main/java/com/uirusuniki/nonumberblock/CallReceiver.kt:66-70 | IDLE while enabled sets `nullCount` to 0 and `hasReceivedNumber` to false. It leaves the block time and the store alone |
| `CallReceiverProperties.IdleIdempotent` | app/src/main/java/com/uirusuniki/nonumberblock/CallReceiver.kt:66-70 | a second IDLE in a row changes nothing |
| `CallReceiverProperties.OtherStateInert` | app/src/main/java/com/uirusuniki/nonumberblock/CallReceiver.kt:42-72 | a phone state other than RINGING and IDLE changes nothing |
| `CallReceiverProperties.Run` | app/src/main/java/com/uirusuniki/nonumberblock/CallReceiver.kt:28-73 | broadcasts handled in order give one decision each and keep the store well typed, the enable flag, and a non-decreasing block time |
| `CallReceiverProperties.DisabledIsInert` | app/src/main/java/com/uirusuniki/nonumberblock/CallReceiver.kt:34-38 | while disabled, no sequence of broadcasts changes the state or blocks |
| `CallReceiverProperties.IdentifiedCallsNeverBlocked` | app/src/main/java/com/uirusuniki/nonumberblock/CallReceiver.kt:48-62 | if no RINGING in a sequence lacks a number, nothing is blocked and the counter is unchanged |
| `CallReceiverProperties.NumberSeenSuppressesBlocking` | app/src/main/java/com/uirusuniki/nonumberblock/CallReceiver.kt:51-69 | once a number has been seen, no broadcast of a sequence without IDLE blocks, and the mark stays |
| `CallReceiverProperties.RunPrefix` | app/src/main/java/com/uirusuniki/nonumberblock/CallReceiver.kt:28-73 | the decisions for a sequence begin with the decisions for any prefix of it: later broadcasts never change earlier decisions |
| `CallReceiverProperties.NumberSeenSuppressesBlockingUntilIdle` | app/src/main/java/com/uirusuniki/nonumberblock/CallReceiver.kt:51-69 | once a number has been seen, no broadcast before the first IDLE blocks, whatever follows that IDLE |
| `CallReceiverProperties.BlockAfterLast` | app/src/main/java/com/uirusuniki/nonumberblock/CallReceiver.kt:79-84 | every block in a sequence is at least 3000 ms after the block time the sequence started from |
| `CallReceiverProperties.BlocksAreDebounced` | app/src/main/java/com/uirusuniki/nonumberblock/CallReceiver.kt:79-84 | any two blocks in a sequence are at least 3000 ms apart, across IDLE resets |
| `CallReceiverProperties.CountTracksBlocks` | app/src/main/java/com/uirusuniki/nonumberblock/CallReceiver.kt:89-91 | the final `blocked_count` is the initial one plus the number of blocks, as a Kotlin `Int` |
| `CallReceiverProperties.CountNeverDecreases` | app/src/main/java/com/uirusuniki/nonumberblock/CallReceiver.kt:89-91 | short of wrap-around, the counter grows by exactly the number of blocks and never decreases |
| `CallReceiverProperties.TwoEmptyRingsBlockOnSecond` | app/src/main/java/com/uirusuniki/nonumberblock/CallReceiver.kt:52-59 | in a fresh process, two empty RINGINGs give no action, then a block |
| `CallReceiverProperties.NumberThenEmptyNeverBlocks` | app/src/main/java/com/uirusuniki/nonumberblock/CallReceiver.kt:48-57 | a number and then an empty RINGING give no action twice |
| `CallReceiverProperties.DebounceSurvivesIdle` | app/src/main/java/com/uirusuniki/nonumberblock/CallReceiver.kt:66-84 | two withheld calls separated by IDLE: the second is blocked iff it comes at least 3000 ms after the first block |
| `SettingsModel.KeyFor` | app/src/main/java/com/uirusuniki/nonumberblock/SettingsActivity.kt:110-114 | every type maps to one of the three rule-set keys, and each of those keys holds only string sets |
| `SettingsModel.KeyForInjective` | app/src/main/java/com/uirusuniki/nonumberblock/SettingsActivity.kt:122-126 | distinct types map to distinct keys, and equal keys mean equal types |
| `SettingsModel.BlockedItems` | app/src/main/java/com/uirusuniki/nonumberblock/SettingsActivity.kt:133-143 | the readers return the set stored under the type's key, or the empty set when the key is missing |
| `SettingsModel.WithItem` | app/src/main/java/com/uirusuniki/nonumberblock/SettingsActivity.kt:109-119 | after adding, the type's set is the old set plus the value. Every other entry is unchanged, and the store stays well typed |
| `SettingsModel.WithoutItem` | app/src/main/java/com/uirusuniki/nonumberblock/SettingsActivity.kt:121-131 | after removing, the type's set is the old set minus the value. Every other entry is unchanged, and the store stays well typed |
| `SettingsModel.OtherTypesUntouched` | app/src/main/java/com/uirusuniki/nonumberblock/SettingsActivity.kt:109-131 | adding or removing a value of one type leaves the other two rule sets as they were |
| `SettingsModel.AddIdempotent` | app/src/main/java/com/uirusuniki/nonumberblock/SettingsActivity.kt:117 | adding a value already present leaves the whole store equal |
| `SettingsModel.RemoveAbsent` | app/src/main/java/com/uirusuniki/nonumberblock/SettingsActivity.kt:129 | removing an absent value leaves the set unchanged. The store is unchanged too when the key existed |
| `SettingsModel.AddThenRemove` | app/src/main/java/com/uirusuniki/nonumberblock/SettingsActivity.kt:116-130 | adding a new value and then removing it restores the set. It restores the store too when the key existed |
| `SettingsModel.IsWhitespace` | app/src/main/java/com/uirusuniki/nonumberblock/SettingsActivity.kt:98 | Kotlin's `Char.isWhitespace`, which `trim()` uses: space, tab, line feed and carriage return are whitespace. No other printable ASCII character is, and in particular no digit and no `+` |
| `SettingsModel.Trim` | app/src/main/java/com/uirusuniki/nonumberblock/SettingsActivity.kt:98 | `trim()` gives a slice of the input with only whitespace dropped at either end. The result has no whitespace at its ends, and is empty iff the input is all whitespace |
| `SettingsModel.TrimIdempotent` | app/src/main/java/com/uirusuniki/nonumberblock/SettingsActivity.kt:98 | trimming a trimmed value changes nothing |
| `SettingsModel.DialogValue` | app/src/main/java/com/uirusuniki/nonumberblock/SettingsActivity.kt:98-99 | the dialog yields a value iff the input is not all whitespace. That value is the trimmed input: non-empty, with no whitespace at either end |
| `SettingsModel.DialogKeepsValuesUnpadded` | app/src/main/java/com/uirusuniki/nonumberblock/SettingsActivity.kt:97-104 | if a rule set holds only non-empty, unpadded values, it still does after the add dialog |
| `SettingsModel.SettingsActivity.AddBlockedItem` | app/src/main/java/com/uirusuniki/nonumberblock/SettingsActivity.kt:109-119 | `addBlockedItem`'s copy, add and write-back produce the store that `WithItem` specifies |
| `SettingsModel.SettingsActivity.RemoveBlockedItem` | app/src/main/java/com/uirusuniki/nonumberblock/SettingsActivity.kt:121-131 | `removeBlockedItem`'s copy, remove and write-back produce the store that `WithoutItem` specifies |
| `SettingsModel.SettingsActivity.ConfirmAddDialog` | app/src/main/java/com/uirusuniki/nonumberblock/SettingsActivity.kt:97-104 | the OK button adds iff the trimmed input is non-empty, and then adds the trimmed value. Otherwise the store is unchanged |

## Left out

- Notifications (`showBlockedNotification`, the notification channel, `notificationId`, time formatting): presentation only, with no state the classifier reads.
- Logging: no behaviour.
- `endCall`'s effect on the telephony system: a platform call outside the model. Only its API-level guard, its boolean result and its exception being swallowed are modelled.
- The settings UI (`loadBlockedItems`, `addChip`, `setupListeners`, dialog rendering, toasts): only the effect of the dialog's OK button on the store is modelled.
- The main screen (permissions, the enable toggle, starting and stopping the service) and `CallBlockerService.kt`: platform glue. Only "clear history" is modelled, as `ClearHistory`. The enable flag is whatever the store holds.
- Matching incoming numbers against the rule sets: no code does it.
- Asynchronous persistence by `apply()` and loss of the companion fields on process restart: the store is its in-memory view. A restarted process is a new `CallReceiver`, with fresh fields over the same store.
- Concurrency: broadcasts are delivered one at a time, so they are a sequence.
- A preference stored with the wrong type, which makes the platform's typed getters throw: excluded by the store invariant `WellTyped`, which every writer in the app keeps.
- `Millis`: the wall clock is taken to be non-negative (at or after 1970), so the `Long` subtraction at CallReceiver.kt:79 never overflows. A negative clock, where that subtraction could wrap, is not modelled.
- `SettingsModel.IsWhitespace`: fixes Kotlin's whitespace set at the current Unicode space separators. Later Unicode versions could change that set.
