/**
 The application's persisted key-value store ("call_blocker_prefs").

 Both the call receiver and the settings screen read and write the same
 store. Each entry holds a boolean, a 32-bit integer or a set of strings,
 the only kinds of value this application stores. The five keys the
 application uses always hold the type the application writes to them;
 that is the store's invariant (a wrongly typed entry would make the
 platform's typed getters throw, and no code of the application ever
 writes one).
 */
module Prefs {

  datatype Option<T> = None | Some(value: T)

  const MIN_INT: int := -0x8000_0000
  const MAX_INT: int := 0x7FFF_FFFF
  const MAX_LONG: int := 0x7FFF_FFFF_FFFF_FFFF
  const INT_RANGE: int := 0x1_0000_0000

  /** A Kotlin `Int`. */
  type Int32 = x: int | MIN_INT <= x <= MAX_INT

  /** A non-negative Kotlin `Long`, as the wall clock returns it (milliseconds). */
  type Millis = x: int | 0 <= x <= MAX_LONG

  /** Two's-complement truncation of an unbounded integer to 32 bits. */
  function Wrap32(x: int): (r: Int32)
    ensures (r - x) % INT_RANGE == 0
    ensures MIN_INT <= x <= MAX_INT ==> r == x
  {
    MIN_INT + (x - MIN_INT) % INT_RANGE
  }

  /** Kotlin's `x + 1` on an `Int`: one more, except that the largest value wraps to the smallest. */
  function Inc(x: Int32): (r: Int32)
    ensures x < MAX_INT ==> r == x + 1
    ensures x == MAX_INT ==> r == MIN_INT
    ensures r == Wrap32(x + 1)
  {
    if x == MAX_INT then MIN_INT else x + 1
  }

  /** Truncating a sum whose first summand is already truncated gives the truncated sum. */
  lemma Wrap32Shift(x: int, n: int)
    ensures Wrap32(Wrap32(x) + n) == Wrap32(x + n)
  {
  }

  datatype Value = BoolValue(b: bool) | IntValue(i: Int32) | StringSetValue(strings: set<string>)

  type Store = map<string, Value>

  const BLOCKING_ENABLED: string := "blocking_enabled"
  const BLOCKED_COUNT: string := "blocked_count"
  const BLOCKED_NUMBERS: string := "blocked_numbers"
  const BLOCKED_PREFIXES: string := "blocked_prefixes"
  const BLOCKED_COUNTRY_CODES: string := "blocked_country_codes"

  /** The type the application writes under `key`; keys it does not use may hold anything. */
  predicate Admits(key: string, v: Value) {
    if key == BLOCKING_ENABLED then v.BoolValue?
    else if key == BLOCKED_COUNT then v.IntValue?
    else if key == BLOCKED_NUMBERS || key == BLOCKED_PREFIXES || key == BLOCKED_COUNTRY_CODES then v.StringSetValue?
    else true
  }

  predicate WellTyped(store: Store) {
    forall k :: k in store ==> Admits(k, store[k])
  }

  /** `getBoolean(key, default)`: the stored flag, or `default` when the key is absent. */
  function GetBoolean(store: Store, key: string, default: bool): (r: bool)
    requires key in store ==> store[key].BoolValue?
    ensures key !in store ==> r == default
    ensures key in store ==> store[key] == BoolValue(r)
  {
    if key in store then store[key].b else default
  }

  /** `getInt(key, default)`: the stored integer, or `default` when the key is absent. */
  function GetInt(store: Store, key: string, default: Int32): (r: Int32)
    requires key in store ==> store[key].IntValue?
    ensures key !in store ==> r == default
    ensures key in store ==> store[key] == IntValue(r)
  {
    if key in store then store[key].i else default
  }

  /** `getStringSet(key, default) ?: default`: the stored set, or `default` when the key is absent. */
  function GetStringSet(store: Store, key: string, default: set<string>): (r: set<string>)
    requires key in store ==> store[key].StringSetValue?
    ensures key !in store ==> r == default
    ensures key in store ==> store[key] == StringSetValue(r)
  {
    if key in store then store[key].strings else default
  }

  /** The shared preferences object; `entries` is its in-memory view, which `apply()` updates at once. */
  class Preferences {
    var entries: Store

    ghost predicate Valid()
      reads this
    {
      WellTyped(entries)
    }

    constructor (initial: Store)
      requires WellTyped(initial)
      ensures Valid() && entries == initial
    {
      entries := initial;
    }

    /** `edit().putInt(key, v).apply()` */
    method PutInt(key: string, v: Int32)
      requires Valid() && Admits(key, IntValue(v))
      modifies this
      ensures Valid()
      ensures entries == old(entries)[key := IntValue(v)]
    {
      entries := entries[key := IntValue(v)];
    }

    /** `edit().putStringSet(key, s).apply()` */
    method PutStringSet(key: string, s: set<string>)
      requires Valid() && Admits(key, StringSetValue(s))
      modifies this
      ensures Valid()
      ensures entries == old(entries)[key := StringSetValue(s)]
    {
      entries := entries[key := StringSetValue(s)];
    }

    /** The "clear history" button of the main screen: the blocked-call counter goes back to zero. */
    method ClearHistory()
      requires Valid()
      modifies this
      ensures Valid()
      ensures GetInt(entries, BLOCKED_COUNT, 0) == 0
      ensures entries == old(entries)[BLOCKED_COUNT := IntValue(0)]
    {
      PutInt(BLOCKED_COUNT, 0);
    }
  }
}
