/**
 The rule sets of the settings screen: three string sets (exact numbers,
 area-code prefixes, country codes) kept in the shared preferences, each
 under its own key, edited one value at a time. Values typed into the
 add dialog are trimmed and stored only when something is left.
 */
module SettingsModel {
  import opened Prefs

  datatype BlockType = Number | Prefix | Country

  /** The preference key that holds the rule set of a type. */
  function KeyFor(t: BlockType): (key: string)
    ensures key in {BLOCKED_NUMBERS, BLOCKED_PREFIXES, BLOCKED_COUNTRY_CODES}
    ensures forall v :: Admits(key, v) <==> v.StringSetValue?
  {
    match t
    case Number => BLOCKED_NUMBERS
    case Prefix => BLOCKED_PREFIXES
    case Country => BLOCKED_COUNTRY_CODES
  }

  /** Distinct types are stored under distinct keys. */
  lemma KeyForInjective(t: BlockType, u: BlockType)
    ensures KeyFor(t) == KeyFor(u) <==> t == u
  {
  }

  /** `getBlockedNumbers`, `getBlockedPrefixes`, `getBlockedCountryCodes`: a missing key reads as the empty set. */
  function BlockedItems(entries: Store, t: BlockType): (r: set<string>)
    requires WellTyped(entries)
    ensures KeyFor(t) !in entries ==> r == {}
    ensures KeyFor(t) in entries ==> entries[KeyFor(t)] == StringSetValue(r)
  {
    GetStringSet(entries, KeyFor(t), {})
  }

  /** Every entry other than the one under `key` is the same in both stores. */
  predicate SameExcept(a: Store, b: Store, key: string) {
    && (forall k :: k in a && k != key ==> k in b && b[k] == a[k])
    && (forall k :: k in b && k != key ==> k in a)
  }

  /** The store after `addBlockedItem(value, t)`. */
  function WithItem(entries: Store, value: string, t: BlockType): (r: Store)
    requires WellTyped(entries)
    ensures WellTyped(r) && KeyFor(t) in r
    ensures BlockedItems(r, t) == BlockedItems(entries, t) + {value}
    ensures SameExcept(entries, r, KeyFor(t))
  {
    entries[KeyFor(t) := StringSetValue(BlockedItems(entries, t) + {value})]
  }

  /** The store after `removeBlockedItem(value, t)`. */
  function WithoutItem(entries: Store, value: string, t: BlockType): (r: Store)
    requires WellTyped(entries)
    ensures WellTyped(r) && KeyFor(t) in r
    ensures BlockedItems(r, t) == BlockedItems(entries, t) - {value}
    ensures SameExcept(entries, r, KeyFor(t))
  {
    entries[KeyFor(t) := StringSetValue(BlockedItems(entries, t) - {value})]
  }

  /** Adding or removing a value of one type leaves the rule sets of the other types as they were. */
  lemma OtherTypesUntouched(entries: Store, value: string, t: BlockType, u: BlockType)
    requires WellTyped(entries) && t != u
    ensures BlockedItems(WithItem(entries, value, t), u) == BlockedItems(entries, u)
    ensures BlockedItems(WithoutItem(entries, value, t), u) == BlockedItems(entries, u)
  {
  }

  /** Adding a value that is already there changes nothing, not even the store. */
  lemma AddIdempotent(entries: Store, value: string, t: BlockType)
    requires WellTyped(entries) && value in BlockedItems(entries, t)
    ensures WithItem(entries, value, t) == entries
  {
    var r := WithItem(entries, value, t);
    assert BlockedItems(entries, t) + {value} == BlockedItems(entries, t);
    assert forall k :: k in r <==> k in entries;
    assert forall k :: k in r ==> r[k] == entries[k];
  }

  /**
   Removing a value that is not there leaves its rule set as it was; the
   store itself is the same when the key was already present (otherwise it
   now holds the empty set under that key).
   */
  lemma RemoveAbsent(entries: Store, value: string, t: BlockType)
    requires WellTyped(entries) && value !in BlockedItems(entries, t)
    ensures BlockedItems(WithoutItem(entries, value, t), t) == BlockedItems(entries, t)
    ensures KeyFor(t) in entries ==> WithoutItem(entries, value, t) == entries
  {
  }

  /** Adding a new value and then removing it restores the rule set (and the store, when the key existed). */
  lemma AddThenRemove(entries: Store, value: string, t: BlockType)
    requires WellTyped(entries) && value !in BlockedItems(entries, t)
    ensures BlockedItems(WithoutItem(WithItem(entries, value, t), value, t), t) == BlockedItems(entries, t)
    ensures KeyFor(t) in entries ==> WithoutItem(WithItem(entries, value, t), value, t) == entries
  {
  }

  // ---------------------------------------------------------------------
  // Dialog input
  // ---------------------------------------------------------------------

  /**
   Kotlin's `Char.isWhitespace`: the Java whitespace controls (tab, line
   feed, vertical tab, form feed, carriage return, the four separators
   U+001C..U+001F) and every Unicode space, line or paragraph separator.
   */
  predicate IsWhitespace(c: char)
    ensures c == ' ' || c == '\t' || c == '\n' || c == '\r' ==> IsWhitespace(c)
    ensures IsWhitespace(c) ==> c as int <= 0x20 || c as int >= 0xA0
    ensures '0' <= c <= '9' || c == '+' ==> !IsWhitespace(c)
  {
    var n := c as int;
    || (0x09 <= n <= 0x0D) || (0x1C <= n <= 0x20) || n == 0xA0 || n == 0x1680
    || (0x2000 <= n <= 0x200A) || n == 0x2028 || n == 0x2029 || n == 0x202F
    || n == 0x205F || n == 0x3000
  }

  /** A value with no whitespace at either end. */
  predicate Unpadded(v: string) {
    v != [] ==> !IsWhitespace(v[0]) && !IsWhitespace(v[|v| - 1])
  }

  /** The first index at or after `i` that does not hold whitespace (or `|s|`). */
  function SkipLeading(s: string, i: nat): (k: nat)
    requires i <= |s|
    ensures i <= k <= |s|
    ensures forall j :: i <= j < k ==> IsWhitespace(s[j])
    ensures k < |s| ==> !IsWhitespace(s[k])
    decreases |s| - i
  {
    if i < |s| && IsWhitespace(s[i]) then SkipLeading(s, i + 1) else i
  }

  /** The end of `s[lo..j]` once trailing whitespace is dropped. */
  function SkipTrailing(s: string, lo: nat, j: nat): (k: nat)
    requires lo <= j <= |s|
    ensures lo <= k <= j
    ensures forall m :: k <= m < j ==> IsWhitespace(s[m])
    ensures k > lo ==> !IsWhitespace(s[k - 1])
    decreases j - lo
  {
    if j > lo && IsWhitespace(s[j - 1]) then SkipTrailing(s, lo, j - 1) else j
  }

  /** Kotlin's `trim()`: the slice of `s` left after dropping whitespace at both ends. */
  function Trim(s: string): (r: string)
    ensures Unpadded(r)
    ensures r == [] <==> forall j :: 0 <= j < |s| ==> IsWhitespace(s[j])
    ensures exists a, b :: 0 <= a <= b <= |s| && r == s[a..b]
                           && (forall j :: 0 <= j < a ==> IsWhitespace(s[j]))
                           && (forall j :: b <= j < |s| ==> IsWhitespace(s[j]))
  {
    var a := SkipLeading(s, 0);
    var b := SkipTrailing(s, a, |s|);
    s[a..b]
  }

  /** Trimming twice is trimming once. */
  lemma TrimIdempotent(s: string)
    ensures Trim(Trim(s)) == Trim(s)
  {
  }

  /** The add dialog's OK button: the trimmed input, when it is not empty, is what gets stored. */
  function DialogValue(input: string): (r: Option<string>)
    ensures r.None? <==> forall j :: 0 <= j < |input| ==> IsWhitespace(input[j])
    ensures r.Some? ==> r.value != [] && Unpadded(r.value) && r.value == Trim(input)
  {
    var value := Trim(input);
    if value != [] then Some(value) else None
  }

  /** The add dialog never stores an empty or whitespace-padded value into a rule set. */
  lemma DialogKeepsValuesUnpadded(entries: Store, input: string, t: BlockType)
    requires WellTyped(entries)
    requires forall v :: v in BlockedItems(entries, t) ==> v != [] && Unpadded(v)
    ensures var after := match DialogValue(input)
                         case Some(v) => WithItem(entries, v, t)
                         case None => entries;
            forall v :: v in BlockedItems(after, t) ==> v != [] && Unpadded(v)
  {
  }

  /** The settings screen, writing to the shared preferences. */
  class SettingsActivity {
    const prefs: Preferences

    constructor (prefs: Preferences)
      ensures this.prefs == prefs
    {
      this.prefs := prefs;
    }

    /** `addBlockedItem`: copy the set, add the value, write it back under the type's key. */
    method AddBlockedItem(value: string, t: BlockType)
      requires prefs.Valid()
      modifies prefs
      ensures prefs.Valid()
      ensures prefs.entries == WithItem(old(prefs.entries), value, t)
    {
      var key := KeyFor(t);
      var current := GetStringSet(prefs.entries, key, {});
      var updated := current + {value};
      prefs.PutStringSet(key, updated);
    }

    /** `removeBlockedItem`: copy the set, remove the value, write it back under the type's key. */
    method RemoveBlockedItem(value: string, t: BlockType)
      requires prefs.Valid()
      modifies prefs
      ensures prefs.Valid()
      ensures prefs.entries == WithoutItem(old(prefs.entries), value, t)
    {
      var key := KeyFor(t);
      var current := GetStringSet(prefs.entries, key, {});
      var updated := current - {value};
      prefs.PutStringSet(key, updated);
    }

    /** The positive button of `showAddDialog`: trim the input and add it when it is not empty. */
    method ConfirmAddDialog(t: BlockType, input: string) returns (added: bool)
      requires prefs.Valid()
      modifies prefs
      ensures prefs.Valid()
      ensures added <==> DialogValue(input).Some?
      ensures prefs.entries == if added then WithItem(old(prefs.entries), Trim(input), t) else old(prefs.entries)
    {
      var value := Trim(input);
      added := value != [];
      if added {
        AddBlockedItem(value, t);
      }
    }
  }
}
