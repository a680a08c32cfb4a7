/**
 * The prefixed key/value store behind `saveToLocalStorage` and
 * `getFromLocalStorage`: every key the application uses is namespaced under
 * `marketingSystem_`, a write that fails is swallowed, and a read that fails
 * or finds nothing yields `null`. JSON encoding and decoding are taken to be
 * the identity, so a stored value is the decoded value itself.
 */
module Storage {

  import opened Optional

  /** A decoded JSON scalar as the application stores it. */
  datatype Value = Null | Bool(b: bool) | Num(n: int) | Str(s: string)

  /** JavaScript truthiness of a decoded value (`if (v)` in the source). */
  predicate Truthy(v: Value) {
    match v
    case Null => false
    case Bool(b) => b
    case Num(n) => n != 0
    case Str(s) => s != ""
  }

  const PREFIX: string := "marketingSystem_"

  /** The browser-storage key under which application key `key` is kept. */
  function StorageKey(key: string): (k: string)
    ensures |k| == |PREFIX| + |key|
    ensures k[..|PREFIX|] == PREFIX && k[|PREFIX|..] == key
  {
    PREFIX + key
  }

  /** The application key a browser-storage key belongs to, if it has the prefix. */
  function KeyOf(k: string): (key: Option<string>)
    ensures key.Some? <==> |k| >= |PREFIX| && k[..|PREFIX|] == PREFIX
  {
    if |k| >= |PREFIX| && k[..|PREFIX|] == PREFIX then Some(k[|PREFIX|..]) else None
  }

  /** Stripping the prefix undoes adding it, and only prefixed keys are application keys. */
  lemma KeyOfStorageKey(key: string, k: string)
    ensures KeyOf(StorageKey(key)) == Some(key)
    ensures KeyOf(k) == Some(key) ==> k == StorageKey(key)
  {
    if KeyOf(k) == Some(key) {
      assert k == k[..|PREFIX|] + k[|PREFIX|..];
    }
  }

  /** Two application keys share a storage key only if they are the same key. */
  lemma StorageKeyInjective(a: string, b: string)
    ensures StorageKey(a) == StorageKey(b) <==> a == b
  {
    if StorageKey(a) == StorageKey(b) {
      assert a == StorageKey(a)[|PREFIX|..];
    }
  }

  /** What `getFromLocalStorage(key)` returns from storage `items`. */
  function Read(items: map<string, Value>, failing: bool, key: string): Value {
    if failing || StorageKey(key) !in items then Null else items[StorageKey(key)]
  }

  /** The storage after `saveToLocalStorage(key, v)`. */
  function Write(items: map<string, Value>, failing: bool, key: string, v: Value): map<string, Value> {
    if failing then items else items[StorageKey(key) := v]
  }

  /** Saving then reading the same key on working storage gives back the value. */
  lemma ReadAfterWrite(items: map<string, Value>, key: string, v: Value)
    ensures Read(Write(items, false, key, v), false, key) == v
    ensures StorageKey(key) in Write(items, false, key, v)
  {
  }

  /** Saving one key leaves every other application key as it was. */
  lemma {:induction false} ReadOtherAfterWrite(items: map<string, Value>, failing: bool, key: string, other: string, v: Value)
    requires other != key
    ensures Read(Write(items, failing, key, v), failing, other) == Read(items, failing, other)
  {
    StorageKeyInjective(key, other);
  }

  /** Saving touches exactly one storage key: the prefixed one. */
  lemma WriteTouchesOneKey(items: map<string, Value>, key: string, v: Value, k: string)
    requires k != StorageKey(key)
    ensures k in Write(items, false, key, v) <==> k in items
    ensures k in items ==> Write(items, false, key, v)[k] == items[k]
  {
  }

  /** A failing write changes nothing and a failing read yields null. */
  lemma FailingStorage(items: map<string, Value>, key: string, v: Value)
    ensures Write(items, true, key, v) == items
    ensures Read(items, true, key) == Null
  {
  }

  /** A key never saved reads as null. */
  lemma ReadAbsent(items: map<string, Value>, failing: bool, key: string)
    requires StorageKey(key) !in items
    ensures Read(items, failing, key) == Null
  {
  }

  /** The browser's storage area as the application sees it. */
  class Store {
    /** The entries, by full (prefixed) storage key. */
    var items: map<string, Value>
    /** Storage is disabled, full or unreadable: every access throws. */
    var failing: bool

    constructor (initial: map<string, Value>, fails: bool)
      ensures items == initial && failing == fails
    {
      items := initial;
      failing := fails;
    }

    /** `saveToLocalStorage`: best effort, a failure is swallowed. */
    method Save(key: string, v: Value)
      modifies this`items
      ensures items == Write(old(items), failing, key, v)
    {
      if !failing {
        items := items[StorageKey(key) := v];
      }
    }

    /** `getFromLocalStorage`: null when absent or when storage throws. */
    method Get(key: string) returns (v: Value)
      ensures failing ==> v == Null
      ensures !failing && StorageKey(key) !in items ==> v == Null
      ensures !failing && StorageKey(key) in items ==> v == items[StorageKey(key)]
      ensures v == Read(items, failing, key)
    {
      if failing {
        return Null;
      }
      var k := StorageKey(key);
      if k in items {
        v := items[k];
      } else {
        v := Null;
      }
    }
  }
}
