/**
 The synchronous string-to-string key-value store the program uses for its
 durable settings (the browser's `localStorage`): get, set and remove by key.
 */
module Storage {
  import opened Options

  type Store = map<string, string>

  /** `getItem`: the value under `key`, or nothing when the key is absent. */
  function Get(s: Store, key: string): (r: Option<string>)
    ensures r.Some? <==> key in s
    ensures r.Some? ==> r.value == s[key]
  {
    if key in s then Some(s[key]) else None
  }

  /** `setItem`: `key` now holds `value`; every other key reads as before. */
  function Set(s: Store, key: string, value: string): (r: Store)
    ensures Get(r, key) == Some(value)
    ensures forall k :: k != key ==> Get(r, k) == Get(s, k)
    ensures r.Keys == s.Keys + {key}
  {
    s[key := value]
  }

  /** `removeItem`: `key` is absent afterwards; every other key reads as before. */
  function Remove(s: Store, key: string): (r: Store)
    ensures Get(r, key) == None
    ensures forall k :: k != key ==> Get(r, k) == Get(s, k)
    ensures r.Keys == s.Keys - {key}
  {
    s - {key}
  }

  /** Two stores that read alike under every key are the same store. */
  lemma SameReads(s: Store, t: Store)
    requires forall k :: Get(s, k) == Get(t, k)
    ensures s == t
  {
    assert s.Keys == t.Keys by {
      forall k | k in s ensures k in t {
        assert Get(s, k).Some?;
      }
      forall k | k in t ensures k in s {
        assert Get(t, k).Some?;
      }
    }
    forall k | k in s ensures s[k] == t[k] {
      assert Get(s, k) == Get(t, k);
    }
  }

  /** Writing back the value a key already holds changes nothing. */
  lemma SetUnchanged(s: Store, key: string, value: string)
    requires Get(s, key) == Some(value)
    ensures Set(s, key, value) == s
  {
    SameReads(Set(s, key, value), s);
  }
}
