/** Derivation of the backend key from the configured name and a lock name. */
module LockKey {
  import opened Outcomes

  /** The configured name as Java's string concatenation renders it: a null
      name becomes the four letters "null". */
  function NameText(name: Option<string>): (text: string)
  {
    match name
    case None => "null"
    case Some(s) => s
  }

  /** getLockKey: the configured name, an underscore, then the lock name. */
  function GetLockKey(name: Option<string>, lockName: string): (key: string)
    ensures |key| == |NameText(name)| + 1 + |lockName|
    ensures key[..|NameText(name)|] == NameText(name)
    ensures key[|NameText(name)|] == '_'
    ensures key[|NameText(name)| + 1..] == lockName
  {
    NameText(name) + "_" + lockName
  }

  /** The lock name that `key` was derived from under the configured `name`,
      or None when `key` does not start with that name and an underscore. */
  function LockNameOf(name: Option<string>, key: string): (lockName: Option<string>)
  {
    var p := NameText(name);
    if |p| < |key| && key[..|p|] == p && key[|p|] == '_' then Some(key[|p| + 1..]) else None
  }

  /** Stripping the configured name recovers the lock name. */
  lemma KeyRoundTrip(name: Option<string>, lockName: string)
    ensures LockNameOf(name, GetLockKey(name, lockName)) == Some(lockName)
  {
  }

  /** Every key that strips to a lock name is the key of that lock name. */
  lemma LockNameOfSound(name: Option<string>, key: string)
    ensures LockNameOf(name, key).Some? ==> GetLockKey(name, LockNameOf(name, key).value) == key
  {
    var p := NameText(name);
    if LockNameOf(name, key).Some? {
      assert key == key[..|p|] + [key[|p|]] + key[|p| + 1..];
    }
  }

  /** Under one configured name, distinct lock names give distinct keys. */
  lemma KeyInjective(name: Option<string>, a: string, b: string)
    ensures GetLockKey(name, a) == GetLockKey(name, b) <==> a == b
  {
    KeyRoundTrip(name, a);
    KeyRoundTrip(name, b);
  }

  /** Across configured names the key is not one-to-one: an underscore in
      either part lets two different pairs share a key. */
  lemma KeysCollideAcrossNames()
    ensures GetLockKey(Some("a_b"), "c") == GetLockKey(Some("a"), "b_c")
  {
  }

  /** A null configured name and the configured name "null" share keys. */
  lemma NullNameCollides(lockName: string)
    ensures GetLockKey(None, lockName) == GetLockKey(Some("null"), lockName)
  {
  }
}
