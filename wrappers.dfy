/** The optional value that stands for JavaScript's `null`/`undefined` results. */
module Wrappers {

  datatype Option<+T> = None | Some(value: T)

  /** Looking a key up in a map: JavaScript's `null`/`undefined` for a missing key.
      This is the abstraction of both `chrome.storage.sync.get` of one key and
      `document.querySelector` of one selector. */
  function Find<K, V>(m: map<K, V>, k: K): (v: Option<V>)
    ensures v.Some? <==> k in m
    ensures v.Some? ==> v.value == m[k]
  {
    if k in m then Some(m[k]) else None
  }
}
