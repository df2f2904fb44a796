/**
 * The browser's key/value stores, shared by every component of one tab:
 * `localStorage` (kept across sessions) and `sessionStorage` (kept for the
 * tab's lifetime).
 */
module Browser {
  import opened Types

  class Storage {
    var local: map<string, string>
    var session: map<string, string>

    constructor (local0: map<string, string>, session0: map<string, string>)
      ensures local == local0 && session == session0
    {
      local := local0;
      session := session0;
    }
  }

  /** `getItem`: the stored value, or null when the key is absent. */
  function Lookup(m: map<string, string>, key: string): Option<string> {
    if key in m then Some(m[key]) else None
  }
}
