/** The browser's two Web Storage tiers: `localStorage` (durable) and
    `sessionStorage` (per tab). There is one store per page, shared by every
    component; a missing key reads as the empty string, which every caller
    treats exactly like `null` (both are falsy, and neither equals "1"). */
module Storage {

  /** `tier.getItem(key)`, with "" for `null`. */
  function GetItem(tier: map<string, string>, key: string): string {
    if key in tier then tier[key] else ""
  }

  /** `localStorage.getItem(key) || sessionStorage.getItem(key)`: the durable
      value unless it is missing or empty, then the per-tab one. */
  function ReadKey(local: map<string, string>, session: map<string, string>, key: string): (r: string)
    ensures r != "" ==> r == GetItem(local, key) || (GetItem(local, key) == "" && r == GetItem(session, key))
    ensures r == "" <==> GetItem(local, key) == "" && GetItem(session, key) == ""
  {
    var durable := GetItem(local, key);
    if durable != "" then durable else GetItem(session, key)
  }

  /** A non-empty durable value hides whatever the per-tab tier holds for the same key. */
  lemma {:induction false} DurableShadowsSession(local: map<string, string>, session: map<string, string>, key: string, v: string)
    requires GetItem(local, key) != ""
    ensures ReadKey(local, session[key := v], key) == ReadKey(local, session, key) == local[key]
  {
  }

  class BrowserStorage {
    var local: map<string, string>
    var session: map<string, string>

    constructor (local: map<string, string>, session: map<string, string>)
      ensures this.local == local && this.session == session
    {
      this.local := local;
      this.session := session;
    }

    /** `localStorage.setItem(key, value)` when `durable`, else the `sessionStorage` one. */
    method SetItem(durable: bool, key: string, value: string)
      modifies this
      ensures durable ==> local == old(local)[key := value] && session == old(session)
      ensures !durable ==> session == old(session)[key := value] && local == old(local)
    {
      if durable {
        local := local[key := value];
      } else {
        session := session[key := value];
      }
    }

    /** `localStorage.clear(); sessionStorage.clear()`. */
    method ClearAll()
      modifies this
      ensures local == map[] && session == map[]
    {
      local := map[];
      session := map[];
    }
  }
}
