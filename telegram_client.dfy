/**
 * The per-account cache of Telegram clients kept by `get_client`
 * (telegram/telegram/client.py, `_active_clients`).
 */
module TelegramClient {
  import opened Wrappers

  /** A Telethon client: its construction arguments, the account tag and the connection state. */
  class Client {
    const apiId: int
    const apiHash: string
    const sessionString: Option<string>
    var accountId: Option<int>
    var connected: bool

    constructor (apiId: int, apiHash: string, sessionString: Option<string>)
      ensures this.apiId == apiId && this.apiHash == apiHash && this.sessionString == sessionString
      ensures accountId.None? && !connected
    {
      this.apiId := apiId;
      this.apiHash := apiHash;
      this.sessionString := sessionString;
      accountId := None;
      connected := false;
    }
  }

  /** Python truthiness of `account_id`: None and 0 are false. */
  predicate Truthy(accountId: Option<int>) {
    accountId.Some? && accountId.value != 0
  }

  /** Whether the registry holds a live client for `accountId`. */
  function CachedLive(active: map<int, Client>, accountId: Option<int>): (r: Option<Client>)
    reads set id | id in active :: active[id]
    ensures r.Some? <==> Truthy(accountId) && accountId.value in active && active[accountId.value].connected
    ensures r.Some? ==> r.value == active[accountId.value]
  {
    if Truthy(accountId) && accountId.value in active && active[accountId.value].connected
    then Some(active[accountId.value]) else None
  }

  class Registry {
    /** `_active_clients`: account id to client. */
    var active: map<int, Client>

    constructor ()
      ensures active == map[]
    {
      active := map[];
    }

    /**
     * `get_client`: a truthy account id with a live cached client returns that client and
     * builds nothing. Otherwise a new client is built; a truthy account id tags it and stores it
     * under that id, replacing a stale entry. Entries for other ids never change.
     */
    method GetClient(apiId: int, apiHash: string, sessionString: Option<string>, accountId: Option<int>)
      returns (c: Client)
      modifies this
      ensures var cached := CachedLive(old(active), accountId);
        cached.Some? ==> c == cached.value && active == old(active)
      ensures CachedLive(old(active), accountId).None? ==>
        && fresh(c) && c.apiId == apiId && c.apiHash == apiHash && c.sessionString == sessionString
        && !c.connected
        && (Truthy(accountId) ==> c.accountId == accountId && active == old(active)[accountId.value := c])
        && (!Truthy(accountId) ==> c.accountId.None? && active == old(active))
      ensures forall id :: id in old(active) && (!Truthy(accountId) || id != accountId.value) ==>
        id in active && active[id] == old(active)[id]
    {
      var cached := CachedLive(active, accountId);
      if cached.Some? {
        return cached.value;
      }
      c := new Client(apiId, apiHash, sessionString);
      if Truthy(accountId) {
        c.accountId := accountId;
        active := active[accountId.value := c];
      }
    }
  }
}
