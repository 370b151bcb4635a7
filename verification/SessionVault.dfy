/** The vault's session records, as far as the scheduler reads and writes them. */
module SessionVaultModel {
  import opened Basics

  /** A stored record that is not JSON, or the fields the owner check looks at. */
  datatype StoredSession =
    | Corrupt
    | Stored(id: Option<string>, kind: Option<string>, automation: Option<string>, generation: Option<nat>,
             revision: string)

  datatype Vault = Vault(sessions: map<string, StoredSession>, writes: nat, disk: nat -> bool) {

    function Put(id: string, record: StoredSession): (Vault, bool) {
      if disk(writes) then (this.(sessions := sessions[id := record], writes := writes + 1), true)
      else (this.(writes := writes + 1), false)
    }
  }

  class SessionVault {
    var sessions: map<string, StoredSession>
    var writes: nat
    const disk: nat -> bool

    ghost function Now(): Vault reads this {
      Vault(sessions, writes, disk)
    }

    constructor (disk: nat -> bool)
      ensures Now() == Vault(map[], 0, disk)
    {
      sessions, writes := map[], 0;
      this.disk := disk;
    }

    method Put(id: string, record: StoredSession) returns (ok: bool)
      modifies this
      ensures (Now(), ok) == old(Now()).Put(id, record)
    {
      ok := disk(writes);
      writes := writes + 1;
      if ok {
        sessions := sessions[id := record];
      }
    }
  }
}
