/** The role context: one string cell, read from the store at start-up
    and written back by `setRole`. */
module RoleContext {
  import opened Common
  import opened Storage

  const DefaultRole := "volunteer"

  /** The initial state: the stored `role`, or `volunteer` when it is
      absent or empty. The stored value is not checked against the roles. */
  function InitialRole(store: map<string, string>): (r: string)
    ensures "role" in store && store["role"] != "" ==> r == store["role"]
    ensures !("role" in store && store["role"] != "") ==> r == DefaultRole
    ensures r != ""
  {
    if "role" in store && store["role"] != "" then store["role"] else DefaultRole
  }

  /** What `setRole` writes is what the next start-up reads, unless it is
      the empty string, which reads back as the default. */
  lemma SetRoleThenReload(store: map<string, string>, newRole: string)
    ensures newRole != "" ==> InitialRole(store["role" := newRole]) == newRole
    ensures newRole == "" ==> InitialRole(store["role" := newRole]) == DefaultRole
  {
  }

  class RoleProvider {
    var role: string
    const storage: LocalStorage

    constructor (storage: LocalStorage)
      ensures this.storage == storage && role == InitialRole(storage.strings)
    {
      this.storage := storage;
      role := InitialRole(storage.strings);
    }

    /** `setRole`: any string is accepted. */
    method SetRole(newRole: string)
      modifies this, storage
      ensures role == newRole
      ensures storage.strings == old(storage.strings)["role" := newRole]
      ensures storage.users == old(storage.users) && storage.invoices == old(storage.invoices)
      ensures newRole != "" ==> InitialRole(storage.strings) == role
    {
      role := newRole;
      storage.SetItem("role", newRole);
      SetRoleThenReload(old(storage.strings), newRole);
    }
  }
}
