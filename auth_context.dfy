/** The client session store (`AuthProvider`): whether a user is signed in
    and which roles the stored token grants. */
module AuthContext {
  import opened Wrappers
  import Browser

  /** A stored token that JavaScript treats as present. */
  predicate HasToken(entries: map<string, string>) {
    "jwtToken" in entries && entries["jwtToken"] != ""
  }

  /** `getRolesFromToken`: the roles the stored token carries. `decode`
      stands for reading `roles` from `jwtDecode(token)`: `None` when
      decoding throws or the claim is missing, and the roles list is then
      empty; there are no roles without a token either. */
  function RolesFromToken(entries: map<string, string>, decode: string -> Option<seq<string>>): (r: seq<string>)
    ensures !HasToken(entries) ==> r == []
    ensures HasToken(entries) && decode(entries["jwtToken"]).None? ==> r == []
    ensures HasToken(entries) && decode(entries["jwtToken"]).Some? ==> r == decode(entries["jwtToken"]).value
  {
    if HasToken(entries) then decode(entries["jwtToken"]).GetOr([]) else []
  }

  /** `isAdmin`: some role is exactly "ROLE_ADMIN". */
  function IsAdmin(roles: seq<string>): (r: bool)
    ensures r <==> exists i :: 0 <= i < |roles| && roles[i] == "ROLE_ADMIN"
  {
    "ROLE_ADMIN" in roles
  }

  class AuthProvider {
    var isAuthenticated: bool
    var roles: seq<string>
    var isLoading: bool
    const storage: Browser.LocalStorage
    /** The token decoder `getRolesFromToken` uses. */
    const decode: string -> Option<seq<string>>

    /** The derived `isAdmin` flag. */
    function Admin(): bool
      reads this
    {
      IsAdmin(roles)
    }

    /** The `useState` initial values: signed out, no roles, loading. */
    constructor (storage: Browser.LocalStorage, decode: string -> Option<seq<string>>)
      ensures !isAuthenticated && roles == [] && isLoading
      ensures this.storage == storage && this.decode == decode
    {
      isAuthenticated, roles, isLoading := false, [], true;
      this.storage := storage;
      this.decode := decode;
    }

    /** The mount effect: a stored token signs the user in with its roles
        and ends loading; without one nothing changes, so `isLoading`
        stays as it was. The storage is only read. */
    method Init()
      modifies this
      ensures HasToken(storage.entries) ==>
        isAuthenticated && roles == RolesFromToken(storage.entries, decode) && !isLoading
      ensures !HasToken(storage.entries) ==>
        isAuthenticated == old(isAuthenticated) && roles == old(roles) && isLoading == old(isLoading)
    {
      var token := storage.GetItem("jwtToken");
      if token.Some? && token.value != "" {
        isAuthenticated := true;
        roles := RolesFromToken(storage.entries, decode);
        isLoading := false;
      }
    }

    /** `login(token)`: stores the token under "jwtToken" and nothing else,
        signs in, and takes the roles from the token just stored. */
    method Login(token: string)
      modifies this, storage
      ensures storage.entries == old(storage.entries)["jwtToken" := token]
      ensures isAuthenticated && isLoading == old(isLoading)
      ensures roles == RolesFromToken(storage.entries, decode)
      ensures token != "" && decode(token).Some? ==> roles == decode(token).value
    {
      storage.SetItem("jwtToken", token);
      isAuthenticated := true;
      roles := RolesFromToken(storage.entries, decode);
    }

    /** `logout()`: removes only the token (the user and cart ids stay),
        signs out and drops every role, so the user is no longer an
        administrator and the storage yields no roles. */
    method Logout()
      modifies this, storage
      ensures storage.entries == old(storage.entries) - {"jwtToken"}
      ensures forall key :: key in old(storage.entries) && key != "jwtToken" ==>
        key in storage.entries && storage.entries[key] == old(storage.entries)[key]
      ensures !isAuthenticated && roles == [] && isLoading == old(isLoading)
      ensures !Admin() && RolesFromToken(storage.entries, decode) == []
    {
      storage.RemoveItem("jwtToken");
      isAuthenticated := false;
      roles := [];
    }
  }
}
