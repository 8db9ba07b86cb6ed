/**
 * The login session kept in the private key-value preferences file
 * `login_prefs`: an e-mail, a token and an "is authorised" flag.
 */
module Session {
  import opened Wrappers

  const KeyToken: string := "token"
  const KeyEmail: string := "email"
  const KeyIsAuthorized: string := "is_authorized"

  /** A stored preference value: the store only ever holds strings and booleans. */
  datatype Pref = PString(s: string) | PBool(b: bool)

  class SessionManager {
    /** The contents of the preferences file. */
    var prefs: map<string, Pref>

    /** Each key holds the kind of value its getter reads. */
    ghost predicate Valid()
      reads this
    {
      && (KeyToken in prefs ==> prefs[KeyToken].PString?)
      && (KeyEmail in prefs ==> prefs[KeyEmail].PString?)
      && (KeyIsAuthorized in prefs ==> prefs[KeyIsAuthorized].PBool?)
    }

    /** A store that was never written: no token, no e-mail, not authorised. */
    constructor ()
      ensures Valid() && prefs == map[]
      ensures GetToken() == None && GetEmail() == None && !IsAuthorized()
    {
      prefs := map[];
    }

    /** `getToken()`: the stored token, or null. */
    function GetToken(): Option<string>
      reads this
    {
      if KeyToken in prefs && prefs[KeyToken].PString? then Some(prefs[KeyToken].s) else None
    }

    /** `getEmail()`: the stored e-mail, or null. */
    function GetEmail(): Option<string>
      reads this
    {
      if KeyEmail in prefs && prefs[KeyEmail].PString? then Some(prefs[KeyEmail].s) else None
    }

    /** `isAuthorized()`: the stored flag, false when absent. */
    function IsAuthorized(): bool
      reads this
    {
      KeyIsAuthorized in prefs && prefs[KeyIsAuthorized].PBool? && prefs[KeyIsAuthorized].b
    }

    /**
     * `saveSession`: writes the three keys in one edit, overwriting any
     * earlier session; every other key of the file is left as it was.
     */
    method SaveSession(email: string, token: string)
      requires Valid()
      modifies this
      ensures Valid()
      ensures GetToken() == Some(token) && GetEmail() == Some(email) && IsAuthorized()
      ensures prefs.Keys == old(prefs).Keys + {KeyEmail, KeyToken, KeyIsAuthorized}
      ensures forall k :: k in old(prefs) && k !in {KeyEmail, KeyToken, KeyIsAuthorized} ==> prefs[k] == old(prefs)[k]
    {
      prefs := prefs[KeyEmail := PString(email)][KeyToken := PString(token)][KeyIsAuthorized := PBool(true)];
    }

    /** `clearSession`: empties the whole file, so clearing twice is the same as clearing once. */
    method ClearSession()
      modifies this
      ensures Valid() && prefs == map[]
      ensures GetToken() == None && GetEmail() == None && !IsAuthorized()
    {
      prefs := map[];
    }
  }
}
