/** The `ActiveDirectoryOperation` trait of the connection class: enabling or
    disabling an account, setting a password through `unicodePwd`, and finding a
    user's DN. The trait's methods take the connection they run on as `conn`. The
    trait looks the account up with `get_entry`, taken here to be the connection's
    `getEntry`, and reads the base DN from the connection's search options. */
module ActiveDirectory {
  import opened Errors
  import opened Php
  import opened Encodings
  import opened Entries
  import opened LdapUtils
  import opened Directory
  import opened Connection

  // ---------------------------------------------------------------------------
  // userAccountControl

  /** The single-bit `flag` is set in `v`. */
  predicate HasFlag(v: nat, flag: nat)
    requires flag > 0
  {
    (v / flag) % 2 == 1
  }

  /** The userAccountControl value the toggle writes: the enable or the disable flag,
      the normal-account flag and the never-expiring-password flag, added up (`intval`
      of an integer ignores its base of 16). ACCOUNTDISABLE is set exactly when the
      account is being disabled, the enable flag exactly when it is being enabled, the
      two flags every call sets are always on, and no other flag is. */
  function AccountControl(active: bool): (v: nat)
    ensures v == (if active then USER_ACCOUNT_ENABLE else USER_ACCOUNT_DISABLE)
      + USER_NORMAL_ACCOUNT + USER_DONT_EXPIRE_PASSWD
    ensures HasFlag(v, USER_ACCOUNT_ENABLE) == active
    ensures HasFlag(v, USER_ACCOUNT_DISABLE) == !active
    ensures HasFlag(v, USER_NORMAL_ACCOUNT) && HasFlag(v, USER_DONT_EXPIRE_PASSWD)
    ensures !HasFlag(v, USER_PASSWD_NOTREQD) && !HasFlag(v, USER_PASSWD_CANT_CHANGE)
    ensures !HasFlag(v, USER_PASSWORD_EXPIRED) && !HasFlag(v, ADS_SYSTEMFLAG_DISALLOW_DELETE)
  {
    if active then USER_ACCOUNT_ENABLE + USER_NORMAL_ACCOUNT + USER_DONT_EXPIRE_PASSWD
    else USER_ACCOUNT_DISABLE + USER_NORMAL_ACCOUNT + USER_DONT_EXPIRE_PASSWD
  }

  /** The one attribute the toggle replaces. */
  function AccountControlChange(active: bool): Changes {
    map["userAccountControl" := Number(AccountControl(active))]
  }

  const DN_ATTRIBUTE: string := "distinguishedname"

  /** The tags that open the messages of the three methods' exceptions. */
  const TOGGLE_TAG: string := "[LDAPActiveDirectoryTools::toggle_account_activation] "
  const SET_PASSWORD_TAG: string := "[LDAPActiveDirectoryTools::set_password] "
  const GET_USER_DN_TAG: string := "[LDAPActiveDirectoryTools::get_user_dn] "

  function NoUser(uid: string): LdapError {
    LdapError(PlainException, TOGGLE_TAG + "no user " + uid + " found", 0)
  }

  function ToggleFailure(d: Diagnostic): LdapError {
    LdapError(PlainException, TOGGLE_TAG + "fail to search user dn cause : " + LastError(d), 0)
  }

  /** What `ldap_mod_replace` throws when its DN argument is an array. */
  const DN_REFUSED: string := "ldap_mod_replace(): Argument #2 ($dn) must be of type string, array given"

  /** The DN handed to `ldap_mod_replace` from a property: a single value as it is,
      null as "", and a list is refused by the extension. */
  function DnArgument(v: Value<string>): (r: Result<string>)
    ensures r.Err? <==> v.Multi?
    ensures v.Scalar? ==> r == Ok(v.value)
  {
    match v
    case Scalar(dn) => Ok(dn)
    case Null => Ok("")
    case Multi(_) => Err(LdapError(TypeError, DN_REFUSED, 0))
  }

  /** `ad_toggle_account_activation`: looks the account up by "cn=<uid>", then
      replaces its userAccountControl, and only that attribute, on the DN found. When no
      entry comes back, `property_exists` is handed null and throws a TypeError; an entry
      without the attribute gives the "no user" exception. */
  method ToggleAccountActivation(conn: ConnectionLDAP, uid: string, active: bool) returns (r: Result<bool>)
    modifies conn.connection
    ensures conn.connection.replies == Drop(old(conn.connection.replies))
    ensures var found := FirstEntry(Head(old(conn.connection.replies)), conn.connection.diagnostic);
      var lookup := SearchOp(Request(ScopeFor(conn.searchOptions.scope), conn.searchOptions.baseDN,
        "cn=" + uid, [DN_ATTRIBUTE], 1, None));
      !(found.Ok? && found.value.Some? && DN_ATTRIBUTE in found.value.value
        && DnArgument(found.value.value[DN_ATTRIBUTE]).Ok?) ==>
        conn.connection.log == old(conn.connection.log) + [lookup] && conn.connection.verdicts == old(conn.connection.verdicts)
    ensures var found := FirstEntry(Head(old(conn.connection.replies)), conn.connection.diagnostic);
      && (found.Err? ==> r == Err(found.error))
      && (found.Ok? && found.value.None? ==> r == Err(PropertyExistsRefused("null")))
      && (found.Ok? && found.value.Some? && DN_ATTRIBUTE !in found.value.value ==> r == Err(NoUser(uid)))
    ensures var found := FirstEntry(Head(old(conn.connection.replies)), conn.connection.diagnostic);
      var lookup := SearchOp(Request(ScopeFor(conn.searchOptions.scope), conn.searchOptions.baseDN,
        "cn=" + uid, [DN_ATTRIBUTE], 1, None));
      found.Ok? && found.value.Some? && DN_ATTRIBUTE in found.value.value ==>
        var dn := DnArgument(found.value.value[DN_ATTRIBUTE]);
        && (dn.Err? ==> r == Err(dn.error))
        && (dn.Ok? ==>
              && conn.connection.log == old(conn.connection.log) + [lookup, ModReplaceOp(dn.value, AccountControlChange(active))]
              && conn.connection.verdicts == Drop(old(conn.connection.verdicts))
              && r == if Granted(old(conn.connection.verdicts)) then Ok(true) else Err(ToggleFailure(conn.connection.diagnostic)))
  {
    ghost var lookup := SearchOp(Request(ScopeFor(conn.searchOptions.scope), conn.searchOptions.baseDN,
      "cn=" + uid, [DN_ATTRIBUTE], 1, None));
    var res := conn.GetEntry("cn=" + uid, Names([DN_ATTRIBUTE]));
    assert conn.connection.log == old(conn.connection.log) + [lookup];
    if res.Err? {
      return Err(res.error);
    }
    if res.value.None? {
      return Err(PropertyExistsRefused("null"));
    }
    if DN_ATTRIBUTE !in res.value.value {
      return Err(NoUser(uid));
    }
    var dn := DnArgument(res.value.value[DN_ATTRIBUTE]);
    if dn.Err? {
      return Err(dn.error);
    }
    var ok := conn.connection.Call(ModReplaceOp(dn.value, AccountControlChange(active)));
    assert conn.connection.log == old(conn.connection.log) + [lookup, ModReplaceOp(dn.value, AccountControlChange(active))];
    if ok {
      return Ok(true);
    } else {
      return Err(ToggleFailure(conn.connection.diagnostic));
    }
  }

  // ---------------------------------------------------------------------------
  // unicodePwd

  /** The quoted password stays inside the BMP when the password does. */
  lemma QuotedBmp(password: string)
    requires BmpOnly(password)
    ensures BmpOnly("\"" + password + "\"")
  {
    var quoted := "\"" + password + "\"";
    forall i | 0 <= i < |quoted|
      ensures (quoted[i] as int) < 0x10000
    {
      if 0 < i < |quoted| - 1 {
        assert quoted[i] == password[i - 1];
      }
    }
  }

  /** `mb_convert_encoding('"' . $mdp . '"', "UTF-16LE")`: the password in double
      quotes, in UTF-16LE. It starts and ends with the quote's two bytes, decodes back
      to the quoted password, and takes two bytes per character inside the BMP. */
  function UnicodePwd(password: string): (b: seq<Byte>)
    ensures |b| >= 4 && b[..2] == [0x22, 0x00] && b[|b| - 2..] == [0x22, 0x00]
    ensures FromUtf16Le(b) == Some("\"" + password + "\"")
    ensures BmpOnly(password) ==> |b| == 2 * (|password| + 2)
  {
    var quoted := "\"" + password + "\"";
    Utf16LeAppend("\"" + password, "\"");
    Utf16LeAppend("\"", password);
    Utf16LeRoundTrip(quoted);
    if BmpOnly(password) then QuotedBmp(password); Utf16LeBmpLength(quoted); Utf16Le(quoted)
    else Utf16Le(quoted)
  }

  // ---------------------------------------------------------------------------
  // ad_set_password and ad_get_user_dn

  /** The search both methods send: "cn=<cn>" below the base DN, every attribute,
      and -1, the extension's default size limit. */
  function UserSearch(baseDn: string, cn: string): Request {
    Request(Subtree, baseDn, "cn=" + cn, [], -1, None)
  }

  /** `ldap_first_entry` found nothing, and `ldap_get_dn` refuses the `false` it got. */
  const GET_DN_FAILURE: LdapError :=
    LdapError(TypeError, "ldap_get_dn(): Argument #2 ($entry) must be of type LDAP\\ResultEntry, bool given", 0)

  function PasswordSearchFailure(d: Diagnostic): LdapError {
    LdapError(PlainException, SET_PASSWORD_TAG + "fail to search user dn cause : " + LastError(d), 0)
  }

  function PasswordFailure(cn: string, d: Diagnostic): LdapError {
    LdapError(PlainException, SET_PASSWORD_TAG + "fail set password for user " + cn + ", cause : " + LastError(d), 0)
  }

  /** `ad_set_password`: finds the user, then replaces its `unicodepwd` with the
      encoded password on the DN of the first entry found. */
  method SetPassword(conn: ConnectionLDAP, cn: string, mdp: string) returns (r: Result<bool>)
    modifies conn.connection
    ensures conn.connection.replies == Drop(old(conn.connection.replies))
    ensures var reply := Head(old(conn.connection.replies));
      var search := SearchOp(UserSearch(conn.searchOptions.baseDN, cn));
      var noCall := conn.connection.log == old(conn.connection.log) + [search]
        && conn.connection.verdicts == old(conn.connection.verdicts);
      && (reply.None? ==> r == Err(PasswordSearchFailure(conn.connection.diagnostic)) && noCall)
      && (reply.Some? && reply.value.entries == [] ==> r == Err(GET_DN_FAILURE) && noCall)
      && (reply.Some? && reply.value.entries != [] ==>
            && conn.connection.log == old(conn.connection.log)
                 + [search, ModReplaceOp(reply.value.entries[0].dn, map["unicodepwd" := Octets(UnicodePwd(mdp))])]
            && conn.connection.verdicts == Drop(old(conn.connection.verdicts))
            && r == if Granted(old(conn.connection.verdicts)) then Ok(true) else Err(PasswordFailure(cn, conn.connection.diagnostic)))
  {
    var search := conn.connection.Send(UserSearch(conn.searchOptions.baseDN, cn));
    if search.None? {
      return Err(PasswordSearchFailure(conn.connection.diagnostic));
    }
    if search.value.entries == [] {
      return Err(GET_DN_FAILURE);
    }
    var dnareset := search.value.entries[0].dn;
    var userdata: Changes := map["unicodepwd" := Octets(UnicodePwd(mdp))];
    var ok := conn.connection.Call(ModReplaceOp(dnareset, userdata));
    if !ok {
      return Err(PasswordFailure(cn, conn.connection.diagnostic));
    }
    return Ok(true);
  }

  function UserSearchFailure(d: Diagnostic): LdapError {
    LdapError(PlainException, GET_USER_DN_TAG + "fail to search user cause : " + LastError(d), 0)
  }

  function UnknownUser(cn: string): LdapError {
    LdapError(PlainException, GET_USER_DN_TAG + "user with cn: " + cn + " don't exist", 0)
  }

  function DnFailure(d: Diagnostic): LdapError {
    LdapError(PlainException, GET_USER_DN_TAG + "fail to get entry DN cause : " + LastError(d), 0)
  }

  /** `ad_get_user_dn`: the DN of the first entry named "cn=<cn>"; it fails when the
      search fails, when nothing is found, or when the DN is empty for PHP. */
  method GetUserDn(conn: ConnectionLDAP, cn: string) returns (r: Result<string>)
    modifies conn.connection
    ensures conn.connection.log == old(conn.connection.log) + [SearchOp(UserSearch(conn.searchOptions.baseDN, cn))]
    ensures conn.connection.replies == Drop(old(conn.connection.replies))
    ensures conn.connection.verdicts == old(conn.connection.verdicts)
    ensures var reply := Head(old(conn.connection.replies));
      && (reply.None? ==> r == Err(UserSearchFailure(conn.connection.diagnostic)))
      && (reply.Some? && reply.value.entries == [] ==> r == Err(UnknownUser(cn)))
      && (reply.Some? && reply.value.entries != [] ==>
            var dn := reply.value.entries[0].dn;
            r == if IsEmptyString(dn) then Err(DnFailure(conn.connection.diagnostic)) else Ok(dn))
    ensures r.Ok? ==> !IsEmptyString(r.value)
  {
    var search := conn.connection.Send(UserSearch(conn.searchOptions.baseDN, cn));
    if search.None? {
      return Err(UserSearchFailure(conn.connection.diagnostic));
    }
    if search.value.entries == [] {
      return Err(UnknownUser(cn));
    }
    var dn := search.value.entries[0].dn;
    if IsEmptyString(dn) {
      return Err(DnFailure(conn.connection.diagnostic));
    }
    return Ok(dn);
  }
}
