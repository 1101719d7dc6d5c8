/** `ConnectionLDAP`: a bound connection with its search options, and the searches,
    lookups and updates it offers. The extension's connection handle is the scripted
    `Server` of the Directory module. */
module Connection {
  import opened Errors
  import opened Php
  import opened Entries
  import opened LdapUtils
  import opened Directory
  import opened Paging
  import opened SearchOptions

  const MANDATORY_KEY: seq<string> := ["USER", "PWD", "DN", "HOST"]

  /** Bits of Active Directory's userAccountControl and systemFlags attributes. */
  const USER_ACCOUNT_ENABLE: int := 0x0001
  const USER_ACCOUNT_DISABLE: int := 0x0002
  const USER_PASSWD_NOTREQD: int := 0x0020
  const USER_PASSWD_CANT_CHANGE: int := 0x0040
  const USER_NORMAL_ACCOUNT: int := 0x0200
  const USER_DONT_EXPIRE_PASSWD: int := 0x10000
  const USER_PASSWORD_EXPIRED: int := 0x800000
  const ADS_SYSTEMFLAG_DISALLOW_DELETE: int := 0x80000000

  /** The modification kinds `modify` accepts. */
  const MOD_ADD: int := 0
  const MOD_REPLACE: int := 1
  const MOD_DEL: int := 2

  /** A failed `ldap_connect` leaves `false` as the connection; `getLastError` then
      hands it to `ldap_get_option`, which refuses it with a TypeError before the
      connect exception is built. */
  const GET_OPTION_FAILURE: LdapError :=
    LdapError(TypeError, "ldap_get_option(): Argument #1 ($ldap) must be of type LDAP\\Connection, bool given", 0)

  /** The exception the constructor documents, and throws in its `else` branch, when
      `ldap_connect` rejects the host. */
  function ConnectFailure(host: string, d: Diagnostic): (e: LdapError)
    ensures e.kind == ConnectException && e.code == -1
    ensures "Can't connect to ldap server " + host <= e.message && EndsWith(e.message, LastError(d))
  {
    LdapError(ConnectException, "Can't connect to ldap server " + host + " cause : " + LastError(d), -1)
  }

  /** The `$returnedAttrs` argument: an array of names or one comma separated string. */
  datatype AttrSpec = Names(names: seq<string>) | Csv(text: string)

  const ALL_ATTRIBUTES: AttrSpec := Names(["*"])

  /** The attribute names requested: an array as given, a string split on every comma. */
  function AttributeList(spec: AttrSpec): (attrs: seq<string>)
    ensures spec.Names? ==> attrs == spec.names
    ensures spec.Csv? ==> |attrs| == Occurrences(spec.text, ',') + 1
    ensures spec.Csv? ==> Implode(attrs, ",") == spec.text
    ensures spec.Csv? ==> forall i | 0 <= i < |attrs| :: ',' !in attrs[i]
  {
    match spec
    case Names(names) => names
    case Csv(text) =>
      ExplodeCount(text, ',');
      ImplodeExplode(text, ',');
      ExplodePiecesSeparatorFree(text, ',');
      Explode(text, ',')
  }

  /** `$pageSize != null`: the loose comparison also treats 0 as null. */
  predicate UsesPaging(pageSize: Option<int>) {
    pageSize.Some? && pageSize.value != 0
  }

  /** `count($entries) > 0 ? $entries : null`. */
  function NullIfEmpty<T>(entries: seq<T>): (r: Option<seq<T>>)
    ensures r.Some? <==> |entries| > 0
    ensures r.Some? ==> r.value == entries
  {
    if |entries| > 0 then Some(entries) else None
  }

  /** What `search` and `list` return for the records collected, or the exception. */
  function Answer(r: Result<seq<Record<string>>>): Result<Option<seq<Record<string>>>> {
    match r
    case Err(e) => Err(e)
    case Ok(entries) => Ok(NullIfEmpty(entries))
  }

  /** The reply the next search request receives. */
  function Head(replies: seq<Option<Page>>): Option<Page> {
    if replies == [] then None else replies[0]
  }

  /** The script after `n` search requests. */
  function DropN<T>(s: seq<T>, n: nat): seq<T> {
    if n >= |s| then [] else s[n..]
  }

  /** A single, unpaged request: `processResults` over its reply. */
  function SingleOutcome(reply: Option<Page>, d: Diagnostic): (r: Result<seq<Record<string>>>)
    ensures r.Err? <==> reply.None?
    ensures r.Ok? ==> r.value == Normalize(reply.value.entries)
  {
    if reply.None? then Err(SearchFailure(d)) else Ok(Normalize(reply.value.entries))
  }

  /** The requests of a paged search: the same request with each cookie in turn. */
  function PagedRequests(base: Request, size: int, cookies: seq<string>): (ops: seq<Operation>)
    ensures |ops| == |cookies|
    ensures forall i | 0 <= i < |cookies| :: ops[i] == SearchOp(base.(paging := Some(PagedControl(size, cookies[i]))))
  {
    seq(|cookies|, i requires 0 <= i < |cookies| => SearchOp(base.(paging := Some(PagedControl(size, cookies[i])))))
  }

  /** Sending one more page request extends the log by that request. */
  lemma PagedRequestsSnoc(log: seq<Operation>, base: Request, size: int, cookies: seq<string>, cookie: string)
    ensures log + PagedRequests(base, size, cookies) + [SearchOp(base.(paging := Some(PagedControl(size, cookie))))]
      == log + PagedRequests(base, size, cookies + [cookie])
  {
    var ops := PagedRequests(base, size, cookies);
    var more := PagedRequests(base, size, cookies + [cookie]);
    assert more == ops + [SearchOp(base.(paging := Some(PagedControl(size, cookie))))];
  }

  /** The records (or exception) of a search, on either path. */
  function QueryOutcome(replies: seq<Option<Page>>, d: Diagnostic, pageSize: Option<int>): Result<seq<Record<string>>> {
    if UsesPaging(pageSize) then PagedRun(replies, "").outcome else SingleOutcome(Head(replies), d)
  }

  /** The requests a search sends, on either path. */
  function QueryRequests(base: Request, replies: seq<Option<Page>>, pageSize: Option<int>): seq<Operation> {
    if UsesPaging(pageSize) then PagedRequests(base, pageSize.value, PagedRun(replies, "").cookies) else [SearchOp(base)]
  }

  /** How many replies a search uses up. */
  function QueryLength(replies: seq<Option<Page>>, pageSize: Option<int>): nat {
    if UsesPaging(pageSize) then |PagedRun(replies, "").cookies| else 1
  }

  /** A search never answers with an empty array: no records is null. */
  lemma AnswerNeverEmpty(replies: seq<Option<Page>>, d: Diagnostic, pageSize: Option<int>)
    ensures var a := Answer(QueryOutcome(replies, d, pageSize));
      a.Ok? && a.value.Some? ==> |a.value.value| > 0
    ensures var a := Answer(QueryOutcome(replies, d, pageSize));
      a.Ok? ==> (a.value.None? <==> QueryOutcome(replies, d, pageSize).value == [])
  {
  }

  /** An unpaged search returns the records of its one reply, or null when that reply
      holds no entry; a failed request raises the search exception. */
  lemma SingleSearch(reply: Page, d: Diagnostic, pageSize: Option<int>)
    requires !UsesPaging(pageSize)
    ensures Answer(QueryOutcome([Some(reply)], d, pageSize)) ==
      Ok(if reply.entries == [] then None else Some(Normalize(reply.entries)))
    ensures Answer(QueryOutcome([None], d, pageSize)) == Err(SearchFailure(d))
  {
  }

  /** `getEntry` scope choice: the subtree exactly for SEARCH_SCOPE_SUB. */
  function ScopeFor(scope: int): (s: Scope)
    ensures s == Subtree <==> scope == SEARCH_SCOPE_SUB
  {
    if scope == SEARCH_SCOPE_SUB then Subtree else OneLevel
  }

  /** What `getEntry` makes of its reply: the first entry, cleared, or null. */
  function FirstEntry(reply: Option<Page>, d: Diagnostic): (r: Result<Option<Record<string>>>)
    ensures r.Err? <==> reply.None?
    ensures r.Err? ==> r.error == SearchFailure(d)
    ensures r.Ok? ==> (r.value.None? <==> reply.value.entries == [])
    ensures r.Ok? && r.value.Some? ==>
      r.value.value.Keys == {"dn"} + AttributeNames(reply.value.entries[0].attributes)
    ensures r.Ok? && r.value.Some? ==>
      r.value.value == Cleared(reply.value.entries[0].dn, reply.value.entries[0].attributes)
  {
    if reply.None? then Err(SearchFailure(d))
    else if reply.value.entries == [] then Ok(None)
    else Ok(Some(Cleared(reply.value.entries[0].dn, reply.value.entries[0].attributes)))
  }

  /** The extension call `modify` makes for a modification kind, if any. */
  function ModifyOperation(modifyType: int, dn: string, changes: Changes): (op: Option<Operation>)
    ensures op.Some? <==> modifyType in {MOD_ADD, MOD_REPLACE, MOD_DEL}
    ensures modifyType == MOD_ADD ==> op == Some(ModAddOp(dn, changes))
    ensures modifyType == MOD_REPLACE ==> op == Some(ModReplaceOp(dn, changes))
    ensures modifyType == MOD_DEL ==> op == Some(ModDelOp(dn, changes))
  {
    if modifyType == MOD_ADD then Some(ModAddOp(dn, changes))
    else if modifyType == MOD_DEL then Some(ModDelOp(dn, changes))
    else if modifyType == MOD_REPLACE then Some(ModReplaceOp(dn, changes))
    else None
  }

  /** The exceptions of `modify`, `add` and `delete`: the message names the entry and
      ends with `getLastError()`. */
  function ModifyFailure(dn: string, d: Diagnostic): (e: LdapError)
    ensures e.kind == ModifyException && e.code == 0
    ensures "Can't performe modification of " + dn <= e.message && EndsWith(e.message, LastError(d))
  {
    LdapError(ModifyException, "Can't performe modification of " + dn + " cause : " + LastError(d), 0)
  }

  function AddFailure(dn: string, d: Diagnostic): (e: LdapError)
    ensures e.kind == AddException && e.code == 0
    ensures "Can't add ldap entry " + dn <= e.message && EndsWith(e.message, LastError(d))
  {
    LdapError(AddException, "Can't add ldap entry " + dn + " cause : " + LastError(d), 0)
  }

  function DeleteFailure(dn: string, d: Diagnostic): (e: LdapError)
    ensures e.kind == DeleteException && e.code == 0
    ensures "Can't delete ldap entry " + dn <= e.message && EndsWith(e.message, LastError(d))
  {
    LdapError(DeleteException, "Can't delete ldap entry " + dn + " cause : " + LastError(d), 0)
  }

  /** Whether the next call of a script succeeds. */
  predicate Granted(verdicts: seq<bool>) {
    verdicts != [] && verdicts[0]
  }

  /** `make_ldap_config`: the four connection settings copied from the raw
      configuration (a missing one reads as null) and the timeout, 5 when absent. */
  datatype ConnectionConfig = ConnectionConfig(user: Json, pwd: Json, baseDn: Json, host: Json, timeout: Json)

  function Property(raw: map<string, Json>, key: string): Json {
    if key in raw then raw[key] else JNull
  }

  function MakeLdapConfig(raw: map<string, Json>): (c: ConnectionConfig)
    ensures "USER" in raw ==> c.user == raw["USER"]
    ensures "PWD" in raw ==> c.pwd == raw["PWD"]
    ensures "DN" in raw ==> c.baseDn == raw["DN"]
    ensures "HOST" in raw ==> c.host == raw["HOST"]
    ensures c.timeout == if "TIMEOUT" in raw then raw["TIMEOUT"] else JInt(5)
  {
    ConnectionConfig(Property(raw, "USER"), Property(raw, "PWD"), Property(raw, "DN"), Property(raw, "HOST"),
      if "TIMEOUT" in raw then raw["TIMEOUT"] else JInt(5))
  }

  class ConnectionLDAP {
    const connection: Server
    var searchOptions: LdapSearchOptions

    constructor(connection: Server, searchOptions: LdapSearchOptions)
      ensures this.connection == connection && this.searchOptions == searchOptions
    {
      this.connection := connection;
      this.searchOptions := searchOptions;
    }

    /** `__construct`: connect, bind, then take the given options or, when none are
        given, options whose base DN is `getRootDN()`. The connect verdict stands for
        what `ldap_connect` makes of the host: it only parses it into an LDAP URI and
        contacts no server, so it is false only for a malformed host; an unreachable or
        refusing server shows up at the bind. */
    static method Open(server: Server, host: string, login: string, password: string, options: LdapSearchOptions?)
      returns (r: Result<ConnectionLDAP>)
      modifies server
      ensures server.replies == old(server.replies)
      ensures server.verdicts ==
        if Granted(old(server.verdicts)) then Drop(Drop(old(server.verdicts))) else Drop(old(server.verdicts))
      ensures !Granted(old(server.verdicts)) ==>
        r == Err(GET_OPTION_FAILURE) && server.log == old(server.log) + [ConnectOp(host)]
      ensures Granted(old(server.verdicts)) && !Granted(old(server.verdicts)[1..]) ==>
        && r == Err(LdapError(BindException, "Can't bind to ldap server " + host + " cause : " + LastError(server.diagnostic), -1))
        && server.log == old(server.log) + [ConnectOp(host), BindOp(login, password)]
      ensures Granted(old(server.verdicts)) && Granted(old(server.verdicts)[1..]) && options != null ==>
        && r.Ok? && r.value.connection == server && r.value.searchOptions == options
        && server.log == old(server.log) + [ConnectOp(host), BindOp(login, password)]
      ensures Granted(old(server.verdicts)) && Granted(old(server.verdicts)[1..]) && options == null ==>
        && server.log == old(server.log) + [ConnectOp(host), BindOp(login, password), WhoAmIOp]
        && (RootDn(server.identity).Err? ==> r == Err(RootDn(server.identity).error))
        && (RootDn(server.identity).Ok? ==>
              && r.Ok? && r.value.connection == server && fresh(r.value.searchOptions)
              && r.value.searchOptions.baseDN == RootDn(server.identity).value
              && r.value.searchOptions.resultLimit == 0
              && r.value.searchOptions.scope == SEARCH_SCOPE_SUB)
    {
      var connected := server.Call(ConnectOp(host));
      if !connected {
        return Err(GET_OPTION_FAILURE);
      }
      var bound := server.Call(BindOp(login, password));
      if !bound {
        return Err(LdapError(BindException, "Can't bind to ldap server " + host + " cause : " + LastError(server.diagnostic), -1));
      }
      var chosen := options;
      if chosen == null {
        var identity := server.WhoAmI();
        var root := RootDn(identity);
        if root.Err? {
          return Err(root.error);
        }
        chosen := new LdapSearchOptions(root.value);
      }
      var c := new ConnectionLDAP(server, chosen);
      return Ok(c);
    }

    /** `__construct` as documented: a host that `ldap_connect` rejects raises the
        connect exception with code -1 in place of the TypeError; every other case is
        `Open`. */
    static method OpenIntended(server: Server, host: string, login: string, password: string, options: LdapSearchOptions?)
      returns (r: Result<ConnectionLDAP>)
      modifies server
      ensures server.replies == old(server.replies)
      ensures server.verdicts ==
        if Granted(old(server.verdicts)) then Drop(Drop(old(server.verdicts))) else Drop(old(server.verdicts))
      ensures !Granted(old(server.verdicts)) ==>
        r == Err(ConnectFailure(host, server.diagnostic)) && server.log == old(server.log) + [ConnectOp(host)]
      ensures Granted(old(server.verdicts)) && !Granted(old(server.verdicts)[1..]) ==>
        && r == Err(LdapError(BindException, "Can't bind to ldap server " + host + " cause : " + LastError(server.diagnostic), -1))
        && server.log == old(server.log) + [ConnectOp(host), BindOp(login, password)]
      ensures Granted(old(server.verdicts)) && Granted(old(server.verdicts)[1..]) && options != null ==>
        && r.Ok? && r.value.connection == server && r.value.searchOptions == options
        && server.log == old(server.log) + [ConnectOp(host), BindOp(login, password)]
      ensures Granted(old(server.verdicts)) && Granted(old(server.verdicts)[1..]) && options == null ==>
        && server.log == old(server.log) + [ConnectOp(host), BindOp(login, password), WhoAmIOp]
        && (RootDn(server.identity).Err? ==> r == Err(RootDn(server.identity).error))
        && (RootDn(server.identity).Ok? ==>
              && r.Ok? && r.value.connection == server && fresh(r.value.searchOptions)
              && r.value.searchOptions.baseDN == RootDn(server.identity).value
              && r.value.searchOptions.resultLimit == 0
              && r.value.searchOptions.scope == SEARCH_SCOPE_SUB)
    {
      r := Open(server, host, login, password, options);
      if r == Err(GET_OPTION_FAILURE) {
        r := Err(ConnectFailure(host, server.diagnostic));
      }
    }

    /** The request `search` or `list` sends without paging. */
    function BaseRequest(scope: Scope, filter: string, attrs: seq<string>): Request
      reads this, searchOptions
    {
      Request(scope, searchOptions.baseDN, filter, attrs, searchOptions.resultLimit, None)
    }

    /** `paginateSearch`: sends the request with a paged-results control, starting with
        an empty cookie and resending the returned one, until a reply's cookie is
        empty; collects the records of every page. */
    method PaginateSearch(filter: string, attrs: seq<string>, pageSize: int, recursive: bool)
      returns (r: Result<seq<Record<string>>>)
      modifies connection
      ensures var run := PagedRun(old(connection.replies), "");
        && r == run.outcome
        && connection.log == old(connection.log)
             + PagedRequests(BaseRequest(if recursive then Subtree else OneLevel, filter, attrs), pageSize, run.cookies)
        && connection.replies == DropN(old(connection.replies), |run.cookies|)
        && connection.verdicts == old(connection.verdicts)
    {
      var base := BaseRequest(if recursive then Subtree else OneLevel, filter, attrs);
      var cookie := "";
      var entries: seq<Record<string>> := [];
      ghost var sent: seq<string> := [];
      ghost var script := connection.replies;
      ghost var log0 := connection.log;
      ResumeStart(PagedRun(script, ""));
      while true
        invariant |sent| <= |script| && connection.replies == script[|sent|..]
        invariant connection.log == log0 + PagedRequests(base, pageSize, sent)
        invariant connection.verdicts == old(connection.verdicts)
        invariant PagedRun(script, "") == Resume(sent, entries, PagedRun(connection.replies, cookie))
        decreases |connection.replies|
      {
        var research := connection.Send(base.(paging := Some(PagedControl(pageSize, cookie))));
        PagedRequestsSnoc(log0, base, pageSize, sent, cookie);
        if research.None? {
          return Err(PARSE_RESULT_FAILURE);
        }
        var page := research.value;
        assert script[|sent|..] == [Some(page)] + script[|sent| + 1..];
        var processed := ProcessResults(Some(page.entries), entries, connection.diagnostic);
        var next := CookieOf(page);
        ResumeStep(sent, entries, cookie, page, script[|sent| + 1..]);
        entries := processed.value;
        sent := sent + [cookie];
        cookie := next;
        if IsEmptyString(cookie) {
          return Ok(entries);
        }
      }
    }

    /** The search of `search` (recursive) and `list` (one level). */
    method Query(scope: Scope, filter: string, returnedAttrs: AttrSpec, pageSize: Option<int>)
      returns (r: Result<Option<seq<Record<string>>>>)
      modifies connection
      ensures r == Answer(QueryOutcome(old(connection.replies), connection.diagnostic, pageSize))
      ensures connection.log == old(connection.log)
        + QueryRequests(BaseRequest(scope, filter, AttributeList(returnedAttrs)), old(connection.replies), pageSize)
      ensures connection.replies == DropN(old(connection.replies), QueryLength(old(connection.replies), pageSize))
      ensures connection.verdicts == old(connection.verdicts)
    {
      var attrs := AttributeList(returnedAttrs);
      var entries: seq<Record<string>>;
      if UsesPaging(pageSize) {
        var paged := PaginateSearch(filter, attrs, pageSize.value, scope == Subtree);
        if paged.Err? {
          return Err(paged.error);
        }
        entries := paged.value;
      } else {
        var research := connection.Send(BaseRequest(scope, filter, attrs));
        var processed := ProcessResults(if research.Some? then Some(research.value.entries) else None, [], connection.diagnostic);
        if processed.Err? {
          return Err(processed.error);
        }
        entries := processed.value;
        assert entries == Normalize(research.value.entries);
      }
      return Ok(NullIfEmpty(entries));
    }

    /** `search`: over the whole subtree below the base DN. */
    method Search(filter: string, returnedAttrs: AttrSpec := ALL_ATTRIBUTES, pageSize: Option<int> := None)
      returns (r: Result<Option<seq<Record<string>>>>)
      modifies connection
      ensures r == Answer(QueryOutcome(old(connection.replies), connection.diagnostic, pageSize))
      ensures connection.log == old(connection.log)
        + QueryRequests(BaseRequest(Subtree, filter, AttributeList(returnedAttrs)), old(connection.replies), pageSize)
      ensures connection.replies == DropN(old(connection.replies), QueryLength(old(connection.replies), pageSize))
      ensures connection.verdicts == old(connection.verdicts)
    {
      r := Query(Subtree, filter, returnedAttrs, pageSize);
    }

    /** `list`: one level below the base DN. */
    method List(filter: string, returnedAttrs: AttrSpec := ALL_ATTRIBUTES, pageSize: Option<int> := None)
      returns (r: Result<Option<seq<Record<string>>>>)
      modifies connection
      ensures r == Answer(QueryOutcome(old(connection.replies), connection.diagnostic, pageSize))
      ensures connection.log == old(connection.log)
        + QueryRequests(BaseRequest(OneLevel, filter, AttributeList(returnedAttrs)), old(connection.replies), pageSize)
      ensures connection.replies == DropN(old(connection.replies), QueryLength(old(connection.replies), pageSize))
      ensures connection.verdicts == old(connection.verdicts)
    {
      r := Query(OneLevel, filter, returnedAttrs, pageSize);
    }

    /** `getEntry`: one request limited to one entry, in the configured scope. */
    method GetEntry(filter: string, returnedAttrs: AttrSpec := ALL_ATTRIBUTES)
      returns (r: Result<Option<Record<string>>>)
      modifies connection
      ensures r == FirstEntry(Head(old(connection.replies)), connection.diagnostic)
      ensures connection.log == old(connection.log)
        + [SearchOp(Request(ScopeFor(searchOptions.scope), searchOptions.baseDN, filter, AttributeList(returnedAttrs), 1, None))]
      ensures connection.replies == Drop(old(connection.replies))
      ensures connection.verdicts == old(connection.verdicts)
    {
      var attrs := AttributeList(returnedAttrs);
      var research := connection.Send(Request(ScopeFor(searchOptions.GetScope()), searchOptions.GetBaseDN(), filter, attrs, 1, None));
      if research.None? {
        return Err(SearchFailure(connection.diagnostic));
      }
      var page := research.value;
      if page.entries == [] {
        return Ok(None);
      }
      var entry := ClearEntry(page.entries[0].dn, page.entries[0].attributes);
      return Ok(Some(entry));
    }

    /** `modify`: add, replace or delete attribute values; an unknown kind makes no
        call and fails like a refused one. */
    method Modify(entryDn: string, changes: Changes, modifyType: int := MOD_REPLACE) returns (r: Result<bool>)
      modifies connection
      ensures var op := ModifyOperation(modifyType, entryDn, changes);
        && (r.Ok? <==> op.Some? && Granted(old(connection.verdicts)))
        && (r.Ok? ==> r.value)
        && (r.Err? ==> r.error == ModifyFailure(entryDn, connection.diagnostic))
        && connection.log == old(connection.log) + (if op.Some? then [op.value] else [])
        && connection.verdicts == (if op.Some? then Drop(old(connection.verdicts)) else old(connection.verdicts))
      ensures connection.replies == old(connection.replies)
    {
      var op := ModifyOperation(modifyType, entryDn, changes);
      var result := false;
      if op.Some? {
        result := connection.Call(op.value);
      }
      if !result {
        return Err(ModifyFailure(entryDn, connection.diagnostic));
      }
      return Ok(result);
    }

    /** `add`: create an entry. */
    method Add(entryDn: string, attrs: Changes) returns (r: Result<bool>)
      modifies connection
      ensures r == if Granted(old(connection.verdicts)) then Ok(true) else Err(AddFailure(entryDn, connection.diagnostic))
      ensures connection.log == old(connection.log) + [AddOp(entryDn, attrs)]
      ensures connection.verdicts == Drop(old(connection.verdicts)) && connection.replies == old(connection.replies)
    {
      var ok := connection.Call(AddOp(entryDn, attrs));
      if !ok {
        return Err(AddFailure(entryDn, connection.diagnostic));
      }
      return Ok(true);
    }

    /** `delete`: remove an entry. */
    method Delete(entryDn: string) returns (r: Result<bool>)
      modifies connection
      ensures r == if Granted(old(connection.verdicts)) then Ok(true) else Err(DeleteFailure(entryDn, connection.diagnostic))
      ensures connection.log == old(connection.log) + [DeleteOp(entryDn)]
      ensures connection.verdicts == Drop(old(connection.verdicts)) && connection.replies == old(connection.replies)
    {
      var ok := connection.Call(DeleteOp(entryDn));
      if !ok {
        return Err(DeleteFailure(entryDn, connection.diagnostic));
      }
      return Ok(true);
    }

    function GetSearchOptions(): LdapSearchOptions
      reads this
    {
      searchOptions
    }
  }

  /** A host string that is not a valid LDAP URI, so that `ldap_connect` returns false:
      as written the constructor fails with the `ldap_get_option` TypeError, as
      documented it fails with the connect exception. */
  method MalformedHost(host: string, login: string, password: string, d: Diagnostic)
    returns (written: Result<ConnectionLDAP>, intended: Result<ConnectionLDAP>)
    ensures written.Err? && written.error.kind == TypeError
    ensures intended.Err? && intended.error.kind == ConnectException && intended.error.code == -1
  {
    var rejecting := new Server([], [false], d, "");
    written := ConnectionLDAP.Open(rejecting, host, login, password, null);
    var rejectingAgain := new Server([], [false], d, "");
    intended := ConnectionLDAP.OpenIntended(rejectingAgain, host, login, password, null);
  }

  /** A paged run seen from the middle of the loop: the cookies already sent and the
      records already collected, followed by what the rest of the loop does. */
  function Resume(sent: seq<string>, entries: seq<Record<string>>, rest: Run): Run {
    Run(sent + rest.cookies, if rest.outcome.Err? then rest.outcome else Ok(entries + rest.outcome.value))
  }

  lemma ResumeStart(run: Run)
    ensures Resume([], [], run) == run
  {
    assert [] + run.cookies == run.cookies;
    if run.outcome.Ok? {
      assert [] + run.outcome.value == run.outcome.value;
    }
  }

  /** One turn of the loop: a reply with a page moves its cookie and records from the
      rest of the run to the part already done. */
  lemma ResumeStep(sent: seq<string>, entries: seq<Record<string>>, cookie: string, page: Page, later: seq<Option<Page>>)
    ensures var now := PagedRun([Some(page)] + later, cookie);
      var done := Resume(sent + [cookie], entries + Normalize(page.entries), PagedRun(later, CookieOf(page)));
      !IsEmptyString(CookieOf(page)) ==> Resume(sent, entries, now) == done
    ensures IsEmptyString(CookieOf(page)) ==>
      Resume(sent, entries, PagedRun([Some(page)] + later, cookie))
        == Run(sent + [cookie], Ok(entries + Normalize(page.entries)))
  {
    var replies := [Some(page)] + later;
    assert replies[1..] == later;
    if !IsEmptyString(CookieOf(page)) {
      var rest := PagedRun(later, CookieOf(page));
      assert sent + ([cookie] + rest.cookies) == sent + [cookie] + rest.cookies;
      if rest.outcome.Ok? {
        assert entries + (Normalize(page.entries) + rest.outcome.value) == entries + Normalize(page.entries) + rest.outcome.value;
      }
    }
  }

  /** The attributes of a new group: its object class, its name and its members. */
  function GroupOfNames(name: string, members: seq<string>): (attrs: Changes)
    ensures attrs.Keys == {"objectclass", "cn", "member"}
    ensures attrs["objectclass"] == Text("groupOfNames") && attrs["cn"] == Text(name) && attrs["member"] == Texts(members)
  {
    map["objectclass" := Text("groupOfNames"), "cn" := Text(name), "member" := Texts(members)]
  }

  /** `create_groupOfNames` of the older trait: adds "cn=<name>,<target OU>" as a
      groupOfNames whose members are the given DNs. */
  method CreateGroupOfNames(conn: ConnectionLDAP, name: string, targetOu: string, members: seq<string>) returns (r: Outcome)
    modifies conn.connection
    ensures var dn := "cn=" + name + "," + targetOu;
      && conn.connection.log == old(conn.connection.log) + [AddOp(dn, GroupOfNames(name, members))]
      && r == if Granted(old(conn.connection.verdicts)) then Pass else Fail(AddFailure(dn, conn.connection.diagnostic))
    ensures conn.connection.verdicts == Drop(old(conn.connection.verdicts))
    ensures conn.connection.replies == old(conn.connection.replies)
  {
    var attrs: Changes := map[];
    attrs := attrs["objectclass" := Text("groupOfNames")];
    attrs := attrs["cn" := Text(name)];
    attrs := attrs["member" := Texts(members)];
    var added := conn.Add("cn=" + name + "," + targetOu, attrs);
    r := if added.Ok? then Pass else Fail(added.error);
  }
}
