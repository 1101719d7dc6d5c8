/** The LDAP server as the connection class sees it through PHP's LDAP extension.
    The server is scripted: each search request takes the next reply of `replies`
    (None when the request fails), and each connect, bind, modify, add or delete call
    takes the next verdict of `verdicts`. A request past the end of its script fails.
    Every request is appended to `log`, so a contract can say what was sent. */
module Directory {
  import opened Errors
  import opened Php
  import opened Entries
  import opened LdapUtils

  /** `ldap_search` reads the whole subtree, `ldap_list` one level below the base. */
  datatype Scope = Subtree | OneLevel

  /** The paged-results control of RFC 2696 sent with a request: page size and cookie. */
  datatype PagedControl = PagedControl(size: int, cookie: string)

  /** The arguments of one `ldap_search` / `ldap_list` call. */
  datatype Request = Request(
    scope: Scope,
    baseDn: string,
    filter: string,
    attributes: seq<string>,
    sizeLimit: int,
    paging: Option<PagedControl>)

  /** A reply to a search: its entries and the cookie of the paged-results control
      that came back with it, if any. */
  datatype Page = Page(entries: seq<RawEntry>, cookie: Option<string>)

  /** A value given for an attribute to `ldap_mod_*` or `ldap_add`. */
  datatype AttrValue = Text(text: string) | Number(number: int) | Octets(octets: seq<Byte>) | Texts(texts: seq<string>)

  /** The attribute array handed to `ldap_mod_*` or `ldap_add`. */
  type Changes = map<string, AttrValue>

  /** One call into the extension. */
  datatype Operation =
    | ConnectOp(host: string)
    | BindOp(login: string, password: string)
    | WhoAmIOp
    | SearchOp(request: Request)
    | ModAddOp(dn: string, changes: Changes)
    | ModReplaceOp(dn: string, changes: Changes)
    | ModDelOp(dn: string, changes: Changes)
    | AddOp(dn: string, changes: Changes)
    | DeleteOp(dn: string)

  /** The script after one request or call has used its head. */
  function Drop<T>(s: seq<T>): (r: seq<T>)
    ensures s == [] ==> r == []
    ensures s != [] ==> [s[0]] + r == s
  {
    if s == [] then [] else s[1..]
  }

  class Server {
    /** Replies for the search requests still to come. */
    var replies: seq<Option<Page>>
    /** Verdicts for the other calls still to come. */
    var verdicts: seq<bool>
    /** Every request and call received so far. */
    var log: seq<Operation>
    /** What `ldap_errno`, `ldap_error` and the diagnostic message option report. */
    const diagnostic: Diagnostic
    /** What `ldap_exop_whoami` returns for the bound user ("" when it fails). */
    const identity: string

    constructor(replies: seq<Option<Page>>, verdicts: seq<bool>, diagnostic: Diagnostic, identity: string)
      ensures this.replies == replies && this.verdicts == verdicts && log == []
      ensures this.diagnostic == diagnostic && this.identity == identity
    {
      this.replies := replies;
      this.verdicts := verdicts;
      this.log := [];
      this.diagnostic := diagnostic;
      this.identity := identity;
    }

    /** A search request: answered by the next reply of the script. */
    method Send(request: Request) returns (reply: Option<Page>)
      modifies this
      ensures reply == if old(replies) == [] then None else old(replies)[0]
      ensures replies == Drop(old(replies))
      ensures verdicts == old(verdicts)
      ensures log == old(log) + [SearchOp(request)]
    {
      reply := if replies == [] then None else replies[0];
      replies := Drop(replies);
      log := log + [SearchOp(request)];
    }

    /** Any other call: answered by the next verdict of the script. */
    method Call(op: Operation) returns (ok: bool)
      requires !op.SearchOp?
      modifies this
      ensures ok == (old(verdicts) != [] && old(verdicts)[0])
      ensures verdicts == Drop(old(verdicts))
      ensures replies == old(replies)
      ensures log == old(log) + [op]
    {
      ok := verdicts != [] && verdicts[0];
      verdicts := Drop(verdicts);
      log := log + [op];
    }

    /** `ldap_exop_whoami`. */
    method WhoAmI() returns (id: string)
      modifies this`log
      ensures id == identity
      ensures log == old(log) + [WhoAmIOp]
    {
      id := identity;
      log := log + [WhoAmIOp];
    }
  }
}
