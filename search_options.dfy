/** `LdapSearchOptions` (the camelCase copy): where searches start, how many entries
    they may return and whether they read the subtree or one level. */
module SearchOptions {

  const SEARCH_SCOPE_SUB: int := 0
  const SEARCH_SCOPE_ONE_LEVEL: int := 1

  class LdapSearchOptions {
    var baseDN: string
    var resultLimit: int
    var scope: int

    /** The limit defaults to 0 (no limit) and the scope to the subtree. */
    constructor(baseDn: string, resultLimit: int := 0, scope: int := SEARCH_SCOPE_SUB)
      ensures baseDN == baseDn && this.resultLimit == resultLimit && this.scope == scope
    {
      baseDN := baseDn;
      this.resultLimit := resultLimit;
      this.scope := scope;
    }

    /** Each setter changes its own field only and returns the object itself. */
    method SetBaseDN(dn: string) returns (self: LdapSearchOptions)
      modifies this
      ensures self == this
      ensures baseDN == dn && resultLimit == old(resultLimit) && scope == old(scope)
    {
      baseDN := dn;
      self := this;
    }

    method SetResultLimit(limit: int) returns (self: LdapSearchOptions)
      modifies this
      ensures self == this
      ensures resultLimit == limit && baseDN == old(baseDN) && scope == old(scope)
    {
      resultLimit := limit;
      self := this;
    }

    method SetScope(scope: int) returns (self: LdapSearchOptions)
      modifies this
      ensures self == this
      ensures this.scope == scope && baseDN == old(baseDN) && resultLimit == old(resultLimit)
    {
      this.scope := scope;
      self := this;
    }

    function GetBaseDN(): string
      reads this
    {
      baseDN
    }

    function GetResultLimit(): int
      reads this
    {
      resultLimit
    }

    function GetScope(): int
      reads this
    {
      scope
    }
  }

  /** Setters chained through the objects they return all act on one instance, and
      the getters then give back what was set last. */
  method Chained(baseDn: string, dn: string, limit: int, scope: int) returns (options: LdapSearchOptions)
    ensures options.GetBaseDN() == dn && options.GetResultLimit() == limit && options.GetScope() == scope
  {
    options := new LdapSearchOptions(baseDn);
    var chained := options.SetBaseDN(dn);
    chained := chained.SetResultLimit(limit);
    chained := chained.SetScope(scope);
  }
}
