/** The older `LdapSearchOptions` (the snake_case copy): where searches start, how many entries
    they may return and whether they read the subtree or one level. */
module LegacySearchOptions {

  const SEARCH_SCOPE_SUB: int := 0
  const SEARCH_SCOPE_ONE_LEVEL: int := 1

  class LdapSearchOptions {
    var baseDn: string
    var resultLimit: int
    var scope: int

    /** The limit defaults to 0 (no limit) and the scope to the subtree. */
    constructor(baseDn: string, resultLimit: int := 0, scope: int := SEARCH_SCOPE_SUB)
      ensures this.baseDn == baseDn && this.resultLimit == resultLimit && this.scope == scope
    {
      this.baseDn := baseDn;
      this.resultLimit := resultLimit;
      this.scope := scope;
    }

    /** Each setter changes its own field only and returns the object itself. */
    method SetBaseDn(dn: string) returns (self: LdapSearchOptions)
      modifies this
      ensures self == this
      ensures baseDn == dn && resultLimit == old(resultLimit) && scope == old(scope)
    {
      baseDn := dn;
      self := this;
    }

    method SetResultLimit(limit: int) returns (self: LdapSearchOptions)
      modifies this
      ensures self == this
      ensures resultLimit == limit && baseDn == old(baseDn) && scope == old(scope)
    {
      resultLimit := limit;
      self := this;
    }

    method SetScope(scope: int) returns (self: LdapSearchOptions)
      modifies this
      ensures self == this
      ensures this.scope == scope && baseDn == old(baseDn) && resultLimit == old(resultLimit)
    {
      this.scope := scope;
      self := this;
    }

    function GetBaseDn(): string
      reads this
    {
      baseDn
    }

    function GetResultLimit(): int
      reads this
    {
      resultLimit
    }

    function GetScope(): int
      reads this
    {
      scope
    }
  }

  /** Setters chained through the objects they return all act on one instance, and
      the getters then give back what was set last. */
  method Chained(baseDn: string, dn: string, limit: int, scope: int) returns (options: LdapSearchOptions)
    ensures options.GetBaseDn() == dn && options.GetResultLimit() == limit && options.GetScope() == scope
  {
    options := new LdapSearchOptions(baseDn);
    var chained := options.SetBaseDn(dn);
    chained := chained.SetResultLimit(limit);
    chained := chained.SetScope(scope);
  }
}
