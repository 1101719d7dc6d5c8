/** `LdapBatchModification`: a builder for the modification list of
    `ldap_modify_batch`, one record per attribute change. */
module BatchModification {
  import opened Errors

  /** The LDAP_MODIFY_BATCH_* values of PHP's LDAP extension; the class calls them
      ADD, REPACE, REMOVE and DELETE. */
  const ADD: int := 0x01
  const REMOVE: int := 0x02
  const REPLACE: int := 0x03
  const REMOVE_ALL: int := 0x12

  /** One entry of the list: `attrib`, `modtype` and, except for a remove-all,
      `values`. */
  datatype BatchRecord = BatchRecord(attrib: string, modtype: int, values: Option<seq<string>>)

  /** The record `add` appends: a remove-all carries no values, whatever was passed;
      any other modification carries exactly the values passed. */
  function RecordFor(attrName: string, modificationType: int, values: seq<string>): (r: BatchRecord)
    ensures r.attrib == attrName && r.modtype == modificationType
    ensures r.values.None? <==> modificationType == REMOVE_ALL
    ensures r.values.Some? ==> r.values.value == values
  {
    if modificationType != REMOVE_ALL then BatchRecord(attrName, modificationType, Some(values))
    else BatchRecord(attrName, modificationType, None)
  }

  class LdapBatchModification {
    var attrs: seq<BatchRecord>

    /** The list given to the constructor is kept as it is. */
    constructor(batchAttrs: seq<BatchRecord>)
      ensures attrs == batchAttrs
    {
      attrs := batchAttrs;
    }

    /** Appends one record and returns the builder itself. */
    method Add(attrName: string, modificationType: int, values: seq<string> := []) returns (self: LdapBatchModification)
      modifies this
      ensures self == this
      ensures attrs == old(attrs) + [RecordFor(attrName, modificationType, values)]
    {
      attrs := attrs + [RecordFor(attrName, modificationType, values)];
      self := this;
    }

    function GetAttrs(): seq<BatchRecord>
      reads this
    {
      attrs
    }
  }

  /** Records come out of `get_attrs` in the order they were added, after the ones
      given to the constructor. */
  method Built(initial: seq<BatchRecord>, first: string, second: string, values: seq<string>)
    returns (batch: LdapBatchModification)
    ensures batch.GetAttrs() == initial + [BatchRecord(first, REPLACE, Some(values)), BatchRecord(second, REMOVE_ALL, None)]
  {
    batch := new LdapBatchModification(initial);
    var chained := batch.Add(first, REPLACE, values);
    chained := chained.Add(second, REMOVE_ALL, values);
  }
}
