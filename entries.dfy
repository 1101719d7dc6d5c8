/** The arrays the LDAP extension hands back for one entry, and the flat records the
    library turns them into (`clearEntry` of the `LdapUtils` trait and the older
    `clear_ldap_result`). A PHP object with dynamic properties is a map from property
    name to value. */
module Entries {
  import opened Errors
  import opened Php
  import opened Encodings

  /** A PHP array key: a string or an integer. */
  datatype Key = Name(name: string) | Index(index: int)

  /** A slot of an extension array: the "count" slot, a scalar, or the list of values
      of one attribute together with that list's own "count" slot. */
  datatype Raw<T> = Count(n: int) | Item(item: T) | Values(count: int, values: seq<T>)

  /** Shape of `ldap_get_attributes`: "count", each attribute name by position, and
      each attribute name mapped to the list of its values. */
  predicate IsAttributeArray<T>(m: map<Key, Raw<T>>) {
    forall k | k in m ::
      if k.Index? then m[k].Item?
      else if k.name == "count" then m[k].Count?
      else m[k].Values?
  }

  type AttributeArray<T> = m: map<Key, Raw<T>> | IsAttributeArray(m) witness map[]

  /** A property of a cleared entry: one value, several values, or null when the
      attribute came with no value at all (`$value[0]` of an empty array). */
  datatype Value<T> = Null | Scalar(value: T) | Multi(values: seq<T>)

  /** The values a property stands for. */
  function Expand<T>(v: Value<T>): seq<T> {
    match v
    case Null => []
    case Scalar(x) => [x]
    case Multi(vs) => vs
  }

  /** `count($value) > 1 ? $value : $value[0]`: an attribute with several values stays a
      list, one with a single value becomes that value. No values are lost. */
  function Collapse<T>(vs: seq<T>): (v: Value<T>)
    ensures Expand(v) == vs
    ensures v.Multi? <==> |vs| > 1
    ensures v.Scalar? <==> |vs| == 1
  {
    if |vs| > 1 then Multi(vs) else if |vs| == 1 then Scalar(vs[0]) else Null
  }

  /** A cleared entry: property name to value. */
  type Record<T> = map<string, Value<T>>

  /** Attribute names of an attribute array: its string keys other than "count". */
  function AttributeNames<T>(attrs: AttributeArray<T>): set<string> {
    set k | k in attrs && k.Name? && k.name != "count" :: k.name
  }

  lemma AttributeNameKey<T>(attrs: AttributeArray<T>, n: string)
    ensures n in AttributeNames(attrs) <==> Name(n) in attrs && n != "count"
  {
    if Name(n) in attrs && n != "count" {
      assert Name(n).name == n;
    }
  }

  /** The properties the loop of `clearEntry` has written after visiting `keys`. */
  function Collapsed<T>(attrs: AttributeArray<T>, keys: set<Key>): map<string, Value<T>>
    requires keys <= attrs.Keys
  {
    map k | k in keys && k.Name? && k.name != "count" :: k.name := Collapse(attrs[k].values)
  }

  /** What `clearEntry` builds: the distinguished name under "dn", then one property
      per attribute, which overrides "dn" when an attribute carries that name. */
  function Cleared<T>(dn: T, attrs: AttributeArray<T>): (r: Record<T>)
    ensures r.Keys == {"dn"} + AttributeNames(attrs)
    ensures forall n | n in AttributeNames(attrs) :: r[n] == Collapse(attrs[Name(n)].values)
    ensures forall n | n in AttributeNames(attrs) :: Expand(r[n]) == attrs[Name(n)].values
    ensures "dn" !in AttributeNames(attrs) ==> r["dn"] == Scalar(dn)
  {
    var r := map["dn" := Scalar(dn)] + Collapsed(attrs, attrs.Keys);
    assert forall n | n in AttributeNames(attrs) :: Name(n) in attrs && n in Collapsed(attrs, attrs.Keys) by {
      forall n | n in AttributeNames(attrs)
        ensures Name(n) in attrs && n in Collapsed(attrs, attrs.Keys)
      {
        AttributeNameKey(attrs, n);
      }
    }
    r
  }

  lemma CollapsedStep<T>(attrs: AttributeArray<T>, done: set<Key>, k: Key)
    requires done <= attrs.Keys && k in attrs && k !in done
    ensures Collapsed(attrs, done + {k}) ==
      if k.Name? && k.name != "count" then Collapsed(attrs, done)[k.name := Collapse(attrs[k].values)]
      else Collapsed(attrs, done)
  {
  }

  lemma MergeUpdate<K, V>(a: map<K, V>, b: map<K, V>, x: K, v: V)
    ensures (a + b)[x := v] == a + b[x := v]
  {
  }

  /** `clearEntry`: the loop over the attribute array, one key at a time. */
  method ClearEntry<T>(dn: T, attrs: AttributeArray<T>) returns (e: Record<T>)
    ensures e == Cleared(dn, attrs)
  {
    e := map["dn" := Scalar(dn)];
    var todo := attrs.Keys;
    ghost var done: set<Key> := {};
    while todo != {}
      invariant done + todo == attrs.Keys && done !! todo
      invariant e == map["dn" := Scalar(dn)] + Collapsed(attrs, done)
      decreases |todo|
    {
      var k :| k in todo;
      CollapsedStep(attrs, done, k);
      if k.Name? && k.name != "count" {
        MergeUpdate(map["dn" := Scalar(dn)], Collapsed(attrs, done), k.name, Collapse(attrs[k].values));
        e := e[k.name := Collapse(attrs[k].values)];
      }
      MoveKey(done, todo, k);
      todo := todo - {k};
      done := done + {k};
    }
  }

  /** Moving a key from the keys still to visit to the visited ones keeps the two
      disjoint and their union unchanged. */
  lemma MoveKey(done: set<Key>, todo: set<Key>, k: Key)
    requires done !! todo && k in todo
    ensures (done + {k}) + (todo - {k}) == done + todo
    ensures (done + {k}) !! (todo - {k})
  {
  }

  /** One entry of a search result: what `ldap_get_dn` and `ldap_get_attributes`
      return for it. */
  datatype RawEntry = RawEntry(dn: string, attributes: AttributeArray<string>)

  /** `f` applied to every element of `s`, in order. */
  function MapSeq<A, B>(f: A -> B, s: seq<A>): (r: seq<B>)
    ensures |r| == |s|
  {
    seq(|s|, i requires 0 <= i < |s| => f(s[i]))
  }

  lemma MapSeqAppend<A, B>(f: A -> B, a: seq<A>, b: seq<A>)
    ensures MapSeq(f, a + b) == MapSeq(f, a) + MapSeq(f, b)
  {
    var whole, parts := MapSeq(f, a + b), MapSeq(f, a) + MapSeq(f, b);
    forall i | 0 <= i < |whole|
      ensures whole[i] == parts[i]
    {
      if i < |a| {
        assert (a + b)[i] == a[i];
      } else {
        assert (a + b)[i] == b[i - |a|];
      }
    }
  }

  /** What `clearEntry` makes of one entry of a search result. */
  function ClearRaw(e: RawEntry): Record<string> {
    Cleared(e.dn, e.attributes)
  }

  /** The records `clearEntry` makes of a run of entries: record `i` is entry `i`,
      cleared. */
  function Normalize(raws: seq<RawEntry>): (r: seq<Record<string>>)
    ensures |r| == |raws|
  {
    MapSeq(ClearRaw, raws)
  }

  /** Normalizing a concatenation normalizes each part. */
  lemma NormalizeAppend(a: seq<RawEntry>, b: seq<RawEntry>)
    ensures Normalize(a + b) == Normalize(a) + Normalize(b)
  {
    MapSeqAppend(ClearRaw, a, b);
  }

  // ---------------------------------------------------------------------------
  // The older clear_ldap_result, over the array of `ldap_get_entries`

  /** Shape of one entry of `ldap_get_entries`: like an attribute array, plus the
      entry's distinguished name under "dn". Values are the raw bytes of the directory. */
  predicate IsEntryLine(m: map<Key, Raw<seq<Byte>>>) {
    && Name("dn") in m
    && forall k | k in m ::
      if k.Index? then m[k].Item?
      else if k.name == "count" then m[k].Count?
      else if k.name == "dn" then m[k].Item?
      else m[k].Values?
  }

  type EntryLine = m: map<Key, Raw<seq<Byte>>> | IsEntryLine(m) witness map[Name("dn") := Item([])]

  /** The array of `ldap_get_entries`: its "count" and the entries by position. */
  datatype EntryArray = EntryArray(count: int, lines: seq<EntryLine>)

  /** `count($value) > 1 ? $value : utf8_encode($value[0])`: only a single value is
      converted from ISO-8859-1 to UTF-8; a missing value converts as the empty string. */
  function CollapseLatin1(vs: seq<seq<Byte>>): (v: Value<seq<Byte>>)
    ensures |vs| > 1 ==> v == Multi(vs)
    ensures |vs| == 1 ==> v.Scalar? && Utf8ToLatin1(v.value) == Some(vs[0])
    ensures |vs| == 0 ==> v == Scalar([])
  {
    if |vs| > 1 then Multi(vs)
    else if |vs| == 1 then
      Latin1Utf8RoundTrip(vs[0]);
      Scalar(Latin1ToUtf8(vs[0]))
    else Scalar(Latin1ToUtf8([]))
  }

  /** Attribute names of an entry: its string keys other than "count" and "dn". */
  function LineNames(line: EntryLine): set<string> {
    set k | k in line && k.Name? && k.name != "count" && k.name != "dn" :: k.name
  }

  lemma LineNameKey(line: EntryLine, n: string)
    ensures n in LineNames(line) <==> Name(n) in line && n != "count" && n != "dn"
  {
    if Name(n) in line && n != "count" && n != "dn" {
      assert Name(n).name == n;
    }
  }

  /** The properties the inner loop of `clear_ldap_result` has written after `keys`. */
  function LineCollapsed(line: EntryLine, keys: set<Key>): map<string, Value<seq<Byte>>>
    requires keys <= line.Keys
  {
    map k | k in keys && k.Name? && k.name != "count" && k.name != "dn" :: k.name := CollapseLatin1(line[k].values)
  }

  /** What `clear_ldap_result` builds for one entry: "dn" first (the slot is removed
      before the loop, so no attribute replaces it), then one property per attribute. */
  function ClearedLine(line: EntryLine): (r: Record<seq<Byte>>)
    ensures r.Keys == {"dn"} + LineNames(line)
    ensures r["dn"] == Scalar(line[Name("dn")].item)
    ensures forall n | n in LineNames(line) :: r[n] == CollapseLatin1(line[Name(n)].values)
  {
    var r := map["dn" := Scalar(line[Name("dn")].item)] + LineCollapsed(line, line.Keys);
    assert forall n | n in LineNames(line) :: Name(n) in line && n in LineCollapsed(line, line.Keys) by {
      forall n | n in LineNames(line)
        ensures Name(n) in line && n in LineCollapsed(line, line.Keys)
      {
        LineNameKey(line, n);
      }
    }
    r
  }

  lemma LineCollapsedStep(line: EntryLine, done: set<Key>, k: Key)
    requires done <= line.Keys && k in line && k !in done
    ensures LineCollapsed(line, done + {k}) ==
      if k.Name? && k.name != "count" && k.name != "dn" then LineCollapsed(line, done)[k.name := CollapseLatin1(line[k].values)]
      else LineCollapsed(line, done)
  {
  }

  /** Body of the outer loop of `clear_ldap_result` for one entry. */
  method ClearLine(line: EntryLine) returns (e: Record<seq<Byte>>)
    ensures e == ClearedLine(line)
  {
    e := map["dn" := Scalar(line[Name("dn")].item)];
    var todo := line.Keys;
    ghost var done: set<Key> := {};
    while todo != {}
      invariant done + todo == line.Keys && done !! todo
      invariant e == map["dn" := Scalar(line[Name("dn")].item)] + LineCollapsed(line, done)
      decreases |todo|
    {
      var k :| k in todo;
      LineCollapsedStep(line, done, k);
      if k.Name? && k.name != "count" && k.name != "dn" {
        MergeUpdate(map["dn" := Scalar(line[Name("dn")].item)], LineCollapsed(line, done), k.name, CollapseLatin1(line[k].values));
        e := e[k.name := CollapseLatin1(line[k].values)];
      }
      MoveKey(done, todo, k);
      todo := todo - {k};
      done := done + {k};
    }
  }

  /** The first `n` records are those of the first `n` lines. */
  predicate ClearedUpTo(res: seq<Record<seq<Byte>>>, lines: seq<EntryLine>, n: nat)
    requires n <= |res| && n <= |lines|
  {
    forall j | 0 <= j < n :: res[j] == ClearedLine(lines[j])
  }

  lemma ClearedUpToSnoc(res: seq<Record<seq<Byte>>>, lines: seq<EntryLine>, record: Record<seq<Byte>>)
    requires |res| < |lines| && ClearedUpTo(res, lines, |res|)
    requires record == ClearedLine(lines[|res|])
    ensures ClearedUpTo(res + [record], lines, |res| + 1)
  {
    var next := res + [record];
    forall j | 0 <= j < |res| + 1
      ensures next[j] == ClearedLine(lines[j])
    {
      if j < |res| {
        assert next[j] == res[j];
      }
    }
  }

  /** `clear_ldap_result`: one record per entry, in the order of the array. */
  method ClearLdapResult(entries: EntryArray) returns (res: seq<Record<seq<Byte>>>)
    ensures |res| == |entries.lines|
    ensures forall i | 0 <= i < |res| :: res[i] == ClearedLine(entries.lines[i])
  {
    res := [];
    var i := 0;
    while i < |entries.lines|
      invariant 0 <= i <= |entries.lines|
      invariant |res| == i
      invariant ClearedUpTo(res, entries.lines, i)
    {
      var record := ClearLine(entries.lines[i]);
      ClearedUpToSnoc(res, entries.lines, record);
      res := res + [record];
      i := i + 1;
    }
  }
}
