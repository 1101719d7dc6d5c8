/** The `LdapUtils` trait shared by the connection class: the error text built from the
    connection's diagnostics, the root DN taken from the bound identity, `{SHA}`
    password hashing and the loop that turns a search result into records. The older
    `LdapUtils` trait has textually the same `getLastError`, `get_root_dn` and
    `format_password`, which the same members model. */
module LdapUtils {
  import opened Errors
  import opened Php
  import opened Encodings
  import opened Entries

  /** What the connection reports about its last operation: `ldap_errno`,
      `ldap_error` and the LDAP_OPT_DIAGNOSTIC_MESSAGE option. */
  datatype Diagnostic = Diagnostic(errno: int, error: string, message: string)

  const ERROR_TAG: string := "[ERROR_CODE]"

  /** `getLastError`: the tag, the error number, the error text and the diagnostic
      message, separated by blanks. */
  function LastError(d: Diagnostic): (s: string)
    ensures s == ERROR_TAG + IntToDecimal(d.errno) + " " + d.error + " " + d.message
    ensures ERROR_TAG <= s
    ensures LeadingInt(s[|ERROR_TAG|..]) == d.errno
    ensures |d.message| <= |s| && s[|s| - |d.message|..] == d.message
  {
    var rest := " " + d.error + " " + d.message;
    var s := ERROR_TAG + IntToDecimal(d.errno) + rest;
    assert s[|ERROR_TAG|..] == IntToDecimal(d.errno) + rest;
    LeadingIntOfDecimal(d.errno, rest);
    s
  }

  /** The exception a failed search raises. */
  function SearchFailure(d: Diagnostic): (e: LdapError)
    ensures e.kind == SearchException && e.code == 0
    ensures "Can't perform research cause : " <= e.message && EndsWith(e.message, LastError(d))
  {
    LdapError(SearchException, "Can't perform research cause : " + LastError(d), 0)
  }

  // ---------------------------------------------------------------------------
  // getRootDN: preg_match('/dc=.*/') on the bound identity

  /** "dc=" starts at position `i` of `s`. */
  predicate DcAt(s: string, i: int) {
    0 <= i && i + 3 <= |s| && s[i..i + 3] == "dc="
  }

  /** `i` is the leftmost position where "dc=" starts. */
  predicate FirstDc(s: string, i: int) {
    DcAt(s, i) && forall j | 0 <= j < i :: !DcAt(s, j)
  }

  /** The leftmost position at or after `from` where "dc=" starts. */
  function FindDc(s: string, from: nat): (r: Option<nat>)
    requires from <= |s|
    ensures r.Some? ==> from <= r.value && DcAt(s, r.value) && forall j | from <= j < r.value :: !DcAt(s, j)
    ensures r.None? ==> forall j | from <= j :: !DcAt(s, j)
    decreases |s| - from
  {
    if from + 3 > |s| then None
    else if s[from..from + 3] == "dc=" then Some(from)
    else FindDc(s, from + 1)
  }

  /** Where `.*` stops: the first line feed at or after `from`, or the end. */
  function LineEnd(s: string, from: nat): (e: nat)
    requires from <= |s|
    ensures from <= e <= |s|
    ensures '\n' !in s[from..e]
    ensures e == |s| || s[e] == '\n'
    decreases |s| - from
  {
    if from == |s| || s[from] == '\n' then from
    else
      var e := LineEnd(s, from + 1);
      assert s[from..e] == [s[from]] + s[from + 1..e];
      e
  }

  const ROOT_DN_MISSING: string := "Can't retrieve root_dn from provided user dn"

  /** `getRootDN` given what `ldap_exop_whoami` returned: the text from the first
      "dc=" to the end of its line, or an exception when there is no "dc=". */
  function RootDn(whoami: string): (r: Result<string>)
    ensures r.Err? <==> forall i :: !DcAt(whoami, i)
    ensures r.Err? ==> r.error == LdapError(PlainException, ROOT_DN_MISSING, 0)
    ensures r.Ok? ==> "dc=" <= r.value && '\n' !in r.value
    ensures r.Ok? ==> exists i :: (FirstDc(whoami, i) && r.value <= whoami[i..]
      && (i + |r.value| == |whoami| || whoami[i + |r.value|] == '\n'))
  {
    match FindDc(whoami, 0)
    case None => Err(LdapError(PlainException, ROOT_DN_MISSING, 0))
    case Some(i) =>
      var e := LineEnd(whoami, i + 3);
      assert whoami[i..e][..3] == "dc=";
      assert whoami[i..e] == whoami[i..i + 3] + whoami[i + 3..e];
      assert FirstDc(whoami, i);
      assert whoami[i..e] <= whoami[i..];
      Ok(whoami[i..e])
  }

  // ---------------------------------------------------------------------------
  // formatPassword: "{SHA}" . base64_encode(pack("H*", sha1($pass)))

  /** A SHA-1 digest: 20 bytes. */
  type Digest = d: seq<Byte> | |d| == 20 witness seq(20, _ => 0)

  const SHA_TAG: string := "{SHA}"

  /** The base64 text of a digest is 28 characters long and decodes back to it, also
      after the tag. */
  lemma {:induction false} PasswordText(digest: Digest)
    ensures |Base64Encode(digest)| == 28
    ensures Base64Decode((SHA_TAG + Base64Encode(digest))[|SHA_TAG|..]) == Some(digest)
  {
    Base64RoundTrip(digest);
    var text := Base64Encode(digest);
    assert |text| == 4 * ((20 + 2) / 3);
    assert (SHA_TAG + text)[|SHA_TAG|..] == text;
  }

  /** `pack("H*", sha1($pass))`: the hexadecimal text `sha1()` returns, packed back
      into bytes, is the digest itself. */
  function PackedDigest(digest: Digest): (b: seq<Byte>)
    ensures b == digest
  {
    PackHexLower(digest);
    PackHex(HexLower(digest))
  }

  /** `formatPassword`, given the SHA-1 digest of the password: the tag and the
      canonical base64 text of the digest's bytes, so the part after the tag decodes
      back to the digest. */
  function FormatPassword(digest: Digest): (r: string)
    ensures r == SHA_TAG + Base64Encode(digest)
    ensures |r| == 33
    ensures Base64Decode(r[|SHA_TAG|..]) == Some(digest)
  {
    PasswordText(digest);
    SHA_TAG + Base64Encode(PackedDigest(digest))
  }

  // ---------------------------------------------------------------------------
  // processResults

  lemma NormalizeSnoc(raws: seq<RawEntry>, i: nat)
    requires i < |raws|
    ensures Normalize(raws[..i + 1]) == Normalize(raws[..i]) + [Cleared(raws[i].dn, raws[i].attributes)]
  {
    assert raws[..i + 1] == raws[..i] + [raws[i]];
    NormalizeAppend(raws[..i], [raws[i]]);
    var one := Normalize([raws[i]]);
    assert one[0] == ClearRaw([raws[i]][0]);
    assert one == [Cleared(raws[i].dn, raws[i].attributes)];
  }

  lemma CollectedSnoc(entries: seq<Record<string>>, raws: seq<RawEntry>, i: nat, acc: seq<Record<string>>, e: Record<string>)
    requires i < |raws| && acc == entries + Normalize(raws[..i])
    requires e == Cleared(raws[i].dn, raws[i].attributes)
    ensures acc + [e] == entries + Normalize(raws[..i + 1])
  {
    NormalizeSnoc(raws, i);
    assert acc + [e] == entries + (Normalize(raws[..i]) + [e]);
  }

  /** `processResults`: fails when the search failed, otherwise walks the entries
      (`ldap_first_entry`, then `ldap_next_entry` until it returns false) and appends
      one record per entry to `entries` (the by-reference array). */
  method ProcessResults(results: Option<seq<RawEntry>>, entries: seq<Record<string>>, diagnostic: Diagnostic)
    returns (r: Result<seq<Record<string>>>)
    ensures results.None? ==> r == Err(SearchFailure(diagnostic))
    ensures results.Some? ==> r == Ok(entries + Normalize(results.value))
  {
    if results.None? {
      return Err(SearchFailure(diagnostic));
    }
    var raws := results.value;
    var acc := entries;
    var i := 0;
    while i < |raws|
      invariant 0 <= i <= |raws|
      invariant acc == entries + Normalize(raws[..i])
    {
      var e := ClearEntry(raws[i].dn, raws[i].attributes);
      CollectedSnoc(entries, raws, i, acc, e);
      acc := acc + [e];
      i := i + 1;
    }
    assert raws[..i] == raws;
    return Ok(acc);
  }
}
