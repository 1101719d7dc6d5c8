# composer-ldap-client in Dafny

This project models the logic of composer-ldap-client (PHP namespace `hakuryo\ldap`), a PHP wrapper around PHP's LDAP
extension, and proves properties of that model. The modelled logic is the layer that sits
around the calls into the extension:

- the `ConnectionLDAP` class. Its constructor connects and binds. `search` and `list` run a
  single request or the paged search of RFC 2696. `getEntry` runs a lookup limited to one
  entry. `modify`, `add` and `delete` make changes;
- the `LdapUtils` traits. They turn raw entries into records, format `getLastError`, take
  the root DN from the bound identity, and build `{SHA}` passwords;
- the `ActiveDirectoryOperation` trait: the userAccountControl toggle, the `unicodePwd`
  password change and the DN lookup;
- `ConfigParser`, which validates INI and JSON configuration files;
- the builder objects `LdapSearchOptions` (both copies) and `LdapBatchModification`.

The LDAP server is a scripted object, `Directory.Server`. Each search request takes the next
reply of its script, and `None` stands for a failed request. Every other call takes the next
boolean verdict. Every request is appended to a log, so contracts state both what an
operation returns and exactly which requests it sent. A script is finite, so the paged
search loop terminates.

The modules follow the source files:

| module | file | PHP source |
|---|---|---|
| `Errors` | errors.dfy | exception classes, as one error datatype |
| `Php` | php.dfy | PHP built-ins: `empty`, `intval`, `explode`/`implode`, `strtolower`, `pathinfo`, decoded JSON values |
| `Encodings` | encodings.dfy | base64 (section 4 of RFC 4648), `sha1` hex and `pack("H*")`, `utf8_encode` (RFC 3629), UTF-16LE (RFC 2781) |
| `Entries` | entries.dfy | `clearEntry` and the older `clear_ldap_result` |
| `LdapUtils` | ldap_utils.dfy | `getLastError`, `getRootDN`, `formatPassword`, `processResults` |
| `Directory` | directory.dfy | the scripted server standing in for the extension |
| `Paging` | paging.dfy | the specification of the paged search |
| `SearchOptions`, `LegacySearchOptions` | search_options.dfy, legacy_search_options.dfy | the two `LdapSearchOptions` classes |
| `BatchModification` | batch_modification.dfy | `LdapBatchModification` |
| `Connection` | connection.dfy | `ConnectionLDAP`, `create_groupOfNames` |
| `ActiveDirectory` | active_directory.dfy | `ActiveDirectoryOperation` |
| `ConfigParser` | config_parser.dfy | `ConfigParser` |

Where the code and its documentation disagree, the model follows the code, as written for
PHP 8.1 and 8.2:

- Two exceptions the documentation promises are never raised; see "## Findings".
- A page size of 0 takes the unpaged path, because `$pageSize != null` is a loose
  comparison.
- A paged search stops on the cookie "0" as well as on "", because the loop tests
  `empty()`.
- `ConfigParser` defaults the timeout to 3, while `make_ldap_config` defaults it to 5.

## Model

| member | source | states |
|---|---|---|
| Php.IntVal | src/utils/ConfigParser.php:106 | `intval` of a string is always a 64-bit integer |
| Php.IntValDigits | src/utils/ConfigParser.php:106 | a run of digits reads as its value, saturated to 64 bits; the text after it is ignored |
| Php.IntValPlusDigits | src/utils/ConfigParser.php:106 | after "+" the digits keep their value before saturating |
| Php.IntValMinusDigits | src/utils/ConfigParser.php:106 | after "-" the digits' value is negated before saturating |
| Php.IntValSaturates | src/utils/ConfigParser.php:106 | digits above the 64-bit range read as the largest integer, digits within it as their value |
| Php.IntValNegativeSaturates | src/utils/ConfigParser.php:106 | "-" and digits below the 64-bit range read as the smallest integer, within it as the negated value |
| Php.IntValSkipsSpace | src/utils/ConfigParser.php:106 | leading white space does not change the value |
| Php.IntValOfDecimalPrefix | src/utils/ConfigParser.php:106 | every 64-bit integer in decimal reads back, whatever non-digit text follows it |
| Php.IntValOfDecimal | src/utils/ConfigParser.php:106 | `intval` reads back every 64-bit integer written in decimal |
| Php.Explode | src/ConnectionLDAP.php:111 | `explode` always yields at least one piece |
| Php.ExplodeCount | src/ConnectionLDAP.php:111 | k separators give exactly k + 1 pieces |
| Php.ExplodePiecesSeparatorFree | src/ConnectionLDAP.php:111 | no piece contains the separator |
| Php.ImplodeExplode | src/ConnectionLDAP.php:111 | joining the pieces with the separator gives back the string |
| Php.ExplodeImplode | src/ConnectionLDAP.php:111 | splitting the join of separator-free pieces gives back the pieces |
| Php.Extension | src/utils/ConfigParser.php:21 | the extension holds neither a dot nor a slash |
| Php.ExtensionOfName | src/utils/ConfigParser.php:21 | `<dirs/stem>.<ext>` has extension `<ext>`, case kept |
| Encodings.Base64Encode | src/traits/LdapUtils.php:46 | the text has 4 characters per started group of 3 bytes |
| Encodings.Base64RoundTrip | src/traits/LdapUtils.php:46 | base64 decoding gives back every encoded byte string |
| Encodings.HexLower | src/traits/LdapUtils.php:46 | `sha1`'s hex text has two hex digits per byte |
| Encodings.PackHexLower | src/traits/LdapUtils.php:46 | `pack("H*")` turns the hex text back into the digest bytes |
| Encodings.Latin1ToUtf8Length | src/LdapUtils.php:20 | `utf8_encode` output length is the input length plus the number of bytes >= 0x80 |
| Encodings.Latin1Utf8RoundTrip | src/LdapUtils.php:20 | `utf8_encode` loses nothing: it can be decoded back to the input |
| Encodings.CharToUtf16Le | src/traits/ActiveDirectoryOperation.php:41 | a BMP character takes 2 bytes, any other takes 4 (a surrogate pair) |
| Encodings.Utf16LeAppend | src/traits/ActiveDirectoryOperation.php:40-41 | encoding a concatenation concatenates the encodings |
| Encodings.Utf16LeBmpLength | src/traits/ActiveDirectoryOperation.php:41 | a BMP-only string takes 2 bytes per character |
| Encodings.Utf16LeRoundTrip | src/traits/ActiveDirectoryOperation.php:41 | UTF-16LE decoding gives back every encoded string |
| Entries.Collapse | src/traits/LdapUtils.php:19-20 | an attribute's value list is kept whole; more than one value gives a list, exactly one gives that scalar |
| Entries.AttributeNameKey | src/traits/LdapUtils.php:16-18 | an attribute is copied iff its key is a string other than the `count` marker |
| Entries.Cleared | src/traits/LdapUtils.php:11-24 | the record has `dn` plus exactly the string-keyed attributes, each value collapsed from the attribute's values |
| Entries.ClearEntry | src/traits/LdapUtils.php:11-24 | the field-by-field loop builds exactly the `Cleared` record |
| Entries.NormalizeAppend | src/traits/LdapUtils.php:32-40 | normalising two runs of entries appends their records, in order |
| Entries.CollapseLatin1 | src/LdapUtils.php:19-20 | the older variant keeps a multi-valued list as it is, and re-encodes a single value with `utf8_encode` |
| Entries.LineNameKey | src/LdapUtils.php:15-18 | an attribute is copied iff its key is a string other than `count` and `dn` |
| Entries.ClearedLine | src/LdapUtils.php:13-22 | the older record: `dn` from the line's `dn`, and every other string-keyed attribute collapsed and re-encoded |
| Entries.ClearLine | src/LdapUtils.php:13-22 | the per-line loop builds exactly the `ClearedLine` record |
| Entries.ClearLdapResult | src/LdapUtils.php:9-26 | one record per line, in input order, the `count` marker dropped |
| LdapUtils.LastError | src/traits/LdapUtils.php:62-68 | exactly `[ERROR_CODE]<errno> <error> <message>`; the error number reads back from the text and the diagnostic message ends it (same text in src/LdapUtils.php:51-55) |
| LdapUtils.SearchFailure | src/traits/LdapUtils.php:29-31 | a failed search raises the search exception, with code 0 and a message ending with `getLastError()` |
| LdapUtils.FindDc | src/traits/LdapUtils.php:54 | finds the leftmost `dc=` at or after a position, or reports there is none |
| LdapUtils.LineEnd | src/traits/LdapUtils.php:54 | `.*` stops at the first line feed or the end of the text |
| LdapUtils.RootDn | src/traits/LdapUtils.php:49-60 | fails iff the identity holds no `dc=`; otherwise gives the text from the leftmost `dc=` to the end of its line (same code in src/LdapUtils.php:40-49) |
| LdapUtils.PackedDigest | src/traits/LdapUtils.php:46 | `pack("H*", sha1(...))` gives back the digest bytes |
| LdapUtils.PasswordText | src/traits/LdapUtils.php:46 | the base64 text of the digest is 28 characters and decodes back to it, also after the `{SHA}` tag |
| LdapUtils.FormatPassword | src/traits/LdapUtils.php:43-47 | `{SHA}` followed by the canonical base64 text of the digest: 33 characters whose suffix decodes back to the 20-byte digest (same code in src/LdapUtils.php:36-38) |
| LdapUtils.NormalizeSnoc | src/traits/LdapUtils.php:35-38 | one more entry adds exactly its cleared record at the end |
| LdapUtils.ProcessResults | src/traits/LdapUtils.php:27-41 | a failed search raises the search exception; otherwise the records of the entries are appended, in order, after the entries already collected |
| Paging.PagedRun | src/ConnectionLDAP.php:254-276 | the first request carries the starting cookie; there is at most one request per reply, and a success sends no request the server leaves unanswered |
| Paging.CookieThreading | src/ConnectionLDAP.php:257-274 | request k carries the cookie of reply k - 1, and that cookie is not empty |
| Paging.PagedRunSucceeds | src/ConnectionLDAP.php:259-274 | succeeds iff every request is answered and the last reply's cookie is empty in PHP's sense |
| Paging.PagedRunFailure | src/ConnectionLDAP.php:271 | a failed paged search fails with the `ldap_parse_result` TypeError |
| Paging.PagedRunEntries | src/ConnectionLDAP.php:258-275 | a success returns the records of every page requested, in page order and server order within a page |
| Paging.ThreePages | src/ConnectionLDAP.php:257-274 | cookies C1, C2, "" give exactly three requests (cookies "", C1, C2) and three pages of records |
| Paging.ZeroCookieStops | src/ConnectionLDAP.php:273-274 | the cookie "0" ends the loop like "" |
| Paging.IntendedPagedRun | src/ConnectionLDAP.php:254-276 | the paged loop as documented: a failed request raises the search exception of `processResults` |
| Paging.IntendedPagedRunAgrees | src/traits/LdapUtils.php:29-31 | the documented loop sends the same requests and returns the same records as the loop as written, and its only exception is the search exception |
| Paging.FailedFirstPage | src/ConnectionLDAP.php:271 | a failed first request gives a TypeError as written, where the documented loop gives the search exception |
| SearchOptions.LdapSearchOptions.constructor | src/entities/LdapSearchOptions.php:26-30 | stores base DN, limit (default 0) and scope (default SEARCH_SCOPE_SUB = 0) |
| SearchOptions.LdapSearchOptions.SetBaseDN | src/entities/LdapSearchOptions.php:32-35 | changes the base DN only and returns the same object |
| SearchOptions.LdapSearchOptions.SetResultLimit | src/entities/LdapSearchOptions.php:37-40 | changes the limit only and returns the same object |
| SearchOptions.LdapSearchOptions.SetScope | src/entities/LdapSearchOptions.php:42-45 | changes the scope only and returns the same object |
| SearchOptions.Chained | src/entities/LdapSearchOptions.php:32-57 | chained setters act on one instance; the getters return what was set last |
| LegacySearchOptions.LdapSearchOptions.constructor | src/LdapSearchOptions.php:26-30 | stores base DN, limit (default 0) and scope (default SEARCH_SCOPE_SUB = 0) |
| LegacySearchOptions.LdapSearchOptions.SetBaseDn | src/LdapSearchOptions.php:32-35 | changes the base DN only and returns the same object |
| LegacySearchOptions.LdapSearchOptions.SetResultLimit | src/LdapSearchOptions.php:37-40 | changes the limit only and returns the same object |
| LegacySearchOptions.LdapSearchOptions.SetScope | src/LdapSearchOptions.php:42-45 | changes the scope only and returns the same object |
| LegacySearchOptions.Chained | src/LdapSearchOptions.php:32-57 | chained setters act on one instance; the getters return what was set last |
| BatchModification.RecordFor | src/LdapBatchModification.php:21-25 | a remove-all record has no values, whatever was passed; any other record has exactly the values passed |
| BatchModification.LdapBatchModification.constructor | src/LdapBatchModification.php:14-17 | keeps the given list as it is |
| BatchModification.LdapBatchModification.Add | src/LdapBatchModification.php:19-27 | appends exactly one record, keeps the earlier ones, and returns the same builder |
| BatchModification.Built | src/LdapBatchModification.php:19-32 | `get_attrs` returns the constructor's records, then the added ones in order |
| Connection.AttributeList | src/ConnectionLDAP.php:111 | an array is passed through; a string with k commas gives k + 1 comma-free names that join back to the string |
| Connection.NullIfEmpty | src/ConnectionLDAP.php:119 | null exactly when there are no records, otherwise the records themselves |
| Connection.SingleOutcome | src/ConnectionLDAP.php:116-117 | the unpaged path fails iff its request fails, and otherwise returns its reply's records |
| Connection.PagedRequests | src/ConnectionLDAP.php:261-268 | request i is the base request with the paged-results control carrying the page size and cookie i |
| Connection.AnswerNeverEmpty | src/ConnectionLDAP.php:119 | `search` and `list` never return an empty array: no records is null |
| Connection.SingleSearch | src/ConnectionLDAP.php:113-119 | a page size of null or 0 sends one request and returns its records, null or the search exception |
| Connection.ScopeFor | src/ConnectionLDAP.php:160-164 | a subtree search iff the scope is SEARCH_SCOPE_SUB, one level otherwise |
| Connection.FirstEntry | src/ConnectionLDAP.php:165-169 | fails iff the request failed; null iff no entry came back; otherwise the first entry, cleared |
| Connection.ModifyOperation | src/ConnectionLDAP.php:183-193 | MOD_ADD, MOD_REPLACE and MOD_DEL (0, 1, 2) pick `ldap_mod_add`, `_replace` and `_del`; any other kind makes no call |
| Connection.MakeLdapConfig | src/ConnectionLDAP.php:243-252 | copies USER, PWD, DN and HOST; the timeout is TIMEOUT, or 5 |
| Connection.ConnectFailure | src/ConnectionLDAP.php:71 | the connect exception: code -1, a message naming the host and ending with `getLastError()` |
| Connection.ConnectionLDAP.OpenIntended | src/ConnectionLDAP.php:59-73 | the constructor as documented: a host `ldap_connect` rejects raises the connect exception with code -1; bind failure, options, log and used-up verdicts as in `Open` |
| Connection.MalformedHost | src/ConnectionLDAP.php:64-72 | a host that `ldap_connect` rejects gives a TypeError as written and the connect exception with code -1 as documented |
| Connection.ConnectionLDAP.Open | src/ConnectionLDAP.php:61-73 | a rejected host raises the `ldap_get_option` TypeError; a bind failure (which is where an unreachable server fails) raises the bind exception with code -1; otherwise uses the given options, or new options on the root DN; one verdict is used up per call made and no reply |
| Connection.ConnectionLDAP.PaginateSearch | src/ConnectionLDAP.php:254-276 | returns `PagedRun`'s result, sends exactly its requests and uses up exactly one reply per request |
| Connection.ResumeStep | src/ConnectionLDAP.php:259-274 | one turn of the loop moves one cookie and one page of records from the rest of the run to the part done |
| Connection.ConnectionLDAP.Query | src/ConnectionLDAP.php:108-147 | takes the paged or the single path by page size; returns the records or null; sends exactly the path's requests |
| Connection.ConnectionLDAP.Search | src/ConnectionLDAP.php:108-120 | `Query` over the subtree |
| Connection.ConnectionLDAP.List | src/ConnectionLDAP.php:135-147 | `Query` one level below the base |
| Connection.ConnectionLDAP.GetEntry | src/ConnectionLDAP.php:157-170 | one request in the configured scope with size limit 1; the result is `FirstEntry` of its reply |
| Connection.ModifyFailure | src/ConnectionLDAP.php:195 | the modify exception: code 0, a message naming the entry and ending with `getLastError()` |
| Connection.AddFailure | src/ConnectionLDAP.php:210 | the add exception: code 0, a message naming the entry and ending with `getLastError()` |
| Connection.DeleteFailure | src/ConnectionLDAP.php:224 | the delete exception: code 0, a message naming the entry and ending with `getLastError()` |
| Connection.ConnectionLDAP.Modify | src/ConnectionLDAP.php:180-198 | true iff the kind is known and the call succeeds; otherwise the modify exception |
| Connection.ConnectionLDAP.Add | src/ConnectionLDAP.php:207-213 | true, or the add exception when the call fails |
| Connection.ConnectionLDAP.Delete | src/ConnectionLDAP.php:221-227 | true, or the delete exception when the call fails |
| Connection.GroupOfNames | src/LdapUtils.php:29-32 | exactly the keys objectclass (groupOfNames), cn (the name) and member (the list given) |
| Connection.CreateGroupOfNames | src/LdapUtils.php:28-34 | adds `cn=<name>,<target OU>` with the `GroupOfNames` attributes; passes iff the add is granted, else the add exception; uses up one verdict and no reply |
| ActiveDirectory.AccountControl | src/traits/ActiveDirectoryOperation.php:16 | 0x10201 to enable, 0x10202 to disable; ACCOUNTDISABLE is set iff disabling, NORMAL_ACCOUNT and DONT_EXPIRE_PASSWD are always set; PASSWD_NOTREQD, PASSWD_CANT_CHANGE, PASSWORD_EXPIRED and ADS_SYSTEMFLAG_DISALLOW_DELETE never |
| ActiveDirectory.DnArgument | src/traits/ActiveDirectoryOperation.php:17 | a single DN is used as it is; a list of DNs is refused |
| ActiveDirectory.ToggleAccountActivation | src/traits/ActiveDirectoryOperation.php:11-25 | looks the user up, then replaces only userAccountControl on its DN; no entry makes `property_exists(null, ...)` throw a TypeError, an entry without the DN raises "no user", and a failed replace raises an exception; uses up one reply, and one verdict exactly when the replace is sent |
| ActiveDirectory.UnicodePwd | src/traits/ActiveDirectoryOperation.php:40-41 | starts and ends with 0x22 0x00, decodes back to the quoted password, and takes 2(n + 2) bytes for a BMP-only password |
| ActiveDirectory.SetPassword | src/traits/ActiveDirectoryOperation.php:27-48 | raises when the search fails, when no entry is found, or when the replace fails; otherwise replaces only `unicodepwd` on the first entry's DN; uses up one reply, and one verdict exactly when the replace is sent |
| ActiveDirectory.GetUserDn | src/traits/ActiveDirectoryOperation.php:79-101 | raises when the search fails, when no entry is found, or when the DN is empty; otherwise returns the first entry's DN; uses up one reply and no verdict |
| ConfigParser.FileFormat | src/utils/ConfigParser.php:21-34 | `ini` goes to the INI parser; `json` goes to the JSON parser only with the JSON mime type; anything else is unsupported |
| ConfigParser.FormatOfName | src/utils/ConfigParser.php:21-34 | the dispatch of `<stem>.<ext>` depends on `<ext>` alone |
| ConfigParser.UpperCaseJsonRejected | src/utils/ConfigParser.php:22-33 | a `.JSON` file is unsupported |
| ConfigParser.UpperCaseIniRejected | src/utils/ConfigParser.php:22-33 | an `.INI` file is unsupported |
| ConfigParser.PropertyExists | src/utils/ConfigParser.php:73 | true iff an object has the key; a string (a class name) gives false; null, a boolean, an integer or an array raises the TypeError naming its type |
| ConfigParser.Member | src/utils/ConfigParser.php:68 | reads a property; a missing one reads as null |
| ConfigParser.SectionExist | src/utils/ConfigParser.php:84-96 | an object needs the section as a property and a list as an index; other values are not checked |
| ConfigParser.RequireKeys | src/utils/ConfigParser.php:48-56 | the key loop fails exactly as `KeyCheck` says (same loop in src/utils/ConfigParser.php:72-80) |
| ConfigParser.KeyCheckObject | src/utils/ConfigParser.php:48-56 | on an object, with no DRIVER key listed, the loop passes iff every key is present, and otherwise names all the keys |
| ConfigParser.MandatoryCheck | src/utils/ConfigParser.php:46-56 | passes iff HOST, PWD, USER and DN are all present; a string lacks the keys; any other non-object raises the `property_exists` TypeError naming its type |
| ConfigParser.ExtraKeysIgnored | src/utils/ConfigParser.php:46-56 | adding a non-mandatory key never changes the verdict |
| ConfigParser.DriverVerdictFrom | src/utils/ConfigParser.php:48-56 | with every listed key present, the rest of the loop fails exactly when DRIVER is still to come and names an unsupported driver |
| ConfigParser.DriverVerdict | src/utils/ConfigParser.php:50-52 | for any key list naming DRIVER and a configuration holding every listed key: passes iff the lower-cased driver is `oci` or `mysql`, otherwise the wrong-driver exception |
| ConfigParser.DriverChecked | src/utils/ConfigParser.php:50-52 | were DRIVER listed, `pgsql` would be refused and `OCI` accepted |
| ConfigParser.MakeLDAPConfig | src/utils/ConfigParser.php:98-109 | copies USER, PWD, DN and HOST; the timeout is `intval(TIMEOUT)`, or 3; the name is NAME, or the section |
| ConfigParser.TimeoutText | src/utils/ConfigParser.php:106 | a decimal TIMEOUT text gives that number |
| ConfigParser.Validated | src/utils/ConfigParser.php:46-57 | yields a configuration iff the value is an object with every mandatory key; otherwise the missing-keys exception for an object or a string, and the `property_exists` TypeError for any other value |
| ConfigParser.IniObject | src/utils/ConfigParser.php:100 | the INI array as an object: same keys, string values |
| ConfigParser.IniSections | src/utils/ConfigParser.php:42 | one object per INI section |
| ConfigParser.ParsedIni | src/utils/ConfigParser.php:37-58 | with no section, checks the flat keys; with a section, fails when it is missing and otherwise uses only that section's keys |
| ConfigParser.ParseIni | src/utils/ConfigParser.php:37-58 | returns exactly `ParsedIni` |
| ConfigParser.ParsedJson | src/utils/ConfigParser.php:60-82 | a decoding error raises JsonException with its own message and number; a falsy document raises JsonException with whatever error earlier `json_*` calls left; a section ("" counts as none) must exist, and then only its keys are used |
| ConfigParser.ParseJson | src/utils/ConfigParser.php:60-82 | returns exactly `ParsedJson` |
| ConfigParser.JsonListRejected | src/utils/ConfigParser.php:63-80 | a JSON list is never a configuration: the empty list is falsy, a missing index is a missing section, and otherwise `property_exists` refuses the array or the null read from it |
| ConfigParser.FalsyDocument | src/utils/ConfigParser.php:63-65 | the JsonException for a falsy document carries the error state earlier `json_*` calls left: code 0 and "No error" iff none failed, otherwise that error's code and message |
| ConfigParser.DecodeFailure | src/utils/ConfigParser.php:62 | `json_decode` with JSON_THROW_ON_ERROR throws JsonException with the error's `json_last_error_msg()` and `json_last_error()` |
| ConfigParser.DecodeFailureDistinct | src/utils/ConfigParser.php:62 | two decoding errors throw the same exception only if they are the same error |
| ConfigParser.ParseConfigFile | src/utils/ConfigParser.php:13-35 | a missing file or a non-file is refused; otherwise dispatches by `FileFormat`; a success comes from a `.json` or `.ini` file |

## Findings

| source | as written | input that shows it | evidently intended | confidence | as-written member | corrected member |
|---|---|---|---|---|---|---|
| src/ConnectionLDAP.php:64-72 | a failed `ldap_connect` leaves `false` in `$this->connection`; the `else` branch calls `getLastError()`, whose `ldap_get_option(false, ...)` raises a TypeError before the exception is built | a host string that is not a valid LDAP URI (`ldap_connect` only parses it and contacts no server) | `LDAPConnectException` "Can't connect to ldap server <host> cause : ..." with code -1, as line 59 documents | high, not executed | Connection.MalformedHost | Connection.ConnectionLDAP.OpenIntended |
| src/ConnectionLDAP.php:271-272 | a failed paged request hands `false` to `ldap_parse_result`, which raises a TypeError before `processResults` can raise its own exception | a paged search whose first request fails | `LDAPSearchException` from `processResults`, as lines 105 and 132 document | high, not executed | Paging.FailedFirstPage | Paging.IntendedPagedRun |

`Connection.ConnectionLDAP.Open` and `Paging.PagedRun` keep the behaviour as written, since
that is what the library does; `OpenIntended` and `IntendedPagedRun` state the documented
behaviour, and `IntendedPagedRunAgrees` shows the two loops differ only in that exception.

## Left out

- Transport: the `ldap_*` calls are not modelled. The scripted `Directory.Server` stands in
  for the extension: replies, verdicts, the bound identity and the diagnostics are its inputs.
- `ldap_set_option(null, ...)`: the protocol version and network timeout set in the
  constructor only change library state, so they are left out. The `$timeout` argument is
  not modelled.
- `ConnectionLDAP::fromFile`: it calls `ConfigParser::parse` of an external package that
  is not part of this model.
- File I/O in `ConfigParser`: `file_exists`, `is_file`, `mime_content_type`,
  `parse_ini_file`, `file_get_contents` and `json_decode` are left out. Their results are
  the fields of `ConfigParser.ConfigFile`.
- Failures of `parse_ini_file`, and top-level keys outside any section, are not modelled.
  `parse_ini_file($path, true)` is modelled as sections only.
- `ConfigParser.PropertyExists`: a string first argument names a class, and no class is
  part of the model, so the answer is false.
- TypeError messages are worded as in PHP 8.1 and 8.2: the extension's classes
  `LDAP\Connection`, `LDAP\Result` and `LDAP\ResultEntry` are named, which needs 8.1, and
  a `false` argument is reported as `bool given`, where PHP 8.3 says `false given`.
- `ConfigParser.FalsyDocument`: the earlier JSON error state covers `json_decode` errors
  only. The errors only `json_encode` reports (codes 6, 7, 8 and 11) are not modelled.
- JSON numbers with a fraction or an exponent are not modelled: `Php.Json` holds integers
  only, so a float TIMEOUT (which `intval` truncates) or a float HOST cannot be written.
- `ConfigParser.DriverChecked`: `strtolower` of a non-string DRIVER value is taken as
  refused. The branch cannot run with the mandatory keys anyway.
- `Php.IntVal`: only decimal digits are read. Floats and exponent forms (`"1e3"`) are not
  modelled.
- SHA-1 is not modelled. `LdapUtils.FormatPassword` takes the digest as its input.
- `mb_convert_encoding` of a string that is not valid UTF-8 is not modelled. PHP strings
  are modelled as sequences of code points.
- Callbacks and `trackBy` of `search`, `list` and `getEntry` are dropped by the code, and
  so by the model.
- The `entryClass` property, which is never declared, is not modelled. Records are plain
  maps.
- Records are maps, so the order of their properties is not modelled.
- `lastResultCount` is only ever reset to 0, so it is left out. `disconect` is a bare
  `ldap_close`, also left out.
- `getSearchOptions` is modelled as `Connection.ConnectionLDAP.GetSearchOptions`, a plain
  getter with no contract.
- The Active Directory trait calls `get_entry` and `get_search_options()->get_base_dn()`,
  which `ConnectionLDAP` does not define. The model reads them as `getEntry` and as the
  base DN of the connection's search options.
- `modify` with an `LdapBatchModification` argument is not modelled. The object would be
  handed to `ldap_mod_*`, which takes an array, so the call fails with a TypeError.
- `ad_set_password` and `ad_get_user_dn`: `ldap_get_entries` always returns a non-empty
  array, so the branch taken when `$info` is falsy is left out.
- Both `LdapSearchOptions` constructors declare `$scope` as a string. PHP converts the
  integer scope back and forth, and the model keeps it an integer.
- `ad_add_user` and `move_user` are left out because they are commented out in the source.
- `ActiveDirectory.AccountControl`: the flags are stated bit by bit as divisibility facts.
  It does not use a bit-vector `or`.
