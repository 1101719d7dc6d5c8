/** The paged search of `paginateSearch` (the simple paged results control of
    RFC 2696), stated over the script of replies: the first request carries an empty
    cookie, every later request the cookie the previous reply returned, and the loop
    stops after the first reply whose cookie PHP's `empty()` accepts ("" or "0"). */
module Paging {
  import opened Errors
  import opened Php
  import opened Entries
  import opened Directory
  import opened LdapUtils

  /** A failed request makes `ldap_search` return false, which `ldap_parse_result`
      refuses with a TypeError before `processResults` can raise its own exception. */
  const PARSE_RESULT_FAILURE: LdapError :=
    LdapError(TypeError, "ldap_parse_result(): Argument #2 ($result) must be of type LDAP\\Result, bool given", 0)

  /** `$controls[LDAP_CONTROL_PAGEDRESULTS]['value']['cookie'] ?? ''`. */
  function CookieOf(p: Page): string {
    p.cookie.GetOr("")
  }

  /** What a paged search does: the cookie of each request it sends, and its result. */
  datatype Run = Run(cookies: seq<string>, outcome: Result<seq<Record<string>>>)

  /** The paged search loop, starting with `cookie`, against the script `replies`. */
  function PagedRun(replies: seq<Option<Page>>, cookie: string): (r: Run)
    ensures 1 <= |r.cookies| <= |replies| + 1
    ensures r.cookies[0] == cookie
    ensures r.outcome.Ok? ==> |r.cookies| <= |replies|
    decreases |replies|
  {
    if replies == [] || replies[0].None? then Run([cookie], Err(PARSE_RESULT_FAILURE))
    else
      var page := replies[0].value;
      var next := CookieOf(page);
      if IsEmptyString(next) then Run([cookie], Ok(Normalize(page.entries)))
      else
        var rest := PagedRun(replies[1..], next);
        Run([cookie] + rest.cookies,
          if rest.outcome.Err? then rest.outcome else Ok(Normalize(page.entries) + rest.outcome.value))
  }

  /** The entries of the first `n` replies, in order; a failed reply has none. */
  function AllEntries(replies: seq<Option<Page>>, n: nat): (es: seq<RawEntry>)
    requires n <= |replies|
    decreases n
  {
    if n == 0 then []
    else (if replies[0].Some? then replies[0].value.entries else []) + AllEntries(replies[1..], n - 1)
  }

  /** Request `k` after the first carries the cookie reply `k - 1` returned, and that
      cookie is not empty in PHP's sense: the loop goes on exactly while it has one. */
  lemma {:induction false} CookieThreading(replies: seq<Option<Page>>, cookie: string, k: nat)
    requires 0 < k < |PagedRun(replies, cookie).cookies|
    ensures k - 1 < |replies| && replies[k - 1].Some?
    ensures PagedRun(replies, cookie).cookies[k] == CookieOf(replies[k - 1].value)
    ensures !IsEmptyString(PagedRun(replies, cookie).cookies[k])
    decreases |replies|
  {
    var page := replies[0].value;
    if k > 1 {
      CookieThreading(replies[1..], CookieOf(page), k - 1);
    }
  }

  /** The first `n` requests of a run are all answered. */
  predicate Answered(replies: seq<Option<Page>>, n: nat) {
    n <= |replies| && forall i | 0 <= i < n :: replies[i].Some?
  }

  lemma AnsweredShift(replies: seq<Option<Page>>, n: nat)
    requires replies != [] && replies[0].Some?
    ensures Answered(replies, n + 1) <==> Answered(replies[1..], n)
  {
    if Answered(replies[1..], n) {
      forall i | 0 <= i < n + 1
        ensures replies[i].Some?
      {
        if i > 0 {
          assert replies[i] == replies[1..][i - 1];
        }
      }
    }
    if Answered(replies, n + 1) {
      forall i | 0 <= i < n
        ensures replies[1..][i].Some?
      {
        assert replies[1..][i] == replies[i + 1];
      }
    }
  }

  /** A paged search that fails fails with the `ldap_parse_result` error. */
  lemma {:induction false} PagedRunFailure(replies: seq<Option<Page>>, cookie: string)
    ensures var r := PagedRun(replies, cookie);
      r.outcome.Err? ==> r.outcome.error == PARSE_RESULT_FAILURE
    decreases |replies|
  {
    if replies != [] && replies[0].Some? && !IsEmptyString(CookieOf(replies[0].value)) {
      PagedRunFailure(replies[1..], CookieOf(replies[0].value));
    }
  }

  /** The reply that ends a run: the last one it requested, if that was answered. */
  predicate EndsRun(replies: seq<Option<Page>>, n: nat) {
    Answered(replies, n) && 0 < n && IsEmptyString(CookieOf(replies[n - 1].value))
  }

  lemma EndsRunShift(replies: seq<Option<Page>>, m: nat)
    requires replies != [] && replies[0].Some? && 0 < m
    ensures EndsRun(replies, m + 1) <==> EndsRun(replies[1..], m)
  {
    AnsweredShift(replies, m);
    if m <= |replies| - 1 {
      assert replies[1..][m - 1] == replies[m];
    }
  }

  /** A paged search succeeds exactly when the requests it sends are all answered and
      the last reply ends the loop. */
  lemma {:induction false} PagedRunSucceeds(replies: seq<Option<Page>>, cookie: string)
    ensures var r := PagedRun(replies, cookie);
      r.outcome.Ok? <==> EndsRun(replies, |r.cookies|)
    decreases |replies|
  {
    var r := PagedRun(replies, cookie);
    if replies == [] || replies[0].None? {
      assert r.outcome.Err?;
      assert !Answered(replies, 1);
    } else {
      var next := CookieOf(replies[0].value);
      if IsEmptyString(next) {
        assert r.cookies == [cookie] && r.outcome.Ok?;
        assert Answered(replies, 1);
      } else {
        var rest := PagedRun(replies[1..], next);
        assert r.cookies == [cookie] + rest.cookies;
        assert r.outcome.Ok? == rest.outcome.Ok?;
        PagedRunSucceeds(replies[1..], next);
        EndsRunShift(replies, |rest.cookies|);
      }
    }
  }

  /** A reply whose cookie is empty in PHP's sense is the last page. */
  lemma LastPage(replies: seq<Option<Page>>, cookie: string)
    requires replies != [] && replies[0].Some? && IsEmptyString(CookieOf(replies[0].value))
    ensures PagedRun(replies, cookie) == Run([cookie], Ok(Normalize(replies[0].value.entries)))
  {
  }

  /** A reply with a cookie is followed by the rest of the search, run on that cookie. */
  lemma NextPage(replies: seq<Option<Page>>, cookie: string)
    requires replies != [] && replies[0].Some?
    requires var next := CookieOf(replies[0].value);
      !IsEmptyString(next) && PagedRun(replies[1..], next).outcome.Ok?
    ensures var rest := PagedRun(replies[1..], CookieOf(replies[0].value));
      PagedRun(replies, cookie) == Run([cookie] + rest.cookies, Ok(Normalize(replies[0].value.entries) + rest.outcome.value))
  {
  }

  /** A successful paged search returns the records of every page it requested, in
      page order and, within a page, in the server's order. */
  lemma {:induction false} PagedRunEntries(replies: seq<Option<Page>>, cookie: string)
    ensures var r := PagedRun(replies, cookie);
      r.outcome.Ok? ==> r.outcome.value == Normalize(AllEntries(replies, |r.cookies|))
    decreases |replies|
  {
    if replies != [] && replies[0].Some? {
      var page := replies[0].value;
      var next := CookieOf(page);
      if IsEmptyString(next) {
        assert PagedRun(replies, cookie).cookies == [cookie];
        assert PagedRun(replies, cookie).outcome.value == Normalize(page.entries);
        assert AllEntries(replies, 1) == page.entries + [];
        assert page.entries + [] == page.entries;
      } else {
        var rest := PagedRun(replies[1..], next);
        if rest.outcome.Ok? {
          var m := |rest.cookies|;
          var tail := AllEntries(replies[1..], m);
          var r := PagedRun(replies, cookie);
          assert r.cookies == [cookie] + rest.cookies;
          assert r.outcome.value == Normalize(page.entries) + rest.outcome.value;
          assert |r.cookies| == m + 1;
          PagedRunEntries(replies[1..], next);
          assert AllEntries(replies, m + 1) == page.entries + tail;
          NormalizeAppend(page.entries, tail);
          assert Normalize(AllEntries(replies, m + 1)) == Normalize(page.entries) + Normalize(tail);
        }
      }
    }
  }

  /** A server that hands out two non-empty cookies and then "" answers three
      requests, and the search returns the records of all three pages. */
  lemma ThreePages(a: RawEntry, b: RawEntry, c: RawEntry)
    ensures var replies := [Some(Page([a], Some("C1"))), Some(Page([b], Some("C2"))), Some(Page([c], Some(""))), Some(Page([a], None))];
      var r := PagedRun(replies, "");
      r.cookies == ["", "C1", "C2"] && r.outcome == Ok(Normalize([a]) + Normalize([b]) + Normalize([c]))
  {
    var replies := [Some(Page([a], Some("C1"))), Some(Page([b], Some("C2"))), Some(Page([c], Some(""))), Some(Page([a], None))];
    var second := replies[1..];
    var third := second[1..];
    assert third[0] == Some(Page([c], Some("")));
    LastPage(third, "C2");
    assert second[0] == Some(Page([b], Some("C2")));
    NextPage(second, "C1");
    NextPage(replies, "");
    assert [""] + (["C1"] + ["C2"]) == ["", "C1", "C2"];
    assert Normalize([a]) + (Normalize([b]) + Normalize([c])) == Normalize([a]) + Normalize([b]) + Normalize([c]);
  }

  /** The paged search loop as its documentation intends it: a failed request raises
      the search exception of `processResults` (code 0, the message ending with
      `getLastError()`), reported with the diagnostic `d`. */
  function IntendedPagedRun(replies: seq<Option<Page>>, cookie: string, d: Diagnostic): (r: Run)
    ensures 1 <= |r.cookies| <= |replies| + 1
    ensures r.cookies[0] == cookie
    decreases |replies|
  {
    if replies == [] || replies[0].None? then Run([cookie], Err(SearchFailure(d)))
    else
      var page := replies[0].value;
      var next := CookieOf(page);
      if IsEmptyString(next) then Run([cookie], Ok(Normalize(page.entries)))
      else
        var rest := IntendedPagedRun(replies[1..], next, d);
        Run([cookie] + rest.cookies,
          if rest.outcome.Err? then rest.outcome else Ok(Normalize(page.entries) + rest.outcome.value))
  }

  /** The intended loop sends the same requests as the loop as written and returns the
      same records; the two differ only in the exception a failed request raises. */
  lemma {:induction false} IntendedPagedRunAgrees(replies: seq<Option<Page>>, cookie: string, d: Diagnostic)
    ensures var written, intended := PagedRun(replies, cookie), IntendedPagedRun(replies, cookie, d);
      && intended.cookies == written.cookies
      && (intended.outcome.Ok? <==> written.outcome.Ok?)
      && (written.outcome.Ok? ==> intended.outcome.value == written.outcome.value)
      && (intended.outcome.Err? ==> intended.outcome.error == SearchFailure(d))
    decreases |replies|
  {
    if replies != [] && replies[0].Some? && !IsEmptyString(CookieOf(replies[0].value)) {
      IntendedPagedRunAgrees(replies[1..], CookieOf(replies[0].value), d);
    }
  }

  /** A search whose first page request fails: as written the loop raises a TypeError,
      where the documented exception is the search exception. */
  lemma FailedFirstPage(later: seq<Option<Page>>, d: Diagnostic)
    ensures PagedRun([None] + later, "").outcome == Err(PARSE_RESULT_FAILURE)
    ensures PARSE_RESULT_FAILURE.kind == TypeError
    ensures IntendedPagedRun([None] + later, "", d).outcome == Err(SearchFailure(d))
    ensures SearchFailure(d).kind == SearchException
  {
  }

  /** A reply whose cookie is "0" ends the loop as an empty cookie does: PHP's
      `empty()` also accepts "0", so the remaining pages are never requested. */
  lemma ZeroCookieStops(a: RawEntry, b: RawEntry)
    ensures var replies := [Some(Page([a], Some("0"))), Some(Page([b], Some("")))];
      PagedRun(replies, "") == Run([""], Ok(Normalize([a])))
  {
  }
}
