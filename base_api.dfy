/**
 * store/api/baseApi.ts: the headers every RTK Query request carries. The CSRF token is read
 * from `document.cookie`, and the bearer token from local storage; either header is left out
 * when its value is unusable.
 */
module BaseApi {
  import opened Wrappers
  import opened Strings
  import opened Seqs
  import opened AuthSlice

  const CsrfCookie := "csrftoken"
  const CsrfPrefix := "csrftoken="
  const CsrfHeader := "X-CSRFToken"
  const AuthorizationHeader := "Authorization"

  /** The text of `s` before the first `c`: the reference definition of `s.split(c)[0]`. */
  function TakeUntil(s: string, c: char): (r: string)
    ensures |r| <= |s| && r == s[..|r|]
    ensures c !in r
    ensures |r| < |s| ==> s[|r|] == c
  {
    if s == [] || s[0] == c then "" else [s[0]] + TakeUntil(s[1..], c)
  }

  /** For a one-character separator, the first part of the split is the text before the first separator. */
  lemma {:induction false} SplitFirstPart(s: string, c: char)
    ensures Split(s, [c])[0] == TakeUntil(s, c)
  {
    var i := IndexOf(s, [c]);
    var t := TakeUntil(s, c);
    var end := if i == -1 then |s| else i;
    forall m | 0 <= m < end ensures s[m] != c {
      assert !OccursAt(s, m, [c]);
      assert s[m..m + 1] == [s[m]];
    }
    if i != -1 {
      assert s[i] == c by { assert s[i..i + 1] == [c]; }
    }
  }

  /**
   * Whether a cookie row is the CSRF cookie, `row.startsWith('csrftoken=')`: exactly when the
   * row's name, the text before its first `=`, is `csrftoken` and an `=` follows it.
   */
  predicate IsCsrfRow(row: string)
    ensures IsCsrfRow(row) <==> TakeUntil(row, '=') == CsrfCookie && |row| > |CsrfCookie|
  {
    CsrfRowName(row);
    StartsWith(row, CsrfPrefix)
  }

  /** The name before the first `=` is `csrftoken`, followed by `=`, exactly when the row starts with `csrftoken=`. */
  lemma CsrfRowName(row: string)
    ensures StartsWith(row, CsrfPrefix) <==> TakeUntil(row, '=') == CsrfCookie && |row| > |CsrfCookie|
  {
    if StartsWith(row, CsrfPrefix) {
      CsrfRowHasName(row);
    }
    if TakeUntil(row, '=') == CsrfCookie && |row| > |CsrfCookie| {
      CsrfNameStartsRow(row);
    }
  }

  /** A row starting with `csrftoken=` is named `csrftoken`. */
  lemma CsrfRowHasName(row: string)
    requires StartsWith(row, CsrfPrefix)
    ensures TakeUntil(row, '=') == CsrfCookie && |row| > |CsrfCookie|
  {
    assert row[..9] == CsrfPrefix[..9] == CsrfCookie;
    assert row[9] == CsrfPrefix[9];
    assert '=' !in CsrfCookie;
    TakeUntilPrefix(row, CsrfCookie, '=');
  }

  /** A row named `csrftoken` with an `=` after the name starts with `csrftoken=`. */
  lemma CsrfNameStartsRow(row: string)
    requires TakeUntil(row, '=') == CsrfCookie && |row| > |CsrfCookie|
    ensures StartsWith(row, CsrfPrefix)
  {
    assert row[..9] == CsrfCookie && row[9] == '=';
    assert row[0..10] == row[..9] + [row[9]];
  }

  /** A prefix free of `c` and followed by `c` is what `TakeUntil` returns. */
  lemma {:induction false} TakeUntilPrefix(s: string, p: string, c: char)
    requires |p| < |s| && s[..|p|] == p && c !in p && s[|p|] == c
    ensures TakeUntil(s, c) == p
  {
    if p != [] {
      assert s[0] == p[0];
      assert s[1..][..|p| - 1] == p[1..];
      TakeUntilPrefix(s[1..], p[1..], c);
    }
  }

  /** `row.split('=')[1]` for a row that starts with `csrftoken=`: the text after it up to the next `=`. */
  function CsrfValue(row: string): (v: string)
    requires IsCsrfRow(row)
    ensures v == TakeUntil(row[|CsrfPrefix|..], '=')
  {
    assert row[..|CsrfPrefix|] == CsrfPrefix;
    var i := IndexOf(row, "=");
    assert OccursAt(row, 9, "=");
    assert i == 9 by {
      forall m | 0 <= m < 9 ensures !OccursAt(row, m, "=") {
        assert row[m] == CsrfPrefix[m];
      }
    }
    SplitFirstPart(row[10..], '=');
    Split(row, "=")[1]
  }

  /**
   * `getCsrfToken`: `None` without a document (server-side rendering); otherwise the value of
   * the first `; `-separated row that starts with `csrftoken=`, and `None` when there is no such
   * row or its value is empty.
   */
  function GetCsrfToken(cookie: Option<string>): (r: Option<string>)
    ensures cookie.None? ==> r.None?
    ensures cookie.Some? ==>
      var rows := Split(cookie.value, "; ");
      var i := FindIndex(rows, IsCsrfRow, true);
      (i == -1 ==> r.None?) &&
      (i >= 0 ==> r == if CsrfValue(rows[i]) == "" then None else Some(CsrfValue(rows[i])))
    ensures r.Some? ==> r.value != "" && '=' !in r.value
  {
    if cookie.None? then None
    else
      var rows := Split(cookie.value, "; ");
      var i := FindIndex(rows, IsCsrfRow, true);
      if i == -1 then None
      else
        var v := CsrfValue(rows[i]);
        if v == "" then None else Some(v)
  }

  /** A document whose only cookie is `csrftoken=v` yields `v`. */
  lemma SingleCsrfCookie(v: string)
    requires v != "" && ';' !in v && '=' !in v
    ensures GetCsrfToken(Some(CsrfPrefix + v)) == Some(v)
  {
    var s := CsrfPrefix + v;
    forall m | 0 <= m < |s| ensures s[m] != ';' {
      if m < |CsrfPrefix| {
        assert s[m] == CsrfPrefix[m];
      } else {
        assert s[m] == v[m - |CsrfPrefix|];
      }
    }
    forall m | 0 <= m <= |s| - 2 ensures !OccursAt(s, m, "; ") {
      assert s[m..m + 2][0] == s[m];
    }
    assert Split(s, "; ") == [s];
    assert IsCsrfRow(s) by { assert s[..|CsrfPrefix|] == CsrfPrefix; }
    assert FindIndex([s], IsCsrfRow, true) == 0;
    assert s[|CsrfPrefix|..] == v;
    var t := TakeUntil(v, '=');
    assert t == v;
    assert CsrfValue(s) == v;
  }

  /**
   * The bearer-token guard: a usable token is exactly a stored value with a non-space
   * character that is not the text "null" or "undefined".
   */
  predicate UsableBearerToken(token: Option<string>)
    ensures UsableBearerToken(token) <==>
      token.Some? && (exists i :: 0 <= i < |token.value| && !IsSpace(token.value[i])) &&
      token.value != "null" && token.value != "undefined"
  {
    if token.Some? then
      TrimEmpty(token.value);
      Truthy(token) && Trim(token.value) != "" && token.value != "null" && token.value != "undefined"
    else
      false
  }

  /** The request headers, a case-sensitive name-to-value map. */
  class Headers {
    var entries: map<string, string>

    constructor (entries: map<string, string>)
      ensures this.entries == entries
    {
      this.entries := entries;
    }

    /** `headers.set(name, value)`. */
    method Set(name: string, value: string)
      modifies this
      ensures entries == old(entries)[name := value]
    {
      entries := entries[name := value];
    }
  }

  /** `localStorage.getItem("access_token")`, or `null` without a window. */
  function StoredAccessToken(hasWindow: bool, storage: map<string, string>): (t: Option<string>)
    ensures t.Some? <==> hasWindow && AccessTokenKey in storage
    ensures t.Some? ==> t.value == storage[AccessTokenKey]
  {
    if hasWindow then GetItem(storage, AccessTokenKey) else None
  }

  /**
   * `prepareHeaders`: sets the CSRF header when the cookie yields a token, then the
   * Authorization header when the stored token passes the guard; nothing else changes.
   */
  method PrepareHeaders(headers: Headers, cookie: Option<string>, hasWindow: bool, storage: map<string, string>)
    modifies headers
    ensures var csrf := GetCsrfToken(cookie);
      var token := StoredAccessToken(hasWindow, storage);
      headers.entries ==
        (if csrf.Some? then old(headers.entries)[CsrfHeader := csrf.value] else old(headers.entries)) +
        (if UsableBearerToken(token) then map[AuthorizationHeader := "Bearer " + token.value] else map[])
  {
    var csrf := GetCsrfToken(cookie);
    if Truthy(csrf) {
      headers.Set(CsrfHeader, csrf.value);
    }
    var token := StoredAccessToken(hasWindow, storage);
    if UsableBearerToken(token) {
      headers.Set(AuthorizationHeader, "Bearer " + token.value);
    }
  }

  /** Once `logout` has cleared the stored tokens, no request carries a bearer token. */
  lemma NoBearerAfterLogout(hasWindow: bool, storage: map<string, string>)
    ensures !UsableBearerToken(StoredAccessToken(hasWindow, storage - {AccessTokenKey, RefreshTokenKey, UserKey}))
  {
  }
}
