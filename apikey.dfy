/** Resolution of the upstream API key (`get_api_key`). */
module ApiKey {
  import opened Python

  /** The header the key is read from; header names are looked up lower-cased. */
  const AuthorizationHeader: string := "authorization"

  /** `if auth_header:` — the header is present and not empty. */
  predicate HasAuthorization(headers: map<string, string>) {
    AuthorizationHeader in headers && headers[AuthorizationHeader] != ""
  }

  /**
    `get_api_key`: the second field of the authorization header split on single
    spaces, or `defaultKey` when the header is absent or empty. A header without
    a space has no second field and raises an IndexError.
   */
  function GetApiKey(headers: map<string, string>, defaultKey: Option<string>): (r: Result<Option<string>>)
    ensures !HasAuthorization(headers) ==> r == Ok(defaultKey)
    ensures r.Err? <==> HasAuthorization(headers) && ' ' !in headers[AuthorizationHeader]
    ensures r.Err? ==> r.error == IndexError
    ensures r.Ok? && HasAuthorization(headers) ==> r.value.Some? && ' ' !in r.value.value
  {
    if HasAuthorization(headers) then
      var fields := Split(headers[AuthorizationHeader], ' ');
      SplitFieldCount(headers[AuthorizationHeader], ' ');
      CountPositive(headers[AuthorizationHeader], ' ');
      if |fields| < 2 then Err(IndexError) else Ok(Some(fields[1]))
    else Ok(defaultKey)
  }

  lemma {:induction false} CountPositive(s: string, c: char)
    ensures Count(s, c) > 0 <==> c in s
  {
    if s != [] {
      CountPositive(s[1..], c);
      assert c in s <==> s[0] == c || c in s[1..];
    }
  }

  /** `header` is `scheme + " " + key + rest`, where `key` is the field after the first space. */
  predicate IsSecondField(header: string, scheme: string, key: string, rest: string) {
    && header == scheme + " " + key + rest
    && ' ' !in scheme
    && (rest == "" || rest[0] == ' ')
  }

  /**
    The key taken from a header is the text between its first space and the
    next space (or the end): the header is `scheme + " " + key + rest` with no
    space in `scheme` and `rest` empty or starting with a space.
   */
  lemma KeyIsSecondField(headers: map<string, string>, defaultKey: Option<string>)
    requires HasAuthorization(headers) && GetApiKey(headers, defaultKey).Ok?
    ensures var key := GetApiKey(headers, defaultKey).value.value;
      exists scheme: string, rest: string :: IsSecondField(headers[AuthorizationHeader], scheme, key, rest)
  {
    var h := headers[AuthorizationHeader];
    var fields := Split(h, ' ');
    var key := GetApiKey(headers, defaultKey).value.value;
    assert |fields| >= 2 && key == fields[1];
    var scheme := fields[0];
    assert ' ' !in scheme;
    var tail := fields[1..];
    assert tail[0] == key;
    var rest := if |tail| == 1 then "" else [' '] + Join(tail[1..], ' ');
    assert Join(tail, ' ') == key + rest;
    assert h == scheme + [' '] + Join(tail, ' ');
    assert h == scheme + " " + key + rest;
    assert IsSecondField(h, scheme, key, rest);
  }

  /** Conversely, whatever the other headers, an authorization header of that form yields exactly that key. */
  lemma BearerHeaderYieldsKey(headers: map<string, string>, scheme: string, key: string, rest: string, defaultKey: Option<string>)
    requires AuthorizationHeader in headers && headers[AuthorizationHeader] == scheme + " " + key + rest
    requires ' ' !in key && IsSecondField(scheme + " " + key + rest, scheme, key, rest)
    ensures GetApiKey(headers, defaultKey) == Ok(Some(key))
  {
    var h := scheme + " " + key + rest;
    assert h == scheme + [' '] + (key + rest);
    SplitAtFirst(scheme, key + rest, ' ');
    if rest == "" {
      assert key + rest == key;
      SplitNoSeparator(key, ' ');
    } else {
      assert key + rest == key + [' '] + rest[1..];
      SplitAtFirst(key, rest[1..], ' ');
    }
  }

  /** `"Bearer  k"` (two spaces) yields the empty key: the split is on single spaces. */
  lemma DoubleSpaceYieldsEmptyKey(defaultKey: Option<string>)
    ensures GetApiKey(map[AuthorizationHeader := "Bearer  k"], defaultKey) == Ok(Some(""))
  {
    BearerHeaderYieldsKey(map[AuthorizationHeader := "Bearer  k"], "Bearer", "", " k", defaultKey);
  }
}
