/** String helpers shared by the two URL builders, and the part of Node's
    `url.parse` the task relies on. */
module UrlText {
  import opened Wrappers

  predicate EndsWithSlash(text: string)
  {
    |text| > 0 && text[|text| - 1] == '/'
  }

  /** `trimSlash` of both URL builders: drops one trailing '/', and leaves
      any other string (the empty one included) as it is. */
  function TrimSlash(text: string): (r: string)
    ensures EndsWithSlash(text) ==> r + "/" == text
    ensures !EndsWithSlash(text) ==> r == text
  {
    if EndsWithSlash(text) then text[..|text| - 1] else text
  }

  /** Appending one '/' is undone, whatever the text. */
  lemma TrimSlashOfAppended(text: string)
    ensures TrimSlash(text + "/") == text
  {
  }

  /** Only one slash goes: "a//" becomes "a/". */
  lemma TrimSlashRemovesOne(text: string)
    ensures TrimSlash(text + "//") == text + "/"
  {
    assert (text + "//")[..|text| + 1] == text + "/";
  }

  /** Index of the first `c` in `s`, or |s| when there is none. */
  function FirstIndex(s: string, c: char): (i: nat)
    ensures i <= |s|
    ensures i < |s| ==> s[i] == c
    ensures forall j | 0 <= j < i :: s[j] != c
  {
    if s == [] then 0 else if s[0] == c then 0 else 1 + FirstIndex(s[1..], c)
  }

  lemma FirstIndexAfter(a: string, c: char, b: string)
    requires c !in a
    requires b != [] && b[0] == c
    ensures FirstIndex(a + b, c) == |a|
  {
    assert (a + b)[|a|] == c;
  }

  lemma FirstIndexAbsent(a: string, c: char)
    requires c !in a
    ensures FirstIndex(a, c) == |a|
  {
  }

  /** Concatenation regrouped around a '/' that follows `e`. */
  lemma RegroupAtSlash(p: string, e: string, t: string, q: string)
    ensures p + e + ['/'] + t + q == p + (e + ['/'] + (t + q))
  {
  }

  /** The same, where the '/' is the head of a longer piece `s`. */
  lemma RegroupAtLeadingSlash(p: string, e: string, s: string, t: string, q: string)
    requires s == ['/'] + t
    ensures p + e + s + q == p + (e + ['/'] + (t + q))
  {
    assert p + e + s + q == p + e + ['/'] + t + q;
    RegroupAtSlash(p, e, t, q);
  }

  /** A delimiter that occurs in neither head splits a text in one way only. */
  lemma SplitAtDelimiter(c: char, a: string, x: string, b: string, y: string)
    requires c !in a && c !in b
    requires a + [c] + x == b + [c] + y
    ensures a == b && x == y
  {
    FirstIndexAfter(a, c, [c] + x);
    FirstIndexAfter(b, c, [c] + y);
    assert a + [c] + x == a + ([c] + x);
    assert b + [c] + y == b + ([c] + y);
    var s := a + [c] + x;
    assert a == s[..|a|];
    assert b == s[..|b|];
    assert x == s[|a| + 1..];
  }

  // ---------------------------------------------------------------------
  // `url.parse`, for absolute URLs of the form scheme://host[/path].

  predicate IsModelledScheme(scheme: string)
  {
    scheme != [] && forall i | 0 <= i < |scheme| :: 'a' <= scheme[i] <= 'z'
  }

  predicate IsAlphaNumeric(c: char)
  {
    ('a' <= c <= 'z') || ('0' <= c <= '9')
  }

  /** Host names that `url.parse` returns unchanged: lower-case letters,
      digits, '-' and single dots between them, at most 255 characters. */
  predicate IsModelledHostname(host: string)
  {
    && 0 < |host| <= 255
    && IsAlphaNumeric(host[0]) && IsAlphaNumeric(host[|host| - 1])
    && (forall i | 0 <= i < |host| :: IsAlphaNumeric(host[i]) || host[i] == '-' || host[i] == '.')
    && (forall i | 0 <= i < |host| - 1 :: !(host[i] == '.' && host[i + 1] == '.'))
  }

  /** The two fields of Node's `Url` object the task reads. */
  datatype UrlParts = UrlParts(protocol: string, host: string)

  /** `url.parse(u)` for the modelled URLs; `None` for every other string. */
  function ParseUrl(u: string): Option<UrlParts>
  {
    var k := FirstIndex(u, ':');
    if k + 3 <= |u| && u[k..k + 3] == "://" then
      var rest := u[k + 3..];
      var host := rest[..FirstIndex(rest, '/')];
      if IsModelledScheme(u[..k]) && IsModelledHostname(host) then Some(UrlParts(u[..k] + ":", host))
      else None
    else None
  }

  /** The protocol and host are read back from the URL they were written to. */
  lemma ParseUrlOf(scheme: string, host: string, path: string)
    requires IsModelledScheme(scheme) && IsModelledHostname(host)
    requires path == [] || path[0] == '/'
    ensures ParseUrl(scheme + "://" + host + path) == Some(UrlParts(scheme + ":", host))
  {
    var u := scheme + "://" + host + path;
    assert u == scheme + ("://" + host + path);
    FirstIndexAfter(scheme, ':', "://" + host + path);
    assert u[..|scheme|] == scheme;
    assert u[|scheme|..|scheme| + 3] == "://";
    var rest := u[|scheme| + 3..];
    assert rest == host + path;
    assert '/' !in host;
    if path == [] {
      assert rest == host;
      FirstIndexAbsent(host, '/');
    } else {
      FirstIndexAfter(host, '/', path);
    }
    assert rest[..|host|] == host;
  }
}
