/** The two URLs the client derives from the configured base URL: the list
    of undelivered balloons of a contest, and the acknowledgement of one
    balloon. Both are relative references resolved against a base as in
    section 5.2 of RFC 3986; only the case these references exercise is
    modelled: a reference with a path and possibly a query, but no scheme,
    authority or fragment. */
module Urls {
  import opened Prelude

  /** An absolute http(s) URL: `origin` is the scheme and authority
      ("https://judge.example.org"), `path` what follows it up to the
      query. */
  datatype Url = Url(origin: string, path: string, query: Option<string>)

  /** The path up to and including its last '/', or "" when it has none. */
  function Dir(p: string): (r: string)
    ensures r <= p
    ensures r == [] || r[|r| - 1] == '/'
    ensures forall i :: |r| <= i < |p| ==> p[i] != '/'
  {
    if p == [] then []
    else if p[|p| - 1] == '/' then p
    else Dir(p[..|p| - 1])
  }

  /** The merge step of section 5.2.3 of RFC 3986: the reference's path
      takes the place of the base path's last segment. */
  function Merge(base: Url, refPath: string): string
  {
    BaseDir(base) + refPath
  }

  /** What a relative path is appended to: the base path's directory, or
      "/" when the base path is empty. */
  function BaseDir(base: Url): string
  {
    if base.path == [] then "/" else Dir(base.path)
  }

  /** A reference cut into its path and its query, at the first '?'. */
  function SplitQuery(reference: string): (string, Option<string>)
  {
    if '?' in reference then
      var i := FirstIndex(reference, '?');
      (reference[..i], Some(reference[i + 1..]))
    else (reference, None)
  }

  /** `Url::join`: the resolution of section 5.2.2 of RFC 3986 for a
      reference without scheme, authority or fragment. */
  function Resolve(base: Url, reference: string): (r: Url)
    ensures r.origin == base.origin
    ensures '?' !in reference && reference != [] ==> r.query == None
  {
    var (p, q) := SplitQuery(reference);
    if p == [] then Url(base.origin, base.path, if q.Some? then q else base.query)
    else if p[0] == '/' then Url(base.origin, p, q)
    else Url(base.origin, Merge(base, p), q)
  }

  function DigitValue(c: char): nat
  {
    if '0' <= c <= '9' then c as int - '0' as int else 0
  }

  /** The number a string of decimal digits denotes. */
  function DecimalValue(s: string): nat
  {
    if s == [] then 0 else DecimalValue(s[..|s| - 1]) * 10 + DigitValue(s[|s| - 1])
  }

  predicate IsDigits(s: string)
  {
    forall i :: 0 <= i < |s| ==> '0' <= s[i] <= '9'
  }

  /** `n` written in decimal, as `format!("{}", n)` does. */
  function Decimal(n: nat): (r: string)
    ensures |r| > 0 && IsDigits(r)
    ensures DecimalValue(r) == n
    ensures r[0] == '0' ==> r == "0"
  {
    if n < 10 then [('0' as int + n) as char]
    else
      var r := Decimal(n / 10) + [('0' as int + n % 10) as char];
      assert r[..|r| - 1] == Decimal(n / 10);
      r
  }

  /** Distinct numbers are written differently. */
  lemma DecimalInjective(m: nat, n: nat)
    requires Decimal(m) == Decimal(n)
    ensures m == n
  {
    assert DecimalValue(Decimal(m)) == m;
  }

  /** The reference of the balloon list (src/dj.rs:32). */
  function BalloonsRef(cid: string): string
  {
    "api/v4/contests/" + cid + "/balloons?todo=true"
  }

  /** The reference of a balloon's acknowledgement (src/dj.rs:63). */
  function DoneRef(id: nat): string
  {
    "balloons/" + Decimal(id) + "/done"
  }

  function BalloonApi(base: Url, cid: string): Url
  {
    Resolve(base, BalloonsRef(cid))
  }

  /** Where balloon `id` is acknowledged: the merge of its reference onto
      the list URL's directory, with no query. AckUrlIsJoin shows it is
      what `Url::join` makes of that reference. */
  function AckUrl(api: Url, id: nat): Url
  {
    Url(api.origin, Merge(api, DoneRef(id)), None)
  }

  /** Appending a segment with no '/' leaves the directory alone. */
  lemma {:induction false} DirAppend(p: string, s: string)
    requires '/' !in s
    ensures Dir(p + s) == Dir(p)
    decreases |s|
  {
    if s != [] {
      var q := p + s;
      assert q[|q| - 1] == s[|s| - 1];
      assert q[..|q| - 1] == p + s[..|s| - 1];
      DirAppend(p, s[..|s| - 1]);
    } else {
      assert p + s == p;
    }
  }

  /** Resolving a relative path replaces the base's last segment and drops
      its query: "a/b" joined with "c" gives "a/c" (src/dj.rs:59-60). */
  lemma ResolveReplacesLastSegment(base: Url, dir: string, last: string, reference: string)
    requires base.path == dir + last && dir != [] && dir[|dir| - 1] == '/' && '/' !in last
    requires reference != [] && reference[0] != '/' && '?' !in reference
    ensures Resolve(base, reference) == Url(base.origin, dir + reference, None)
  {
    DirAppend(dir, last);
    assert Dir(dir) == dir;
  }

  /** A contest id made of ASCII letters, digits, '-' and '_': one that
      `Url::join` takes over verbatim, with nothing to percent-encode and
      no '?', '#', dot segment or backslash for it to interpret. */
  predicate UrlSafe(cid: string)
  {
    forall i :: 0 <= i < |cid| ==>
      'a' <= cid[i] <= 'z' || 'A' <= cid[i] <= 'Z' || '0' <= cid[i] <= '9' || cid[i] == '-' || cid[i] == '_'
  }

  /** The balloon list sits under the base URL's directory, with the query
      todo=true, for a URL-safe contest id. */
  lemma BalloonApiShape(base: Url, cid: string)
    requires UrlSafe(cid)
    ensures BalloonApi(base, cid) == Url(
      base.origin,
      Merge(base, "api/v4/contests/" + cid + "/balloons"),
      Some("todo=true"))
  {
    var p := "api/v4/contests/" + cid + "/balloons";
    var reference := BalloonsRef(cid);
    assert '?' !in cid by {
      forall i | 0 <= i < |cid| ensures cid[i] != '?' { }
    }
    assert '?' !in p;
    assert reference == p + ['?'] + "todo=true";
    FirstIndexAfter(p, '?', "todo=true");
    assert (p + ['?'] + "todo=true")[..|p|] == p;
    assert (p + ['?'] + "todo=true")[|p| + 1..] == "todo=true";
  }

  lemma DoneRefIsRelativePath(id: nat)
    ensures DoneRef(id) != [] && DoneRef(id)[0] == 'b' && '?' !in DoneRef(id)
  {
    var r, d := DoneRef(id), Decimal(id);
    assert r == "balloons/" + d + "/done";
    forall i | 0 <= i < |r| ensures r[i] != '?' {
      if 9 <= i < 9 + |d| { assert r[i] == d[i - 9]; }
    }
  }

  lemma ResolveRelativePath(base: Url, reference: string)
    requires reference != [] && reference[0] != '/' && '?' !in reference
    ensures Resolve(base, reference) == Url(base.origin, Merge(base, reference), None)
  {
  }

  /** The acknowledgement of balloon `id` is POSTed to
      .../contests/{cid}/balloons/{id}/done, next to the balloon list and
      without its query. */
  lemma AckUrlShape(base: Url, cid: string, id: nat)
    requires UrlSafe(cid)
    ensures AckUrl(BalloonApi(base, cid), id) == Url(
      base.origin,
      Merge(base, "api/v4/contests/" + cid + "/" + DoneRef(id)),
      None)
  {
    var mid := "api/v4/contests/" + cid;
    BalloonApiShape(base, cid);
    var api := BalloonApi(base, cid);
    var dir := BaseDir(base) + mid + "/";
    assert "api/v4/contests/" + cid + "/balloons" == mid + "/" + "balloons";
    Regroup(BaseDir(base), mid, "/", "balloons");
    assert api.path == dir + "balloons";
    AckNextToList(api, dir, id);
    Regroup(BaseDir(base), mid, "/", DoneRef(id));
  }

  lemma Regroup(a: string, b: string, c: string, d: string)
    ensures (a + b + c) + d == a + (b + c + d)
  {
  }

  /** The acknowledgement URL is the list URL joined with
      `balloons/{id}/done` (src/dj.rs:61-64). */
  lemma AckUrlIsJoin(api: Url, id: nat)
    ensures AckUrl(api, id) == Resolve(api, DoneRef(id))
  {
    DoneRefIsRelativePath(id);
    ResolveRelativePath(api, DoneRef(id));
  }

  lemma AckNextToList(api: Url, dir: string, id: nat)
    requires api.path == dir + "balloons" && dir != [] && dir[|dir| - 1] == '/'
    ensures AckUrl(api, id) == Url(api.origin, dir + DoneRef(id), None)
  {
    DirAppend(dir, "balloons");
    assert Dir(dir) == dir;
  }

  /** Different balloons are acknowledged at different URLs. */
  lemma AckUrlsDistinct(api: Url, m: nat, n: nat)
    requires AckUrl(api, m) == AckUrl(api, n)
    ensures m == n
  {
    var rm, rn := DoneRef(m), DoneRef(n);
    DoneRefIsRelativePath(m);
    DoneRefIsRelativePath(n);
    ResolveRelativePath(api, rm);
    ResolveRelativePath(api, rn);
    var pre := BaseDir(api);
    assert pre + rm == pre + rn;
    assert rm == (pre + rm)[|pre|..];
    assert rm == rn;
    assert Decimal(m) == rm[9..|rm| - 5];
    assert Decimal(n) == rn[9..|rn| - 5];
    DecimalInjective(m, n);
  }
}
