/** Server origins and the namespace invite URI (`protocol/crypto.go:594-828`; sections 3 of RFC 3986 and
    5 of RFC 4648). The URL library is a parameter: all that is used of it is what it does with text
    that needs no escaping. */
module Invite {
  import opened Prelude
  import opened Decimal

  // ---- the URL library -------------------------------------------------------------------------

  datatype Url = Url(scheme: string, host: string, hasUser: bool, path: string, rawQuery: string, fragment: string,
      escapedFragment: string)

  type Values = map<string, seq<string>>

  /** `url.Parse` and `url.ParseQuery`. */
  datatype Library = Library(parse: string -> Option<Url>, parseQuery: string -> Option<Values>)

  predicate IsHostChar(c: char) {
    'a' <= c <= 'z' || IsDigit(c) || c == '.' || c == '-'
  }

  predicate HostChars(s: string) {
    forall i :: 0 <= i < |s| ==> IsHostChar(s[i])
  }

  /** Characters that stand for themselves in names, values and fragments. */
  predicate IsPlain(c: char) {
    'a' <= c <= 'z' || 'A' <= c <= 'Z' || IsDigit(c) || c == '.' || c == '-' || c == '_' || c == ':'
  }

  predicate Plain(s: string) {
    forall i :: 0 <= i < |s| ==> IsPlain(s[i])
  }

  predicate PlainQuery(s: string) {
    forall i :: 0 <= i < |s| ==> IsPlain(s[i]) || s[i] == '=' || s[i] == '&'
  }

  type Fields = seq<(string, string)>

  predicate PlainFields(fields: Fields) {
    forall i :: 0 <= i < |fields| ==> Plain(fields[i].0) && Plain(fields[i].1)
  }

  function FieldText(f: (string, string)): string {
    f.0 + "=" + f.1
  }

  function QueryText(fields: Fields): string {
    if fields == [] then "" else if |fields| == 1 then FieldText(fields[0])
    else FieldText(fields[0]) + "&" + QueryText(fields[1..])
  }

  function ValuesAt(v: Values, name: string): seq<string> {
    if name in v then v[name] else []
  }

  function Grouped(fields: Fields): Values {
    if fields == [] then map[]
    else
      var rest, f := Grouped(fields[1..]), fields[0];
      rest[f.0 := [f.1] + ValuesAt(rest, f.0)]
  }

  function HostPort(host: string, port: string): string {
    if port == "" then host else host + ":" + port
  }

  predicate OriginParses(lib: Library, host: string, port: string) {
    host != "" && HostChars(host) && AllDigits(port) ==>
      lib.parse("https://" + HostPort(host, port)) == Some(Url("https", HostPort(host, port), false, "", "", "", ""))
  }

  const INVITE_HEAD := "bitboxsync://join-namespace?"

  predicate InviteParses(lib: Library, query: string, fragment: string) {
    query != "" && fragment != "" && PlainQuery(query) && PlainQuery(fragment) ==>
      lib.parse(INVITE_HEAD + query + "#" + fragment) ==
        Some(Url("bitboxsync", "join-namespace", false, "", query, fragment, fragment))
  }

  predicate QueryParses(lib: Library, fields: Fields) {
    0 < |fields| <= 5 && PlainFields(fields) ==> lib.parseQuery(QueryText(fields)) == Some(Grouped(fields))
  }

  /** The library treats plain text as the standards say. Nothing is assumed about other text. */
  ghost predicate Standard(lib: Library) {
    && (forall host, port :: OriginParses(lib, host, port))
    && (forall query, fragment :: InviteParses(lib, query, fragment))
    && (forall fields :: QueryParses(lib, fields))
  }

  // ---- text ------------------------------------------------------------------------------------

  function LastIndexOf(s: string, c: char): (r: Option<nat>)
    ensures r.Some? ==> r.value < |s| && s[r.value] == c
  {
    if s == [] then None
    else if s[|s| - 1] == c then Some(|s| - 1)
    else LastIndexOf(s[..|s| - 1], c)
  }

  lemma {:induction false} LastIndexAfter(a: string, c: char, b: string)
    requires c !in b
    ensures LastIndexOf(a + [c] + b, c) == Some(|a|)
  {
    var s := a + [c] + b;
    if b != [] {
      assert s[..|s| - 1] == a + [c] + b[..|b| - 1];
      LastIndexAfter(a, c, b[..|b| - 1]);
    }
  }

  lemma {:induction false} NoIndex(s: string, c: char)
    requires c !in s
    ensures LastIndexOf(s, c) == None
  {
    if s != [] {
      NoIndex(s[..|s| - 1], c);
    }
  }

  /** `strings.Split` at a single character. */
  function SplitOn(s: string, c: char): (r: seq<string>)
    ensures r != []
  {
    if s == [] then [[]]
    else
      var rest := SplitOn(s[1..], c);
      if s[0] == c then [[]] + rest else [[s[0]] + rest[0]] + rest[1..]
  }

  lemma {:induction false} SplitFirst(a: string, c: char, b: string)
    requires c !in a
    ensures SplitOn(a + [c] + b, c) == [a] + SplitOn(b, c)
  {
    var s := a + [c] + b;
    if a == [] {
      assert s[1..] == b;
    } else {
      assert s[1..] == a[1..] + [c] + b;
      SplitFirst(a[1..], c, b);
      assert [s[0]] + a[1..] == a;
    }
  }

  lemma {:induction false} SplitNone(a: string, c: char)
    requires c !in a
    ensures SplitOn(a, c) == [a]
  {
    if a != [] {
      SplitNone(a[1..], c);
      assert [a[0]] + a[1..] == a;
    }
  }

  // ---- a library for plain text ----------------------------------------------------------------

  /** `strings.CutPrefix`. */
  function After(prefix: string, s: string): Option<string> {
    if |prefix| <= |s| && s[..|prefix|] == prefix then Some(s[|prefix|..]) else None
  }

  /** `url.Parse` of the two forms used here, and nothing else. */
  function ParsePlainUrl(s: string): Option<Url> {
    var host, rest := After("https://", s), After(INVITE_HEAD, s);
    if host.Some? then Some(Url("https", host.value, false, "", "", "", ""))
    else if rest.Some? then ParsePlainInvite(SplitOn(rest.value, '#'))
    else None
  }

  function ParsePlainInvite(parts: seq<string>): Option<Url> {
    if |parts| != 2 then None
    else Some(Url("bitboxsync", "join-namespace", false, "", parts[0], parts[1], parts[1]))
  }

  function ParsePlainField(s: string): (string, string) {
    var parts := SplitOn(s, '=');
    (parts[0], if |parts| > 1 then parts[1] else "")
  }

  function ParsePlainFields(parts: seq<string>): Fields {
    if parts == [] then [] else [ParsePlainField(parts[0])] + ParsePlainFields(parts[1..])
  }

  function ParsePlainQuery(q: string): Option<Values> {
    Some(Grouped(ParsePlainFields(SplitOn(q, '&'))))
  }

  lemma PlainFieldParses(f: (string, string))
    requires Plain(f.0) && Plain(f.1)
    ensures ParsePlainField(FieldText(f)) == f && '&' !in FieldText(f)
  {
    assert FieldText(f) == f.0 + ['='] + f.1;
    SplitFirst(f.0, '=', f.1);
    SplitNone(f.1, '=');
  }

  lemma {:induction false} PlainQueryParses(fields: Fields)
    requires fields != [] && PlainFields(fields)
    ensures ParsePlainFields(SplitOn(QueryText(fields), '&')) == fields
  {
    var head, rest := fields[0], fields[1..];
    PlainFieldParses(head);
    if rest == [] {
      SplitNone(FieldText(head), '&');
      assert ParsePlainFields([FieldText(head)][1..]) == [] && fields == [head];
    } else {
      PlainQueryParses(rest);
      assert QueryText(fields) == FieldText(head) + ['&'] + QueryText(rest);
      SplitFirst(FieldText(head), '&', QueryText(rest));
      var parts := SplitOn(QueryText(rest), '&');
      assert ([FieldText(head)] + parts)[1..] == parts && fields == [head] + rest;
    }
  }

  lemma Cut(a: string, b: string)
    ensures After(a, a + b) == Some(b)
  {
  }

  lemma CutOther(a: string, b: string, s: string)
    requires a != [] && b != [] && a[0] != b[0]
    ensures After(a, b + s) == None
  {
    if |a| <= |b + s| {
      assert (b + s)[..|a|][0] == b[0];
    }
  }

  lemma PlainOriginParses(host: string, port: string)
    ensures ParsePlainUrl("https://" + HostPort(host, port)) ==
              Some(Url("https", HostPort(host, port), false, "", "", "", ""))
  {
    Cut("https://", HostPort(host, port));
  }

  lemma PlainInviteParses(query: string, fragment: string)
    requires '#' !in query && '#' !in fragment
    ensures ParsePlainUrl(INVITE_HEAD + query + "#" + fragment) ==
              Some(Url("bitboxsync", "join-namespace", false, "", query, fragment, fragment))
  {
    var rest := query + ['#'] + fragment;
    assert INVITE_HEAD + query + "#" + fragment == INVITE_HEAD + rest;
    Cut(INVITE_HEAD, rest);
    CutOther("https://", INVITE_HEAD, rest);
    SplitFirst(query, '#', fragment);
    SplitNone(fragment, '#');
    assert [query] + [fragment] == [query, fragment];
  }

  lemma OriginsHere(lib: Library, host: string, port: string)
    requires forall s :: lib.parse(s) == ParsePlainUrl(s)
    ensures OriginParses(lib, host, port)
  {
    PlainOriginParses(host, port);
  }

  lemma InvitesHere(lib: Library, query: string, fragment: string)
    requires forall s :: lib.parse(s) == ParsePlainUrl(s)
    ensures InviteParses(lib, query, fragment)
  {
    if PlainQuery(query) && PlainQuery(fragment) {
      PlainInviteParses(query, fragment);
    }
  }

  lemma QueriesHere(lib: Library, fields: Fields)
    requires forall q :: lib.parseQuery(q) == ParsePlainQuery(q)
    ensures QueryParses(lib, fields)
  {
    if 0 < |fields| && PlainFields(fields) {
      PlainQueryParses(fields);
    }
  }

  lemma StandardHere(lib: Library)
    requires forall s :: lib.parse(s) == ParsePlainUrl(s)
    requires forall q :: lib.parseQuery(q) == ParsePlainQuery(q)
    ensures Standard(lib)
  {
    forall host, port ensures OriginParses(lib, host, port) {
      OriginsHere(lib, host, port);
    }
    forall query, fragment ensures InviteParses(lib, query, fragment) {
      InvitesHere(lib, query, fragment);
    }
    forall fields ensures QueryParses(lib, fields) {
      QueriesHere(lib, fields);
    }
  }

  /** What is asked of the library can be had. */
  lemma PlainLibrary() returns (lib: Library)
    ensures Standard(lib)
  {
    lib := Library(ParsePlainUrl, ParsePlainQuery);
    StandardHere(lib);
  }

  // ---- server origins --------------------------------------------------------------------------

  const MAX_SERVER_ORIGIN_LENGTH := 128

  /** `URL.Hostname` and `URL.Port`. */
  function SplitHostPort(hostPort: string): (string, string) {
    var colon := LastIndexOf(hostPort, ':');
    var (host, port) :=
      if colon.Some? && AllDigits(hostPort[colon.value + 1..])
      then (hostPort[..colon.value], hostPort[colon.value + 1..])
      else (hostPort, "");
    if host != "" && host[0] == '[' && host[|host| - 1] == ']'
        && |host| >= 2 then (host[1..|host| - 1], port) else (host, port)
  }

  predicate LabelOk(part: string) {
    && (part != "" ==> part[0] != '-' && part[|part| - 1] != '-')
    && forall i :: 0 <= i < |part| ==> 'a' <= part[i] <= 'z' || IsDigit(part[i]) || part[i] == '-'
  }

  predicate LabelsOk(labels: seq<string>) {
    forall i :: 0 <= i < |labels| ==> LabelOk(labels[i])
  }

  predicate NoneEmpty(labels: seq<string>) {
    forall i :: 0 <= i < |labels| ==> labels[i] != ""
  }

  /** A host made of non-empty lowercase labels. */
  predicate CanonicalHost(host: string) {
    host != "" && NoneEmpty(SplitOn(host, '.')) && LabelsOk(SplitOn(host, '.'))
  }

  /** The port as it appears in a canonical origin, or None if it is not canonical decimal. */
  function CanonicalPort(port: string): Option<string> {
    if port == "" then Some("")
    else
      var n := ParseUint(port, 0x1_0000);
      if n.None? || n.value == 0 || Format(n.value) != port then None
      else Some(if n.value == 443 then "" else port)
  }

  function CanonicalServerOrigin(lib: Library, value: string): Option<string> {
    var parsed := lib.parse(value);
    if parsed.None? || parsed.value.scheme != "https" then None
    else
      var u := parsed.value;
      if u.host == "" || u.hasUser || u.path != "" || u.rawQuery != "" || u.fragment != "" then None
      else
        var (host, port) := SplitHostPort(u.host);
        if !CanonicalHost(host) || CanonicalPort(port).None? then None
        else
          var canonical := "https://" + HostPort(host, CanonicalPort(port).value);
          if |canonical| > MAX_SERVER_ORIGIN_LENGTH then None else Some(canonical)
  }

  /** `isASCII`, and unchanged by `strings.ToLower`. */
  predicate LowercaseAscii(s: string) {
    forall i :: 0 <= i < |s| ==> s[i] < 128 as char && !('A' <= s[i] <= 'Z')
  }

  /** `strings.HasPrefix`, `HasSuffix` and `Contains` with dots. */
  predicate NoStrayDots(s: string) {
    s != "" && s[0] != '.' && InnerDotsOk(s)
  }

  predicate InnerDotsOk(s: string) {
    (s != "" ==> s[|s| - 1] != '.') && forall i :: 0 <= i < |s| - 1 ==> !(s[i] == '.' && s[i + 1] == '.')
  }

  /** An empty label after the first shows as a trailing or a double dot. */
  lemma {:induction false} InnerLabels(s: string)
    ensures InnerDotsOk(s) <==> NoneEmpty(SplitOn(s, '.')[1..])
    ensures s == "" || s[0] == '.' <==> SplitOn(s, '.')[0] == ""
  {
    if s != "" {
      var t := s[1..];
      InnerLabels(t);
      assert InnerDotsOk(s) <==> InnerDotsOk(t) && (s[0] == '.' ==> t != "" && t[0] != '.') by {
        assert t != "" ==> s[|s| - 1] == t[|t| - 1];
        assert forall i :: 0 <= i < |t| ==> t[i] == s[i + 1];
        if InnerDotsOk(s) {
          assert t != "" ==> !(s[0] == '.' && s[0 + 1] == '.');
          forall i | 0 <= i < |t| - 1 ensures !(t[i] == '.' && t[i + 1] == '.') {
            assert !(s[i + 1] == '.' && s[i + 1 + 1] == '.');
          }
        }
      }
      var rest := SplitOn(t, '.');
      assert rest == [rest[0]] + rest[1..];
      if s[0] == '.' {
        assert SplitOn(s, '.')[1..] == rest;
        assert NoneEmpty(rest) <==> rest[0] != "" && NoneEmpty(rest[1..]) by {
          assert forall i :: 0 <= i < |rest[1..]| ==> rest[1..][i] == rest[i + 1];
        }
      } else {
        assert SplitOn(s, '.')[1..] == rest[1..];
      }
    }
  }

  /** The checks in the source's order accept exactly the canonical hosts. */
  lemma HostChecks(host: string)
    ensures CanonicalHost(host) <==>
      host != "" && LowercaseAscii(host) && NoStrayDots(host) && LabelsOk(SplitOn(host, '.'))
  {
    var labels := SplitOn(host, '.');
    InnerLabels(host);
    assert NoneEmpty(labels) <==> labels[0] != "" && NoneEmpty(labels[1..]) by {
      assert forall i :: 0 <= i < |labels[1..]| ==> labels[1..][i] == labels[i + 1];
    }
    if LabelsOk(labels) {
      LabelsMakeHost(host);
    }
  }

  // ---- what a host looks like, character by character --------------------------------------------

  /** Only host characters, no hyphen at the end or beside a dot. */
  predicate InnerText(s: string) {
    && (forall i :: 0 <= i < |s| ==> IsHostChar(s[i]))
    && (s != "" ==> s[|s| - 1] != '-')
    && forall i :: 0 <= i < |s| - 1 ==> !(s[i] == '.' && s[i + 1] == '-') && !(s[i] == '-' && s[i + 1] == '.')
  }

  /** A host: it neither begins nor ends with a dot or a hyphen, and has no two dots and no dot and hyphen side by
      side. */
  predicate HostText(s: string) {
    s != "" && s[0] != '-' && NoStrayDots(s) && InnerText(s)
  }

  predicate EndsOk(part: string) {
    && (part != "" ==> part[|part| - 1] != '-')
    && forall i :: 0 <= i < |part| ==> 'a' <= part[i] <= 'z' || IsDigit(part[i]) || part[i] == '-'
  }

  lemma InnerTextCons(c: char, t: string)
    ensures InnerText([c] + t) <==>
      && InnerText(t) && IsHostChar(c)
      && (if t == "" then c != '-' else !(c == '.' && t[0] == '-') && !(c == '-' && t[0] == '.'))
  {
    var s := [c] + t;
    if InnerText(s) {
      forall i | 0 <= i < |t| ensures IsHostChar(t[i]) {
        assert IsHostChar(s[i + 1]);
      }
      forall i | 0 <= i < |t| - 1 ensures !(t[i] == '.' && t[i + 1] == '-') && !(t[i] == '-' && t[i + 1] == '.') {
        assert s[i + 1] == t[i] && s[i + 1 + 1] == t[i + 1];
      }
      assert IsHostChar(s[0]) && (t != "" ==> s[0 + 1] == t[0]);
    }
  }

  lemma EndsOkCons(c: char, part: string)
    ensures EndsOk([c] + part) <==>
      EndsOk(part) && ('a' <= c <= 'z' || IsDigit(c) || c == '-') && (part == "" ==> c != '-')
  {
    var s := [c] + part;
    if EndsOk(s) {
      forall i | 0 <= i < |part| ensures 'a' <= part[i] <= 'z' || IsDigit(part[i]) || part[i] == '-' {
        assert s[i + 1] == part[i];
      }
      assert s[0] == c;
    }
  }

  /** The labels after the first are well-formed, and the first ends well. */
  lemma {:induction false} LabelsText(s: string)
    ensures InnerText(s) <==> EndsOk(SplitOn(s, '.')[0]) && LabelsOk(SplitOn(s, '.')[1..])
    ensures var first := SplitOn(s, '.')[0];
            if s == "" || s[0] == '.' then first == "" else first != "" && first[0] == s[0]
  {
    if s != "" {
      var c, t, rest := s[0], s[1..], SplitOn(s[1..], '.');
      LabelsText(t);
      InnerTextCons(c, t);
      EndsOkCons(c, rest[0]);
      assert s == [c] + t && rest == [rest[0]] + rest[1..];
      if c == '.' {
        assert SplitOn(s, '.')[1..] == rest;
        assert LabelsOk(rest) <==> LabelOk(rest[0]) && LabelsOk(rest[1..]) by {
          assert forall i :: 0 <= i < |rest[1..]| ==> rest[1..][i] == rest[i + 1];
        }
      } else {
        assert SplitOn(s, '.')[1..] == rest[1..];
      }
    }
  }

  /** Hosts made of non-empty well-formed labels are exactly those that look like a host. */
  lemma HostExactly(host: string)
    ensures CanonicalHost(host) <==> HostText(host)
  {
    var labels := SplitOn(host, '.');
    LabelsText(host);
    InnerLabels(host);
    assert labels == [labels[0]] + labels[1..];
    assert LabelsOk(labels) <==> LabelOk(labels[0]) && LabelsOk(labels[1..]) by {
      assert forall i :: 0 <= i < |labels[1..]| ==> labels[1..][i] == labels[i + 1];
    }
    assert NoneEmpty(labels) <==> labels[0] != "" && NoneEmpty(labels[1..]) by {
      assert forall i :: 0 <= i < |labels[1..]| ==> labels[1..][i] == labels[i + 1];
    }
  }

  lemma LabelsMakeHost(host: string)
    requires LabelsOk(SplitOn(host, '.'))
    ensures HostChars(host)
  {
    forall i, j | 0 <= i < |SplitOn(host, '.')| && 0 <= j < |SplitOn(host, '.')[i]|
      ensures var c := SplitOn(host, '.')[i][j]; 'a' <= c <= 'z' || IsDigit(c) || c == '-'
    {
      assert LabelOk(SplitOn(host, '.')[i]);
    }
    LabelCharsMakeHost(host);
  }

  /** `CanonicalServerOrigin` in the source's own steps. */
  method CanonicalizeServerOrigin(lib: Library, value: string) returns (r: Option<string>)
    ensures r == CanonicalServerOrigin(lib, value)
  {
    var parsed := lib.parse(value);
    if parsed.None? || parsed.value.scheme != "https" {
      return None;
    }
    var u := parsed.value;
    if u.host == "" || u.hasUser || u.path != "" || u.rawQuery != "" || u.fragment != "" {
      return None;
    }
    var parts := SplitHostPort(u.host);
    var host, port := parts.0, parts.1;
    var ok := CheckHost(host);
    if !ok {
      return None;
    }
    if port != "" {
      var parsedPort := ParseUint(port, 0x1_0000);
      if parsedPort.None? || parsedPort.value == 0 || Format(parsedPort.value) != port {
        return None;
      }
      if parsedPort.value == 443 {
        port := "";
      }
    }
    assert CanonicalPort(parts.1) == Some(port);
    var canonical := BuildOrigin(host, port);
    if |canonical| > MAX_SERVER_ORIGIN_LENGTH {
      return None;
    }
    r := Some(canonical);
  }

  method BuildOrigin(host: string, port: string) returns (canonical: string)
    ensures canonical == "https://" + HostPort(host, port)
  {
    canonical := "https://" + host;
    if port != "" {
      canonical := canonical + ":" + port;
    }
  }

  /** Its checks of the host. */
  method CheckHost(host: string) returns (ok: bool)
    ensures ok == CanonicalHost(host)
  {
    HostChecks(host);
    if host == "" || !LowercaseAscii(host) {
      return false;
    }
    if !NoStrayDots(host) {
      return false;
    }
    ok := CheckLabels(SplitOn(host, '.'));
  }

  /** The label loop. */
  method CheckLabels(labels: seq<string>) returns (ok: bool)
    ensures ok <==> LabelsOk(labels)
  {
    var i := 0;
    while i < |labels|
      invariant 0 <= i <= |labels| && forall j :: 0 <= j < i ==> LabelOk(labels[j])
    {
      var part := labels[i];
      if part != "" && (part[0] == '-' || part[|part| - 1] == '-') {
        return false;
      }
      var j := 0;
      while j < |part|
        invariant 0 <= j <= |part|
        invariant forall n :: 0 <= n < j ==> 'a' <= part[n] <= 'z' || IsDigit(part[n]) || part[n] == '-'
      {
        if !('a' <= part[j] <= 'z') && !IsDigit(part[j]) && part[j] != '-' {
          assert !LabelOk(labels[i]);
          return false;
        }
        j := j + 1;
      }
      i := i + 1;
    }
    ok := true;
  }

  /** Only the characters of the labels matter for the characters of the host. */
  predicate LabelChars(labels: seq<string>) {
    forall i, j :: 0 <= i < |labels| && 0 <= j < |labels[i]| ==>
        'a' <= labels[i][j] <= 'z' || IsDigit(labels[i][j]) || labels[i][j] == '-'
  }

  lemma {:induction false} LabelCharsMakeHost(host: string)
    requires LabelChars(SplitOn(host, '.'))
    ensures HostChars(host)
  {
    if host != [] {
      var all, rest := SplitOn(host, '.'), SplitOn(host[1..], '.');
      forall i, j | 0 <= i < |rest| && 0 <= j < |rest[i]|
        ensures 'a' <= rest[i][j] <= 'z' || IsDigit(rest[i][j]) || rest[i][j] == '-'
      {
        if host[0] == '.' {
          assert all[i + 1][j] == rest[i][j];
        } else if i == 0 {
          assert all[0][j + 1] == rest[0][j];
        } else {
          assert all[i][j] == rest[i][j];
        }
      }
      LabelCharsMakeHost(host[1..]);
      assert host[0] != '.' ==> all[0][0] == host[0];
    }
  }

  lemma HostPortSplits(host: string, port: string)
    requires host != "" && HostChars(host) && AllDigits(port)
    ensures SplitHostPort(HostPort(host, port)) == (host, port)
  {
    assert ':' !in host && ':' !in port;
    if port == "" {
      NoIndex(host, ':');
    } else {
      LastIndexAfter(host, ':', port);
      var hp := HostPort(host, port);
      assert hp == host + [':'] + port && hp[..|host|] == host && hp[|host| + 1..] == port;
    }
  }

  /** What a canonical origin looks like. */
  ghost predicate OriginForm(origin: string, host: string, port: string) {
    && origin == "https://" + HostPort(host, port) && |origin| <= MAX_SERVER_ORIGIN_LENGTH
    && CanonicalHost(host) && HostChars(host) && AllDigits(port) && CanonicalPort(port) == Some(port)
  }

  lemma CanonicalHasForm(lib: Library, value: string) returns (host: string, port: string)
    requires CanonicalServerOrigin(lib, value).Some?
    ensures OriginForm(CanonicalServerOrigin(lib, value).value, host, port)
  {
    var parts := SplitHostPort(lib.parse(value).value.host);
    host, port := parts.0, CanonicalPort(parts.1).value;
    LabelsMakeHost(host);
  }

  lemma FormIsCanonical(lib: Library, origin: string, host: string, port: string)
    requires Standard(lib) && OriginForm(origin, host, port)
    ensures CanonicalServerOrigin(lib, origin) == Some(origin)
  {
    assert OriginParses(lib, host, port);
    HostPortSplits(host, port);
  }

  /** `port` is the number `n`, without leading zeros, and not the default. */
  predicate OtherPort(port: string, n: nat) {
    0 < n < 65536 && n != 443 && port == Format(n)
  }

  function Bounded(origin: string): Option<string> {
    if |origin| > 128 then None else Some(origin)
  }

  /** What becomes of `https://host[:port]`: the host must look like one, the port must be a number without
      leading zeros below 65536, and the whole must have at most 128 characters; no port and the default port 443
      are the same. */
  lemma OriginExactly(lib: Library, host: string, port: string)
    requires Standard(lib) && host != "" && HostChars(host) && AllDigits(port)
    ensures CanonicalServerOrigin(lib, "https://" + HostPort(host, port)) ==
      if HostText(host) && (port == "" || port == "443") then Bounded("https://" + host)
      else if HostText(host) && exists n :: OtherPort(port, n) then Bounded("https://" + (host + ":" + port))
      else None
  {
    HostExactly(host);
    assert OriginParses(lib, host, port);
    HostPortSplits(host, port);
    PortExactly(port);
  }

  lemma PortExactly(port: string)
    requires AllDigits(port)
    ensures CanonicalPort(port) ==
      if port == "" || port == "443" then Some("") else if exists n :: OtherPort(port, n) then Some(port) else None
  {
    forall n: nat | OtherPort(port, n) ensures ParseUint(port, 0x1_0000) == Some(n) && port != "443" {
      OtherPortParses(port, n);
    }
    var parsed := ParseUint(port, 0x1_0000);
    if port == "443" {
      DefaultPort();
    } else if parsed.Some? && parsed.value != 0 && Format(parsed.value) == port {
      DefaultPort();
      assert OtherPort(port, parsed.value);
    }
  }

  lemma DefaultPort()
    ensures Format(443) == "443" && ParseUint("443", 0x1_0000) == Some(443)
  {
    assert Format(44) == Format(4) + "4" && Format(4) == "4";
    assert Format(443) == Format(44) + "3";
    ParseFormat(443, 0x1_0000);
  }

  lemma OtherPortParses(port: string, n: nat)
    requires OtherPort(port, n)
    ensures ParseUint(port, 0x1_0000) == Some(n) && port != "443"
  {
    ParseFormat(n, 0x1_0000);
    DefaultPort();
  }

  /** Canonicalising twice changes nothing. */
  lemma CanonicalServerOriginIsIdempotent(lib: Library, value: string)
    requires Standard(lib) && CanonicalServerOrigin(lib, value).Some?
    ensures CanonicalServerOrigin(lib, CanonicalServerOrigin(lib, value).value) == CanonicalServerOrigin(lib, value)
  {
    var host, port := CanonicalHasForm(lib, value);
    FormIsCanonical(lib, CanonicalServerOrigin(lib, value).value, host, port);
  }

  // ---- invite tokens ---------------------------------------------------------------------------

  datatype Token = Token(version: nat, serverOrigin: string, namespaceID: string, inviteID: string, expiresAt: int,
      inviteSecret: string)

  /** `DecodeLowerHexExact`: `size` bytes in lowercase hexadecimal. */
  predicate LowerHex(s: string, size: nat) {
    |s| == 2 * size && forall i :: 0 <= i < |s| ==> IsDigit(s[i]) || 'a' <= s[i] <= 'f'
  }

  /** The alphabet position of an unpadded base64url character. */
  function Base64Index(c: char): Option<nat> {
    if 'A' <= c <= 'Z' then Some(c as int - 'A' as int)
    else if 'a' <= c <= 'z' then Some(c as int - 'a' as int + 26)
    else if IsDigit(c) then Some(c as int - '0' as int + 52)
    else if c == '-' then Some(62)
    else if c == '_' then Some(63)
    else None
  }

  /** `DecodeBase64URLExact` for 32 bytes: 43 characters, the last of which has two unused bits, zero. */
  predicate Secret(s: string) {
    |s| == 43 && (forall i :: 0 <= i < |s| ==> Base64Index(s[i]).Some?) && Base64Index(s[42]).value % 4 == 0
  }

  /** The character at a position of the base64url alphabet. */
  function Base64Char(i: nat): (c: char)
    requires i < 64
    ensures Base64Index(c) == Some(i)
  {
    if i < 26 then ('A' as int + i) as char
    else if i < 52 then ('a' as int + i - 26) as char
    else if i < 62 then ('0' as int + i - 52) as char
    else if i == 62 then '-' else '_'
  }

  /** Three bytes make four characters. */
  function Base64Group(first: Byte, second: Byte, third: Byte): (s: string)
    ensures |s| == 4
  {
    var a: nat, b: nat, c: nat := first, second, third;
    [Base64Char(a / 4), Base64Char(a % 4 * 16 + b / 16), Base64Char(b % 16 * 4 + c / 64), Base64Char(c % 64)]
  }

  /** Unpadded base64url; what is left over is filled up with zero bits. */
  function Base64Url(b: Bytes): (s: string)
    ensures |s| == (4 * |b| + 2) / 3
  {
    if b == [] then ""
    else if |b| == 1 then Base64Group(b[0], 0, 0)[..2]
    else if |b| == 2 then Base64Group(b[0], b[1], 0)[..3]
    else Base64Group(b[0], b[1], b[2]) + Base64Url(b[3..])
  }

  predicate Base64Chars(s: string) {
    forall i :: 0 <= i < |s| ==> Base64Index(s[i]).Some?
  }

  /** Characters of the alphabet that leave two bytes over, the unused bits zero. */
  predicate Base64Text(s: string) {
    |s| % 4 == 3 && Base64Chars(s) && Base64Index(s[|s| - 1]).value % 4 == 0
  }

  lemma GroupIsText(first: Byte, second: Byte, third: Byte)
    ensures Base64Chars(Base64Group(first, second, third))
    ensures third == 0 ==> Base64Index(Base64Group(first, second, third)[2]).value % 4 == 0
  {
  }

  lemma GroupThenText(group: string, rest: string)
    requires |group| == 4 && Base64Chars(group) && Base64Text(rest)
    ensures Base64Text(group + rest)
  {
    assert (group + rest)[|group + rest| - 1] == rest[|rest| - 1];
  }

  lemma {:induction false} Base64UrlIsText(b: Bytes)
    requires |b| % 3 == 2
    ensures Base64Text(Base64Url(b))
  {
    if |b| == 2 {
      GroupIsText(b[0], b[1], 0);
    } else {
      var group, rest := Base64Group(b[0], b[1], b[2]), Base64Url(b[3..]);
      GroupIsText(b[0], b[1], b[2]);
      Base64UrlIsText(b[3..]);
      GroupThenText(group, rest);
    }
  }

  lemma IndexReadsBack(c: char)
    requires Base64Index(c).Some?
    ensures Base64Index(c).value < 64 && Base64Char(Base64Index(c).value) == c
  {
  }

  /** Four characters stand for three bytes. */
  lemma GroupReads(s: string) returns (first: Byte, second: Byte, third: Byte)
    requires |s| == 4 && Base64Chars(s)
    ensures Base64Group(first, second, third) == s
    ensures Base64Index(s[2]).value % 4 == 0 && Base64Index(s[3]).value == 0 ==> third == 0
  {
    IndexReadsBack(s[0]);
    IndexReadsBack(s[1]);
    IndexReadsBack(s[2]);
    IndexReadsBack(s[3]);
    var w, x := Base64Index(s[0]).value, Base64Index(s[1]).value;
    var y, z := Base64Index(s[2]).value, Base64Index(s[3]).value;
    var a, b, c := w * 4 + x / 16, x % 16 * 16 + y / 4, y % 4 * 64 + z;
    assert a / 4 == w && a % 4 * 16 + b / 16 == x && b % 16 * 4 + c / 64 == y && c % 64 == z;
    first, second, third := a, b, c;
  }

  /** Every such text stands for some bytes. */
  lemma {:induction false} Base64Reads(s: string) returns (b: Bytes)
    requires Base64Text(s)
    ensures 4 * |b| == 3 * |s| - 1 && Base64Url(b) == s
  {
    if |s| == 3 {
      var first, second, third := GroupReads(s + "A");
      assert (s + "A")[..3] == s && (s + "A")[2] == s[2];
      b := [first, second];
    } else {
      var rest := s[4..];
      assert rest[|rest| - 1] == s[|s| - 1];
      var first, second, third := GroupReads(s[..4]);
      var more := Base64Reads(rest);
      b := [first, second, third] + more;
      assert b[3..] == more && s == s[..4] + rest;
    }
  }

  /** A secret is the base64url form of 32 bytes. */
  lemma SecretExactly(s: string)
    ensures Secret(s) <==> exists b: Bytes :: |b| == 32 && s == Base64Url(b)
  {
    if Secret(s) {
      var b := Base64Reads(s);
      assert |b| == 32;
    }
    if b: Bytes :| |b| == 32 && s == Base64Url(b) {
      Base64UrlIsText(b);
    }
  }

  const SCHEME_PREFIX := "https://"

  /** `encodedServerOrigin`. */
  function EncodedServerOrigin(canonical: string): string {
    if SCHEME_PREFIX <= canonical then canonical[|SCHEME_PREFIX|..] else canonical
  }

  function InviteFields(server: string, namespaceID: string, inviteID: string, expires: string): Fields {
    [("v", "1"), ("s", server), ("n", namespaceID), ("i", inviteID), ("e", expires)]
  }

  function InviteText(server: string, namespaceID: string, inviteID: string, expires: string, secret: string): string {
    "bitboxsync://join-namespace?v=1&s=" + server + "&n=" + namespaceID + "&i=" + inviteID + "&e=" + expires + "#k=" + secret
  }

  function EncodeNamespaceInviteToken(lib: Library, t: Token): Option<string> {
    var origin := CanonicalServerOrigin(lib, t.serverOrigin);
    if t.version != 1 || origin.None? || !LowerHex(t.namespaceID, 16) || !LowerHex(t.inviteID, 16) then None
    else if t.expiresAt <= 0 || !Secret(t.inviteSecret) then None
    else
      Some(InviteText(EncodedServerOrigin(origin.value), t.namespaceID, t.inviteID, Format(t.expiresAt), t.inviteSecret))
  }

  /** Thirty-two lowercase hexadecimal characters. */
  predicate HexID(s: string) {
    |s| == 32 && forall i :: 0 <= i < |s| ==> '0' <= s[i] <= '9' || 'a' <= s[i] <= 'f'
  }

  /** A token of version 1 whose identifiers are 16 bytes, whose expiry is positive and whose secret is 32 bytes,
      in their text forms. */
  ghost predicate ValidToken(t: Token) {
    && t.version == 1 && HexID(t.namespaceID) && HexID(t.inviteID) && t.expiresAt > 0
    && exists b: Bytes :: |b| == 32 && t.inviteSecret == Base64Url(b)
  }

  /** Exactly the valid tokens of accepted origins are encoded. */
  lemma EncodeExactly(lib: Library, t: Token)
    ensures EncodeNamespaceInviteToken(lib, t).Some? <==>
              ValidToken(t) && CanonicalServerOrigin(lib, t.serverOrigin).Some?
  {
    SecretExactly(t.inviteSecret);
    assert LowerHex(t.namespaceID, 16) <==> HexID(t.namespaceID);
    assert LowerHex(t.inviteID, 16) <==> HexID(t.inviteID);
  }

  predicate NoEmptyComponents(raw: string) {
    raw != "" && forall i :: 0 <= i < |SplitOn(raw, '&')| ==> SplitOn(raw, '&')[i] != ""
  }

  function SingleValue(q: Values, name: string): Option<string> {
    if |ValuesAt(q, name)| == 1 then Some(ValuesAt(q, name)[0]) else None
  }

  predicate ExactFields(q: Values, names: seq<string>) {
    |q| == |names| && forall i :: 0 <= i < |names| ==> SingleValue(q, names[i]).Some?
  }

  function ParseInviteQuery(lib: Library, q: Values): Option<(string, string, string, int)> {
    if !ExactFields(q, ["v", "s", "n", "i", "e"]) then None
    else
      var names := ["v", "s", "n", "i", "e"];
      assert names[0] == "v" && names[1] == "s" && names[2] == "n" && names[3] == "i" && names[4] == "e";
      var server, ns, invite, expires := SingleValue(q, "s").value, SingleValue(q, "n").value, SingleValue(q,
          "i").value, SingleValue(q, "e").value;
      var origin := CanonicalServerOrigin(lib, "https://" + server);
      var expiresAt := ParseInt64(expires);
      if SingleValue(q, "v").value != "1" || origin.None? || server != EncodedServerOrigin(origin.value) then None
      else if !LowerHex(ns, 16) || !LowerHex(invite, 16) then None
      else if expiresAt.None? || expiresAt.value <= 0 || expires != Format(expiresAt.value) then None
      else Some((origin.value, ns, invite, expiresAt.value))
  }

  function ParseInviteFragment(lib: Library, raw: string): Option<string> {
    if !NoEmptyComponents(raw) || lib.parseQuery(raw).None? then None
    else
      var q := lib.parseQuery(raw).value;
      if !ExactFields(q, ["k"]) then None
      else
        assert ["k"][0] == "k";
        var secret := SingleValue(q, "k").value;
        if Secret(secret) then Some(secret) else None
  }

  function ParseNamespaceInviteToken(lib: Library, value: string): Option<Token> {
    if !("bitboxsync:" <= value) || lib.parse(value).None? then None
    else
      var u := lib.parse(value).value;
      if u.scheme != "bitboxsync" || u.host != "join-namespace" || u.path != "" then None
      else if !NoEmptyComponents(u.rawQuery) || lib.parseQuery(u.rawQuery).None? then None
      else
        var fields := ParseInviteQuery(lib, lib.parseQuery(u.rawQuery).value);
        var secret := ParseInviteFragment(lib, u.escapedFragment);
        if fields.None? || secret.None? then None
        else Some(Token(1, fields.value.0, fields.value.1, fields.value.2, fields.value.3, secret.value))
  }

  // ---- round trip ------------------------------------------------------------------------------

  /** Joining plain fields puts each in one component. */
  lemma {:induction false} ComponentsOfQuery(fields: Fields)
    requires fields != [] && PlainFields(fields)
    ensures NoEmptyComponents(QueryText(fields)) && PlainQuery(QueryText(fields))
  {
    var first := FieldText(fields[0]);
    assert Plain(fields[0].0) && Plain(fields[0].1);
    assert '&' !in first && PlainQuery(first);
    if |fields| == 1 {
      SplitNone(first, '&');
    } else {
      var rest := fields[1..];
      assert PlainFields(rest) by {
        forall i | 0 <= i < |rest| ensures Plain(rest[i].0) && Plain(rest[i].1) {
          assert rest[i] == fields[i + 1];
        }
      }
      ComponentsOfQuery(rest);
      SplitFirst(first, '&', QueryText(rest));
      assert QueryText(fields) == first + ['&'] + QueryText(rest);
    }
  }

  lemma GroupedInvite(server: string, ns: string, invite: string, expires: string)
    ensures var q := Grouped(InviteFields(server, ns, invite, expires));
      && ExactFields(q, ["v", "s", "n", "i", "e"])
      && SingleValue(q, "v") == Some("1") && SingleValue(q, "s") == Some(server) && SingleValue(q, "n") == Some(ns)
      && SingleValue(q, "i") == Some(invite) && SingleValue(q, "e") == Some(expires)
  {
    assert "v"[0] == 'v' && "s"[0] == 's' && "n"[0] == 'n' && "i"[0] == 'i' && "e"[0] == 'e';
    var f4: Fields := [("e", expires)];
    var f3 := [("i", invite)] + f4;
    var f2 := [("n", ns)] + f3;
    var f1 := [("s", server)] + f2;
    GroupedFresh(("e", expires), []);
    assert f4 == [("e", expires)] + [];
    GroupedFresh(("i", invite), f4);
    GroupedFresh(("n", ns), f3);
    GroupedFresh(("s", server), f2);
    GroupedFresh(("v", "1"), f1);
    assert InviteFields(server, ns, invite, expires) == [("v", "1")] + f1;
    assert Grouped([("v", "1")] + f1).Keys == {"v", "s", "n", "i", "e"};
  }

  lemma GroupedFresh(f: (string, string), rest: Fields)
    requires f.0 !in Grouped(rest)
    ensures Grouped([f] + rest) == Grouped(rest)[f.0 := [f.1]]
  {
    assert ([f] + rest)[1..] == rest && [f.1] + [] == [f.1];
  }

  lemma QueryTextMore(f: (string, string), rest: Fields)
    requires rest != []
    ensures QueryText([f] + rest) == FieldText(f) + "&" + QueryText(rest)
  {
    assert ([f] + rest)[1..] == rest;
  }

  /** The literal text of an invite is its fields joined. */
  lemma InviteIsQuery(server: string, ns: string, invite: string, expires: string, secret: string)
    ensures InviteText(server, ns, invite, expires, secret)
         == INVITE_HEAD + QueryText(InviteFields(server, ns, invite, expires)) + "#" + QueryText([("k", secret)])
  {
    InviteQueryText(server, ns, invite, expires);
    Regrouped(INVITE_HEAD, "v=1", "&", "s=" + server, "n=" + ns, "i=" + invite, "e=" + expires);
    Heads(server, ns, invite, expires, secret);
  }

  lemma QueryTextOfFive(f0: (string, string), f1: (string, string), f2: (string, string), f3: (string, string),
          f4: (string, string))
    ensures QueryText([f0, f1, f2, f3, f4]) ==
      FieldText(f0) + "&" + (FieldText(f1) + "&" + (FieldText(f2) + "&" + (FieldText(f3) + "&" + FieldText(f4))))
  {
    QueryTextMore(f3, [f4]);
    QueryTextMore(f2, [f3] + [f4]);
    QueryTextMore(f1, [f2] + ([f3] + [f4]));
    QueryTextMore(f0, [f1] + ([f2] + ([f3] + [f4])));
    assert [f0, f1, f2, f3, f4] == [f0] + ([f1] + ([f2] + ([f3] + [f4])));
  }

  lemma FieldTextIs(name: string, head: string, value: string)
    requires head == name + "="
    ensures FieldText((name, value)) == head + value
  {
  }

  lemma InviteQueryText(server: string, ns: string, invite: string, expires: string)
    ensures QueryText(InviteFields(server, ns, invite, expires)) ==
      "v=1" + "&" + ("s=" + server + "&" + ("n=" + ns + "&" + ("i=" + invite + "&" + ("e=" + expires))))
  {
    QueryTextOfFive(("v", "1"), ("s", server), ("n", ns), ("i", invite), ("e", expires));
    FieldTextIs("v", "v=", "1");
    FieldTextIs("s", "s=", server);
    FieldTextIs("n", "n=", ns);
    FieldTextIs("i", "i=", invite);
    FieldTextIs("e", "e=", expires);
    assert "v=" + "1" == "v=1";
  }

  lemma Regrouped(p: string, v: string, amp: string, a: string, b: string, c: string, d: string)
    ensures p + v + amp + a + amp + b + amp + c + amp + d == p + (v + amp + (a + amp + (b + amp + (c + amp + d))))
  {
    assert c + amp + d == c + (amp + d);
    assert p + v + amp + a + amp + b + amp + c + amp + d == p + v + amp + a + amp + b + amp + (c + amp + d);
    assert p + v + amp + a + amp + b + amp + (c + amp + d) == p + v + amp + a + amp + (b + amp + (c + amp + d));
    assert p + v + amp + a + amp + (b + amp + (c + amp + d)) == p + v + amp + (a + amp + (b + amp + (c + amp + d)));
  }

  lemma Heads(server: string, ns: string, invite: string, expires: string, secret: string)
    ensures InviteText(server, ns, invite, expires, secret)
         == INVITE_HEAD + "v=1" + "&" + ("s=" + server) + "&" + ("n=" + ns) + "&" + ("i=" + invite) + "&" + ("e=" + expires)
            + "#" + ("k=" + secret)
  {
    HeadMoves(INVITE_HEAD + "v=1", "&", "s=", server);
    var s1 := "bitboxsync://join-namespace?v=1&s=" + server;
    HeadMoves(s1, "&", "n=", ns);
    HeadMoves(s1 + "&n=" + ns, "&", "i=", invite);
    HeadMoves(s1 + "&n=" + ns + "&i=" + invite, "&", "e=", expires);
    HeadMoves(s1 + "&n=" + ns + "&i=" + invite + "&e=" + expires, "#", "k=", secret);
  }

  lemma HeadMoves(before: string, sep: string, head: string, value: string)
    ensures before + (sep + head) + value == before + sep + (head + value)
  {
  }

  lemma IdsArePlain(t: Token, port: string, host: string)
    requires LowerHex(t.namespaceID, 16) && LowerHex(t.inviteID, 16) && Secret(t.inviteSecret) && HostChars(host)
        && AllDigits(port)
    ensures Plain(t.namespaceID) && Plain(t.inviteID) && Plain(t.inviteSecret) && Plain(HostPort(host, port))
  {
    forall i | 0 <= i < |t.inviteSecret| ensures IsPlain(t.inviteSecret[i]) {
      assert Base64Index(t.inviteSecret[i]).Some?;
    }
  }

  /** The server part of an invite stands for its canonical origin. */
  lemma ServerReadsBack(lib: Library, origin: string, host: string, port: string)
    requires Standard(lib) && OriginForm(origin, host, port)
    ensures EncodedServerOrigin(origin) == HostPort(host, port)
    ensures CanonicalServerOrigin(lib, "https://" + EncodedServerOrigin(origin)) == Some(origin)
  {
    assert origin[..8] == SCHEME_PREFIX && origin[8..] == HostPort(host, port);
    FormIsCanonical(lib, origin, host, port);
  }

  /** Every valid token of an accepted origin is encoded, and parsing gives it back, its origin canonicalised. */
  lemma ParseUndoesEncode(lib: Library, t: Token)
    requires Standard(lib) && ValidToken(t) && CanonicalServerOrigin(lib, t.serverOrigin).Some?
    requires t.expiresAt < 0x8000_0000_0000_0000
    ensures EncodeNamespaceInviteToken(lib, t).Some?
    ensures ParseNamespaceInviteToken(lib, EncodeNamespaceInviteToken(lib, t).value)
         == Some(t.(serverOrigin := CanonicalServerOrigin(lib, t.serverOrigin).value))
  {
    EncodeExactly(lib, t);
    var origin := CanonicalServerOrigin(lib, t.serverOrigin).value;
    var host, port := CanonicalHasForm(lib, t.serverOrigin);
    ServerReadsBack(lib, origin, host, port);
    IdsArePlain(t, port, host);
    var server, expires := HostPort(host, port), Format(t.expiresAt);
    EncodedInviteParses(lib, server, t.namespaceID, t.inviteID, expires, t.inviteSecret);
    QueryReadsBack(lib, server, t.namespaceID, t.inviteID, t.expiresAt, origin);
    FragmentReadsBack(lib, t.inviteSecret);
  }

  lemma QueryReadsBack(lib: Library, server: string, ns: string, invite: string, expiresAt: nat, origin: string)
    requires CanonicalServerOrigin(lib, "https://" + server) == Some(origin) && server == EncodedServerOrigin(origin)
    requires LowerHex(ns, 16) && LowerHex(invite, 16) && 0 < expiresAt < 0x8000_0000_0000_0000
    ensures ParseInviteQuery(lib,
        Grouped(InviteFields(server, ns, invite, Format(expiresAt)))) == Some((origin, ns, invite, expiresAt))
  {
    GroupedInvite(server, ns, invite, Format(expiresAt));
    ParseFormatInt(expiresAt);
  }

  lemma FragmentReadsBack(lib: Library, secret: string)
    requires Secret(secret) && NoEmptyComponents(QueryText([("k", secret)]))
    requires lib.parseQuery(QueryText([("k", secret)])) == Some(Grouped([("k", secret)]))
    ensures ParseInviteFragment(lib, QueryText([("k", secret)])) == Some(secret)
  {
    GroupedSecret(secret);
  }

  lemma GroupedSecret(secret: string)
    ensures ExactFields(Grouped([("k", secret)]), ["k"]) && SingleValue(Grouped([("k", secret)]), "k") == Some(secret)
  {
    GroupedFresh(("k", secret), []);
    assert [("k", secret)] + [] == [("k", secret)];
    assert Grouped([("k", secret)]).Keys == {"k"};
  }

  /** What the library makes of an invite of plain parts. */
  lemma EncodedInviteParses(lib: Library, server: string, ns: string, invite: string, expires: string, secret: string)
    requires Standard(lib) && Plain(server) && Plain(ns) && Plain(invite) && Plain(expires) && Plain(secret)
    ensures var value := InviteText(server, ns, invite, expires, secret);
      var query, fragment := QueryText(InviteFields(server, ns, invite, expires)), QueryText([("k", secret)]);
      && "bitboxsync:" <= value
          && lib.parse(value) == Some(Url("bitboxsync", "join-namespace", false, "", query, fragment, fragment))
      && NoEmptyComponents(query) && lib.parseQuery(query) == Some(Grouped(InviteFields(server, ns, invite, expires)))
      && NoEmptyComponents(fragment) && lib.parseQuery(fragment) == Some(Grouped([("k", secret)]))
  {
    var fields := InviteFields(server, ns, invite, expires);
    InviteIsQuery(server, ns, invite, expires, secret);
    ComponentsOfQuery(fields);
    ComponentsOfQuery([("k", secret)]);
    assert QueryParses(lib, fields) && QueryParses(lib, [("k", secret)]);
    assert InviteParses(lib, QueryText(fields), QueryText([("k", secret)]));
  }

  /** A valid token of an origin `https://host[:port]` comes back from its URI exactly if the origin is accepted. */
  lemma InviteExactly(lib: Library, t: Token, host: string, port: string)
    requires Standard(lib) && host != "" && HostChars(host) && AllDigits(port) && t.expiresAt < 0x8000_0000_0000_0000
    requires t.serverOrigin == "https://" + HostPort(host, port)
    ensures var plain := port == "" || port == "443";
      var origin := "https://" + if plain then host else host + ":" + port;
      var uri := EncodeNamespaceInviteToken(lib, t);
      && (uri.Some? <==>
          ValidToken(t) && HostText(host) && (plain || exists n :: OtherPort(port, n)) && |origin| <= 128)
      && (uri.Some? ==> ParseNamespaceInviteToken(lib, uri.value) == Some(t.(serverOrigin := origin)))
  {
    EncodeExactly(lib, t);
    OriginExactly(lib, host, port);
    if EncodeNamespaceInviteToken(lib, t).Some? {
      ParseUndoesEncode(lib, t);
    }
  }

  /** Every parsed token is valid, its origin canonical, and it survives encoding and parsing again. */
  lemma ReencodingIsStable(lib: Library, value: string)
    requires Standard(lib) && ParseNamespaceInviteToken(lib, value).Some?
    ensures var t := ParseNamespaceInviteToken(lib, value).value;
      ValidToken(t) && CanonicalServerOrigin(lib, t.serverOrigin) == Some(t.serverOrigin)
          && EncodeNamespaceInviteToken(lib, t).Some?
          && ParseNamespaceInviteToken(lib, EncodeNamespaceInviteToken(lib, t).value) == Some(t)
  {
    ParsedTokenIsValid(lib, value);
    ParseUndoesEncode(lib, ParseNamespaceInviteToken(lib, value).value);
  }

  lemma ParsedTokenIsValid(lib: Library, value: string)
    requires Standard(lib) && ParseNamespaceInviteToken(lib, value).Some?
    ensures var t := ParseNamespaceInviteToken(lib, value).value;
      && t.version == 1 && ValidToken(t) && t.expiresAt < 0x8000_0000_0000_0000
      && CanonicalServerOrigin(lib, t.serverOrigin) == Some(t.serverOrigin)
  {
    var t := ParseNamespaceInviteToken(lib, value).value;
    ParsedFieldsAreCanonical(lib, lib.parseQuery(lib.parse(value).value.rawQuery).value);
    EncodeExactly(lib, t);
    assert Secret(t.inviteSecret);
  }

  lemma ParsedFieldsAreCanonical(lib: Library, q: Values)
    requires Standard(lib) && ParseInviteQuery(lib, q).Some?
    ensures var r := ParseInviteQuery(lib, q).value;
      CanonicalServerOrigin(lib, r.0) == Some(r.0) && LowerHex(r.1, 16) && LowerHex(r.2, 16)
          && 0 < r.3 < 0x8000_0000_0000_0000
  {
    var names := ["v", "s", "n", "i", "e"];
    assert SingleValue(q, names[1]).Some? && SingleValue(q, names[4]).Some?;
    CanonicalServerOriginIsIdempotent(lib, "https://" + SingleValue(q, "s").value);
    ParsedFitsInt64(SingleValue(q, "e").value);
  }

  lemma ParsedFitsInt64(s: string)
    requires ParseInt64(s).Some?
    ensures ParseInt64(s).value < 0x8000_0000_0000_0000
  {
  }

  /** Different canonical tokens have different URIs. */
  lemma EncodingIsInjective(lib: Library, t1: Token, t2: Token)
    requires Standard(lib) && EncodeNamespaceInviteToken(lib, t1).Some?
        && EncodeNamespaceInviteToken(lib, t1) == EncodeNamespaceInviteToken(lib, t2)
    requires t1.expiresAt < 0x8000_0000_0000_0000 && t2.expiresAt < 0x8000_0000_0000_0000
    ensures t1.(serverOrigin := t2.serverOrigin) == t2
        && CanonicalServerOrigin(lib, t1.serverOrigin) == CanonicalServerOrigin(lib, t2.serverOrigin)
  {
    EncodeExactly(lib, t1);
    EncodeExactly(lib, t2);
    ParseUndoesEncode(lib, t1);
    ParseUndoesEncode(lib, t2);
  }
}
