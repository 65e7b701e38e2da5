/** Shared Key signing and verification of blob requests. The HMAC, URL decoding and
    query parsing come from Go's libraries and stay abstract. */
module SharedKey {
  import opened Options
  import opened Text
  import opened Visiting
  import opened Base64
  import opened Canonical
  import opened Query

  datatype Library = Library(
    mac: (seq<Byte>, string) -> seq<Byte>,
    unescape: string -> Option<string>,
    parseQuery: string -> Option<seq<Pair>>)

  // HMAC-SHA256 gives 32 bytes, section 2 of RFC 2104.
  ghost predicate Hmac(lib: Library) {
    forall key, text :: |lib.mac(key, text)| == 32
  }

  datatype Req = Req(verb: string, headers: Header, path: string, raw: string)

  // Header.Get: the first value, or nothing.
  function Get(h: Header, name: string): string {
    if name in h && h[name] != [] then h[name][0] else ""
  }

  function UpperChar(c: char): char {
    if 'a' <= c <= 'z' then c - 32 as char else c
  }

  // strings.ToUpper on ASCII letters.
  function ToUpper(s: string): string {
    seq(|s|, i requires 0 <= i < |s| => UpperChar(s[i]))
  }

  function DateField(h: Header): string {
    if Get(h, "X-Ms-Date") != "" then "" else Get(h, "Date")
  }

  function LengthField(h: Header): string {
    if Get(h, "Content-Length") == "0" then "" else Get(h, "Content-Length")
  }

  // The standard headers each scheme signs, one line each.
  function Fields(h: Header, lite: bool): seq<string> {
    if lite then [Get(h, "Content-Md5"), Get(h, "Content-Type"), DateField(h)]
    else [Get(h, "Content-Encoding"), Get(h, "Content-Language"), LengthField(h), Get(h, "Content-Md5"),
          Get(h, "Content-Type"), DateField(h), Get(h, "If-Modified-Since"), Get(h, "If-Match"),
          Get(h, "If-None-Match"), Get(h, "If-Unmodified-Since"), Get(h, "Range")]
  }

  function FieldLines(fields: seq<string>): string {
    if fields == [] then "" else fields[0] + "\n" + FieldLines(fields[1..])
  }

  ghost function ResourcePart(lib: Library, r: Req, account: string): Option<string> {
    if r.raw == "" then Some("/" + account + (if r.path == "" then "/" else r.path))
    else match lib.parseQuery(r.raw)
      case None => None
      case Some(pairs) => Some(Resource(lib.unescape, account, r.path, pairs))
  }

  ghost function StringToSign(lib: Library, r: Req, account: string, lite: bool): Option<string> {
    match ResourcePart(lib, r, account)
    case None => None
    case Some(resource) =>
      Some(ToUpper(r.verb) + "\n" + FieldLines(Fields(r.headers, lite)) + HeadersOf(r.headers) + resource)
  }

  function Scheme(lite: bool): string {
    if lite then "SharedKeyLite" else "SharedKey"
  }

  function Credential(account: string, sig: seq<Byte>, lite: bool): string {
    Scheme(lite) + " " + (account + ":" + Encode(sig))
  }

  function Authorized(r: Req, value: string): Req {
    r.(headers := r.headers["Authorization" := [value]])
  }

  // strings.LastIndex for one character.
  function LastIndex(s: string, c: char): int {
    if s == "" then -1 else if s[|s| - 1] == c then |s| - 1 else LastIndex(s[..|s| - 1], c)
  }

  lemma {:induction false} LastIndexIn(s: string, c: char)
    ensures -1 <= LastIndex(s, c) < |s|
  {
    if s != "" { LastIndexIn(s[..|s| - 1], c); }
  }

  ghost predicate VerifyScheme(lib: Library, r: Req, account: string, cred: string,
                               key1: seq<Byte>, key2: seq<Byte>, lite: bool)
  {
    var i := LastIndex(cred, ':');
    LastIndexIn(cred, ':');
    && 0 < i < |cred| - 1
    && cred[..i] == account
    && Decode(cred[i + 1..]).Some?
    && StringToSign(lib, r, account, lite).Some?
    && var text := StringToSign(lib, r, account, lite).value;
       Decode(cred[i + 1..]).value in {lib.mac(key1, text), lib.mac(key2, text)}
  }

  ghost predicate Verifies(lib: Library, r: Req, account: string, key1: seq<Byte>, key2: seq<Byte>) {
    var authz := Get(r.headers, "Authorization");
    if HasPrefix(authz, "SharedKey ") then
      VerifyScheme(lib, r, account, authz[|"SharedKey "|..], key1, key2, false)
    else
      HasPrefix(authz, "SharedKeyLite ")
      && VerifyScheme(lib, r, account, authz[|"SharedKeyLite "|..], key1, key2, true)
  }

  // ---- What the string to sign depends on ----

  lemma OtherGet(h: Header, value: string, name: string)
    requires |name| != 13 || name[0] != 'A'
    ensures Get(h["Authorization" := [value]], name) == Get(h, name)
  {
    assert |"Authorization"| == 13 && "Authorization"[0] == 'A';
  }

  lemma DatesSame(h: Header, value: string)
    ensures var g := h["Authorization" := [value]];
      DateField(g) == DateField(h) && LengthField(g) == LengthField(h)
  {
    OtherGet(h, value, "X-Ms-Date");
    OtherGet(h, value, "Date");
    OtherGet(h, value, "Content-Length");
    hide Get;
  }

  lemma FieldsSame(h: Header, value: string, lite: bool)
    ensures Fields(h["Authorization" := [value]], lite) == Fields(h, lite)
  {
    DatesSame(h, value);
    hide Get, DateField, LengthField;
    OtherGet(h, value, "Content-Md5");
    OtherGet(h, value, "Content-Type");
    if !lite {
      OtherGet(h, value, "Content-Encoding");
      OtherGet(h, value, "Content-Language");
      OtherGet(h, value, "If-Modified-Since");
      OtherGet(h, value, "If-Match");
      OtherGet(h, value, "If-None-Match");
      OtherGet(h, value, "If-Unmodified-Since");
      OtherGet(h, value, "Range");
    }
  }

  lemma AuthorizationIsPlain()
    ensures !HasPrefix(ToLower("Authorization"), "x-ms-")
  {
    assert ToLower("Authorization")[0] == 'a' && "x-ms-"[0] == 'x';
  }

  lemma SameParts(lib: Library, r: Req, s: Req, account: string, lite: bool)
    requires ToUpper(s.verb) == ToUpper(r.verb) && ResourcePart(lib, s, account) == ResourcePart(lib, r, account)
    requires Fields(s.headers, lite) == Fields(r.headers, lite) && HeadersOf(s.headers) == HeadersOf(r.headers)
    ensures StringToSign(lib, s, account, lite) == StringToSign(lib, r, account, lite)
  {
    hide Fields, HeadersOf, FieldLines, ResourcePart, ToUpper;
  }

  /** The Authorization header never feeds the string to sign. */
  lemma AuthorizationIgnored(lib: Library, r: Req, value: string, account: string, lite: bool)
    ensures StringToSign(lib, Authorized(r, value), account, lite) == StringToSign(lib, r, account, lite)
  {
    AuthorizationIsPlain();
    hide ToLower, HasPrefix, Fields, HeadersOf, StringToSign;
    OtherHeadersIgnored(r.headers, "Authorization", [value]);
    FieldsSame(r.headers, value, lite);
    SameParts(lib, r, Authorized(r, value), account, lite);
  }

  // The pairs of a query; an empty query has none.
  function RawPairs(lib: Library, raw: string): Option<seq<Pair>> {
    if raw == "" then Some([]) else lib.parseQuery(raw)
  }

  function PathText(path: string): string {
    if path == "" then "/" else path
  }

  // An empty query writes the same text as one without pairs.
  lemma ResourceIs(lib: Library, r: Req, account: string)
    ensures ResourcePart(lib, r, account) ==
      if RawPairs(lib, r.raw).None? then None
      else Some(Resource(lib.unescape, account, r.path, RawPairs(lib, r.raw).value))
  {
    NoPairsNoText(lib.unescape);
    hide QueryText;
    var base := "/" + account + PathText(r.path);
    assert base + "" == base;
  }

  lemma ResourceByPairs(lib: Library, r: Req, s: Req, account: string)
    requires PathText(r.path) == PathText(s.path)
    requires RawPairs(lib, r.raw).Some? <==> RawPairs(lib, s.raw).Some?
    requires RawPairs(lib, r.raw).Some? ==> multiset(RawPairs(lib, r.raw).value) == multiset(RawPairs(lib, s.raw).value)
    ensures ResourcePart(lib, r, account) == ResourcePart(lib, s, account)
  {
    ResourceIs(lib, r, account);
    ResourceIs(lib, s, account);
    hide RawPairs, ResourcePart, QueryText;
    if RawPairs(lib, r.raw).Some? {
      QueryOrderIgnored(lib.unescape, RawPairs(lib, r.raw).value, RawPairs(lib, s.raw).value);
    }
  }

  /** The string to sign is a function of the verb, the signed standard headers, the path,
      the multiset of x-ms- header lines and the multiset of query pairs: whatever orders the
      maps are visited in, whatever else the requests carry. */
  lemma StringToSignCanonical(lib: Library, r: Req, s: Req, account: string, lite: bool)
    requires ToUpper(r.verb) == ToUpper(s.verb) && PathText(r.path) == PathText(s.path)
    requires Fields(r.headers, lite) == Fields(s.headers, lite)
    requires XmsLines(r.headers) == XmsLines(s.headers)
    requires RawPairs(lib, r.raw).Some? <==> RawPairs(lib, s.raw).Some?
    requires RawPairs(lib, r.raw).Some? ==> multiset(RawPairs(lib, r.raw).value) == multiset(RawPairs(lib, s.raw).value)
    ensures StringToSign(lib, r, account, lite) == StringToSign(lib, s, account, lite)
  {
    ResourceByPairs(lib, r, s, account);
    HeadersCanonical(Visit(r.headers), Visit(s.headers));
    assert HeadersOf(r.headers) == HeadersOf(s.headers);
    hide ResourcePart, HeadersOf, StringToSign, XmsLines;
    SameParts(lib, s, r, account, lite);
  }

  /** In particular query pairs in another order sign to the same string. */
  lemma QueryOrderSigns(lib: Library, r: Req, other: string, account: string, lite: bool)
    requires r.raw != "" && other != ""
    requires lib.parseQuery(r.raw).Some? && lib.parseQuery(other).Some?
    requires multiset(lib.parseQuery(r.raw).value) == multiset(lib.parseQuery(other).value)
    ensures StringToSign(lib, r.(raw := other), account, lite) == StringToSign(lib, r, account, lite)
  {
    hide StringToSign, XmsLines, Fields, ToUpper;
    StringToSignCanonical(lib, r.(raw := other), r, account, lite);
  }

  // ---- Splitting the credential ----

  lemma {:induction false} LastColon(a: string, b: string)
    requires ':' !in b
    ensures LastIndex(a + ":" + b, ':') == |a|
  {
    var s := a + ":" + b;
    if b == "" {
      assert s == a + ":";
    } else {
      assert s[|s| - 1] == b[|b| - 1] && s[..|s| - 1] == a + ":" + b[..|b| - 1];
      LastColon(a, b[..|b| - 1]);
    }
  }

  // Whatever the account looks like, the last colon divides it from the signature.
  lemma CredentialSplits(account: string, sig: seq<Byte>)
    ensures var cred := account + ":" + Encode(sig);
      var i := LastIndex(cred, ':');
      i == |account| && cred[..i] == account && Decode(cred[i + 1..]) == Some(sig)
    ensures |account| < |account + ":" + Encode(sig)| - 1 <==> sig != []
  {
    Plain(sig);
    LastColon(account, Encode(sig));
    DecodeEncode(sig);
    var cred := account + ":" + Encode(sig);
    assert cred[|account| + 1..] == Encode(sig);
    assert |cred| == |account| + 1 + |Encode(sig)|;
  }

  lemma SchemeRead(account: string, sig: seq<Byte>, lite: bool)
    ensures var c := Credential(account, sig, lite);
      && (HasPrefix(c, "SharedKey ") <==> !lite) && (HasPrefix(c, "SharedKeyLite ") <==> lite)
      && c[|Scheme(lite)| + 1..] == account + ":" + Encode(sig)
  {
    var c := Credential(account, sig, lite);
    if lite {
      assert c[..14] == "SharedKeyLite " && c[9] == 'L' && c[..10][9] == 'L';
    } else {
      assert c[..10] == "SharedKey " && c[9] == ' ';
      if |c| >= 14 { assert c[..14][9] == ' '; }
    }
  }

  // ---- Sign and verify ----

  /** A request that carries the credential made by signing text with key is accepted
      exactly when the account is not empty and is the one asked for, the request's own
      string to sign builds, and one of the two keys gives that string the same HMAC. */
  lemma AcceptedIff(lib: Library, r: Req, account: string, key: seq<Byte>, text: string, lite: bool,
                    asked: string, key1: seq<Byte>, key2: seq<Byte>)
    requires Hmac(lib)
    requires Get(r.headers, "Authorization") == Credential(account, lib.mac(key, text), lite)
    ensures Verifies(lib, r, asked, key1, key2) <==>
      && account != "" && asked == account
      && StringToSign(lib, r, asked, lite).Some?
      && var own := StringToSign(lib, r, asked, lite).value;
         lib.mac(key, text) in {lib.mac(key1, own), lib.mac(key2, own)}
  {
    var sig := lib.mac(key, text);
    assert |sig| == 32;
    SchemeRead(account, sig, lite);
    hide StringToSign, LastIndex, Decode, Encode, Get, Credential, VerifyScheme;
    SchemeAccepts(lib, r, account, sig, asked, key1, key2, lite);
  }

  lemma SchemeAccepts(lib: Library, r: Req, account: string, sig: seq<Byte>, asked: string, key1: seq<Byte>, key2: seq<Byte>, lite: bool)
    requires sig != []
    ensures VerifyScheme(lib, r, asked, account + ":" + Encode(sig), key1, key2, lite) <==>
      && account != "" && asked == account
      && StringToSign(lib, r, asked, lite).Some?
      && var own := StringToSign(lib, r, asked, lite).value;
         sig in {lib.mac(key1, own), lib.mac(key2, own)}
  {
    CredentialSplits(account, sig);
    hide StringToSign, LastIndex, Decode, Encode;
  }

  // What signing does to a request.
  ghost function Signed(lib: Library, r: Req, account: string, key: seq<Byte>, lite: bool): Req {
    match StringToSign(lib, r, account, lite)
    case None => r
    case Some(text) => Authorized(r, Credential(account, lib.mac(key, text), lite))
  }

  lemma SignedHeader(lib: Library, r: Req, account: string, key: seq<Byte>, lite: bool)
    requires StringToSign(lib, r, account, lite).Some?
    ensures Get(Signed(lib, r, account, key, lite).headers, "Authorization")
         == Credential(account, lib.mac(key, StringToSign(lib, r, account, lite).value), lite)
  {
    hide StringToSign, Credential;
  }

  /** Signing and then verifying under the same account, with the key in either place,
      succeeds for every account but the empty one, both schemes and every key. */
  lemma SignThenVerify(lib: Library, r: Req, account: string, key: seq<Byte>, other: seq<Byte>, lite: bool)
    requires Hmac(lib) && StringToSign(lib, r, account, lite).Some?
    ensures Verifies(lib, Signed(lib, r, account, key, lite), account, key, other) <==> account != ""
    ensures Verifies(lib, Signed(lib, r, account, key, lite), account, other, key) <==> account != ""
  {
    var text := StringToSign(lib, r, account, lite).value;
    var s := Signed(lib, r, account, key, lite);
    SignedHeader(lib, r, account, key, lite);
    hide StringToSign, Credential, Verifies, Get;
    AuthorizationIgnored(lib, r, Credential(account, lib.mac(key, text), lite), account, lite);
    AcceptedIff(lib, s, account, key, text, lite, account, key, other);
    AcceptedIff(lib, s, account, key, text, lite, account, other, key);
  }

  // The HMAC tells key on t from k on u whenever they differ.
  ghost predicate NoCollision(lib: Library, key: seq<Byte>, t: string, k: seq<Byte>, u: string) {
    lib.mac(k, u) == lib.mac(key, t) ==> k == key && u == t
  }

  /** Where the HMAC does not collide, a changed request passes with a signature made for
      another exactly when both have the same string to sign and the signing key is known. */
  lemma TamperingShows(lib: Library, r: Req, changed: Req, account: string, key: seq<Byte>, lite: bool,
                       key1: seq<Byte>, key2: seq<Byte>)
    requires Hmac(lib) && account != ""
    requires StringToSign(lib, r, account, lite).Some? && StringToSign(lib, changed, account, lite).Some?
    requires NoCollision(lib, key, StringToSign(lib, r, account, lite).value, key1,
                         StringToSign(lib, changed, account, lite).value)
    requires NoCollision(lib, key, StringToSign(lib, r, account, lite).value, key2,
                         StringToSign(lib, changed, account, lite).value)
    requires Get(changed.headers, "Authorization")
          == Get(Signed(lib, r, account, key, lite).headers, "Authorization")
    ensures Verifies(lib, changed, account, key1, key2) <==>
      StringToSign(lib, changed, account, lite) == StringToSign(lib, r, account, lite) && key in {key1, key2}
  {
    var text := StringToSign(lib, r, account, lite).value;
    SignedHeader(lib, r, account, key, lite);
    hide *;
    AcceptedIff(lib, changed, account, key, text, lite, account, key1, key2);
  }

  // ---- The code ----

  method BuildStringToSign(lib: Library, r: Req, account: string, lite: bool) returns (text: Option<string>)
    ensures text == StringToSign(lib, r, account, lite)
  {
    var resource := "/" + account + (if r.path == "" then "/" else r.path);
    if r.raw != "" {
      var parsed := lib.parseQuery(r.raw);
      if parsed.None? { return None; }
      resource := BuildResource(lib.unescape, account, r.path, parsed.value);
    }
    var headers := BuildHeaders(r.headers);
    var fields := WriteFields(Fields(r.headers, lite));
    text := Some(ToUpper(r.verb) + "\n" + fields + headers + resource);
  }

  method WriteFields(fields: seq<string>) returns (text: string)
    ensures text == FieldLines(fields)
  {
    text := "";
    for i := 0 to |fields|
      invariant text + FieldLines(fields[i..]) == FieldLines(fields)
    {
      assert fields[i..][1..] == fields[i + 1..];
      var line := fields[i] + "\n";
      assert FieldLines(fields[i..]) == line + FieldLines(fields[i + 1..]);
      assert text + (line + FieldLines(fields[i + 1..])) == (text + line) + FieldLines(fields[i + 1..]);
      text := text + line;
    }
    assert text + "" == text;
  }

  class Request {
    var verb: string
    var headers: Header
    var path: string
    var raw: string

    function Value(): Req
      reads this
    {
      Req(verb, headers, path, raw)
    }

    constructor (r: Req)
      ensures Value() == r
    {
      verb, headers, path, raw := r.verb, r.headers, r.path, r.raw;
    }

    // SignBlobSharedKey
    method Sign(lib: Library, account: string, key: seq<Byte>, lite: bool) returns (ok: bool)
      modifies `headers
      ensures ok <==> StringToSign(lib, old(Value()), account, lite).Some?
      ensures Value() == Signed(lib, old(Value()), account, key, lite)
    {
      var text := BuildStringToSign(lib, Value(), account, lite);
      if text.None? { return false; }
      var sig := Encode(lib.mac(key, text.value));
      headers := headers["Authorization" := [Scheme(lite) + " " + (account + ":" + sig)]];
      return true;
    }

    // VerifyBlobSharedKey
    method Verify(lib: Library, account: string, key1: seq<Byte>, key2: seq<Byte>) returns (ok: bool)
      ensures ok <==> Verifies(lib, Value(), account, key1, key2)
    {
      var authz := Get(headers, "Authorization");
      if authz == "" {
        ok := false;
      } else if HasPrefix(authz, "SharedKey ") {
        ok := CheckScheme(lib, account, authz[|"SharedKey "|..], key1, key2, false);
      } else if HasPrefix(authz, "SharedKeyLite ") {
        ok := CheckScheme(lib, account, authz[|"SharedKeyLite "|..], key1, key2, true);
      } else {
        ok := false;
      }
    }

    // verifyScheme
    method CheckScheme(lib: Library, account: string, cred: string, key1: seq<Byte>, key2: seq<Byte>, lite: bool)
      returns (ok: bool)
      ensures ok <==> VerifyScheme(lib, Value(), account, cred, key1, key2, lite)
    {
      hide LastIndex, Decode, StringToSign;
      var i := LastIndex(cred, ':');
      LastIndexIn(cred, ':');
      if i <= 0 || i == |cred| - 1 { return false; }
      if cred[..i] != account { return false; }
      var want := Decode(cred[i + 1..]);
      if want.None? { return false; }
      var text := BuildStringToSign(lib, Value(), account, lite);
      if text.None? { return false; }
      return want.value == lib.mac(key1, text.value) || want.value == lib.mac(key2, text.value);
    }
  }

  /** One request object, signed and then verified. */
  method SignAndVerify(lib: Library, r: Req, account: string, key: seq<Byte>, other: seq<Byte>, lite: bool)
    returns (ok: bool, accepted: bool)
    requires Hmac(lib)
    ensures ok <==> StringToSign(lib, r, account, lite).Some?
    ensures ok ==> (accepted <==> account != "")
  {
    var request := new Request(r);
    ok := request.Sign(lib, account, key, lite);
    accepted := request.Verify(lib, account, key, other);
    if ok { SignThenVerify(lib, r, account, key, other, lite); }
  }
}
