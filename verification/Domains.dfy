/**
 * Domain canonicalisation for ASCII text: from any spelling of a domain or URL to the one name it denotes.
 *
 * `SplitUrl` and `Host` follow Python's `urllib.parse`. A netloc with brackets (an IPv6 literal, or a
 * malformed one) is always refused here.
 */
module Domains {
  import opened Prelude
  import opened Text

  datatype Error =
    | NotAscii | Empty | Brackets | NoHost | IpAddress | TooLong | NoTopLevel | BadLabel | NumericTopLevel
    | BadScheme | BadPort

  const MAX_DOMAIN_LENGTH := 253
  const MAX_LABEL_LENGTH := 63

  const MULTI_LABEL_SUFFIXES := {
    "co.uk", "org.uk", "ac.uk", "gov.uk", "me.uk", "net.uk", "sch.uk",
    "com.au", "net.au", "org.au", "edu.au", "gov.au", "id.au",
    "co.nz", "net.nz", "org.nz", "govt.nz", "ac.nz",
    "co.za", "org.za", "net.za", "web.za",
    "com.br", "net.br", "org.br", "gov.br",
    "co.in", "net.in", "org.in", "gen.in", "firm.in", "ind.in",
    "com.sg", "com.my", "com.hk", "com.tw", "com.cn", "net.cn", "org.cn",
    "co.jp", "or.jp", "ne.jp", "ac.jp", "go.jp",
    "com.mx", "com.ar", "com.co", "com.tr", "com.ua", "com.pl",
    "co.il", "co.kr", "or.kr", "co.th", "in.th", "com.ph", "com.vn"
  }

  // ---------------------------------------------------------------- characters

  predicate IsLetter(c: char) {
    'a' <= c <= 'z' || 'A' <= c <= 'Z'
  }

  predicate IsDigit(c: char) {
    '0' <= c <= '9'
  }

  predicate InScheme(c: char) {
    IsLetter(c) || IsDigit(c) || c in "+-."
  }

  predicate IsAlnum(c: char) {
    'a' <= c <= 'z' || IsDigit(c)
  }

  predicate IsAscii(s: string) {
    forall c :: c in s ==> c < '\U{80}'
  }

  predicate AllDigits(s: string) {
    s != "" && forall c :: c in s ==> IsDigit(c)
  }

  // ---------------------------------------------------------------- cutting strings

  /** The part of `s` before the first of `stops`. */
  function Before(s: string, stops: set<char>): (t: string)
    ensures t <= s && (forall c :: c in t ==> c !in stops)
    ensures |t| < |s| ==> s[|t|] in stops
  {
    if s == "" || s[0] in stops then "" else [s[0]] + Before(s[1..], stops)
  }

  /** The part of `s` after its last `c`; all of it when there is none. */
  function AfterLast(s: string, c: char): string {
    if s == "" || s[|s| - 1] == c then "" else AfterLast(s[..|s| - 1], c) + [s[|s| - 1]]
  }

  function Without(s: string, cut: set<char>): string {
    if s == "" then "" else (if s[0] in cut then "" else [s[0]]) + Without(s[1..], cut)
  }

  /** `s.split(".")`. */
  function Labels(s: string): (labels: seq<string>)
    ensures labels != []
    decreases |s|
  {
    var first := Before(s, {'.'});
    if |first| == |s| then [s] else [first] + Labels(s[|first| + 1..])
  }

  /** `".".join(labels)`. */
  function Joined(labels: seq<string>): string
    requires labels != []
  {
    if |labels| == 1 then labels[0] else labels[0] + "." + Joined(labels[1..])
  }

  predicate SlashesAt(s: string, i: nat) {
    i + 1 < |s| && s[i] == '/' && s[i + 1] == '/'
  }

  predicate HasSlashes(s: string) {
    exists i :: 0 <= i < |s| && SlashesAt(s, i)
  }

  /** `s` from its first double slash on. */
  function FromSlashes(s: string): string {
    if s == "" || SlashesAt(s, 0) then s else FromSlashes(s[1..])
  }

  // ---------------------------------------------------------------- splitting a URL

  const UNSAFE := {'\t', '\r', '\n'}

  predicate IsScheme(s: string) {
    s != "" && IsLetter(s[0]) && forall c :: c in s ==> InScheme(c)
  }

  /** The text starts with a scheme and a colon. */
  predicate StartsWithScheme(s: string) {
    var scheme := Before(s, {':'});
    |scheme| < |s| && IsScheme(scheme)
  }

  datatype Split = Split(scheme: string, netloc: string, path: string, query: string)

  function LStripControls(s: string): string {
    if s != "" && s[0] <= ' ' then LStripControls(s[1..]) else s
  }

  function SplitRest(scheme: string, rest: string): Split {
    if |rest| >= 2 && rest[0] == '/' && rest[1] == '/' then
      var netloc := Before(rest[2..], {'/', '?', '#'});
      SplitTail(scheme, netloc, rest[2 + |netloc|..])
    else SplitTail(scheme, "", rest)
  }

  function SplitTail(scheme: string, netloc: string, tail: string): Split {
    var whole := Before(tail, {'#'});
    var path := Before(whole, {'?'});
    Split(scheme, netloc, path, if |path| < |whole| then whole[|path| + 1..] else "")
  }

  function SplitUrl(url: string): Split {
    var s := Without(LStripControls(url), UNSAFE);
    if StartsWithScheme(s) then
      var scheme := Before(s, {':'});
      SplitRest(Lower(scheme), s[|scheme| + 1..])
    else SplitRest("", s)
  }

  /** The netloc without userinfo. */
  function HostInfo(netloc: string): string {
    AfterLast(netloc, '@')
  }

  /** Host name, lowered up to a zone mark. */
  function Host(netloc: string): string {
    var name := Before(HostInfo(netloc), {':'});
    var lowered := Before(name, {'%'});
    Lower(lowered) + name[|lowered|..]
  }

  predicate HasBrackets(netloc: string) {
    '[' in netloc || ']' in netloc
  }

  // ---------------------------------------------------------------- validating a host

  /** `[a-z0-9]([a-z0-9-]{0,61}[a-z0-9])?` in full. */
  predicate IsLabel(l: string) {
    && 1 <= |l| <= MAX_LABEL_LENGTH
    && IsAlnum(l[0]) && IsAlnum(l[|l| - 1])
    && forall c :: c in l ==> IsAlnum(c) || c == '-'
  }

  /** What the check accepts: its `$` also matches before a final newline. */
  predicate LabelPasses(l: string) {
    |l| <= MAX_LABEL_LENGTH && (IsLabel(l) || (l != "" && l[|l| - 1] == '\n' && IsLabel(l[..|l| - 1])))
  }

  predicate LabelsPass(labels: seq<string>) {
    forall i :: 0 <= i < |labels| ==> LabelPasses(labels[i])
  }

  function HostError(host: string): Option<Error> {
    var labels := Labels(host);
    if |host| > MAX_DOMAIN_LENGTH then Some(TooLong)
    else if |labels| < 2 then Some(NoTopLevel)
    else if !LabelsPass(labels) then Some(BadLabel)
    else if AllDigits(labels[|labels| - 1]) then Some(NumericTopLevel)
    else None
  }

  method ValidateHost(host: string) returns (e: Option<Error>)
    ensures e == HostError(host)
  {
    if |host| > MAX_DOMAIN_LENGTH {
      return Some(TooLong);
    }
    var labels := Labels(host);
    if |labels| < 2 {
      return Some(NoTopLevel);
    }
    for i := 0 to |labels|
      invariant forall j :: 0 <= j < i ==> LabelPasses(labels[j])
    {
      if !LabelPasses(labels[i]) {
        return Some(BadLabel);
      }
    }
    if AllDigits(labels[|labels| - 1]) {
      return Some(NumericTopLevel);
    }
    return None;
  }

  function Value(digits: string): nat
    requires forall c :: c in digits ==> IsDigit(c)
  {
    if digits == "" then 0
    else
      var last := digits[|digits| - 1];
      assert IsDigit(last);
      Value(digits[..|digits| - 1]) * 10 + (last as int - '0' as int)
  }

  /** One octet of an IPv4 address: no leading zero, at most 255. */
  predicate IsOctet(s: string) {
    AllDigits(s) && |s| <= 3 && (s == "0" || s[0] != '0') && Value(s) <= 255
  }

  predicate IsIpv4(host: string) {
    var parts := Labels(host);
    |parts| == 4 && forall i :: 0 <= i < 4 ==> IsOctet(parts[i])
  }

  // ---------------------------------------------------------------- the canonical domain

  /** Gives a bare name an authority to be parsed as. */
  function WithAuthority(value: string): Result<string, Error> {
    var candidate := Strip(value, SPACES);
    if candidate == "" then Err(Empty)
    else if !HasSlashes(candidate) then Ok("//" + candidate)
    else if !StartsWithScheme(candidate) then Ok(FromSlashes(candidate))
    else Ok(candidate)
  }

  function Folded(host: string): string {
    Lower(Strip(Strip(host, SPACES), {'.'}))
  }

  predicate StartsWithWww(h: string) {
    |h| >= 4 && h[..4] == "www."
  }

  function StripWww(h: string): string
    decreases |h|
  {
    if StartsWithWww(h) && |Labels(h[4..])| >= 2 then StripWww(h[4..]) else h
  }

  /** The host a netloc names, folded and validated. */
  function CheckedHost(netloc: string): Result<string, Error> {
    if HasBrackets(netloc) then Err(Brackets)
    else if Host(netloc) == "" then Err(NoHost)
    else if IsIpv4(Host(netloc)) then Err(IpAddress)
    else if Folded(Host(netloc)) == "" then Err(Empty)
    else if HostError(Folded(Host(netloc))).Some? then Err(HostError(Folded(Host(netloc))).value)
    else Ok(Folded(Host(netloc)))
  }

  function Normalize(value: string): Result<string, Error> {
    if !IsAscii(value) then Err(NotAscii)
    else
      match WithAuthority(value)
      case Err(e) => Err(e)
      case Ok(url) =>
        match CheckedHost(SplitUrl(url).netloc)
        case Err(e) => Err(e)
        case Ok(host) => Ok(StripWww(host))
  }

  method NormalizeDomain(value: string) returns (r: Result<string, Error>)
    ensures r == Normalize(value)
  {
    if !IsAscii(value) {
      return Err(NotAscii);
    }
    var url := WithAuthority(value);
    if url.Err? {
      return Err(url.error);
    }
    var netloc := SplitUrl(url.value).netloc;
    if HasBrackets(netloc) {
      return Err(Brackets);
    }
    var host := Host(netloc);
    if host == "" {
      return Err(NoHost);
    }
    if IsIpv4(host) {
      return Err(IpAddress);
    }
    host := Folded(host);
    if host == "" {
      return Err(Empty);
    }
    var e := ValidateHost(host);
    if e.Some? {
      return Err(e.value);
    }
    ghost var whole := host;
    hide HostError, IsIpv4, Host, SplitUrl, Labels;
    while StartsWithWww(host)
      invariant StripWww(host) == StripWww(whole)
      decreases |host|
    {
      var candidate := host[4..];
      if |Labels(candidate)| < 2 {
        break;
      }
      host := candidate;
    }
    return Ok(host);
  }

  // ---------------------------------------------------------------- grouping

  function Registrable(value: string): Result<string, Error> {
    match Normalize(value)
    case Err(e) => Err(e)
    case Ok(host) =>
      var labels := Labels(host);
      var n := |labels|;
      if n <= 2 then Ok(host)
      else if Joined(labels[n - 2..]) in MULTI_LABEL_SUFFIXES then Ok(Joined(labels[n - 3..]))
      else Ok(Joined(labels[n - 2..]))
  }

  predicate SameSite(left: string, right: string) {
    Normalize(left).Ok? && Normalize(left) == Normalize(right)
  }

  // ---------------------------------------------------------------- the canonical URL

  function Decimal(n: nat): (s: string)
    ensures s != "" && forall c :: c in s ==> IsDigit(c)
  {
    if n < 10 then ['0' + n as char] else Decimal(n / 10) + ['0' + (n % 10) as char]
  }

  /** The port given after the host, if any. */
  function Port(netloc: string): Result<Option<nat>, Error> {
    var info := HostInfo(netloc);
    var name := Before(info, {':'});
    if |info| <= |name| + 1 then Ok(None)
    else
      var digits := info[|name| + 1..];
      if !AllDigits(digits) || Value(digits) > 65535 then Err(BadPort) else Ok(Some(Value(digits)))
  }

  function DefaultPort(scheme: string): nat {
    if scheme == "http" then 80 else 443
  }

  /** The text starts with a scheme, a colon and two slashes. */
  predicate IsAbsolute(s: string) {
    StartsWithScheme(s) && SlashesAt(s, |Before(s, {':'})| + 1)
  }

  function Assembled(scheme: string, host: string, port: Option<nat>, path: string, query: string): string {
    scheme + "://" + host
    + (if port.Some? && port.value != DefaultPort(scheme) then ":" + Decimal(port.value) else "")
    + (if path == "/" then "" else path)
    + (if query == "" then "" else "?" + query)
  }

  /** Hosts that are addresses are kept as they are; names are folded and validated. */
  function UrlHost(netloc: string): Result<string, Error> {
    if HasBrackets(netloc) then Err(Brackets)
    else if Host(netloc) == "" then Err(NoHost)
    else if IsIpv4(Host(netloc)) then Ok(Host(netloc))
    else CheckedHost(netloc)
  }

  function NormalizeUrl(value: string): Result<string, Error> {
    var stripped := Strip(value, SPACES);
    if !IsAscii(value) then Err(NotAscii)
    else if stripped == "" then Err(Empty)
    else
      var candidate := if IsAbsolute(stripped) then stripped else "https://" + LStrip(stripped, {'/'});
      var parts := SplitUrl(candidate);
      if parts.scheme != "http" && parts.scheme != "https" then Err(BadScheme)
      else
        match UrlHost(parts.netloc)
        case Err(e) => Err(e)
        case Ok(host) =>
          match Port(parts.netloc)
          case Err(e) => Err(e)
          case Ok(port) => Ok(Assembled(parts.scheme, host, port, parts.path, parts.query))
  }
}
