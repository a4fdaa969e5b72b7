/** Pinned HTTP endpoints: the restricted URL parser, its printer, and redirects. */
module HttpIdentity {
  import opened Base

  datatype Identity = Identity(scheme: string, host: string, port: nat, path: string, loopback: bool)

  // ---- Splitting text ----

  /** The first position of `c`, or None. */
  function First(s: string, c: char): (r: Option<nat>)
    ensures r.None? ==> c !in s
    ensures r.Some? ==> r.value < |s| && s[r.value] == c && forall i | 0 <= i < r.value :: s[i] != c
  {
    if s == "" then None
    else if s[0] == c then Some(0)
    else
      var r := First(s[1..], c);
      assert forall i | 1 <= i < |s| :: s[i] == s[1..][i - 1];
      if r.None? then None else Some(r.value + 1)
  }

  /** The last position of `c`, or None. */
  function Last(s: string, c: char): (r: Option<nat>)
    ensures r.None? ==> c !in s
    ensures r.Some? ==> r.value < |s| && s[r.value] == c && forall i | r.value < i < |s| :: s[i] != c
  {
    if s == "" then None
    else
      var n := |s| - 1;
      if s[n] == c then Some(n)
      else
        assert s == s[..n] + [s[n]];
        Last(s[..n], c)
  }

  predicate SeparatorAt(s: string, i: nat) { i + 3 <= |s| && s[i] == ':' && s[i + 1] == '/' && s[i + 2] == '/' }

  /** The first "://" at or after `i`, or None. */
  function Separator(s: string, i: nat): (r: Option<nat>)
    requires i <= |s|
    ensures r.None? ==> forall j: nat | i <= j :: !SeparatorAt(s, j)
    ensures r.Some? ==> i <= r.value && SeparatorAt(s, r.value)
    ensures r.Some? ==> forall j: nat | i <= j < r.value :: !SeparatorAt(s, j)
    decreases |s| - i
  {
    if SeparatorAt(s, i) then Some(i)
    else if i == |s| then None
    else Separator(s, i + 1)
  }

  function LowerChar(c: char): char { if 'A' <= c <= 'Z' then c - 'A' + 'a' else c }

  function Lower(s: string): (r: string)
    ensures |r| == |s| && forall i | 0 <= i < |s| :: r[i] == LowerChar(s[i])
  {
    seq(|s|, i requires 0 <= i < |s| => LowerChar(s[i]))
  }

  // ---- Ports ----

  predicate Digits(s: string) { forall i | 0 <= i < |s| :: '0' <= s[i] <= '9' }

  function Number(s: string): nat
    requires Digits(s)
  {
    if s == "" then 0 else Number(s[..|s| - 1]) * 10 + (s[|s| - 1] as int - '0' as int)
  }

  /** `u16` parsing: an optional plus sign, then at least one digit, within range. */
  function ParsePort(s: string): Option<nat> {
    var digits := if s != "" && s[0] == '+' then s[1..] else s;
    if digits == "" || !Digits(digits) || Number(digits) > U16_MAX then None else Some(Number(digits))
  }

  function Digit(n: nat): char
    requires n < 10
  {
    (n + '0' as int) as char
  }

  function Decimal(n: nat): string { if n < 10 then [Digit(n)] else Decimal(n / 10) + [Digit(n % 10)] }

  /** Printing a number and reading it back. */
  lemma {:induction false} DecimalReads(n: nat)
    ensures Decimal(n) != "" && Digits(Decimal(n)) && Number(Decimal(n)) == n
  {
    if n < 10 {
      NumberOfMore("", Digit(n));
    } else {
      DecimalReads(n / 10);
      NumberOfMore(Decimal(n / 10), Digit(n % 10));
    }
  }

  // ---- Parsing and printing ----

  predicate IsLoopback(host: string) { host == "127.0.0.1" || host == "localhost" || host == "::1" }

  function DefaultPort(scheme: string): nat { if scheme == "https" then 443 else 80 }

  /** Host and port of an authority. */
  function ParseAuthority(authority: string, scheme: string): Option<(string, nat)> {
    match Last(authority, ':')
    case None => Some((Lower(authority), DefaultPort(scheme)))
    case Some(i) =>
      match ParsePort(authority[i + 1..])
      case None => None
      case Some(port) => Some((Lower(authority[..i]), port))
  }

  function Checked(scheme: string, authority: string, path: string): Option<Identity> {
    if '@' in authority || authority == "" then None
    else
      match ParseAuthority(authority, scheme)
      case None => None
      case Some((host, port)) =>
        if host == "" || ' ' in host then None
        else if scheme == "http" && !IsLoopback(host) then None
        else Some(Identity(scheme, host, port, path, IsLoopback(host)))
  }

  /** What follows the separator: everything before the first slash is the authority. */
  function ParseRest(scheme: string, rest: string): Option<Identity> {
    match First(rest, '/')
    case None => Checked(scheme, rest, "/")
    case Some(j) => Checked(scheme, rest[..j], "/" + rest[j + 1..])
  }

  function Parse(url: string): Option<Identity> {
    match Separator(url, 0)
    case None => None
    case Some(i) =>
      var scheme := Lower(url[..i]);
      if scheme != "http" && scheme != "https" then None else ParseRest(scheme, url[i + 3..])
  }

  function PinMaterial(id: Identity): string { id.scheme + "://" + id.host + ":" + Decimal(id.port) + id.path }

  // ---- An independent description of what is accepted ----

  /** Exactly the identities the parser can produce. */
  ghost predicate WellFormed(id: Identity) {
    && (id.scheme == "http" || id.scheme == "https")
    && id.host != "" && Lower(id.host) == id.host && '/' !in id.host && '@' !in id.host && ' ' !in id.host
    && id.port <= U16_MAX && id.path != "" && id.path[0] == '/'
    && id.loopback == IsLoopback(id.host) && (id.scheme == "http" ==> id.loopback)
  }

  function Zeros(n: nat): string { seq(n, i requires 0 <= i < n => '0') }

  /** The ways a port may be written: an optional plus, any leading zeros, the decimal number. */
  ghost predicate SpellsPort(p: string, port: nat) {
    && port <= U16_MAX
    && exists zeros: nat :: p == Zeros(zeros) + Decimal(port) || p == "+" + (Zeros(zeros) + Decimal(port))
  }

  ghost predicate NoPort(authority: string, id: Identity) {
    ':' !in authority && Lower(authority) == id.host && id.port == DefaultPort(id.scheme)
  }

  /** The ways an authority may spell a host and port: with any accepted port text, or without a port. */
  ghost predicate SpellsAuthority(authority: string, id: Identity) {
    || NoPort(authority, id)
    || (exists h, p :: authority == h + ":" + p && Lower(h) == id.host && SpellsPort(p, id.port))
  }

  /** The ways a URL may spell an identity. */
  ghost predicate Spells(url: string, id: Identity, scheme: string, authority: string, tail: string) {
    && url == scheme + "://" + authority + tail && Lower(scheme) == id.scheme
    && '/' !in authority && '@' !in authority && SpellsAuthority(authority, id)
    && (tail == id.path || (tail == "" && id.path == "/"))
  }

  lemma LowerKeeps(s: string, c: char)
    requires !('a' <= c <= 'z') && !('A' <= c <= 'Z')
    ensures c in Lower(s) <==> c in s
  {
    if c in s { var i :| 0 <= i < |s| && s[i] == c; assert Lower(s)[i] == c; }
  }

  lemma LowerTwice(s: string)
    ensures Lower(Lower(s)) == Lower(s)
  {}

  lemma SplitFirst(s: string, t: string, c: char)
    requires c !in s
    ensures var whole := s + [c] + t; First(whole, c) == Some(|s|) && whole[..|s|] == s && whole[|s| + 1..] == t
  {
    var whole := s + [c] + t;
    assert whole[|s|] == c && forall j | 0 <= j < |s| :: whole[j] == s[j];
  }

  lemma SplitLast(s: string, t: string, c: char)
    requires c !in t
    ensures var whole := s + [c] + t; Last(whole, c) == Some(|s|) && whole[..|s|] == s && whole[|s| + 1..] == t
  {
    var whole := s + [c] + t;
    assert whole[|s|] == c && forall j | |s| < j < |whole| :: whole[j] == t[j - |s| - 1];
  }

  /** A scheme that folds to http or https contains no separator of its own. */
  lemma SplitScheme(scheme: string, rest: string)
    requires Lower(scheme) == "http" || Lower(scheme) == "https"
    ensures
      var url := scheme + "://" + rest;
      Separator(url, 0) == Some(|scheme|) && url[..|scheme|] == scheme && url[|scheme| + 3..] == rest
  {
    var url := scheme + "://" + rest;
    assert SeparatorAt(url, |scheme|);
    LowerKeeps(scheme, ':');
    assert ':' !in "http" && ':' !in "https";
    forall j: nat | j < |scheme|
      ensures !SeparatorAt(url, j)
    {
      assert url[j] == scheme[j] && scheme[j] in scheme;
    }
  }

  lemma AuthorityReads(authority: string, id: Identity)
    requires SpellsAuthority(authority, id)
    ensures ParseAuthority(authority, id.scheme) == Some((id.host, id.port))
  {
    if ':' in authority {
      var h, p :| authority == h + ":" + p && Lower(h) == id.host && SpellsPort(p, id.port);
      PortIsSpelt(p, id.port);
      PortReads(h, p, id.scheme);
    } else {
      assert NoPort(authority, id);
    }
  }

  lemma PortReads(h: string, p: string, scheme: string)
    requires ':' !in p && ParsePort(p).Some?
    ensures ParseAuthority(h + ":" + p, scheme) == Some((Lower(h), ParsePort(p).value))
  {
    SplitLast(h, p, ':');
  }

  lemma AuthorityIsSpelt(authority: string, id: Identity)
    requires ParseAuthority(authority, id.scheme) == Some((id.host, id.port))
    ensures SpellsAuthority(authority, id)
  {
    var at := Last(authority, ':');
    if at.Some? {
      var h, p := authority[..at.value], authority[at.value + 1..];
      assert authority == h + ":" + p;
      PortIsSpelt(p, id.port);
      PortSpells(h, p, id);
    } else {
      assert NoPort(authority, id);
    }
  }

  lemma PortSpells(h: string, p: string, id: Identity)
    requires Lower(h) == id.host && SpellsPort(p, id.port)
    ensures SpellsAuthority(h + ":" + p, id)
  {}

  lemma CheckedAccepts(authority: string, id: Identity)
    requires WellFormed(id) && SpellsAuthority(authority, id) && '@' !in authority
    ensures Checked(id.scheme, authority, id.path) == Some(id)
  {
    AuthorityReads(authority, id);
  }

  lemma RestReads(authority: string, tail: string, id: Identity)
    requires WellFormed(id) && SpellsAuthority(authority, id) && '/' !in authority && '@' !in authority
    requires tail == id.path || (tail == "" && id.path == "/")
    ensures ParseRest(id.scheme, authority + tail) == Some(id)
  {
    CheckedAccepts(authority, id);
    if tail == "" {
      assert authority + tail == authority;
    } else {
      assert tail == ['/'] + tail[1..] && authority + tail == authority + ['/'] + tail[1..];
      SplitFirst(authority, tail[1..], '/');
    }
  }

  /** Every spelling of a well-formed identity parses to that identity. */
  lemma EverySpellingParses(url: string, id: Identity, scheme: string, authority: string, tail: string)
    requires WellFormed(id) && Spells(url, id, scheme, authority, tail)
    ensures Parse(url) == Some(id)
  {
    var rest := authority + tail;
    assert url == scheme + "://" + rest;
    SplitScheme(scheme, rest);
    RestReads(authority, tail, id);
  }

  lemma CheckedIsSpelt(scheme: string, authority: string, path: string)
    requires Checked(scheme, authority, path).Some? && (scheme == "http" || scheme == "https")
    requires '/' !in authority && path != "" && path[0] == '/'
    ensures
      var id := Checked(scheme, authority, path).value;
      id.scheme == scheme && id.path == path && WellFormed(id) && SpellsAuthority(authority, id) && '@' !in authority
  {
    AuthorityIsSpelt(authority, Checked(scheme, authority, path).value);
    HostIsClean(authority, Checked(scheme, authority, path).value);
  }

  lemma CutAtSlash(rest: string, i: nat)
    requires First(rest, '/') == Some(i)
    ensures '/' !in rest[..i] && rest == rest[..i] + ("/" + rest[i + 1..])
  {}

  lemma RestIsSpelt(scheme: string, rest: string) returns (authority: string, tail: string)
    requires ParseRest(scheme, rest).Some? && (scheme == "http" || scheme == "https")
    ensures
      var id := ParseRest(scheme, rest).value;
      && id.scheme == scheme && WellFormed(id) && rest == authority + tail && '/' !in authority && '@' !in authority
      && SpellsAuthority(authority, id) && (tail == id.path || (tail == "" && id.path == "/"))
  {
    var slash := First(rest, '/');
    if slash.None? {
      authority, tail := rest, "";
      CheckedIsSpelt(scheme, authority, "/");
    } else {
      authority, tail := rest[..slash.value], "/" + rest[slash.value + 1..];
      CutAtSlash(rest, slash.value);
      CheckedIsSpelt(scheme, authority, tail);
    }
  }

  /** Whatever parses is well formed and the URL spells it: nothing else is accepted. */
  lemma ParsedIsSpelt(url: string) returns (scheme: string, authority: string, tail: string)
    requires Parse(url).Some?
    ensures WellFormed(Parse(url).value) && Spells(url, Parse(url).value, scheme, authority, tail)
  {
    var i := Separator(url, 0).value;
    scheme := url[..i];
    authority, tail := RestIsSpelt(Lower(scheme), url[i + 3..]);
    Rejoin(url, i, authority, tail);
  }

  lemma Rejoin(url: string, i: nat, authority: string, tail: string)
    requires SeparatorAt(url, i) && url[i + 3..] == authority + tail
    ensures url == url[..i] + "://" + authority + tail
  {
    assert url == url[..i] + "://" + url[i + 3..];
  }

  lemma HostIsClean(authority: string, id: Identity)
    requires ParseAuthority(authority, id.scheme) == Some((id.host, id.port))
    requires '/' !in authority && '@' !in authority
    ensures Lower(id.host) == id.host && '/' !in id.host && '@' !in id.host && id.port <= U16_MAX
  {
    var at := Last(authority, ':');
    var h := if at.None? then authority else authority[..at.value];
    LowerTwice(h);
    LowerKeeps(h, '/');
    LowerKeeps(h, '@');
  }

  // ---- Ports, as texts ----

  lemma {:induction false} LeadingZeros(zeros: nat, s: string)
    requires Digits(s)
    ensures Digits(Zeros(zeros) + s) && Number(Zeros(zeros) + s) == Number(s)
    decreases zeros + |s|
  {
    var whole := Zeros(zeros) + s;
    assert forall i | 0 <= i < |whole| :: whole[i] == if i < zeros then '0' else s[i - zeros];
    if s != "" {
      assert whole[..|whole| - 1] == Zeros(zeros) + s[..|s| - 1];
      LeadingZeros(zeros, s[..|s| - 1]);
    } else if zeros > 0 {
      assert whole[..|whole| - 1] == Zeros(zeros - 1) + "";
      LeadingZeros(zeros - 1, "");
    }
  }

  lemma DecimalOfMore(m: nat, digit: char)
    requires m > 0 && '0' <= digit <= '9'
    ensures Decimal(m * 10 + (digit as int - '0' as int)) == Decimal(m) + [digit]
  {
    var n := m * 10 + (digit as int - '0' as int);
    assert n / 10 == m && n % 10 == digit as int - '0' as int && n >= 10;
  }

  lemma DecimalOfOne(digit: char)
    requires '0' <= digit <= '9'
    ensures Decimal(digit as int - '0' as int) == [digit]
  {}

  lemma NumberOfMore(front: string, digit: char)
    requires Digits(front) && '0' <= digit <= '9'
    ensures Digits(front + [digit]) && Number(front + [digit]) == Number(front) * 10 + (digit as int - '0' as int)
  {
    assert (front + [digit])[..|front|] == front;
  }

  lemma JoinDigit(zeros: string, decimal: string, digit: char)
    ensures (zeros + decimal) + [digit] == zeros + (decimal + [digit])
  {}

  lemma OneMoreZero(zeros: nat)
    ensures Zeros(zeros) + ['0'] == Zeros(zeros + 1)
  {}

  /** A digit behind digits that are decimal behind zeros. */
  lemma OneMoreDigit(front: string, zeros: nat, digit: char) returns (more: nat)
    requires Digits(front) && front == Zeros(zeros) + Decimal(Number(front)) && '0' <= digit <= '9'
    ensures Digits(front + [digit]) && front + [digit] == Zeros(more) + Decimal(Number(front + [digit]))
  {
    NumberOfMore(front, digit);
    if Number(front) == 0 {
      DecimalOfOne('0');
      DecimalOfOne(digit);
      OneMoreZero(zeros);
      more := zeros + 1;
    } else {
      DecimalOfMore(Number(front), digit);
      JoinDigit(Zeros(zeros), Decimal(Number(front)), digit);
      more := zeros;
    }
  }

  /** Digits are the decimal number they stand for, behind zeros. */
  lemma {:induction false} DigitsAreDecimal(d: string) returns (zeros: nat)
    requires d != "" && Digits(d)
    ensures d == Zeros(zeros) + Decimal(Number(d))
  {
    var front, digit := d[..|d| - 1], d[|d| - 1];
    assert d == front + [digit];
    if front == "" {
      zeros := 0;
      OneDigit(digit);
    } else {
      var before := DigitsAreDecimal(front);
      zeros := OneMoreDigit(front, before, digit);
    }
  }

  lemma OneDigit(digit: char)
    requires '0' <= digit <= '9'
    ensures Digits([digit]) && [digit] == Zeros(0) + Decimal(Number([digit]))
  {
    NumberOfMore("", digit);
    assert "" + [digit] == [digit];
    DecimalOfOne(digit);
  }

  /** The port parser accepts exactly these spellings, and a port never contains a colon. */
  lemma PortIsSpelt(p: string, port: nat)
    ensures ParsePort(p) == Some(port) <==> SpellsPort(p, port)
    ensures ParsePort(p).Some? ==> ':' !in p
  {
    if ParsePort(p) == Some(port) { ParsedPortIsSpelt(p, port); }
    if SpellsPort(p, port) {
      var zeros: nat :| p == Zeros(zeros) + Decimal(port) || p == "+" + (Zeros(zeros) + Decimal(port));
      SpeltPortParses(p, zeros, port);
    }
    if ParsePort(p).Some? { PortHasNoColon(p); }
  }

  lemma SignedText(p: string)
    requires p != "" && p[0] == '+'
    ensures p == "+" + p[1..]
  {}

  lemma ParsedPortIsSpelt(p: string, port: nat)
    requires ParsePort(p) == Some(port)
    ensures SpellsPort(p, port)
  {
    if p[0] == '+' {
      SignedText(p);
      var zeros := DigitsAreDecimal(p[1..]);
    } else {
      var zeros := DigitsAreDecimal(p);
    }
  }

  lemma PortHasNoColon(p: string)
    requires ParsePort(p).Some?
    ensures ':' !in p
  {
    var digits := if p[0] == '+' then p[1..] else p;
    assert forall i | 0 <= i < |digits| :: digits[i] != ':';
    if p[0] == '+' { SignedText(p); }
  }

  lemma SpeltPortParses(p: string, zeros: nat, port: nat)
    requires p == Zeros(zeros) + Decimal(port) || p == "+" + (Zeros(zeros) + Decimal(port))
    requires port <= U16_MAX
    ensures ParsePort(p) == Some(port)
  {
    var digits := Zeros(zeros) + Decimal(port);
    DecimalReads(port);
    LeadingZeros(zeros, Decimal(port));
    assert digits != "" && '0' <= digits[0] <= '9';
    if p != digits { assert p[1..] == digits; }
  }

  // ---- Round trips ----

  lemma DecimalIsSpelt(port: nat)
    requires port <= U16_MAX
    ensures SpellsPort(Decimal(port), port)
  {
    var digits := Decimal(port);
    assert digits == Zeros(0) + digits;
  }

  lemma AuthorityWith(id: Identity, digits: string)
    requires WellFormed(id) && Digits(digits) && SpellsPort(digits, id.port)
    ensures
      var authority := id.host + ":" + digits;
      SpellsAuthority(authority, id) && '/' !in authority && '@' !in authority
  {
    assert '/' !in digits && '@' !in digits;
  }

  lemma LowerScheme(scheme: string)
    requires scheme == "http" || scheme == "https"
    ensures Lower(scheme) == scheme
  {}

  lemma SamePin(scheme: string, host: string, digits: string, path: string)
    ensures scheme + "://" + host + ":" + digits + path == scheme + "://" + (host + ":" + digits) + path
  {}

  /** The spelling of an identity by its own parts. */
  lemma PrintedSpells(id: Identity, digits: string)
    requires WellFormed(id) && Digits(digits) && SpellsPort(digits, id.port)
    ensures
      var authority := id.host + ":" + digits;
      Spells(id.scheme + "://" + authority + id.path, id, id.scheme, authority, id.path)
  {
    AuthorityWith(id, digits);
    LowerScheme(id.scheme);
  }

  lemma PinMaterialParses(id: Identity)
    requires WellFormed(id)
    ensures Parse(PinMaterial(id)) == Some(id)
  {
    var digits := Decimal(id.port);
    DecimalReads(id.port);
    DecimalIsSpelt(id.port);
    PrintedSpells(id, digits);
    SamePin(id.scheme, id.host, digits, id.path);
    EverySpellingParses(PinMaterial(id), id, id.scheme, id.host + ":" + digits, id.path);
  }

  /** Parsing the pin material gives the identity back, exactly for the identities a parse can produce. */
  lemma PinMaterialRoundTrips(id: Identity)
    ensures Parse(PinMaterial(id)) == Some(id) <==> WellFormed(id)
  {
    if WellFormed(id) { PinMaterialParses(id); }
    if Parse(PinMaterial(id)) == Some(id) {
      var scheme, authority, tail := ParsedIsSpelt(PinMaterial(id));
    }
  }

  /** For every URL that parses, its pin material parses to the same identity. */
  lemma ParsedUrlsRoundTrip(url: string)
    requires Parse(url).Some?
    ensures Parse(PinMaterial(Parse(url).value)) == Parse(url)
  {
    var scheme, authority, tail := ParsedIsSpelt(url);
    PinMaterialRoundTrips(Parse(url).value);
  }

  /** Equal pin material means the same endpoint. */
  lemma PinsAreInjective(url: string, other: string)
    requires Parse(url).Some? && Parse(other).Some?
    ensures PinMaterial(Parse(url).value) == PinMaterial(Parse(other).value) <==> Parse(url) == Parse(other)
  {
    ParsedUrlsRoundTrip(url);
    ParsedUrlsRoundTrip(other);
  }

  // ---- Connections and redirects ----

  predicate AllowsConnection(id: Identity) { id.scheme == "https" || id.loopback }

  predicate MatchesRedirect(id: Identity, location: string) {
    var other := Parse(location);
    other.Some? && other.value.scheme == id.scheme && other.value.host == id.host && other.value.port == id.port
  }

  /** Whatever parses may be connected to, and no redirect it accepts may leave that state or its origin. */
  lemma RedirectsStayAllowed(url: string, location: string)
    requires Parse(url).Some? && MatchesRedirect(Parse(url).value, location)
    ensures
      var from, to := Parse(url).value, Parse(location).value;
      && AllowsConnection(from) && AllowsConnection(to) && to == from.(path := to.path) &&
          MatchesRedirect(to, PinMaterial(from))
  {
    var s, a, t := ParsedIsSpelt(url);
    s, a, t := ParsedIsSpelt(location);
    ParsedUrlsRoundTrip(url);
  }

  /** A redirect to any path of the same endpoint is accepted. */
  lemma RedirectsMayChangeThePath(url: string, path: string)
    requires Parse(url).Some? && path != "" && path[0] == '/'
    ensures MatchesRedirect(Parse(url).value, PinMaterial(Parse(url).value.(path := path)))
  {
    var s, a, t := ParsedIsSpelt(url);
    PinMaterialRoundTrips(Parse(url).value.(path := path));
  }
}
