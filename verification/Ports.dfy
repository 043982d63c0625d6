/** Published port mappings: reading, printing, and refusing duplicates (src/ports.rs). */
module Ports {

  import opened Common
  import opened Decimal

  datatype Protocol = Tcp | Udp

  datatype PublishedPort = PublishedPort(hostPort: nat, guestPort: nat, protocol: Protocol)

  datatype ParseError = InvalidProtocol | InvalidMapping | InvalidPort

  predicate IsPort(n: nat) {
    1 <= n <= 65535
  }

  predicate Valid(p: PublishedPort) {
    IsPort(p.hostPort) && IsPort(p.guestPort)
  }

  function ProtocolName(p: Protocol): string {
    match p case Tcp => "tcp" case Udp => "udp"
  }

  function ParseProtocol(s: string): Option<Protocol> {
    if s == "tcp" then Some(Tcp) else if s == "udp" then Some(Udp) else None
  }

  // ---- Splitting ----

  /** `rsplit_once`: at the last separator. */
  function SplitLast(s: string, sep: char): (r: Option<(string, string)>)
    ensures r.Some? <==> sep in s
    ensures r.Some? ==> s == r.value.0 + [sep] + r.value.1 && sep !in r.value.1
  {
    if s == [] then None
    else match SplitLast(s[1..], sep)
      case Some((a, b)) => Some(([s[0]] + a, b))
      case None => if s[0] == sep then Some(([], s[1..])) else None
  }

  /** `split`: at every separator, so always at least one part. */
  function SplitAll(s: string, sep: char): (r: seq<string>)
    ensures |r| > 0
  {
    if s == [] then [[]]
    else
      var rest := SplitAll(s[1..], sep);
      if s[0] == sep then [[]] + rest else [[s[0]] + rest[0]] + rest[1..]
  }

  lemma {:induction false} SplitLastAt(a: string, sep: char, b: string)
    requires sep !in b
    ensures SplitLast(a + [sep] + b, sep) == Some((a, b))
  {
    var s := a + [sep] + b;
    if a == [] {
      assert s[1..] == b;
    } else {
      assert s[1..] == a[1..] + [sep] + b;
      SplitLastAt(a[1..], sep, b);
      assert a == [a[0]] + a[1..];
    }
  }

  lemma {:induction false} SplitNowhere(s: string, sep: char)
    requires sep !in s
    ensures SplitAll(s, sep) == [s]
  {
    if s != [] {
      SplitNowhere(s[1..], sep);
      assert s == [s[0]] + s[1..] && s[0] in s;
    }
  }

  lemma {:induction false} SplitAllAt(a: string, sep: char, b: string)
    requires sep !in a
    ensures SplitAll(a + [sep] + b, sep) == [a] + SplitAll(b, sep)
  {
    var s := a + [sep] + b;
    if a == [] {
      assert s[1..] == b;
    } else {
      assert s[1..] == a[1..] + [sep] + b && a[0] in a;
      SplitAllAt(a[1..], sep, b);
      assert ([a[1..]] + SplitAll(b, sep))[1..] == SplitAll(b, sep);
      assert a == [a[0]] + a[1..];
    }
  }

  // ---- Reading and printing ----

  /** `parse::<u16>`: an optional plus sign, at least one digit, no overflow. */
  function ParseU16(s: string): Option<nat> {
    var digits := if s != [] && s[0] == '+' then s[1..] else s;
    if digits == [] || !AllDigits(digits) || Value(digits) > 65535 then None else Some(Value(digits))
  }

  function ParsePort(s: string): Option<nat> {
    match ParseU16(s) case None => None case Some(n) => if n == 0 then None else Some(n)
  }

  function ParsePair(host: string, guest: string, protocol: Protocol): Result<PublishedPort, ParseError> {
    match (ParsePort(host), ParsePort(guest))
    case (Some(h), Some(g)) => Ok(PublishedPort(h, g, protocol))
    case _ => Err(InvalidPort)
  }

  /** `PublishedPort::from_str`. */
  function Parse(raw: string): Result<PublishedPort, ParseError> {
    match SplitLast(raw, '/')
    case None => ParsePorts(raw, Tcp)
    case Some((ports, name)) =>
      match ParseProtocol(name)
      case None => Err(InvalidProtocol)
      case Some(protocol) => ParsePorts(ports, protocol)
  }

  function ParsePorts(ports: string, protocol: Protocol): Result<PublishedPort, ParseError> {
    var parts := SplitAll(ports, ':');
    if |parts| == 1 then ParsePair(parts[0], parts[0], protocol)
    else if |parts| == 2 then ParsePair(parts[0], parts[1], protocol)
    else Err(InvalidMapping)
  }

  /** `Display`. */
  function Print(p: PublishedPort): string {
    Render(p.hostPort) + [':'] + Render(p.guestPort) + ['/'] + ProtocolName(p.protocol)
  }

  lemma ParseRendered(n: nat)
    requires IsPort(n)
    ensures ParsePort(Render(n)) == Some(n)
  {
    RenderReadsBack(n);
    assert IsDigitChar(Render(n)[0]);
  }

  lemma ParseRenderedPair(host: nat, guest: nat, protocol: Protocol)
    requires IsPort(host) && IsPort(guest)
    ensures ParsePorts(Render(host) + [':'] + Render(guest), protocol) == Ok(PublishedPort(host, guest, protocol))
  {
    SplitAllAt(Render(host), ':', Render(guest));
    SplitNowhere(Render(guest), ':');
    ParseRendered(host);
    ParseRendered(guest);
  }

  lemma ProtocolReadsBack(p: Protocol)
    ensures ParseProtocol(ProtocolName(p)) == Some(p) && '/' !in ProtocolName(p)
  {
  }

  /** A printed mapping reads back as itself. */
  lemma PrintReadsBack(p: PublishedPort)
    requires Valid(p)
    ensures Parse(Print(p)) == Ok(p)
  {
    var ports := Render(p.hostPort) + [':'] + Render(p.guestPort);
    ProtocolReadsBack(p.protocol);
    SplitLastAt(ports, '/', ProtocolName(p.protocol));
    ParseRenderedPair(p.hostPort, p.guestPort, p.protocol);
  }

  /** Whatever reads is a valid mapping, so printing and reading it again gives the same one. */
  lemma ParsedIsValid(raw: string)
    ensures Parse(raw).Ok? ==> Valid(Parse(raw).value) && Parse(Print(Parse(raw).value)) == Parse(raw)
  {
    if Parse(raw).Ok? { PrintReadsBack(Parse(raw).value); }
  }

  /** A single port is published as itself, over TCP. */
  lemma SinglePortIsTcp(n: nat)
    requires IsPort(n)
    ensures Parse(Render(n)) == Ok(PublishedPort(n, n, Tcp))
  {
    SplitNowhere(Render(n), ':');
    ParseRendered(n);
  }

  // ---- What reads, and as what ----

  /** A mapping may end in a protocol, after the last slash; without one it is TCP. */
  datatype Suffix = NoSuffix | Named(name: string)

  function SuffixText(suffix: Suffix): string {
    match suffix case NoSuffix => [] case Named(name) => ['/'] + name
  }

  predicate IsSuffixOf(suffix: Suffix, ports: string) {
    match suffix case NoSuffix => '/' !in ports case Named(name) => '/' !in name
  }

  predicate Selects(suffix: Suffix, protocol: Protocol) {
    match suffix
    case NoSuffix => protocol == Tcp
    case Named(name) => name == match protocol case Tcp => "tcp" case Udp => "udp"
  }

  /** Digits, after a plus sign or not, for a number from 1 to 65535. */
  predicate IsPortText(s: string, n: nat) {
    IsNumberText(s, n) || (s != [] && s[0] == '+' && IsNumberText(s[1..], n))
  }

  predicate IsNumberText(s: string, n: nat) {
    s != [] && AllDigits(s) && Value(s) == n && 1 <= n <= 65535
  }

  lemma PortTextReads(s: string, n: nat)
    ensures ParsePort(s) == Some(n) <==> IsPortText(s, n)
  {
    if s != [] && s[0] == '+' { assert !IsDigitChar(s[0]); }
  }

  lemma {:induction false} NoLastSplit(s: string, sep: char)
    requires sep !in s
    ensures SplitLast(s, sep) == None
  {
  }

  lemma ParseSuffixed(ports: string, suffix: Suffix, protocol: Protocol)
    requires IsSuffixOf(suffix, ports)
    ensures Selects(suffix, protocol) ==> Parse(ports + SuffixText(suffix)) == ParsePorts(ports, protocol)
    ensures !Selects(suffix, Tcp) && !Selects(suffix, Udp) ==> Parse(ports + SuffixText(suffix)) == Err(InvalidProtocol)
  {
    hide ParsePorts;
    match suffix
    case NoSuffix =>
      assert ports + [] == ports;
      NoLastSplit(ports, '/');
    case Named(name) =>
      assert ports + (['/'] + name) == ports + ['/'] + name;
      SplitLastAt(ports, '/', name);
  }

  /** Read as those ports over that protocol, or refused because one of them is not a port, whichever numbers one tries. */
  predicate ReadsPair(r: Result<PublishedPort, ParseError>, host: string, guest: string, protocol: Protocol, h: nat, g: nat) {
    match r
    case Ok(p) => p.protocol == protocol && IsPortText(host, p.hostPort) && IsPortText(guest, p.guestPort)
    case Err(e) => e == InvalidPort && !(IsPortText(host, h) && IsPortText(guest, g))
  }

  lemma PairParses(host: string, guest: string, protocol: Protocol, h: nat, g: nat)
    ensures ReadsPair(ParsePair(host, guest, protocol), host, guest, protocol, h, g)
  {
    PortTextReads(host, h);
    PortTextReads(guest, g);
    if ParsePort(host).Some? { PortTextReads(host, ParsePort(host).value); }
    if ParsePort(guest).Some? { PortTextReads(guest, ParsePort(guest).value); }
  }

  lemma PortReads(port: string, protocol: Protocol, n: nat)
    requires ':' !in port
    ensures ReadsPair(ParsePorts(port, protocol), port, port, protocol, n, n)
  {
    SplitNowhere(port, ':');
    PairParses(port, port, protocol, n, n);
  }

  lemma PairReads(host: string, guest: string, protocol: Protocol, h: nat, g: nat)
    requires ':' !in host && ':' !in guest
    ensures ReadsPair(ParsePorts(host + [':'] + guest, protocol), host, guest, protocol, h, g)
  {
    SplitAllAt(host, ':', guest);
    SplitNowhere(guest, ':');
    PairParses(host, guest, protocol, h, g);
  }

  lemma ManyAreRefused(host: string, guest: string, more: string, protocol: Protocol)
    requires ':' !in host && ':' !in guest
    ensures ParsePorts(host + [':'] + guest + [':'] + more, protocol) == Err(InvalidMapping)
  {
    assert host + [':'] + guest + [':'] + more == host + [':'] + (guest + [':'] + more);
    SplitAllAt(host, ':', guest + [':'] + more);
    SplitAllAt(guest, ':', more);
  }

  /**
   * A port or a pair of ports, with a known protocol or none, reads as exactly the numbers it writes, over
   * TCP when it names none, and is refused as a bad port otherwise; more than a pair is refused as a bad
   * mapping; and an unknown protocol comes before either.
   */
  lemma MappingReadsIff(host: string, guest: string, more: string, suffix: Suffix, protocol: Protocol, h: nat, g: nat)
    requires ':' !in host && ':' !in guest && Selects(suffix, protocol)
    ensures IsSuffixOf(suffix, host) ==> ReadsPair(Parse(host + SuffixText(suffix)), host, host, protocol, h, h)
    ensures IsSuffixOf(suffix, host + [':'] + guest) ==>
      ReadsPair(Parse(host + [':'] + guest + SuffixText(suffix)), host, guest, protocol, h, g)
    ensures IsSuffixOf(suffix, host + [':'] + guest + [':'] + more) ==>
      Parse(host + [':'] + guest + [':'] + more + SuffixText(suffix)) == Err(InvalidMapping)
  {
    hide Parse, ParsePorts, ReadsPair, SuffixText, Selects;
    if IsSuffixOf(suffix, host) {
      ParseSuffixed(host, suffix, protocol);
      PortReads(host, protocol, h);
    }
    if IsSuffixOf(suffix, host + [':'] + guest) {
      ParseSuffixed(host + [':'] + guest, suffix, protocol);
      PairReads(host, guest, protocol, h, g);
    }
    if IsSuffixOf(suffix, host + [':'] + guest + [':'] + more) {
      ParseSuffixed(host + [':'] + guest + [':'] + more, suffix, protocol);
      ManyAreRefused(host, guest, more, protocol);
    }
  }

  /** A protocol that is neither is refused as such, whatever precedes it. */
  lemma UnknownProtocolIsRefused(ports: string, name: string)
    requires '/' !in name && name != "tcp" && name != "udp"
    ensures Parse(ports + ['/'] + name) == Err(InvalidProtocol)
  {
    SplitLastAt(ports, '/', name);
  }

  // ---- Duplicates ----

  predicate SameSlot(a: PublishedPort, b: PublishedPort) {
    a.hostPort == b.hostPort && a.protocol == b.protocol
  }

  /** `validate_published_ports`: no host port twice for a protocol; otherwise the first repeated one. */
  method ValidatePublishedPorts(ports: seq<PublishedPort>) returns (repeated: Option<nat>)
    ensures repeated.None? <==> forall i, j :: 0 <= i < j < |ports| ==> !SameSlot(ports[i], ports[j])
    ensures repeated.Some? ==> repeated.value < |ports| && exists i :: 0 <= i < repeated.value && SameSlot(ports[i], ports[repeated.value])
    ensures repeated.Some? ==> forall i, j :: 0 <= i < j < repeated.value ==> !SameSlot(ports[i], ports[j])
  {
    var seen: set<(nat, Protocol)> := {};
    for k := 0 to |ports|
      invariant forall i, j :: 0 <= i < j < k ==> !SameSlot(ports[i], ports[j])
      invariant forall i :: 0 <= i < k ==> (ports[i].hostPort, ports[i].protocol) in seen
      invariant forall slot :: slot in seen ==> exists i :: 0 <= i < k && slot == (ports[i].hostPort, ports[i].protocol)
    {
      var slot := (ports[k].hostPort, ports[k].protocol);
      if slot in seen {
        var i :| 0 <= i < k && slot == (ports[i].hostPort, ports[i].protocol);
        assert SameSlot(ports[i], ports[k]);
        return Some(k);
      }
      seen := seen + {slot};
    }
    repeated := None;
  }
}
