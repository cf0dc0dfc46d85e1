/**
 ParseNetAddress of lib/base/parsenetaddress.cpp, which makes the serial of a network device, and
 skip_host_serial of src/sockets.cpp, which has to find the end of such a serial again. Strings hold no NUL.
 */
module NetAddress {
  import opened Wire

  // ----- decimal numbers

  predicate Digit(c: char) { '0' <= c <= '9' }

  predicate Digits(s: string) { forall k :: 0 <= k < |s| ==> Digit(s[k]) }

  function Val(s: string): nat
    requires Digits(s)
  {
    if s == [] then 0 else 10 * Val(s[..|s| - 1]) + (s[|s| - 1] as int - '0' as int)
  }

  /** printf %d of a natural number. */
  function Show(n: nat): (s: string)
    ensures s != [] && Digits(s) && Val(s) == n
  {
    var last := ['0' + (n % 10) as char];
    if n < 10 then assert last[..0] == []; last
    else
      var s := Show(n / 10) + last;
      assert s[..|s| - 1] == Show(n / 10);
      s
  }

  /** How many digits s starts with. */
  function Leading(s: string): (k: nat)
    ensures k <= |s| && Digits(s[..k]) && (k < |s| ==> !Digit(s[k]))
  {
    if s == [] || !Digit(s[0]) then 0
    else
      var k := 1 + Leading(s[1..]);
      assert s[..k] == [s[0]] + s[1..][..k - 1];
      k
  }

  predicate Space(c: char) { c in " \t\n\r" || c == 11 as char || c == 12 as char }

  function Blanks(s: string): (k: nat)
    ensures k <= |s|
  {
    if s == [] || !Space(s[0]) then 0 else 1 + Blanks(s[1..])
  }

  /** sscanf %d. */
  function Scan(s: string): Option<int> {
    var t := s[Blanks(s)..];
    var signed := t != [] && (t[0] == '-' || t[0] == '+');
    var u := if signed then t[1..] else t;
    var k := Leading(u);
    if k == 0 then None else Some((if signed && t[0] == '-' then -1 else 1) * Val(u[..k]))
  }

  lemma ScanShow(n: nat)
    ensures Scan(Show(n)) == Some(n)
  {
    var s := Show(n);
    assert Digit(s[0]);
    assert s[0..] == s;
    LeadingAll(s);
    assert s[..|s|] == s;
  }

  lemma {:induction false} LeadingAll(s: string)
    requires Digits(s)
    ensures Leading(s) == |s|
  {
    if s != [] {
      LeadingAll(s[1..]);
    }
  }

  // ----- searching

  function Count(s: string, c: char): nat {
    if s == [] then 0 else (if s[0] == c then 1 else 0) + Count(s[1..], c)
  }

  /** strchr: the first c at or after i, or the end. */
  function IndexFrom(s: string, c: char, i: nat): (r: nat)
    requires i <= |s|
    ensures i <= r <= |s| && (r < |s| ==> s[r] == c) && forall k :: i <= k < r ==> s[k] != c
    decreases |s| - i
  {
    if i == |s| || s[i] == c then i else IndexFrom(s, c, i + 1)
  }

  /** "]:" at k. */
  predicate End(s: string, k: nat) {
    k + 1 < |s| && s[k] == ']' && s[k + 1] == ':'
  }

  /** find("]:"), or the end. */
  function FirstEnd(s: string, i: nat): (r: nat)
    requires i <= |s|
    ensures i <= r <= |s| && (r < |s| ==> End(s, r)) && forall k :: i <= k < r ==> !End(s, k)
    decreases |s| - i
  {
    if i == |s| || End(s, i) then i else FirstEnd(s, i + 1)
  }

  /** rfind("]:"), from below i, or None. */
  function LastEnd(s: string, i: nat): (r: Option<nat>)
    requires i <= |s|
    ensures r.Some? ==> r.value < i && End(s, r.value) && forall k :: r.value < k < i ==> !End(s, k)
    ensures r.None? ==> forall k :: 0 <= k < i ==> !End(s, k)
  {
    if i == 0 then None else if End(s, i - 1) then Some(i - 1) else LastEnd(s, i - 1)
  }

  // ----- ParseNetAddress

  datatype Address = Address(host: string, port: int, canonical: string, ipv6: bool)

  function Canonical(host: string, port: nat, ipv6: bool): string {
    if ipv6 then "[" + host + "]:" + Show(port) else host + ":" + Show(port)
  }

  /** The host, whether it is IPv6, and the text of the port if there is one; None for a bad IPv6 address. */
  function Pieces(address: string): Option<(string, bool, Option<string>)> {
    var colons, dots := Count(address, ':'), Count(address, '.');
    if address != [] && address[0] == '[' then
      match LastEnd(address, |address|)
      case None => None
      case Some(r) => Some((address[1..FirstEnd(address, 1)], true, Some(address[r + 2..])))
    else if dots == 0 && 2 <= colons <= 7 then Some((address, true, None))
    else if colons <= 1 then
      var i := IndexFrom(address, ':', 0);
      Some((address[..i], false, if i < |address| then Some(address[i + 1..]) else None))
    else Some(("", true, None))
  }

  /** ParseNetAddress, with the port the caller preset; None for each of its errors. */
  function Parse(address: string, preset: nat): Option<Address> {
    match Pieces(address)
    case None => None
    case Some((host, ipv6, text)) =>
      if host == "" then None
      else
        match text
        case None => Some(Address(host, preset, Canonical(host, preset, ipv6), ipv6))
        case Some(t) =>
          var port := Scan(t);
          if port.None? || port.value <= 0 || port.value > 65535 then None
          else Some(Address(host, port.value, Canonical(host, port.value, ipv6), ipv6))
  }

  // ----- the round trip

  lemma {:induction false} CountAppend(s: string, t: string, c: char)
    ensures Count(s + t, c) == Count(s, c) + Count(t, c)
  {
    if s == [] {
      assert s + t == t;
    } else {
      assert (s + t)[1..] == s[1..] + t;
      CountAppend(s[1..], t, c);
    }
  }

  lemma {:induction false} CountNone(s: string, c: char)
    requires c !in s
    ensures Count(s, c) == 0
  {
    if s != [] {
      CountNone(s[1..], c);
    }
  }

  predicate Port(p: int) { 0 < p <= 65535 }

  /** What is known of an accepted address. */
  lemma Accepted(address: string, preset: nat)
    requires Parse(address, preset).Some? && Port(preset)
    ensures
      var a := Parse(address, preset).value;
      && a.host != "" && Port(a.port) && a.canonical == Canonical(a.host, a.port, a.ipv6)
      && (!a.ipv6 ==> ':' !in a.host && a.host[0] != '[')
  {
  }

  /** The host of a canonical IPv6 address ends where it should exactly if no "]:" is inside. */
  predicate Plain(host: string) {
    forall k :: 0 <= k < |host| ==> !End(host, k)
  }

  lemma NameParses(host: string, port: nat, preset: nat)
    requires host != "" && ':' !in host && host[0] != '[' && Port(port)
    ensures
      var c := Canonical(host, port, false);
      Parse(c, preset) == Some(Address(host, port, c, false))
  {
    hide IndexFrom, Scan, Show;
    var s, p := Canonical(host, port, false), Show(port);
    CountNone(host, ':');
    CountNone(p, ':');
    CountAppend(host + ":", p, ':');
    CountAppend(host, ":", ':');
    assert s[0] == host[0];
    assert s[|host|] == ':';
    assert forall k :: 0 <= k < |host| ==> s[k] == host[k];
    IndexIs(s, ':', 0, |host|);
    assert s[..|host|] == host && s[|host| + 1..] == p;
    ScanShow(port);
  }

  /** Where "]:" is in a canonical IPv6 address. */
  lemma Ends(host: string, port: nat, k: nat)
    ensures End(Canonical(host, port, true), k) <==> k == |host| + 1 || (1 <= k <= |host| && End(host, k - 1))
  {
    var s, p := Canonical(host, port, true), Show(port);
    assert s == "[" + host + "]:" + p && |s| == |host| + 3 + |p|;
    if k > |host| + 1 && k + 1 < |s| {
      assert k == |host| + 2 ==> s[k] == ':';
      assert k > |host| + 2 ==> s[k] == p[k - |host| - 3];
    } else if 1 <= k <= |host| {
      assert s[k] == host[k - 1];
      assert s[k + 1] == if k < |host| then host[k] else ']';
    }
  }

  lemma EndsFound(host: string, port: nat)
    requires |Canonical(host, port, true)| >= |host| + 2
    ensures
      var s := Canonical(host, port, true);
      && LastEnd(s, |s|) == Some(|host| + 1) && FirstEnd(s, 1) <= |host| + 1
      && (FirstEnd(s, 1) == |host| + 1 <==> Plain(host))
  {
    hide Canonical, End;
    var s := Canonical(host, port, true);
    Ends(host, port, |host| + 1);
    if LastEnd(s, |s|).Some? {
      Ends(host, port, LastEnd(s, |s|).value);
    }
    var f := FirstEnd(s, 1);
    if f < |host| + 1 {
      Ends(host, port, f);
    } else {
      forall k | 0 <= k < |host| ensures !End(host, k) {
        Ends(host, port, k + 1);
      }
    }
  }

  lemma BracketsParse(host: string, port: nat, preset: nat)
    requires host != "" && Port(port)
    ensures
      var a := Address(host, port, Canonical(host, port, true), true);
      Parse(Canonical(host, port, true), preset) == Some(a) <==> Plain(host)
  {
    var s, p := Canonical(host, port, true), Show(port);
    assert s == "[" + host + "]:" + p && s[0] == '[';
    assert s[|host| + 3..] == p && s[1..|host| + 1] == host;
    hide Canonical, Plain, FirstEnd, LastEnd, Scan, Count, Show;
    EndsFound(host, port);
    ScanShow(port);
    var f := FirstEnd(s, 1);
    assert Pieces(s) == Some((s[1..f], true, Some(p)));
  }

  /** Reparsing the canonical form of an accepted address gives it back, exactly if the host has no "]:" in it. */
  lemma CanonicalIsStable(address: string, preset: nat, other: nat)
    requires Parse(address, preset).Some? && Port(preset)
    ensures
      var a := Parse(address, preset).value;
      Parse(a.canonical, other) == Some(a) <==> !a.ipv6 || Plain(a.host)
  {
    hide Parse, Pieces, Canonical, Plain;
    Accepted(address, preset);
    var a := Parse(address, preset).value;
    if a.ipv6 {
      BracketsParse(a.host, a.port, other);
    } else {
      NameParses(a.host, a.port, other);
    }
  }

  // ----- skip_host_serial

  /** s starts with `word` and a colon. */
  predicate Starts(s: string, word: string) {
    word + ":" <= s
  }

  /** Some field of digits that ends with a colon is at the start of s. */
  predicate PortFirst(s: string) {
    var k := Leading(s); 0 < k < |s| && s[k] == ':'
  }

  function Colon(s: string, i: nat): Option<nat>
    requires i <= |s|
  {
    var c := IndexFrom(s, ':', i); if c < |s| then Some(c) else None
  }

  /** Where the field after the protocol and an IPv6 address in brackets may start. */
  function Begin(s: string): (i: nat)
    ensures i <= |s|
  {
    var b := if Starts(s, "tcp") || Starts(s, "udp") then 4 else 0;
    if b < |s| && s[b] == '[' && IndexFrom(s, ']', b) < |s| then IndexFrom(s, ']', b) else b
  }

  /** The colon at c, or the one behind it if a port is between them. */
  function PastPort(s: string, c: nat): nat
    requires c < |s|
  {
    if PortFirst(s[c + 1..]) then c + 1 + Leading(s[c + 1..]) else c
  }

  /** The length of a prefix word and its colon, or 0. */
  function WordLen(s: string): (n: nat)
    ensures n <= |s|
  {
    if Starts(s, "usb") then 4 else if Starts(s, "product") then 8
    else if Starts(s, "model") then 6 else if Starts(s, "device") then 7 else 0
  }

  /** The colon before the command. */
  function Skip(s: string): Option<nat> {
    if WordLen(s) > 0 then Colon(s, WordLen(s))
    else
      match Colon(s, Begin(s))
      case None => None
      case Some(c) => Some(PastPort(s, c))
  }

  lemma {:induction false} LeadingStep(s: string, k: nat)
    requires k <= |s| && Digits(s[..k])
    ensures k < |s| && Digit(s[k]) ==> Digits(s[..k + 1])
    ensures k == |s| || !Digit(s[k]) ==> Leading(s) == k
  {
    if k > 0 {
      assert s[0] == s[..k][0] && s[1..][..k - 1] == s[..k][1..];
      LeadingStep(s[1..], k - 1);
    }
  }

  /** skip_host_serial, with its scan over the digits of a port. */
  method SkipHostSerial(s: string) returns (r: Option<nat>)
    ensures r == Skip(s)
  {
    hide Leading;
    if WordLen(s) > 0 {
      return Colon(s, WordLen(s));
    }
    var colon := Colon(s, Begin(s));
    if colon.None? {
      return None;
    }
    var c := colon.value;
    ghost var field := s[c + 1..];
    var end := c;
    if c + 1 < |s| && Digit(s[c + 1]) {
      end := end + 1;
      ghost var k := 0;
      while end < |s| && Digit(s[end])
        invariant c + 1 <= end <= |s| && end == c + 1 + k && Digits(field[..k])
        decreases |s| - end
      {
        LeadingStep(field, k);
        end, k := end + 1, k + 1;
      }
      LeadingStep(field, k);
      if !(end < |s| && s[end] == ':') {
        end := c;
      }
    } else {
      LeadingStep(field, 0);
    }
    return Some(end);
  }

  // ----- the two agree

  /** No colon after the first closing bracket of the host. */
  predicate NoColonAfterBracket(host: string) {
    forall i, j :: 0 <= i < j < |host| ==> !(host[i] == ']' && host[j] == ':')
  }

  /** A string that starts with a word and a colon has its first colon there. */
  lemma StartsWord(s: string, host: string, word: string)
    requires host + ":" <= s && ':' !in host && ':' !in word
    ensures Starts(s, word) <==> host == word
  {
    assert s[|host|] == ':' && s[..|host|] == host;
    if Starts(s, word) {
      assert s[|word|] == ':' && s[..|word|] == word;
      assert forall k :: 0 <= k < |host| ==> s[k] == host[k];
      assert forall k :: 0 <= k < |word| ==> s[k] == word[k];
    }
  }

  /** The digits of a port, then a colon. */
  lemma PortField(port: nat, command: string)
    ensures Leading(Show(port) + ":" + command) == |Show(port)| && PortFirst(Show(port) + ":" + command)
    ensures IndexFrom(Show(port) + ":" + command, ':', 0) == |Show(port)|
  {
    var p := Show(port);
    var s := p + ":" + command;
    assert s[..|p|] == p && s[|p|] == ':';
    LeadingStep(s, |p|);
    assert forall k :: 0 <= k < |p| ==> s[k] == p[k] && Digit(p[k]);
  }

  lemma IndexIs(s: string, c: char, i: nat, r: nat)
    requires i <= r < |s| && s[r] == c && forall k :: i <= k < r ==> s[k] != c
    ensures IndexFrom(s, c, i) == r
  {
  }

  /** A host name, its port and a command. */
  function Service(host: string, port: nat, command: string): string {
    host + ":" + (Show(port) + ":" + command)
  }

  lemma ServiceParts(host: string, port: nat, command: string)
    ensures
      var (s, p) := (Service(host, port, command), Show(port));
      && |s| > |host| + 1 + |p| && s[|host|] == ':' && s[|host| + 1 + |p|] == ':' && host + ":" <= s
      && s[|host| + 1..] == p + ":" + command && s[|host| + 1 + |p| + 1..] == command
      && (forall k :: 0 <= k < |host| ==> s[k] == host[k])
      && (forall k :: |host| < k < |host| + 1 + |p| ==> Digit(s[k]))
  {
    var (s, p) := (Service(host, port, command), Show(port));
    assert s[|host| + 1..] == p + ":" + command;
    assert forall k :: |host| < k < |host| + 1 + |p| ==> s[k] == p[k - |host| - 1];
  }

  lemma WordOfName(s: string, host: string)
    requires host + ":" <= s && ':' !in host
    ensures WordLen(s) == if host in ["usb", "product", "model", "device"] then |host| + 1 else 0
  {
    StartsWord(s, host, "usb");
    StartsWord(s, host, "product");
    StartsWord(s, host, "model");
    StartsWord(s, host, "device");
    hide Starts;
  }

  lemma BeginOfName(s: string, host: string)
    requires host != "" && ':' !in host && host[0] != '[' && host + ":" <= s && |s| > |host| + 1 && s[|host| + 1] != '['
    ensures Begin(s) == if host in ["tcp", "udp"] then |host| + 1 else 0
  {
    StartsWord(s, host, "tcp");
    StartsWord(s, host, "udp");
    hide Starts, IndexFrom;
    assert s[0] == host[0];
  }

  lemma SkipOfName(s: string, host: string)
    requires host != "" && ':' !in host && host[0] != '[' && host + ":" <= s && |s| > |host| + 1 && s[|host| + 1] != '['
    requires IndexFrom(s, ':', |host| + 1) < |s|
    ensures
      var c := IndexFrom(s, ':', |host| + 1);
      Skip(s) == Some(if host in ["usb", "product", "model", "device"] then c
                      else if host in ["tcp", "udp"] then PastPort(s, c) else PastPort(s, |host|))
  {
    WordOfName(s, host);
    BeginOfName(s, host);
    assert s[|host|] == ':';
    assert forall k :: 0 <= k < |host| ==> s[k] == host[k];
    IndexIs(s, ':', 0, |host|);
    hide PastPort, IndexFrom, WordLen, Begin;
  }

  lemma SkipName(host: string, port: nat, command: string)
    requires host != "" && ':' !in host && host[0] != '['
    ensures Skip(Service(host, port, command)) == Some(|host| + 1 + |Show(port)|)
         <==> !(host in ["tcp", "udp"] && PortFirst(command))
  {
    hide Service, Show, PortFirst, Leading, Skip, IndexFrom;
    var (s, p) := (Service(host, port, command), Show(port));
    ServiceParts(host, port, command);
    PortField(port, command);
    IndexIs(s, ':', |host| + 1, |host| + 1 + |p|);
    SkipOfName(s, host);
  }

  lemma PastPortBound(s: string, c: nat, m: nat)
    requires c < m < |s| && !Digit(s[m])
    ensures PastPort(s, c) <= m
  {
    var k := Leading(s[c + 1..]);
    assert Digits(s[c + 1..][..k]);
  }

  lemma NotWord(s: string, word: string)
    requires s != "" && word != "" && s[0] != word[0]
    ensures !Starts(s, word)
  {
    assert (word + ":")[0] == word[0];
  }

  lemma SkipOfBracket(s: string)
    requires s != "" && s[0] == '[' && IndexFrom(s, ']', 0) < |s| && IndexFrom(s, ':', IndexFrom(s, ']', 0)) < |s|
    ensures Skip(s) == Some(PastPort(s, IndexFrom(s, ':', IndexFrom(s, ']', 0))))
  {
    NotWord(s, "usb");
    NotWord(s, "product");
    NotWord(s, "model");
    NotWord(s, "device");
    NotWord(s, "tcp");
    NotWord(s, "udp");
    hide PastPort, Starts, IndexFrom;
  }

  lemma BracketColon(s: string, host: string)
    requires |s| > |host| + 2 && s[0] == '[' && s[|host| + 1] == ']' && s[|host| + 2] == ':'
    requires forall k :: 0 <= k < |host| ==> s[k + 1] == host[k]
    ensures IndexFrom(s, ']', 0) <= |host| + 1
    ensures
      var c := IndexFrom(s, ':', IndexFrom(s, ']', 0));
      c <= |host| + 2 && (c == |host| + 2 <==> NoColonAfterBracket(host))
  {
    hide IndexFrom;
    var b := IndexFrom(s, ']', 0);
    var c := IndexFrom(s, ':', b);
    if c < |host| + 2 {
      assert host[b - 1] == s[b - 1 + 1] && host[c - 1] == s[c - 1 + 1];
    } else {
      forall i, j | 0 <= i < j < |host| ensures !(host[i] == ']' && host[j] == ':') {
        assert s[i + 1] == host[i] && s[j + 1] == host[j];
      }
    }
  }

  /** A host in brackets: the first closing bracket decides where the port is looked for. */
  lemma SkipBrackets(host: string, port: nat, command: string)
    ensures
      var s := Service("[" + host + "]", port, command);
      Skip(s) == Some(|host| + 3 + |Show(port)|) <==> NoColonAfterBracket(host)
  {
    hide Service, Show, PortFirst, Leading, Skip, IndexFrom, NoColonAfterBracket;
    var h := "[" + host + "]";
    var (s, p) := (Service(h, port, command), Show(port));
    ServiceParts(h, port, command);
    PortField(port, command);
    assert s[0] == h[0] == '[' && s[|host| + 1] == h[|host| + 1] == ']';
    assert forall k :: 0 <= k < |host| ==> s[k + 1] == h[k + 1] == host[k];
    BracketColon(s, host);
    SkipOfBracket(s);
    var c := IndexFrom(s, ':', IndexFrom(s, ']', 0));
    if c < |h| {
      PastPortBound(s, c, |h|);
    }
  }

  /**
   skip_host_serial finds the end of the serial that ParseNetAddress made, exactly if no colon follows a
   closing bracket inside an IPv6 host, and a host named tcp or udp has no command that looks like a port.
   */
  lemma SkipFindsCanonical(address: string, preset: nat, command: string)
    requires Parse(address, preset).Some? && Port(preset)
    ensures
      var a := Parse(address, preset).value;
      var right := if a.ipv6 then NoColonAfterBracket(a.host) else !(a.host in ["tcp", "udp"] && PortFirst(command));
      Skip(a.canonical + ":" + command) == Some(|a.canonical|) <==> right
  {
    hide Parse, Skip, Show, NoColonAfterBracket, PortFirst;
    Accepted(address, preset);
    var a := Parse(address, preset).value;
    var p := Show(a.port);
    if a.ipv6 {
      var h := "[" + a.host + "]";
      assert a.canonical + ":" + command == Service(h, a.port, command);
      SkipBrackets(a.host, a.port, command);
    } else {
      assert a.canonical + ":" + command == Service(a.host, a.port, command);
      SkipName(a.host, a.port, command);
    }
  }

  lemma CountColons()
    ensures Count("]::", ':') == 2 && Count("]::", '.') == 0 && Count("tcp", ':') == 0 && Count("tcp", '.') == 0
  {
    assert "]::"[1..] == "::" && "::"[1..] == ":" && ":"[1..] == "";
    assert Count("", ':') == 0 && Count(":", ':') == 1 && Count("::", ':') == 2;
    CountNone("]::", '.');
    CountNone("tcp", ':');
    CountNone("tcp", '.');
  }

  /** An accepted address whose canonical form is neither stable nor found again. */
  lemma BracketCounterexample()
    ensures
      var a := Parse("]::", 5555);
      && a.Some? && Parse(a.value.canonical, 5555) != a
      && Skip(a.value.canonical + ":" + "shell") != Some(|a.value.canonical|)
  {
    hide Count, Canonical, Skip;
    CountColons();
    var x := "]::";
    assert Parse(x, 5555) == Some(Address(x, 5555, Canonical(x, 5555, true), true));
    hide Parse, Pieces;
    assert End(x, 0) && x[0] == ']' && x[1] == ':';
    CanonicalIsStable(x, 5555, 5555);
    SkipFindsCanonical(x, 5555, "shell");
  }

  /** A host called tcp, with a command that looks like a port. */
  lemma TcpCounterexample()
    ensures
      var a := Parse("tcp", 5555);
      a.Some? && Skip(a.value.canonical + ":" + "1:shell") != Some(|a.value.canonical|)
  {
    hide Count, Canonical, Skip, Leading;
    CountColons();
    var y, c := "tcp", "1:shell";
    assert y[..3] == y;
    assert Parse(y, 5555) == Some(Address(y, 5555, Canonical(y, 5555, false), false));
    hide Parse, Pieces;
    assert c[..1] == "1" && c[1] == ':';
    LeadingStep(c, 1);
    SkipFindsCanonical(y, 5555, c);
  }
}
