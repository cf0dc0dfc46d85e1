/**
 What ParseNetAddress makes of each form of an address, and where skip_host_serial finds the end of each form of a
 serial: every accepted and every rejected string is one of these.
 */
module AddressForms {
  import opened Wire
  import opened NetAddress

  // ----- numbers

  /** isspace and isdigit of the C locale. */
  lemma Classes(c: char)
    ensures Space(c) <==> c as int in [9, 10, 11, 12, 13, 32]
    ensures Digit(c) <==> c in "0123456789"
  {
    assert forall k :: 0 <= k < 10 ==> "0123456789"[k] as int == 48 + k;
    if Digit(c) {
      assert "0123456789"[c as int - 48] == c;
    }
  }

  /** printf %d writes no zero in front. */
  lemma {:induction false} ShowPlain(n: nat)
    requires n > 0
    ensures Show(n)[0] != '0'
  {
    if n >= 10 {
      ShowPlain(n / 10);
    }
  }

  lemma ShowExample()
    ensures Show(5037) == "5037" && Val("5037") == 5037
  {
    assert Show(5) == "5" && Show(50) == "50" && Show(503) == "503";
  }

  lemma {:induction false} BlanksAre(b: string, t: string)
    requires (forall k :: 0 <= k < |b| ==> Space(b[k])) && (t != "" ==> !Space(t[0]))
    ensures Blanks(b + t) == |b|
  {
    if b == "" {
      assert b + t == t;
    } else {
      assert (b + t)[1..] == b[1..] + t;
      BlanksAre(b[1..], t);
    }
  }

  lemma LeadingIs(d: string, t: string)
    requires Digits(d) && (t != "" ==> !Digit(t[0]))
    ensures Leading(d + t) == |d|
  {
    assert (d + t)[..|d|] == d;
    LeadingStep(d + t, |d|);
  }

  predicate Sign(s: string) { s in ["", "+", "-"] }

  /** sscanf %d, when there are no blanks to skip. */
  lemma ScanField(sign: string, d: string, t: string)
    requires Sign(sign) && Digits(d) && (t != "" ==> !Digit(t[0]))
    requires sign == "" && d == "" && t != "" ==> t[0] != '+' && t[0] != '-'
    requires Blanks(sign + (d + t)) == 0
    ensures Scan(sign + (d + t)) == if d == "" then None else Some((if sign == "-" then -1 else 1) * Val(d))
  {
    var u, f := sign + (d + t), d + t;
    LeadingIs(d, t);
    assert f[..|d|] == d && (d != "" ==> f[0] == d[0] && Digit(d[0])) && u[0..] == u;
    hide Leading, Val, Blanks;
    if sign == "" {
      assert u == f;
    } else {
      assert u[0] == sign[0] && u[1..] == f;
    }
  }

  lemma ScanSkips(b: string, u: string)
    requires (forall k :: 0 <= k < |b| ==> Space(b[k])) && (u != "" ==> !Space(u[0]))
    ensures Scan(b + u) == Scan(u) && Blanks(u) == 0
  {
    BlanksAre(b, u);
    assert (b + u)[|b|..] == u && u[0..] == u;
    hide Leading, Val;
  }

  /** sscanf %d skips blanks, takes one sign, and reads the digits up to the first other character. */
  lemma ScanReads(b: string, sign: string, d: string, t: string)
    requires (forall k :: 0 <= k < |b| ==> Space(b[k])) && Sign(sign) && Digits(d) && (t != "" ==> !Digit(t[0]))
    requires sign == "" && d == "" && t != "" ==> t[0] != '+' && t[0] != '-' && !Space(t[0])
    ensures
      Scan(b + (sign + (d + t))) == if d == "" then None else Some((if sign == "-" then -1 else 1) * Val(d))
  {
    hide Scan;
    var u := sign + (d + t);
    assert sign != "" ==> u[0] == sign[0];
    assert sign == "" && d != "" ==> u[0] == d[0] && Digit(d[0]);
    assert sign == "" && d == "" ==> u == t;
    ScanSkips(b, u);
    ScanField(sign, d, t);
  }

  /** The digits of a port. */
  lemma ScanDigits(d: string)
    requires Digits(d)
    ensures Scan(d) == if d == "" then None else Some(Val(d))
  {
    assert "" + ("" + (d + "")) == d;
    ScanReads("", "", d, "");
  }

  // ----- addresses

  predicate Name(host: string) {
    host != "" && ':' !in host && host[0] != '['
  }

  /** A host name alone has the port of the caller. */
  lemma BareName(host: string, preset: nat)
    requires Name(host)
    ensures Parse(host, preset) == Some(Address(host, preset, host + ":" + Show(preset), false))
  {
    CountNone(host, ':');
    assert IndexFrom(host, ':', 0) == |host| && host[..|host|] == host;
  }

  /** So has an IPv6 address alone. */
  lemma BareIpv6(host: string, preset: nat)
    requires host != "" && host[0] != '[' && '.' !in host && 2 <= Count(host, ':') <= 7
    ensures Parse(host, preset) == Some(Address(host, preset, "[" + host + "]:" + Show(preset), true))
  {
    CountNone(host, '.');
  }

  /** A port is what its text says, if that is a port. */
  lemma NameWithPort(host: string, text: string, preset: nat)
    requires Name(host) && ':' !in text
    ensures
      var port := Scan(text);
      Parse(host + ":" + text, preset) ==
        if port.Some? && Port(port.value) then Some(Address(host, port.value, host + ":" + Show(port.value), false))
        else None
  {
    hide Scan, Show, IndexFrom;
    var s := host + ":" + text;
    CountNone(host, ':');
    CountNone(text, ':');
    CountAppend(host + ":", text, ':');
    CountAppend(host, ":", ':');
    assert Count(":", ':') == 1 by { assert ":"[1..] == ""; }
    assert s[0] == host[0] && s[|host|] == ':';
    assert forall k :: 0 <= k < |host| ==> s[k] == host[k];
    IndexIs(s, ':', 0, |host|);
    assert s[..|host|] == host && s[|host| + 1..] == text;
  }

  /** In digits, that is a number from 1 to 65535. */
  lemma NameWithDigits(host: string, text: string, preset: nat)
    requires Name(host) && Digits(text)
    ensures
      Parse(host + ":" + text, preset) ==
        if text != "" && 0 < Val(text) <= 65535
        then Some(Address(host, Val(text), host + ":" + Show(Val(text)), false)) else None
  {
    hide Scan, Show, Parse;
    ScanDigits(text);
    NameWithPort(host, text, preset);
  }

  /** "]:" in a host in brackets with a text behind it that has none. */
  lemma BracketEnds(host: string, text: string, k: nat)
    requires Plain(text)
    ensures
      End("[" + host + "]:" + text, k) <==>
        k == |host| + 1 || (1 <= k <= |host| && End(host, k - 1))
  {
    var s := "[" + host + "]:" + text;
    assert |s| == |host| + 3 + |text|;
    if k > |host| + 1 && k + 1 < |s| {
      assert k == |host| + 2 ==> s[k] == ':';
      assert k > |host| + 2 ==> s[k] == text[k - |host| - 3] && s[k + 1] == text[k - |host| - 2];
      assert k > |host| + 2 ==> !End(text, k - |host| - 3);
    } else if 1 <= k <= |host| {
      assert s[k] == host[k - 1];
      assert s[k + 1] == if k < |host| then host[k] else ']';
    } else if k == 0 {
      assert s[0] == '[';
    } else if k == |host| + 1 {
      assert s[k] == ']' && s[k + 1] == ':';
    }
  }

  /** A host in brackets, with its port behind them. */
  lemma Brackets(host: string, text: string, preset: nat)
    requires Plain(host) && Plain(text)
    ensures
      var port := Scan(text);
      Parse("[" + host + "]:" + text, preset) ==
        if host != "" && port.Some? && Port(port.value)
        then Some(Address(host, port.value, "[" + host + "]:" + Show(port.value), true)) else None
  {
    hide Scan, Show, Plain, End, FirstEnd, LastEnd, Count;
    var s := "[" + host + "]:" + text;
    BracketEnds(host, text, |host| + 1);
    var f, l := FirstEnd(s, 1), LastEnd(s, |s|);
    assert l == Some(|host| + 1) by {
      if l.Some? {
        BracketEnds(host, text, l.value);
        PlainAt(host, l.value - 1);
      }
    }
    assert f == |host| + 1 by {
      BracketEnds(host, text, f);
      PlainAt(host, f - 1);
    }
    assert s[0] == '[' && s[1..|host| + 1] == host && s[|host| + 3..] == text;
  }

  lemma PlainAt(s: string, k: int)
    requires Plain(s)
    ensures k >= 0 ==> !End(s, k)
  {
  }

  lemma DigitsPlain(d: string)
    requires Digits(d)
    ensures Plain(d)
  {
  }

  lemma BracketsWithDigits(host: string, text: string, preset: nat)
    requires Plain(host) && Digits(text)
    ensures
      Parse("[" + host + "]:" + text, preset) ==
        if host != "" && text != "" && 0 < Val(text) <= 65535
        then Some(Address(host, Val(text), "[" + host + "]:" + Show(Val(text)), true)) else None
  {
    hide Scan, Show, Parse, Plain;
    DigitsPlain(text);
    ScanDigits(text);
    Brackets(host, text, preset);
  }

  predicate BadPort(text: string) {
    Scan(text).None? || !Port(Scan(text).value)
  }

  predicate LastEndAt(s: string, k: nat) {
    k < |s| && End(s, k) && forall l :: k < l < |s| ==> !End(s, l)
  }

  lemma RejectedInBrackets(s: string, preset: nat)
    requires s != "" && s[0] == '['
    ensures Parse(s, preset).None? <==>
      (forall k :: 0 <= k < |s| ==> !End(s, k)) || End(s, 1) || exists k :: LastEndAt(s, k) && BadPort(s[k + 2..])
  {
    hide Scan, Count, LastEnd, FirstEnd, Canonical, End;
    var l, f := LastEnd(s, |s|), FirstEnd(s, 1);
    NotFirst(s);
    if l.Some? {
      assert LastEndAt(s, l.value);
      assert forall k :: LastEndAt(s, k) ==> k == l.value;
      assert f == 1 <==> End(s, 1);
      assert s[1..f] == "" <==> f == 1;
    }
  }

  lemma NotFirst(s: string)
    requires s != "" && s[0] == '['
    ensures !End(s, 0) && forall k :: 0 <= k < |s| && End(s, k) ==> k + 1 < |s|
  {
  }

  lemma {:induction false} CountAt(s: string, c: char, k: nat)
    requires k < |s| && s[k] == c
    ensures Count(s, c) >= 1
    ensures forall l :: 0 <= l < |s| && s[l] == c && l != k ==> Count(s, c) >= 2
  {
    if k > 0 {
      CountAt(s[1..], c, k - 1);
    } else {
      forall l | 0 < l < |s| && s[l] == c ensures Count(s[1..], c) >= 1 {
        CountAt(s[1..], c, l - 1);
      }
    }
    forall l | 0 <= l < |s| && s[l] == c && l != k ensures Count(s, c) >= 2 {
      if k > 0 && l > 0 {
        assert s[1..][l - 1] == c;
      }
    }
  }

  lemma RejectedName(s: string, preset: nat)
    requires (s == "" || s[0] != '[') && Count(s, ':') <= 1
    ensures Parse(s, preset).None? <==>
      s == "" || s[0] == ':' || exists k :: 0 <= k < |s| && s[k] == ':' && BadPort(s[k + 1..])
  {
    hide Scan, Canonical, Count;
    var i := IndexFrom(s, ':', 0);
    if i < |s| {
      CountAt(s, ':', i);
      assert forall k :: 0 <= k < |s| && s[k] == ':' ==> k == i;
    }
  }

  lemma RejectedColons(s: string, preset: nat)
    requires (s == "" || s[0] != '[') && Count(s, ':') > 1
    ensures Parse(s, preset).None? <==> '.' in s || Count(s, ':') > 7
  {
    if '.' in s {
      var k :| 0 <= k < |s| && s[k] == '.';
      CountAt(s, '.', k);
    } else {
      CountNone(s, '.');
    }
  }

  // ----- serials

  const PREFIXES := ["usb", "product", "model", "device"]
  const PROTOCOLS := ["tcp", "udp"]

  /** <prefix>:<serial>:<command> */
  lemma SkipPrefixed(word: string, serial: string, command: string)
    requires word in PREFIXES && ':' !in serial
    ensures Skip(word + ":" + (serial + ":" + command)) == Some(|word| + 1 + |serial|)
    ensures Skip(word + ":" + serial) == None
  {
    hide IndexFrom, Starts;
    var s, u := word + ":" + (serial + ":" + command), word + ":" + serial;
    WordOfName(s, word);
    WordOfName(u, word);
    var e := |word| + 1 + |serial|;
    assert s[e] == ':';
    assert forall k :: |word| + 1 <= k < e ==> s[k] == serial[k - |word| - 1] && u[k] == serial[k - |word| - 1];
    IndexIs(s, ':', |word| + 1, e);
  }

  /** The colon after c, or behind the port that follows it. */
  lemma PortOrNot(s: string, c: nat, d: string, command: string)
    requires c < |s| && Digits(d) && s[c + 1..] == d + command && (command != "" ==> !Digit(command[0]))
    ensures PastPort(s, c) == if d != "" && command != "" && command[0] == ':' then c + 1 + |d| else c
  {
    LeadingIs(d, command);
    assert command != "" ==> (d + command)[|d|] == command[0];
    hide Leading;
  }

  predicate Plainly(serial: string) {
    ':' !in serial && (serial != "" ==> serial[0] != '[')
  }

  /** What may follow the colon: digits and then something that is none, perhaps a colon and the command. */
  predicate Field(d: string, rest: string) {
    Digits(d) && (rest != "" ==> !Digit(rest[0]))
  }

  /** <serial>[:<port>]:<command> */
  lemma SkipSerial(serial: string, d: string, rest: string)
    requires Plainly(serial) && serial !in PREFIXES && serial !in PROTOCOLS && Field(d, rest)
    ensures Skip(serial + ":" + (d + rest)) ==
      Some(if d != "" && rest != "" && rest[0] == ':' then |serial| + 1 + |d| else |serial|)
  {
    hide IndexFrom, PastPort, Leading;
    var s := serial + ":" + (d + rest);
    WordOfName(s, serial);
    StartsWord(s, serial, "tcp");
    StartsWord(s, serial, "udp");
    assert s[|serial|] == ':' && s[|serial| + 1..] == d + rest;
    assert forall k :: 0 <= k < |serial| ==> s[k] == serial[k];
    hide Starts, WordLen;
    assert Begin(s) == 0;
    IndexIs(s, ':', 0, |serial|);
    PortOrNot(s, |serial|, d, rest);
  }

  /** (tcp|udp):<serial>[:<port>]:<command> */
  lemma SkipProtocol(word: string, serial: string, d: string, rest: string)
    requires word in PROTOCOLS && Plainly(serial) && Field(d, rest)
    ensures Skip(word + ":" + (serial + ":" + (d + rest))) ==
      Some(4 + if d != "" && rest != "" && rest[0] == ':' then |serial| + 1 + |d| else |serial|)
  {
    hide IndexFrom, PastPort, Leading;
    var s := word + ":" + (serial + ":" + (d + rest));
    WordOfName(s, word);
    StartsWord(s, word, "tcp");
    StartsWord(s, word, "udp");
    var e := 4 + |serial|;
    assert s[e] == ':' && s[e + 1..] == d + rest;
    assert forall k :: 4 <= k < e ==> s[k] == serial[k - 4];
    hide Starts, WordLen;
    assert Begin(s) == 4;
    IndexIs(s, ':', 4, e);
    PortOrNot(s, e, d, rest);
  }

  /** [(tcp|udp):]<host>[:<port>]:<command>, with the host in brackets. */
  lemma SkipBracketed(front: string, host: string, d: string, rest: string)
    requires front in ["", "tcp:", "udp:"] && ']' !in host && Field(d, rest)
    ensures Skip(front + ("[" + host + "]:" + (d + rest))) ==
      Some(|front| + |host| + 2 + if d != "" && rest != "" && rest[0] == ':' then 1 + |d| else 0)
  {
    hide IndexFrom, PastPort, Leading;
    var s, b := front + ("[" + host + "]:" + (d + rest)), |front|;
    var e := b + |host| + 2;
    assert s[b] == '[' && s[e - 1] == ']' && s[e] == ':' && s[e + 1..] == d + rest;
    assert forall k :: b < k < e - 1 ==> s[k] == host[k - b - 1];
    assert Begin(s) == e - 1 && WordLen(s) == 0 by {
      FrontWord(front, s);
      IndexIs(s, ']', b, e - 1);
    }
    IndexIs(s, ':', e - 1, e);
    PortOrNot(s, e, d, rest);
  }

  lemma FrontWord(front: string, s: string)
    requires front in ["", "tcp:", "udp:"] && front <= s && |s| > |front| && s[|front|] == '['
    ensures WordLen(s) == 0 && ((Starts(s, "tcp") || Starts(s, "udp")) <==> front != "")
  {
    if front == "" {
      NotWord(s, "usb");
      NotWord(s, "product");
      NotWord(s, "model");
      NotWord(s, "device");
      NotWord(s, "tcp");
      NotWord(s, "udp");
    } else {
      var word := if front == "tcp:" then "tcp" else "udp";
      assert word + ":" == front;
      WordOfName(s, word);
      StartsWord(s, word, "tcp");
      StartsWord(s, word, "udp");
    }
  }

  lemma StartsHasColon(s: string, word: string)
    ensures Starts(s, word) ==> ':' in s
  {
    if Starts(s, word) {
      assert s[|word|] == (word + ":")[|word|];
    }
  }

  /** Without a colon there is no command. */
  lemma SkipNothing(s: string)
    requires ':' !in s
    ensures Skip(s) == None
  {
    StartsHasColon(s, "usb");
    StartsHasColon(s, "product");
    StartsHasColon(s, "model");
    StartsHasColon(s, "device");
  }
}
