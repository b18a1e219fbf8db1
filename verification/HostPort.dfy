/** Go's decimal printer and parser for ports, and its `host:port` splitter and joiner,
    as far as the tunnel manager and the proxy resolver depend on them. */
module HostPort {
  import opened Wrappers

  // ----- decimal numbers -----

  predicate IsDigit(c: char) { '0' <= c <= '9' }

  function DigitChar(d: nat): char
    requires d < 10
  {
    ('0' as int + d) as char
  }

  function Digits(n: nat): string {
    if n < 10 then [DigitChar(n)] else Digits(n / 10) + [DigitChar(n % 10)]
  }

  /** strconv.Itoa */
  function Itoa(n: int): string {
    if n < 0 then ['-'] + Digits(-n) else Digits(n)
  }

  function DigitsValue(s: string): Option<nat> {
    if s == [] then Some(0)
    else
      var rest := DigitsValue(s[..|s| - 1]);
      var c := s[|s| - 1];
      if rest.Some? && IsDigit(c) then Some(10 * rest.value + (c as int - '0' as int)) else None
  }

  /** strconv.Atoi on numbers of any size: an optional sign, then at least one digit. */
  function Atoi(s: string): Option<int> {
    var body := if s != [] && (s[0] == '-' || s[0] == '+') then s[1..] else s;
    var v := DigitsValue(body);
    if body == [] || v.None? then None
    else
      var n: int := v.value;
      Some(if s[0] == '-' then -n else n)
  }

  lemma {:induction false} DigitsRead(n: nat)
    ensures Digits(n) != [] && DigitsValue(Digits(n)) == Some(n)
    ensures forall c :: c in Digits(n) ==> IsDigit(c)
  {
    if n < 10 {
      assert Digits(n)[..0] == [];
      assert DigitsValue([]) == Some(0);
    } else {
      DigitsRead(n / 10);
      assert Digits(n)[..|Digits(n)| - 1] == Digits(n / 10);
    }
  }

  /** Printing a port and parsing it back gives the port; the print holds no separator. */
  lemma AtoiItoa(n: int)
    ensures Atoi(Itoa(n)) == Some(n)
    ensures forall c :: c in Itoa(n) ==> IsDigit(c) || (c == '-' && n < 0)
  {
    DigitsRead(if n < 0 then -n else n);
    if n < 0 {
      assert Itoa(n)[1..] == Digits(-n);
    } else {
      assert IsDigit(Digits(n)[0]);
    }
  }

  // ----- host:port -----

  function IndexOf(s: string, c: char): (i: int)
    ensures i == -1 ==> c !in s
    ensures i != -1 ==> 0 <= i < |s| && s[i] == c && c !in s[..i]
  {
    if s == [] then -1
    else if s[0] == c then 0
    else
      var i := IndexOf(s[1..], c);
      if i == -1 then -1 else
      assert s[..i + 1] == [s[0]] + s[1..][..i];
      i + 1
  }

  function LastIndexOf(s: string, c: char): (i: int)
    ensures i == -1 ==> c !in s
    ensures i != -1 ==> 0 <= i < |s| && s[i] == c && c !in s[i + 1..]
  {
    if s == [] then -1
    else if s[|s| - 1] == c then |s| - 1
    else
      var i := LastIndexOf(s[..|s| - 1], c);
      if i == -1 then
        assert s == s[..|s| - 1] + [s[|s| - 1]];
        -1
      else
        assert s[i + 1..] == s[..|s| - 1][i + 1..] + [s[|s| - 1]];
        i
  }

  /** net.SplitHostPort, branch by branch; every one of its errors is `None`. */
  function SplitHostPort(addr: string): Option<(string, string)> {
    var i := LastIndexOf(addr, ':');
    if i < 0 then None
    else if addr[0] == '[' then
      var end := IndexOf(addr, ']');
      if end < 0 || end + 1 != i then None
      else if '[' in addr[1..] || ']' in addr[end + 1..] then None
      else Some((addr[1..end], addr[i + 1..]))
    else if ':' in addr[..i] || '[' in addr || ']' in addr then None
    else Some((addr[..i], addr[i + 1..]))
  }

  /** net.JoinHostPort */
  function JoinHostPort(host: string, port: string): string {
    if ':' in host then "[" + host + "]:" + port else host + ":" + port
  }

  /** How both tunnel backends print the address they were configured with. */
  function BindAddr(host: string, port: int): string {
    host + ":" + Itoa(port)
  }

  predicate Plain(host: string) { ':' !in host && '[' !in host && ']' !in host }

  predicate Bracketed(host: string) {
    && |host| >= 2 && host[0] == '[' && host[|host| - 1] == ']'
    && '[' !in host[1..] && ']' !in host[..|host| - 1]
  }

  /** The host that comes back when a printed bind address is split again. */
  function ReparsedHost(host: string): Option<string> {
    if Plain(host) then Some(host)
    else if Bracketed(host) then Some(host[1..|host| - 1])
    else None
  }

  lemma {:induction false} LastIndexIs(s: string, c: char, n: nat)
    requires n < |s| && s[n] == c && c !in s[n + 1..]
    ensures LastIndexOf(s, c) == n
  {
    if n < |s| - 1 {
      assert s[n + 1..][|s| - n - 2] == s[|s| - 1];
      assert s[n + 1..] == s[..|s| - 1][n + 1..] + [s[|s| - 1]];
      LastIndexIs(s[..|s| - 1], c, n);
    }
  }

  lemma {:induction false} IndexIs(s: string, c: char, n: nat)
    requires n < |s| && s[n] == c && c !in s[..n]
    ensures IndexOf(s, c) == n
  {
    if n > 0 {
      assert s[..n] == [s[0]] + s[1..][..n - 1];
      IndexIs(s[1..], c, n - 1);
    }
  }

  lemma SplitUnbracketed(host: string, p: string)
    requires ':' !in p && '[' !in p && ']' !in p && (host == [] || host[0] != '[')
    ensures SplitHostPort(host + ":" + p) == if Plain(host) then Some((host, p)) else None
  {
    var a, n := host + ":" + p, |host|;
    assert a[..n] == host && a[n + 1..] == p;
    LastIndexIs(a, ':', n);
    assert forall c :: c in a <==> c in host || c == ':' || c in p;
  }

  /** The bracket that closes right before the port. */
  lemma ClosingBracket(host: string, p: string)
    requires host != [] && ']' !in p
    ensures var end := IndexOf(host + ":" + p, ']');
            end == |host| - 1 <==> host[|host| - 1] == ']' && ']' !in host[..|host| - 1]
  {
    var a, n := host + ":" + p, |host|;
    var end := IndexOf(a, ']');
    assert a[..n - 1] == host[..n - 1] && a[n - 1] == host[n - 1];
    if host[n - 1] == ']' && ']' !in host[..n - 1] {
      IndexIs(a, ']', n - 1);
    }
  }

  lemma AroundBrackets(host: string, p: string)
    requires ':' !in p && '[' !in p && ']' !in p && |host| >= 2
    ensures var a, n := host + ":" + p, |host|;
            && a[1..n - 1] == host[1..n - 1] && a[n + 1..] == p
            && ('[' in a[1..] <==> '[' in host[1..]) && ']' !in a[n..]
  {
    var a, n := host + ":" + p, |host|;
    assert a[n..] == [':'] + p;
    assert a[1..] == host[1..] + ([':'] + p);
  }

  lemma SplitBracketed(host: string, p: string)
    requires ':' !in p && '[' !in p && ']' !in p && host != [] && host[0] == '['
    ensures SplitHostPort(host + ":" + p) ==
            if Bracketed(host) then Some((host[1..|host| - 1], p)) else None
  {
    var a, n := host + ":" + p, |host|;
    LastIndexIs(a, ':', n) by { assert a[n + 1..] == p; }
    ClosingBracket(host, p);
    if |host| >= 2 {
      AroundBrackets(host, p);
    }
  }

  /** What splitting a printed bind address gives, for every host and every port. */
  lemma SplitBindAddr(host: string, port: int)
    ensures SplitHostPort(BindAddr(host, port)) ==
            if ReparsedHost(host).Some? then Some((ReparsedHost(host).value, Itoa(port))) else None
  {
    AtoiItoa(port);
    if host != [] && host[0] == '[' {
      SplitBracketed(host, Itoa(port));
    } else {
      SplitUnbracketed(host, Itoa(port));
    }
  }

  /** A printed address determines its host and port. */
  lemma PrintedOnce(x: string, p: int, y: string, q: int)
    requires BindAddr(x, p) == BindAddr(y, q)
    ensures x == y && p == q
  {
    AtoiItoa(p);
    AtoiItoa(q);
    var a := BindAddr(x, p);
    assert a[|x| + 1..] == Itoa(p) && a[|y| + 1..] == Itoa(q);
    LastIndexIs(a, ':', |x|);
    LastIndexIs(a, ':', |y|);
    assert a[..|x|] == x && a[..|y|] == y;
  }

  /** Rejoining the split parts gives the printed address back exactly for plain hosts
      and for brackets around a host with a colon. */
  lemma JoinOfSplit(host: string, port: int)
    requires ReparsedHost(host).Some?
    ensures JoinHostPort(ReparsedHost(host).value, Itoa(port)) == BindAddr(host, port)
       <==> Plain(host) || ':' in host
  {
    var h := ReparsedHost(host).value;
    if !Plain(host) {
      assert host == "[" + h + "]";
      if ':' in h {
        assert "[" + h + "]:" + Itoa(port) == host + ":" + Itoa(port);
      } else {
        assert |JoinHostPort(h, Itoa(port))| != |BindAddr(host, port)|;
      }
    }
  }
}
