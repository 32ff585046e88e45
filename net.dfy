/** The two library routines the agent's address computation relies on, written
    out: Go's `net.SplitHostPort` / `net.JoinHostPort` and the decimal `%d`
    formatting of an `int`, with a decimal parser as its inverse. */
module Net {
  import opened Wrappers

  /** Index of the last `c` in `s`, or -1 when there is none. */
  function LastIndex(s: string, c: char): (i: int)
    ensures -1 <= i < |s|
    ensures i >= 0 ==> s[i] == c
    ensures forall k | i < k < |s| :: s[k] != c
  {
    if |s| == 0 then -1
    else if s[|s| - 1] == c then |s| - 1
    else LastIndex(s[..|s| - 1], c)
  }

  /** Index of the first `c` in `s`, or -1 when there is none. */
  function FirstIndex(s: string, c: char): (i: int)
    ensures -1 <= i < |s|
    ensures i >= 0 ==> s[i] == c
    ensures forall k | 0 <= k < |s| && (i < 0 || k < i) :: s[k] != c
  {
    if |s| == 0 then -1
    else if s[0] == c then 0
    else
      var j := FirstIndex(s[1..], c);
      if j < 0 then -1 else j + 1
  }

  /** The text of Go's `*net.AddrError`: the reason, prefixed by the
      address unless the address is empty. */
  function AddrError(addr: string, why: string): (e: Error)
    ensures e.Failure? && |e.message| >= |why| && e.message[|e.message| - |why|..] == why
    ensures addr == "" <==> e.message == why
  {
    if addr == "" then Failure(why) else Failure("address " + addr + ": " + why)
  }

  /** `net.SplitHostPort`: splits "host:port", "[host]:port" or
      "[host%zone]:port" at the last colon. The host comes back without its
      brackets; neither part holds a bracket and the port holds no colon. */
  function SplitHostPort(hostport: string): (r: Result<(string, string)>)
    ensures r.Ok? ==>
              var (host, port) := r.value;
              && (hostport == host + ":" + port || hostport == "[" + host + "]:" + port)
              && ':' !in port && '[' !in host + port && ']' !in host + port
    ensures r.Ok? && hostport[0] != '[' ==> ':' !in r.value.0
  {
    var i := LastIndex(hostport, ':');
    if i < 0 then Err(AddrError(hostport, "missing port in address"))
    else
      var bracketed := hostport[0] == '[';
      var end := if bracketed then FirstIndex(hostport, ']') else -1;
      if bracketed && end < 0 then Err(AddrError(hostport, "missing ']' in address"))
      else if bracketed && end + 1 == |hostport| then Err(AddrError(hostport, "missing port in address"))
      else if bracketed && end + 1 != i then
        if hostport[end + 1] == ':' then Err(AddrError(hostport, "too many colons in address"))
        else Err(AddrError(hostport, "missing port in address"))
      else if !bracketed && ':' in hostport[..i] then Err(AddrError(hostport, "too many colons in address"))
      else
        // no '[' and no ']' may follow the positions where they were expected
        var j, k := if bracketed then 1 else 0, if bracketed then end + 1 else 0;
        if '[' in hostport[j..] then Err(AddrError(hostport, "unexpected '[' in address"))
        else if ']' in hostport[k..] then Err(AddrError(hostport, "unexpected ']' in address"))
        else
          var host := if bracketed then hostport[1..end] else hostport[..i];
          assert hostport == (if bracketed then "[" + host + "]:" else host + ":") + hostport[i + 1..];
          Ok((host, hostport[i + 1..]))
  }

  /** `net.JoinHostPort`: "host:port", with the host in brackets when it
      holds a colon (an IPv6 literal). */
  function JoinHostPort(host: string, port: string): (hp: string)
    ensures |hp| == |host| + |port| + (if ':' in host then 3 else 1)
    ensures hp[|hp| - |port| - 1..] == ":" + port
    ensures ':' in host ==> hp[0] == '[' && hp[|host| + 1] == ']'
  {
    if ':' in host then "[" + host + "]:" + port else host + ":" + port
  }

  /** Splitting a joined address gives back its host and port, as long as
      neither holds a bracket and the port holds no colon. */
  lemma SplitJoinHostPort(host: string, port: string)
    requires ':' !in port && '[' !in host + port && ']' !in host + port
    ensures SplitHostPort(JoinHostPort(host, port)) == Ok((host, port))
  {
    var hp := JoinHostPort(host, port);
    if ':' in host {
      SplitBracketed(host, port);
    } else {
      assert hp[|host|] == ':';
      assert forall k | |host| < k < |hp| :: hp[k] == port[k - |host| - 1];
      assert hp[..|host|] == host && hp[|host| + 1..] == port;
      assert hp[0] != '[' by {
        if |host| > 0 { assert hp[0] == host[0]; }
      }
    }
  }

  /** The bracketed case of `SplitJoinHostPort`: "[host]:port" splits at
      the colon after the closing bracket. */
  lemma SplitBracketed(host: string, port: string)
    requires ':' in host && ':' !in port && '[' !in host + port && ']' !in host + port
    ensures SplitHostPort("[" + host + "]:" + port) == Ok((host, port))
  {
    var n := |host|;
    var hp := "[" + host + "]:" + port;
    assert hp[1..] == host + "]:" + port && hp[n + 2..] == ":" + port;
    assert hp[1..n + 1] == host && hp[n + 3..] == port;
    assert forall k | n + 2 < k < |hp| :: hp[k] == port[k - n - 3];
    LastIndexAt(hp, ':', n + 2);
    assert forall k | 0 < k < n + 1 :: hp[k] == host[k - 1];
    FirstIndexAt(hp, ']', n + 1);
    assert '[' !in hp[1..] by {
      assert '[' !in host && '[' !in port;
    }
    assert ']' !in hp[n + 2..] by {
      assert ']' !in port;
    }
    assert hp[0] == '[' && n + 2 < |hp|;
  }

  /** A `c` with none after it is the last one. */
  lemma LastIndexAt(s: string, c: char, i: nat)
    requires i < |s| && s[i] == c && forall k | i < k < |s| :: s[k] != c
    ensures LastIndex(s, c) == i
  {
  }

  /** A `c` with none before it is the first one. */
  lemma FirstIndexAt(s: string, c: char, i: nat)
    requires i < |s| && s[i] == c && forall k | 0 <= k < i :: s[k] != c
    ensures FirstIndex(s, c) == i
  {
  }

  predicate IsDigit(c: char)
  {
    '0' <= c <= '9'
  }

  predicate AllDigits(s: string)
  {
    forall k | 0 <= k < |s| :: IsDigit(s[k])
  }

  function DigitChar(d: nat): (c: char)
    requires d < 10
    ensures IsDigit(c) && c as int - '0' as int == d
  {
    ('0' as int + d) as char
  }

  /** The decimal digits of `n`: at least one, and no leading zero. */
  function NatDigits(n: nat): (s: string)
    ensures |s| > 0 && AllDigits(s)
    ensures s[0] == '0' ==> n == 0
  {
    if n < 10 then [DigitChar(n)] else NatDigits(n / 10) + [DigitChar(n % 10)]
  }

  /** `fmt.Sprintf("%d", n)`: a minus sign exactly for a negative number,
      then decimal digits; never a colon or a bracket. */
  function FormatInt(n: int): (s: string)
    ensures |s| > 0 && (s[0] == '-' <==> n < 0)
    ensures n >= 0 ==> AllDigits(s)
    ensures n < 0 ==> AllDigits(s[1..])
    ensures ':' !in s && '[' !in s && ']' !in s
  {
    if n < 0 then "-" + NatDigits(-n) else NatDigits(n)
  }

  /** The value of a string of decimal digits. */
  function ParseNat(s: string): nat
    requires AllDigits(s)
  {
    if s == [] then 0 else ParseNat(s[..|s| - 1]) * 10 + (s[|s| - 1] as int - '0' as int)
  }

  /** The value of an optionally signed decimal numeral, if it is one. */
  function ParseInt(s: string): Option<int>
  {
    if |s| > 1 && s[0] == '-' && AllDigits(s[1..]) then Some(-(ParseNat(s[1..]) as int))
    else if |s| > 0 && AllDigits(s) then Some(ParseNat(s))
    else None
  }

  lemma {:induction false} ParseNatDigits(n: nat)
    ensures ParseNat(NatDigits(n)) == n
  {
    if n >= 10 {
      var s := NatDigits(n);
      assert s[..|s| - 1] == NatDigits(n / 10);
      ParseNatDigits(n / 10);
    }
  }

  /** Formatting loses nothing: the numeral reads back as the same integer. */
  lemma ParseFormatInt(n: int)
    ensures ParseInt(FormatInt(n)) == Some(n)
  {
    if n < 0 {
      assert FormatInt(n)[1..] == NatDigits(-n);
      ParseNatDigits(-n);
    } else {
      ParseNatDigits(n);
    }
  }
}
