/** The names TcpServer gives its connections, from which the registry is keyed. */
module ConnectionNames {

  const INT_MAX: nat := 0x7fff_ffff
  const NAME_BUFFER: nat := 64

  function Digit(d: nat): char
    requires d < 10
  { '0' + d as char }

  /** What %d and %u print for a number that is not negative. */
  function Decimal(n: nat): (s: string)
    ensures |s| > 0
  { if n < 10 then [Digit(n)] else Decimal(n / 10) + [Digit(n % 10)] }

  function Pow10(k: nat): nat { if k == 0 then 1 else 10 * Pow10(k - 1) }

  lemma {:induction false} DecimalLength(n: nat, k: nat)
    requires k > 0 && n < Pow10(k)
    ensures |Decimal(n)| <= k
  {
    if n < 10 {
    } else {
      DecimalLength(n / 10, k - 1);
    }
  }

  /** The number that a row of decimal digits stands for. */
  function Reading(s: string): int { if s == [] then 0 else 10 * Reading(s[..|s| - 1]) + (s[|s| - 1] as int - 48) }

  predicate IsDigit(c: char) { '0' <= c <= '9' }

  predicate AllDigits(s: string) { forall i :: 0 <= i < |s| ==> IsDigit(s[i]) }

  /** Decimal digits, without a leading zero, that read back as the number. */
  lemma {:induction false} DecimalReadsBack(n: nat)
    ensures var s := Decimal(n); AllDigits(s) && Reading(s) == n && (n > 0 ==> s[0] != '0')
  {
    if n < 10 {
      assert Decimal(n)[..0] == [];
    } else {
      DecimalReadsBack(n / 10);
      assert Decimal(n)[..|Decimal(n)| - 1] == Decimal(n / 10);
    }
  }

  lemma DigitsDiffer(d: nat, e: nat)
    requires d < 10 && e < 10 && Digit(d) == Digit(e)
    ensures d == e
  {
    assert (Digit(d) as int) - ('0' as int) == d;
  }

  lemma {:induction false} DecimalIsInjective(m: nat, n: nat)
    requires Decimal(m) == Decimal(n)
    ensures m == n
  {
    if m < 10 && n < 10 {
      DigitsDiffer(m, n);
    } else if m >= 10 && n >= 10 {
      var a, b := Decimal(m / 10), Decimal(n / 10);
      assert Decimal(m)[..|a|] == a && Decimal(n)[..|b|] == b;
      assert Decimal(m)[|a|] == Digit(m % 10) && Decimal(n)[|b|] == Digit(n % 10);
      DecimalIsInjective(m / 10, n / 10);
      DigitsDiffer(m % 10, n % 10);
    }
  }

  /** An IPv4 address and port as InetAddress::toIpPort renders them. */
  datatype Endpoint = Endpoint(a: nat, b: nat, c: nat, d: nat, port: nat) {
    predicate Valid() { a < 256 && b < 256 && c < 256 && d < 256 && port < 0x10000 }
  }

  function IpPort(e: Endpoint): string {
    Decimal(e.a) + "." + Decimal(e.b) + "." + Decimal(e.c) + "." + Decimal(e.d) + ":" + Decimal(e.port)
  }

  lemma IpPortLength(e: Endpoint)
    requires e.Valid()
    ensures |IpPort(e)| <= 21
  {
    assert Pow10(3) == 1000;
    DecimalLength(e.a, 3);
    DecimalLength(e.b, 3);
    DecimalLength(e.c, 3);
    DecimalLength(e.d, 3);
    assert Pow10(5) == 100 * Pow10(3);
    DecimalLength(e.port, 5);
  }

  /** The rows of digits in a text, and what stands between them. */
  function Fields(s: string): (fields: seq<string>)
    ensures |fields| > 0
  {
    if s == [] then [[]]
    else
      var rest := Fields(s[1..]);
      if IsDigit(s[0]) then [[s[0]] + rest[0]] + rest[1..] else [[]] + rest
  }

  function Separators(s: string): string {
    if s == [] then [] else (if IsDigit(s[0]) then [] else [s[0]]) + Separators(s[1..])
  }

  lemma {:induction false} FirstField(a: string, sep: char, b: string)
    requires AllDigits(a) && !IsDigit(sep)
    ensures Fields(a + [sep] + b) == [a] + Fields(b) && Separators(a + [sep] + b) == [sep] + Separators(b)
  {
    if a == [] {
      assert (a + [sep] + b)[1..] == b;
    } else {
      assert (a + [sep] + b)[1..] == a[1..] + [sep] + b;
      FirstField(a[1..], sep, b);
      assert [a[0]] + a[1..] == a;
    }
  }

  lemma {:induction false} LastField(a: string)
    requires AllDigits(a)
    ensures Fields(a) == [a] && Separators(a) == []
  {
    if a != [] {
      LastField(a[1..]);
      assert [a[0]] + a[1..] == a;
    }
  }

  lemma TwoFields(a: string, x: char, b: string, y: char, rest: string)
    requires AllDigits(a) && AllDigits(b) && !IsDigit(x) && !IsDigit(y)
    ensures var text := a + [x] + (b + [y] + rest);
      Fields(text) == [a, b] + Fields(rest) && Separators(text) == [x, y] + Separators(rest)
  {
    FirstField(b, y, rest);
    FirstField(a, x, b + [y] + rest);
    OneAndOne(a, b, Fields(rest));
    OneAndOne(x, y, Separators(rest));
  }

  lemma OneAndOne<T>(a: T, b: T, rest: seq<T>)
    ensures [a] + ([b] + rest) == [a, b] + rest
  {
  }

  /** The text of an endpoint, from the left. */
  lemma EndpointText(e: Endpoint, tail: string)
    ensures IpPort(e) + tail
         == Decimal(e.a) + ['.'] + (Decimal(e.b) + ['.'] +
              (Decimal(e.c) + ['.'] + (Decimal(e.d) + [':'] + (Decimal(e.port) + tail))))
  {
  }

  lemma EndpointFields(e: Endpoint, tail: string)
    ensures Fields(IpPort(e) + tail)
         == [Decimal(e.a), Decimal(e.b), Decimal(e.c), Decimal(e.d)] + Fields(Decimal(e.port) + tail)
    ensures Separators(IpPort(e) + tail) == "...:" + Separators(Decimal(e.port) + tail)
  {
    var p := Decimal(e.port) + tail;
    var c := Decimal(e.c) + ['.'] + (Decimal(e.d) + [':'] + p);
    EndpointText(e, tail);
    EndpointDigits(e);
    TwoFields(Decimal(e.c), '.', Decimal(e.d), ':', p);
    TwoFields(Decimal(e.a), '.', Decimal(e.b), '.', c);
  }

  lemma EndpointDigits(e: Endpoint)
    ensures AllDigits(Decimal(e.a)) && AllDigits(Decimal(e.b)) && AllDigits(Decimal(e.c)) && AllDigits(Decimal(e.d))
    ensures AllDigits(Decimal(e.port))
  {
    DecimalReadsBack(e.a);
    DecimalReadsBack(e.b);
    DecimalReadsBack(e.c);
    DecimalReadsBack(e.d);
    DecimalReadsBack(e.port);
  }

  /** An endpoint's text reads back as the endpoint: four octets in network order, then the port. */
  lemma EndpointReadsBack(e: Endpoint)
    ensures var f := Fields(IpPort(e));
      && |f| == 5 && Separators(IpPort(e)) == "...:"
      && Endpoint(Value(f[0]), Value(f[1]), Value(f[2]), Value(f[3]), Value(f[4])) == e
  {
    assert IpPort(e) + [] == IpPort(e) && Decimal(e.port) + [] == Decimal(e.port);
    EndpointFields(e, []);
    NameValues(e);
    EndpointDigits(e);
    LastField(Decimal(e.port));
  }

  function Value(s: string): nat { if Reading(s) < 0 then 0 else Reading(s) }

  /** snprintf into a buffer of `size` bytes keeps one for the terminator. */
  function Snprintf(size: nat, text: string): string
    requires size > 0
  { if |text| < size then text else text[..size - 1] }

  function Suffix(e: Endpoint, id: nat): string { "-" + IpPort(e) + "#" + Decimal(id) }

  function ConnName(server: string, e: Endpoint, id: nat): string {
    server + Snprintf(NAME_BUFFER, Suffix(e, id))
  }

  /** No name is cut short: 64 bytes hold the longest endpoint and the longest int. */
  lemma NameFits(server: string, e: Endpoint, id: nat)
    requires e.Valid() && id <= INT_MAX
    ensures ConnName(server, e, id) == server + Suffix(e, id)
  {
    IpPortLength(e);
    assert Pow10(10) == 10_000_000_000;
    DecimalLength(id, 10);
  }

  /** Different ids give different names. */
  lemma NamesAreDistinct(server: string, e: Endpoint, i: nat, j: nat)
    requires e.Valid() && i <= INT_MAX && j <= INT_MAX
    requires ConnName(server, e, i) == ConnName(server, e, j)
    ensures i == j
  {
    NameFits(server, e, i);
    NameFits(server, e, j);
    var head := server + ("-" + IpPort(e) + "#");
    assert server + Suffix(e, i) == head + Decimal(i);
    assert server + Suffix(e, j) == head + Decimal(j);
    SameTail(head, Decimal(i), Decimal(j));
    DecimalIsInjective(i, j);
  }

  lemma SuffixFields(e: Endpoint, id: nat)
    ensures Fields(Suffix(e, id))
         == [[]] + ([Decimal(e.a), Decimal(e.b), Decimal(e.c), Decimal(e.d)] + PortAndId(e, id))
    ensures Separators(Suffix(e, id)) == ['-'] + ("...:" + "#")
  {
    var tail := ['#'] + Decimal(id);
    SuffixText(e, id);
    FirstField([], '-', IpPort(e) + tail);
    EndpointFields(e, tail);
    PortAndIdFields(e, id);
  }

  lemma SuffixText(e: Endpoint, id: nat)
    ensures Suffix(e, id) == [] + ['-'] + (IpPort(e) + (['#'] + Decimal(id)))
  {
  }

  function PortAndId(e: Endpoint, id: nat): seq<string> { [Decimal(e.port), Decimal(id)] }

  lemma PortAndIdFields(e: Endpoint, id: nat)
    ensures var text := Decimal(e.port) + (['#'] + Decimal(id));
      Fields(text) == PortAndId(e, id) && Separators(text) == "#"
  {
    assert Decimal(e.port) + (['#'] + Decimal(id)) == Decimal(e.port) + ['#'] + Decimal(id);
    EndpointDigits(e);
    FirstField(Decimal(e.port), '#', Decimal(id));
    DecimalReadsBack(id);
    LastField(Decimal(id));
  }

  /** A connection's name reads back as the server's name, its endpoint and the id. */
  lemma NameReadsBack(server: string, e: Endpoint, id: nat)
    requires e.Valid() && id <= INT_MAX
    ensures var n := ConnName(server, e, id);
      && server <= n
      && var rest := n[|server|..]; var f := Fields(rest);
        && Separators(rest) == "-...:#" && |f| == 7 && f[0] == []
        && Endpoint(Value(f[1]), Value(f[2]), Value(f[3]), Value(f[4]), Value(f[5])) == e
        && Value(f[6]) == id
  {
    NameFits(server, e, id);
    assert ConnName(server, e, id)[|server|..] == Suffix(e, id);
    SuffixFields(e, id);
    DecimalReadsBack(id);
    NameValues(e);
  }

  lemma NameValues(e: Endpoint)
    ensures Endpoint(Value(Decimal(e.a)), Value(Decimal(e.b)), Value(Decimal(e.c)), Value(Decimal(e.d)),
                     Value(Decimal(e.port))) == e
  {
    DecimalReadsBack(e.a);
    DecimalReadsBack(e.b);
    DecimalReadsBack(e.c);
    DecimalReadsBack(e.d);
    DecimalReadsBack(e.port);
  }

  lemma SameTail(head: string, a: string, b: string)
    requires head + a == head + b
    ensures a == b
  {
    assert (head + a)[|head|..] == a && (head + b)[|head|..] == b;
  }
}
