/** Decimal numbers, addresses and endpoints as text, and how they are read back. */
module Texts {
  import opened Endpoints
  import opened Options

  // ----- Decimal numbers -----

  function Digit(d: int): char
    requires 0 <= d < 10
  {
    '0' + d as char
  }

  predicate IsDigit(c: char) {
    '0' <= c <= '9'
  }

  function DecimalText(n: nat): string {
    if n < 10 then [Digit(n)] else DecimalText(n / 10) + [Digit(n % 10)]
  }

  /** The number that a character of a text is in arithmetic: a text holds bytes, and char is signed. */
  function Code(c: char): int {
    if c as int < 0x80 then c as int else c as int - 0x100
  }

  /** The loop `port = port * 10 + c - '0'` over every character of `s`. */
  function Fold(s: string): int {
    if s == [] then 0 else Fold(s[..|s| - 1]) * 10 + (Code(s[|s| - 1]) - '0' as int)
  }

  predicate AllDigits(s: string) {
    forall c :: c in s ==> IsDigit(c)
  }

  lemma {:induction false} DecimalRoundTrip(n: nat)
    ensures Fold(DecimalText(n)) == n
    ensures AllDigits(DecimalText(n)) && DecimalText(n) != []
  {
    if n >= 10 {
      DecimalRoundTrip(n / 10);
      var s := DecimalText(n);
      assert s[..|s| - 1] == DecimalText(n / 10);
    } else {
      assert DecimalText(n)[..0] == [];
    }
  }

  /** Of all texts of digits that fold to a number, its decimal text is the one without leading zeros. */
  lemma {:induction false} DecimalHasNoLeadingZero(s: string)
    requires AllDigits(s) && s != []
    ensures Fold(s) >= 0
    ensures DecimalText(Fold(s)) == s <==> |s| == 1 || s[0] != '0'
  {
    DigitsFoldNatural(s);
    var front, c := s[..|s| - 1], s[|s| - 1];
    assert c in s && s == front + [c];
    var d := c as int - '0' as int;
    assert Digit(d) == c;
    if front == [] {
      assert Fold(front) == 0 && Fold(s) == d;
    } else {
      assert forall x :: x in front ==> x in s;
      assert front[0] == s[0];
      DecimalHasNoLeadingZero(front);
      assert Fold(s) / 10 == Fold(front) && Fold(s) % 10 == d;
      if Fold(s) < 10 {
        assert Fold(front) == 0 && DecimalText(0) == ['0'];
      }
    }
  }

  lemma {:induction false} DecimalLength(n: nat, digits: nat, bound: nat)
    requires 1 <= digits <= 5
    requires bound == (if digits == 1 then 10 else if digits == 2 then 100 else if digits == 3 then 1000
                       else if digits == 4 then 10000 else 100000)
    requires n < bound
    ensures |DecimalText(n)| <= digits
  {
    if n >= 10 {
      DecimalLength(n / 10, digits - 1, bound / 10);
    }
  }

  lemma {:induction false} DigitsFoldNatural(s: string)
    requires AllDigits(s)
    ensures Fold(s) >= 0
  {
    if s != [] {
      assert forall c :: c in s[..|s| - 1] ==> c in s;
      assert s[|s| - 1] in s;
      DigitsFoldNatural(s[..|s| - 1]);
    }
  }

  // ----- Cutting at a separator -----

  /** The text before the first `c`, and the text after it. */
  function Cut(s: string, c: char): (r: Option<(string, string)>)
    ensures r.Some? <==> c in s
    ensures r.Some? ==> s == r.value.0 + [c] + r.value.1 && c !in r.value.0
  {
    if s == [] then None
    else if s[0] == c then Some(([], s[1..]))
    else
      match Cut(s[1..], c)
      case None => None
      case Some((before, after)) => Some(([s[0]] + before, after))
  }

  lemma {:induction false} CutAtSeparator(before: string, c: char, after: string)
    requires c !in before
    ensures Cut(before + [c] + after, c) == Some((before, after))
  {
    var s := before + [c] + after;
    if before == [] {
      assert s[1..] == after;
    } else {
      assert s[1..] == before[1..] + [c] + after;
      assert before[0] in before;
      CutAtSeparator(before[1..], c, after);
      assert before == [before[0]] + before[1..];
    }
  }

  // ----- Addresses -----

  function AddressText(a: Address): string {
    DecimalText(a.a) + "." + DecimalText(a.b) + "." + DecimalText(a.c) + "." + DecimalText(a.d)
  }

  /** inet_pton: digits only, no leading zero, below 256. */
  function ParseOctet(s: string): Option<Octet> {
    if s != [] && AllDigits(s) && 0 <= Fold(s) < 256 && DecimalText(Fold(s)) == s then Some(Fold(s)) else None
  }

  function ParseAddress(s: string): Option<Address> {
    match Cut(s, '.')
    case None => None
    case Some((a, s1)) =>
      match Cut(s1, '.')
      case None => None
      case Some((b, s2)) =>
        match Cut(s2, '.')
        case None => None
        case Some((c, d)) =>
          match (ParseOctet(a), ParseOctet(b), ParseOctet(c), ParseOctet(d))
          case (Some(x), Some(y), Some(z), Some(t)) => Some(IPv4(x, y, z, t))
          case _ => None
  }

  lemma OctetRoundTrip(o: Octet)
    ensures ParseOctet(DecimalText(o)) == Some(o)
    ensures '.' !in DecimalText(o) && ':' !in DecimalText(o) && ';' !in DecimalText(o) && '\0' !in DecimalText(o)
  {
    DecimalRoundTrip(o);
  }

  lemma AddressTextParses(a: Address)
    ensures ParseAddress(AddressText(a)) == Some(a)
  {
    var ta, tb, tc, td := DecimalText(a.a), DecimalText(a.b), DecimalText(a.c), DecimalText(a.d);
    OctetRoundTrip(a.a);
    OctetRoundTrip(a.b);
    OctetRoundTrip(a.c);
    OctetRoundTrip(a.d);
    var s2 := tc + "." + td;
    var s1 := tb + "." + s2;
    assert AddressText(a) == ta + "." + s1;
    CutAtSeparator(ta, '.', s1);
    CutAtSeparator(tb, '.', s2);
    CutAtSeparator(tc, '.', td);
  }

  lemma ParsedAddressTexts(s: string)
    requires ParseAddress(s).Some?
    ensures s == AddressText(ParseAddress(s).value)
  {
    hide Cut, DecimalText;
    var a := ParseAddress(s).value;
    var ta, tb, tc, td := DecimalText(a.a), DecimalText(a.b), DecimalText(a.c), DecimalText(a.d);
    var s1 := Cut(s, '.').value.1;
    var s2 := Cut(s1, '.').value.1;
    assert s == ta + "." + s1 && s1 == tb + "." + s2 && s2 == tc + "." + td;
    assert ta + "." + (tb + "." + (tc + "." + td)) == ta + "." + tb + "." + tc + "." + td;
  }

  /** Exactly the texts of addresses are read, each as its own address. */
  lemma AddressRoundTrip(s: string, a: Address)
    ensures ParseAddress(s) == Some(a) <==> s == AddressText(a)
  {
    AddressTextParses(a);
    if ParseAddress(s) == Some(a) { ParsedAddressTexts(s); }
  }

  // ----- Ports and endpoints -----

  const INT_LIMIT := 0x8000_0000

  /** An int has 32 bits; a sum or product that does not fit wraps around. */
  function AsInt(n: int): int {
    (n + INT_LIMIT) % (2 * INT_LIMIT) - INT_LIMIT
  }

  /** Wrapping in each step of a computation is wrapping at its end. */
  lemma AsIntStep(n: int, factor: int, d: int)
    ensures AsInt(AsInt(n) * factor + d) == AsInt(n * factor + d)
  {
    var k := (n + INT_LIMIT) / (2 * INT_LIMIT);
    assert AsInt(n) == n - k * (2 * INT_LIMIT);
    WrapsAround(n * factor + d, -k * factor);
  }

  lemma WrapsAround(n: int, k: int)
    ensures AsInt(n + k * (2 * INT_LIMIT)) == AsInt(n)
  {
    var a, b := n + INT_LIMIT, 2 * INT_LIMIT;
    assert (a + k * b) / b == a / b + k;
  }

  /** A port does not notice the overflow. */
  lemma PortOfInt(n: int)
    ensures PortOf(AsInt(n)) == PortOf(n)
  {
    var k := (n + INT_LIMIT) / (2 * INT_LIMIT);
    assert n == AsInt(n) + k * (2 * INT_LIMIT);
    PortSkips(AsInt(n), k * 0x1_0000);
  }

  lemma PortSkips(n: int, k: int)
    ensures PortOf(n + k * 0x1_0000) == PortOf(n)
  {
    assert (n + k * 0x1_0000) / 0x1_0000 == n / 0x1_0000 + k;
  }

  lemma PortsAreInts(p: Port)
    ensures AsInt(p) == p == PortOf(p)
  {
  }

  /** What a C function sees of a text: it ends at a null character. */
  function CString(s: string): string {
    match Cut(s, '\0')
    case None => s
    case Some((before, _)) => before
  }

  lemma CStringOfPlain(s: string)
    requires '\0' !in s
    ensures CString(s) == s
  {
  }

  predicate IsBlank(c: char) {
    c == ' ' || '\t' <= c <= '\r'
  }

  function SkipBlanks(s: string): string {
    if s != [] && IsBlank(s[0]) then SkipBlanks(s[1..]) else s
  }

  function LeadingDigits(s: string): string {
    if s != [] && IsDigit(s[0]) then [s[0]] + LeadingDigits(s[1..]) else []
  }

  predicate IsSign(c: char) {
    c == '+' || c == '-'
  }

  /** std::stoi: blanks, a sign, digits, and anything after them; it throws without digits and beyond an int. */
  function Stoi(s: string): Option<int> {
    var t := SkipBlanks(s);
    var digits := LeadingDigits(if t != [] && IsSign(t[0]) then t[1..] else t);
    var n := if t != [] && t[0] == '-' then -Fold(digits) else Fold(digits);
    if digits != [] && -INT_LIMIT <= n < INT_LIMIT then Some(n) else None
  }

  /** The parts of a text that std::stoi reads. */
  ghost predicate IsNumeral(s: string, blanks: string, sign: string, digits: string, rest: string) {
    && s == blanks + sign + digits + rest
    && (forall c :: c in blanks ==> c in " \t\n\U{0B}\U{0C}\r")
    && (sign == "" || sign == "+" || sign == "-")
    && AllDigits(digits) && digits != []
    && (rest == [] || !IsDigit(rest[0]))
  }

  function Signed(sign: string, digits: string): int {
    if sign == "-" then -Fold(digits) else Fold(digits)
  }

  lemma {:induction false} BlanksAreSkipped(blanks: string, rest: string)
    requires forall c :: c in blanks ==> IsBlank(c)
    requires rest == [] || !IsBlank(rest[0])
    ensures SkipBlanks(blanks + rest) == rest
  {
    if blanks == [] {
      assert blanks + rest == rest;
    } else {
      assert blanks[0] in blanks;
      assert (blanks + rest)[1..] == blanks[1..] + rest;
      BlanksAreSkipped(blanks[1..], rest);
    }
  }

  lemma {:induction false} DigitsAreTaken(digits: string, rest: string)
    requires AllDigits(digits) && (rest == [] || !IsDigit(rest[0]))
    ensures LeadingDigits(digits + rest) == digits
  {
    if digits == [] {
      assert digits + rest == rest;
    } else {
      assert digits[0] in digits;
      assert (digits + rest)[1..] == digits[1..] + rest;
      DigitsAreTaken(digits[1..], rest);
      assert digits == [digits[0]] + digits[1..];
    }
  }

  lemma NumeralIsRead(s: string, blanks: string, sign: string, digits: string, rest: string)
    requires IsNumeral(s, blanks, sign, digits, rest)
    ensures var n := Signed(sign, digits); Stoi(s) == if -INT_LIMIT <= n < INT_LIMIT then Some(n) else None
  {
    var t := sign + digits + rest;
    assert s == blanks + t;
    assert digits[0] in digits;
    BlanksAreSkipped(blanks, t);
    assert (if sign == "" then t else t[1..]) == digits + rest;
    DigitsAreTaken(digits, rest);
  }

  lemma {:induction false} BlanksInFront(s: string) returns (blanks: string)
    ensures s == blanks + SkipBlanks(s) && forall c :: c in blanks ==> IsBlank(c)
  {
    if s != [] && IsBlank(s[0]) {
      blanks := BlanksInFront(s[1..]);
      blanks := [s[0]] + blanks;
    } else {
      blanks := [];
    }
  }

  lemma {:induction false} DigitsInFront(s: string) returns (rest: string)
    ensures s == LeadingDigits(s) + rest && AllDigits(LeadingDigits(s)) && (rest == [] || !IsDigit(rest[0]))
  {
    if s != [] && IsDigit(s[0]) {
      rest := DigitsInFront(s[1..]);
    } else {
      rest := s;
    }
  }

  lemma BlankCharacters(c: char)
    ensures IsBlank(c) <==> c in " \t\n\U{0B}\U{0C}\r"
  {
  }

  lemma NumeralInFront(s: string) returns (blanks: string, sign: string, digits: string, rest: string)
    requires Stoi(s).Some?
    ensures IsNumeral(s, blanks, sign, digits, rest) && Stoi(s) == Some(Signed(sign, digits))
  {
    hide SkipBlanks, LeadingDigits, Fold, IsBlank, AllDigits;
    var t := SkipBlanks(s);
    blanks := BlanksInFront(s);
    forall c | c in blanks ensures c in " \t\n\U{0B}\U{0C}\r" {
      BlankCharacters(c);
    }
    sign := if t != [] && IsSign(t[0]) then [t[0]] else "";
    var u := if sign == "" then t else t[1..];
    digits := LeadingDigits(u);
    rest := DigitsInFront(u);
    assert t == sign + u;
    InFourParts(s, blanks, t, sign, u, digits, rest);
  }

  lemma InFourParts(s: string, blanks: string, t: string, sign: string, u: string, digits: string, rest: string)
    requires s == blanks + t && t == sign + u && u == digits + rest
    ensures s == blanks + sign + digits + rest
  {
  }

  /** Exactly the texts that begin with a numeral of an int are read, each as that int. */
  lemma StoiReadsNumerals(s: string, n: int)
    ensures Stoi(s) == Some(n) <==>
            -INT_LIMIT <= n < INT_LIMIT
            && exists blanks, sign, digits, rest ::
                 IsNumeral(s, blanks, sign, digits, rest) && n == Signed(sign, digits)
  {
    if Stoi(s) == Some(n) {
      var blanks, sign, digits, rest := NumeralInFront(s);
    }
    if blanks, sign, digits, rest :| IsNumeral(s, blanks, sign, digits, rest) && n == Signed(sign, digits) {
      NumeralIsRead(s, blanks, sign, digits, rest);
    }
  }

  lemma PlainNumeral(digits: string)
    requires AllDigits(digits) && digits != [] && Fold(digits) < INT_LIMIT
    ensures Stoi(digits) == Some(Fold(digits))
  {
    DigitsFoldNatural(digits);
    assert digits == "" + "" + digits + "";
    NumeralIsRead(digits, "", "", digits, "");
  }

  /** The number, as an endpoint stores it. */
  function ParsePort(s: string): Option<Port> {
    match Stoi(s)
    case None => None
    case Some(n) => Some(PortOf(n))
  }

  function EndpointText(ep: Endpoint): string {
    AddressText(ep.address) + ":" + DecimalText(ep.port)
  }

  lemma PortRoundTrip(p: Port)
    ensures ParsePort(DecimalText(p)) == Some(p)
    ensures ':' !in DecimalText(p) && ';' !in DecimalText(p)
  {
    hide Stoi, DecimalText, Fold;
    var text := DecimalText(p);
    DecimalRoundTrip(p);
    PlainNumeral(text);
    PortsAreInts(p);
  }

  /** Bytes from 128 up count as negative characters. */
  lemma CharIsSigned()
    ensures Fold("\U{FF}") == -1 - 48 && Fold("1\U{80}") == 10 - 128 - 48 && Fold("40") == 40
  {
    assert "\U{FF}"[..0] == "" && "1"[..0] == "" && "4"[..0] == "";
    assert "1\U{80}"[..1] == "1" && "40"[..1] == "4";
    assert Fold("1") == 1 && Fold("4") == 4;
  }

  lemma AddressTextIsPlain(a: Address)
    ensures ':' !in AddressText(a) && ';' !in AddressText(a) && '\0' !in AddressText(a)
  {
    OctetRoundTrip(a.a);
    OctetRoundTrip(a.b);
    OctetRoundTrip(a.c);
    OctetRoundTrip(a.d);
  }

  lemma EndpointLength(ep: Endpoint)
    ensures |EndpointText(ep)| <= 21
  {
    DecimalLength(ep.address.a, 3, 1000);
    DecimalLength(ep.address.b, 3, 1000);
    DecimalLength(ep.address.c, 3, 1000);
    DecimalLength(ep.address.d, 3, 1000);
    DecimalLength(ep.port, 5, 100000);
  }
}
