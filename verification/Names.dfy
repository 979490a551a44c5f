/** `NameRecord` and the ids derived from domain names. A name has the form `app-number`. */
module Names {
  import opened Types

  datatype NameRecord = NameRecord(appName: Option<string>, number: Option<nat>)
  {
    predicate IsValid() {
      appName.Some? && !IsBlank(appName.value) && number.Some?
    }
  }

  const MAX_LONG := 0x7fff_ffff_ffff_ffff

  const DIGITS := "0123456789"

  predicate IsDigit(c: char) {
    '0' <= c <= '9'
  }

  predicate AllDigits(s: string) {
    forall i :: 0 <= i < |s| ==> IsDigit(s[i])
  }

  predicate NoDash(s: string) {
    forall i :: 0 <= i < |s| ==> s[i] != '-'
  }

  function Value(s: string): nat
    requires AllDigits(s)
  {
    if s == "" then 0 else 10 * Value(s[..|s| - 1]) + (s[|s| - 1] - '0') as nat
  }

  /** `Long.parseLong` on a token of a split name. A token holds no '-', so '+' is the only sign. */
  function ParseLong(token: string): (r: Option<nat>)
    ensures r.Some? ==> r.value <= MAX_LONG
  {
    var digits := if token != "" && token[0] == '+' then token[1..] else token;
    if digits == "" || !AllDigits(digits) then None
    else if Value(digits) > MAX_LONG then None
    else Some(Value(digits))
  }

  /** Decimal notation, as `Long.toString` gives it. */
  function ToString(n: nat): (s: string)
    ensures s != "" && AllDigits(s) && Value(s) == n && NoDash(s)
  {
    if n < 10 then
      var s := [DIGITS[n]];
      assert s[..0] == "";
      s
    else
      var init := ToString(n / 10);
      var s := init + [DIGITS[n % 10]];
      assert s[..|s| - 1] == init;
      s
  }

  /** Length of the longest prefix without a '-'. */
  function TokenLength(s: string): (n: nat)
    ensures n <= |s| && NoDash(s[..n]) && (n < |s| ==> s[n] == '-')
    ensures s != "" && s[0] != '-' ==> n > 0
  {
    if s == "" || s[0] == '-' then 0
    else
      var n := TokenLength(s[1..]);
      assert s[..1 + n] == [s[0]] + s[1..][..n];
      1 + n
  }

  /** `StringUtils.split(name, "-")`: the maximal runs without a '-', never an empty one. */
  function Split(s: string): seq<string>
    decreases |s|
  {
    if s == "" then []
    else if s[0] == '-' then Split(s[1..])
    else
      var n := TokenLength(s);
      [s[..n]] + Split(s[n..])
  }

  /** `NameRecord.parse`. */
  function Parse(name: string): NameRecord {
    if IsBlank(name) then NameRecord(None, None)
    else
      var texts := Split(name);
      if |texts| == 2 then NameRecord(Some(texts[0]), ParseLong(texts[1])) else NameRecord(None, None)
  }

  /** Java's string concatenation writes a null reference as "null". */
  function ShowApp(r: NameRecord): string {
    if r.appName.Some? then r.appName.value else "null"
  }

  function ShowNumber(r: NameRecord): string {
    if r.number.Some? then ToString(r.number.value) else "null"
  }

  /** `ProcessorUtils.resolveDomainAppName`. */
  function DomainAppName(domain: string): string {
    ShowApp(Parse(domain)) + ShowNumber(Parse(domain))
  }

  /** `ProcessorUtils.resolveDomainUserId`: the id under which a domain logs in at its neighbours. */
  function DomainUserId(domain: string): string {
    DomainAppName(domain) + "-1"
  }

  lemma {:induction false} TokensHoldNoDash(s: string)
    ensures forall t :: t in Split(s) ==> t != "" && NoDash(t)
    decreases |s|
  {
    if s != "" {
      if s[0] == '-' {
        TokensHoldNoDash(s[1..]);
      } else {
        TokensHoldNoDash(s[TokenLength(s)..]);
      }
    }
  }

  lemma {:induction false} TokenLengthOf(a: string, rest: string)
    requires NoDash(a) && (rest == "" || rest[0] == '-')
    ensures TokenLength(a + rest) == |a|
  {
    if a == "" {
      assert a + rest == rest;
    } else {
      assert (a + rest)[1..] == a[1..] + rest;
      TokenLengthOf(a[1..], rest);
    }
  }

  /** Joining two tokens with a '-' and splitting again gives the tokens back. */
  lemma {:induction false} SplitOfPair(a: string, b: string)
    requires a != "" && b != "" && NoDash(a) && NoDash(b)
    ensures Split(a + "-" + b) == [a, b]
  {
    var s := a + ("-" + b);
    assert a + "-" + b == s;
    TokenLengthOf(a, "-" + b);
    assert s[..|a|] == a && s[|a|..] == "-" + b;
    assert ("-" + b)[1..] == b;
    TokenLengthOf(b, "");
    assert b + "" == b && b[..|b|] == b && b[|b|..] == "";
    assert Split(b) == [b];
  }

  lemma {:induction false} DashedNameIsNotBlank(a: string, b: string)
    ensures !IsBlank(a + "-" + b)
  {
    assert (a + "-" + b)[|a|] == '-';
  }

  /** Reading back a number written in decimal. */
  lemma {:induction false} ParseLongOfToString(n: nat)
    requires n <= MAX_LONG
    ensures ParseLong(ToString(n)) == Some(n)
  {
    assert IsDigit(ToString(n)[0]);
  }

  /** A token is a number when it is made of digits, one sign ahead of them allowed, and fits into a long. */
  lemma {:induction false} ReadsNumbers(token: string)
    ensures var digits := if token != "" && token[0] == '+' then token[1..] else token;
      && (ParseLong(token).Some? <==> digits != "" && AllDigits(digits) && Value(digits) <= 9223372036854775807)
      && (ParseLong(token).Some? ==> ParseLong(token).value == Value(digits))
  {
  }

  lemma {:induction false} ValueIsDecimal(s: string, c: char)
    requires AllDigits(s) && IsDigit(c)
    ensures Value(s + [c]) == 10 * Value(s) + (c as int - '0' as int) && Value("") == 0
  {
    assert (s + [c])[..|s|] == s;
  }

  /** The user id of a domain named `p-n` is itself a name: app `pn`, number 1. So the domain logs
  in as a user of the client app `pn`, whatever zeros or sign its own name was written with. */
  lemma {:induction false} DomainUserIdRoundTrip(domain: string)
    requires Parse(domain).appName.Some? && Parse(domain).number.Some?
    ensures Parse(DomainUserId(domain)) == NameRecord(Some(DomainAppName(domain)), Some(1))
    ensures Parse(DomainUserId(domain)).appName.value ==
            Parse(domain).appName.value + ToString(Parse(domain).number.value)
  {
    TokensHoldNoDash(domain);
    var r := Parse(domain);
    var app := DomainAppName(domain);
    assert r.appName.value in Split(domain);
    assert NoDash(app) && app != "";
    assert ToString(1) == "1";
    SplitOfPair(app, "1");
    DashedNameIsNotBlank(app, "1");
    assert app + "-" + "1" == DomainUserId(domain);
    ParseLongOfToString(1);
  }

  /** Two well-formed domain names share a user id exactly when prefix and number, written next to
  each other, read the same. */
  lemma {:induction false} DomainUserIdCollision(d1: string, d2: string)
    requires Parse(d1).appName.Some? && Parse(d1).number.Some?
    requires Parse(d2).appName.Some? && Parse(d2).number.Some?
    ensures DomainUserId(d1) == DomainUserId(d2) <==>
      Parse(d1).appName.value + ToString(Parse(d1).number.value) ==
        Parse(d2).appName.value + ToString(Parse(d2).number.value)
    ensures Parse(d1).appName == Parse(d2).appName ==>
      (DomainUserId(d1) == DomainUserId(d2) <==> Parse(d1).number == Parse(d2).number)
  {
    DomainUserIdRoundTrip(d1);
    DomainUserIdRoundTrip(d2);
    var p1, p2 := Parse(d1).appName.value, Parse(d2).appName.value;
    var s1, s2 := ToString(Parse(d1).number.value), ToString(Parse(d2).number.value);
    if p1 == p2 && p1 + s1 == p2 + s2 {
      assert s1 == (p1 + s1)[|p1|..] && s2 == (p2 + s2)[|p2|..];
    }
  }

  lemma {:induction false} DomainUserIdOfPair(a: string, b: string, n: nat)
    requires a != "" && b != "" && NoDash(a) && NoDash(b) && ParseLong(b) == Some(n)
    ensures DomainUserId(a + "-" + b) == a + ToString(n) + "-1"
  {
    ParseOfPair(a, b);
  }

  /** A domain that is not named `p-n` logs in under a name made of "null". */
  lemma {:induction false} MisnamedDomain(domain: string)
    ensures Parse(domain).appName.None? ==> DomainUserId(domain) == "nullnull-1"
    ensures Parse(domain).appName.Some? && Parse(domain).number.None? ==>
      DomainUserId(domain) == Parse(domain).appName.value + "null-1"
  {
    assert Parse(domain).appName.None? ==> Parse(domain).number.None?;
    hide Parse;
    assert "null" + "null" + "-1" == "nullnull-1";
    if Parse(domain).appName.Some? {
      assert Parse(domain).appName.value + "null" + "-1" == Parse(domain).appName.value + "null-1";
    }
  }

  /** The user id does not determine the domain: leading zeros vanish. */
  lemma {:induction false} LeadingZerosVanish()
    ensures DomainUserId("domain" + "-" + "01") == DomainUserId("domain" + "-" + "1") == "domain1-1"
  {
    hide Parse, DomainUserId;
    assert "01"[..1] == "0" && "0"[..0] == "" && "1"[..0] == "";
    DomainUserIdOfPair("domain", "01", 1);
    DomainUserIdOfPair("domain", "1", 1);
    assert "domain" + "1" + "-1" == "domain1-1";
  }

  /** Nor when digits can move from the number to the prefix. */
  lemma {:induction false} DigitsCanMove()
    ensures DomainUserId("a1" + "-" + "1") == DomainUserId("a" + "-" + "11")
  {
    hide Parse, DomainUserId;
    assert "1"[..0] == "" && "11"[..1] == "1";
    DomainUserIdOfPair("a1", "1", 1);
    DomainUserIdOfPair("a", "11", 11);
    assert ToString(11) == "1" + "1";
    assert "a1" + "1" == "a" + ("1" + "1");
  }

  lemma {:induction false} ParseOfPair(a: string, b: string)
    requires a != "" && b != "" && NoDash(a) && NoDash(b)
    ensures Parse(a + "-" + b) == NameRecord(Some(a), ParseLong(b))
  {
    SplitOfPair(a, b);
    DashedNameIsNotBlank(a, b);
  }
}
