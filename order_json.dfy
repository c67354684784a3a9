/** The JSON form of a ShippingOrder that the guard stores under the `value`
    field: `{"ID":<n>,"order_id":"<s>","vendor":"<s>","address":"<s>"}`.
    Encode writes that layout; Decode accepts exactly that layout and fails
    on every other string. */
module OrderJson {
  import opened Errors
  import opened Orders

  predicate IsDigit(ch: char) {
    '0' <= ch <= '9'
  }

  predicate AllDigits(s: string) {
    forall i :: 0 <= i < |s| ==> IsDigit(s[i])
  }

  function DigitChar(d: nat): (ch: char)
    requires d < 10
    ensures IsDigit(ch)
  {
    ('0' as int + d) as char
  }

  function DigitValue(ch: char): (d: nat)
    requires IsDigit(ch)
    ensures d < 10 && DigitChar(d) == ch
  {
    ch as int - '0' as int
  }

  /** Decimal digits of `n`, most significant first, without leading zeros. */
  function Decimal(n: nat): (d: string)
    decreases n
    ensures |d| > 0 && AllDigits(d)
    ensures d[0] == '0' <==> n == 0
    ensures n == 0 ==> d == "0"
  {
    if n < 10 then [DigitChar(n)] else Decimal(n / 10) + [DigitChar(n % 10)]
  }

  /** The number a string of decimal digits denotes. */
  function DecimalValue(d: string): nat
    requires AllDigits(d)
  {
    if d == [] then 0 else DecimalValue(d[..|d| - 1]) * 10 + DigitValue(d[|d| - 1])
  }

  /** Length of the longest all-digit prefix of `s`. */
  function DigitRun(s: string): (k: nat)
    ensures k <= |s| && AllDigits(s[..k])
    ensures k < |s| ==> !IsDigit(s[k])
  {
    if s == [] || !IsDigit(s[0]) then 0 else 1 + DigitRun(s[1..])
  }

  /** An unsigned JSON number at the head of `s`, and what follows it. A
      leading zero is allowed only in "0" itself. */
  function ParseNat(s: string): Option<(nat, string)> {
    var k := DigitRun(s);
    if k == 0 || (k > 1 && s[0] == '0') then None
    else Some((DecimalValue(s[..k]), s[k..]))
  }

  /** The body of a JSON string literal: `"` and `\` are escaped with a
      backslash, every other character is written as it is. */
  function Escape(s: string): string {
    if s == [] then [] else EscapeChar(s[0]) + Escape(s[1..])
  }

  function EscapeChar(ch: char): string {
    if ch == '"' || ch == '\\' then ['\\', ch] else [ch]
  }

  /** Reads the body of a string literal up to its closing quote: the
      unescaped text and what follows the quote. */
  function ParseChars(s: string): Option<(string, string)>
    decreases |s|
  {
    if s == [] then None
    else if s[0] == '"' then Some(([], s[1..]))
    else if s[0] == '\\' then
      if |s| < 2 || !(s[1] == '"' || s[1] == '\\') then None
      else
        var tail :- ParseChars(s[2..]);
        Some(([s[1]] + tail.0, tail.1))
    else
      var tail :- ParseChars(s[1..]);
      Some(([s[0]] + tail.0, tail.1))
  }

  /** Removes `lit` from the head of `s`. */
  function Expect(lit: string, s: string): Option<string> {
    if lit <= s then Some(s[|lit|..]) else None
  }

  /** One string member `,"name":"value"` of the object. */
  function Member(name: string, value: string): string {
    ",\"" + name + "\":\"" + Escape(value) + "\""
  }

  /** Reads the string member `name` at the head of `s`. */
  function ParseMember(name: string, s: string): Option<(string, string)> {
    var body :- Expect(",\"" + name + "\":\"", s);
    ParseChars(body)
  }

  /** `json.Marshal` of a ShippingOrder: the members in declaration order,
      and Parse reads the order back from it. */
  function Encode(o: ShippingOrder): (e: string)
    ensures Parse(e) == Some(o)
  {
    var t3 := Member("address", o.Address) + "}";
    var t2 := Member("vendor", o.Vendor) + t3;
    var t1 := Member("order_id", o.OrderID) + t2;
    var t0 := Decimal(o.ID) + t1;
    var e := "{\"ID\":" + t0;
    ExpectLiteral("{\"ID\":", t0);
    ParseNatDecimal(o.ID, t1);
    ParseMemberOfMember("order_id", o.OrderID, t2);
    ParseMemberOfMember("vendor", o.Vendor, t3);
    ParseMemberOfMember("address", o.Address, "}");
    ParseOfParts(e, o, t0, t1, t2, t3);
    e
  }

  function Parse(s: string): Option<ShippingOrder> {
    var afterId :- Expect("{\"ID\":", s);
    var id :- ParseNat(afterId);
    var orderId :- ParseMember("order_id", id.1);
    var vendor :- ParseMember("vendor", orderId.1);
    var address :- ParseMember("address", vendor.1);
    if address.1 == "}" then Some(ShippingOrder(id.0, orderId.0, vendor.0, address.0)) else None
  }

  /** `json.Unmarshal` into a ShippingOrder. It fails with `Corrupt`, and
      it accepts nothing but encodings: what it accepts is the encoding of
      the order it returns. */
  function Decode(s: string): (r: Result<ShippingOrder>)
    ensures r.Err? ==> r.error == Corrupt
    ensures r.Ok? ==> Encode(r.value) == s
  {
    match Parse(s)
    case Some(o) => EncodeOfParse(s); Ok(o)
    case None => Err(Corrupt)
  }

  // ---- numbers ----

  lemma {:induction false} DecimalRoundTrip(n: nat)
    ensures DecimalValue(Decimal(n)) == n
    decreases n
  {
    if n >= 10 {
      DecimalRoundTrip(n / 10);
      var d := Decimal(n);
      assert d[..|d| - 1] == Decimal(n / 10);
    }
  }

  lemma {:induction false} DigitRunOfDigits(d: string, rest: string)
    requires AllDigits(d)
    requires rest == [] || !IsDigit(rest[0])
    ensures DigitRun(d + rest) == |d|
    decreases |d|
  {
    if d != [] {
      assert (d + rest)[1..] == d[1..] + rest;
      DigitRunOfDigits(d[1..], rest);
    }
  }

  lemma ParseNatDecimal(n: nat, rest: string)
    requires rest == [] || !IsDigit(rest[0])
    ensures ParseNat(Decimal(n) + rest) == Some((n, rest))
  {
    var d := Decimal(n);
    DigitRunOfDigits(d, rest);
    assert (d + rest)[..|d|] == d;
    assert (d + rest)[|d|..] == rest;
    DecimalRoundTrip(n);
  }

  lemma {:induction false} LeadingDigitPositive(d: string)
    requires |d| > 0 && AllDigits(d) && d[0] != '0'
    ensures DecimalValue(d) > 0
    decreases |d|
  {
    if |d| > 1 {
      LeadingDigitPositive(d[..|d| - 1]);
    }
  }

  lemma {:induction false} DecimalOfValue(d: string)
    requires |d| > 0 && AllDigits(d)
    requires |d| > 1 ==> d[0] != '0'
    ensures Decimal(DecimalValue(d)) == d
    decreases |d|
  {
    var last := d[|d| - 1];
    if |d| > 1 {
      var init := d[..|d| - 1];
      LeadingDigitPositive(init);
      DecimalOfValue(init);
      var n := DecimalValue(d);
      assert n / 10 == DecimalValue(init) && n % 10 == DigitValue(last);
      assert d == init + [last];
    }
  }

  lemma ParseNatInverse(s: string, n: nat, rest: string)
    requires ParseNat(s) == Some((n, rest))
    ensures s == Decimal(n) + rest
  {
    var k := DigitRun(s);
    DecimalOfValue(s[..k]);
    assert s == s[..k] + s[k..];
  }

  // ---- strings ----

  /** Reading one escaped character. */
  lemma ParseCharsEscapeChar(ch: char, t: string)
    ensures ParseChars(EscapeChar(ch) + t)
            == match ParseChars(t)
               case None => None
               case Some(tail) => Some(([ch] + tail.0, tail.1))
  {
    var s := EscapeChar(ch) + t;
    if ch == '"' || ch == '\\' {
      assert s[0] == '\\' && s[1] == ch && s[2..] == t;
    } else {
      assert s[0] == ch && s[1..] == t;
    }
  }

  lemma {:induction false} ParseCharsEscape(x: string, rest: string)
    ensures ParseChars(Escape(x) + "\"" + rest) == Some((x, rest))
    decreases |x|
  {
    if x == [] {
      assert Escape(x) + "\"" + rest == ['"'] + rest;
    } else {
      var tail := Escape(x[1..]) + "\"" + rest;
      assert Escape(x) + "\"" + rest == EscapeChar(x[0]) + tail;
      ParseCharsEscape(x[1..], rest);
      ParseCharsEscapeChar(x[0], tail);
      assert [x[0]] + x[1..] == x;
    }
  }

  lemma {:induction false} ParseCharsInverse(s: string, x: string, rest: string)
    requires ParseChars(s) == Some((x, rest))
    ensures s == Escape(x) + "\"" + rest
    decreases |s|
  {
    if s[0] == '"' {
      assert s == ['"'] + s[1..];
    } else if s[0] == '\\' {
      var tail := ParseChars(s[2..]).value;
      ParseCharsInverse(s[2..], tail.0, tail.1);
      assert x == [s[1]] + tail.0 && x[1..] == tail.0;
      assert s == ['\\', s[1]] + s[2..];
    } else {
      var tail := ParseChars(s[1..]).value;
      ParseCharsInverse(s[1..], tail.0, tail.1);
      assert x == [s[0]] + tail.0 && x[1..] == tail.0;
      assert s == [s[0]] + s[1..];
    }
  }

  lemma ExpectLiteral(lit: string, rest: string)
    ensures Expect(lit, lit + rest) == Some(rest)
  {
    assert (lit + rest)[..|lit|] == lit;
    assert (lit + rest)[|lit|..] == rest;
  }

  lemma ParseMemberOfMember(name: string, x: string, rest: string)
    ensures ParseMember(name, Member(name, x) + rest) == Some((x, rest))
  {
    var head := ",\"" + name + "\":\"";
    assert Member(name, x) + rest == head + (Escape(x) + "\"" + rest);
    ExpectLiteral(head, Escape(x) + "\"" + rest);
    ParseCharsEscape(x, rest);
  }

  lemma ParseMemberInverse(name: string, s: string, x: string, rest: string)
    requires ParseMember(name, s) == Some((x, rest))
    ensures s == Member(name, x) + rest
  {
    var head := ",\"" + name + "\":\"";
    var body := Expect(head, s).value;
    ParseCharsInverse(body, x, rest);
    assert s == head + body;
  }

  // ---- whole orders ----

  lemma ParseOfParts(s: string, o: ShippingOrder, r0: string, r1: string, r2: string, r3: string)
    requires Expect("{\"ID\":", s) == Some(r0)
    requires ParseNat(r0) == Some((o.ID, r1))
    requires ParseMember("order_id", r1) == Some((o.OrderID, r2))
    requires ParseMember("vendor", r2) == Some((o.Vendor, r3))
    requires ParseMember("address", r3) == Some((o.Address, "}"))
    ensures Parse(s) == Some(o)
  {
  }

  /** Whatever Parse accepts is the encoding of the order it returns. */
  lemma EncodeOfParse(s: string)
    requires Parse(s).Some?
    ensures Encode(Parse(s).value) == s
  {
    var afterId := Expect("{\"ID\":", s).value;
    var id := ParseNat(afterId).value;
    var orderId := ParseMember("order_id", id.1).value;
    var vendor := ParseMember("vendor", orderId.1).value;
    var address := ParseMember("address", vendor.1).value;
    assert address.1 == "}";
    var o := ShippingOrder(id.0, orderId.0, vendor.0, address.0);
    assert Parse(s).value == o;
    ParseMemberInverse("address", vendor.1, address.0, address.1);
    ParseMemberInverse("vendor", orderId.1, vendor.0, vendor.1);
    ParseMemberInverse("order_id", id.1, orderId.0, orderId.1);
    ParseNatInverse(afterId, id.0, id.1);
    assert s == "{\"ID\":" + afterId;
    EncodeFromParts(s, o, afterId, id.1, orderId.1, vendor.1);
  }

  lemma EncodeFromParts(s: string, o: ShippingOrder, r0: string, r1: string, r2: string, r3: string)
    requires s == "{\"ID\":" + r0
    requires r0 == Decimal(o.ID) + r1
    requires r1 == Member("order_id", o.OrderID) + r2
    requires r2 == Member("vendor", o.Vendor) + r3
    requires r3 == Member("address", o.Address) + "}"
    ensures Encode(o) == s
  {
  }
}
