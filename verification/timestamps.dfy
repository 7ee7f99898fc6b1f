/** Expiry times are compared as text (storage/store.py): the order of `isoformat()` strings of
    one UTC offset is the order of the instants, although the fraction is left out when it is
    zero, a case outside the equal-digits condition in section 5.1 of RFC 3339. */
module Timestamps {
  /** The fields of a UTC datetime. */
  datatype Instant = Instant(year: nat, month: nat, day: nat, hour: nat, minute: nat, second: nat, micro: nat)

  predicate Valid(t: Instant) {
    t.year < 10000 && t.month < 100 && t.day < 100 && t.hour < 100 && t.minute < 100 && t.second < 100
        && t.micro < 1000000
  }

  /** Earlier: the first field that differs decides. */
  predicate Before(a: Instant, b: Instant) {
    if a.year != b.year then a.year < b.year
    else if a.month != b.month then a.month < b.month
    else if a.day != b.day then a.day < b.day
    else if a.hour != b.hour then a.hour < b.hour
    else if a.minute != b.minute then a.minute < b.minute
    else if a.second != b.second then a.second < b.second
    else a.micro < b.micro
  }

  // ---------------------------------------------------------------- text

  function Digit(n: nat): char
    requires n < 10
  {
    '0' + n as char
  }

  /** `n` in exactly `width` decimal digits. */
  function Digits(n: nat, width: nat): (text: string)
    ensures |text| == width
  {
    if width == 0 then "" else Digits(n / 10, width - 1) + [Digit(n % 10)]
  }

  const OFFSET := "+00:00"

  /** What follows the seconds: no fraction at all when it is zero. */
  function Tail(micro: nat): string {
    if micro == 0 then OFFSET else "." + Digits(micro, 6) + OFFSET
  }

  /** `isoformat()`. */
  function Iso(t: Instant): string {
    Digits(t.year, 4) + ("-" + (Digits(t.month, 2) + ("-" + (Digits(t.day, 2) + ("T" + (Digits(t.hour, 2) + (":"
      + (Digits(t.minute, 2) + (":" + (Digits(t.second, 2) + Tail(t.micro)))))))))))
  }

  /** Strings in lexicographic order, as the database compares its text columns. */
  predicate Less(s: string, t: string) {
    t != "" && (s == "" || (if s[0] == t[0] then Less(s[1..], t[1..]) else s[0] < t[0]))
  }

  // ---------------------------------------------------------------- the orders agree

  lemma {:induction false} SharedLength(u: string, v: string, x: string, y: string)
    requires |u| == |v|
    ensures Less(u + x, v + y) == if u == v then Less(x, y) else Less(u, v)
  {
    if u == "" {
      assert u + x == x && v + y == y;
    } else {
      assert (u + x)[1..] == u[1..] + x && (v + y)[1..] == v[1..] + y;
      SharedLength(u[1..], v[1..], x, y);
      assert u == [u[0]] + u[1..] && v == [v[0]] + v[1..];
    }
  }

  function Power(width: nat): nat {
    if width == 0 then 1 else 10 * Power(width - 1)
  }

  /** Numbers of the same width are ordered as their digits are. */
  lemma {:induction false} DigitsOrder(a: nat, b: nat, width: nat)
    requires a < Power(width) && b < Power(width)
    ensures Digits(a, width) == Digits(b, width) <==> a == b
    ensures Less(Digits(a, width), Digits(b, width)) <==> a < b
  {
    if width > 0 {
      DigitsOrder(a / 10, b / 10, width - 1);
      SharedLength(Digits(a / 10, width - 1), Digits(b / 10, width - 1), [Digit(a % 10)], [Digit(b % 10)]);
      LastDigit(a, b, width);
      OneCharacter(Digit(a % 10), Digit(b % 10));
    }
  }

  lemma LastDigit(a: nat, b: nat, width: nat)
    requires width > 0
    ensures Digits(a, width) == Digits(b, width) <==>
              Digits(a / 10, width - 1) == Digits(b / 10, width - 1) && Digit(a % 10) == Digit(b % 10)
  {
    var u, v := Digits(a / 10, width - 1), Digits(b / 10, width - 1);
    if Digits(a, width) == Digits(b, width) {
      assert u == Digits(a, width)[..width - 1] && v == Digits(b, width)[..width - 1];
      assert Digit(a % 10) == Digits(a, width)[width - 1];
    }
  }

  lemma OneCharacter(a: char, b: char)
    ensures Less([a], [b]) <==> a < b
  {
  }

  /** One field of fixed width and what follows it. */
  lemma {:induction false} Field(a: nat, b: nat, width: nat, separator: string, x: string, y: string)
    requires a < Power(width) && b < Power(width)
    ensures Less(Digits(a, width) + (separator + x), Digits(b, width) + (separator + y))
            <==> a < b || (a == b && Less(x, y))
  {
    DigitsOrder(a, b, width);
    SharedLength(Digits(a, width), Digits(b, width), separator + x, separator + y);
    SharedLength(separator, separator, x, y);
  }

  lemma {:induction false} Irreflexive(s: string)
    ensures !Less(s, s)
  {
    if s != "" {
      Irreflexive(s[1..]);
    }
  }

  lemma FractionOrder(a: nat, b: nat)
    requires 0 < a < 1000000 && 0 < b < 1000000
    ensures Less(Tail(a), Tail(b)) <==> a < b
  {
    assert Power(6) == 1000000;
    DigitsOrder(a, b, 6);
    hide Digits, Power;
    SharedLength(".", ".", Digits(a, 6) + OFFSET, Digits(b, 6) + OFFSET);
    SharedLength(Digits(a, 6), Digits(b, 6), OFFSET, OFFSET);
    Irreflexive(OFFSET);
    hide Less;
    assert Tail(a) == "." + (Digits(a, 6) + OFFSET) && Tail(b) == "." + (Digits(b, 6) + OFFSET);
  }

  /** The offset sorts before every fraction. */
  lemma TailOrder(a: nat, b: nat)
    requires a < 1000000 && b < 1000000
    ensures Less(Tail(a), Tail(b)) <==> a < b
  {
    hide Digits;
    if a > 0 && b > 0 {
      FractionOrder(a, b);
    } else {
      Irreflexive(OFFSET);
    }
  }

  /** The text order of two timestamps is their order in time. */
  lemma TextOrderIsTimeOrder(a: Instant, b: Instant)
    requires Valid(a) && Valid(b)
    ensures Less(Iso(a), Iso(b)) <==> Before(a, b)
  {
    assert Power(2) == 100 && Power(4) == 10000;
    hide Less, Digits, Tail;
    var s6, t6 := Digits(a.second, 2) + Tail(a.micro), Digits(b.second, 2) + Tail(b.micro);
    var s5, t5 := Digits(a.minute, 2) + (":" + s6), Digits(b.minute, 2) + (":" + t6);
    var s4, t4 := Digits(a.hour, 2) + (":" + s5), Digits(b.hour, 2) + (":" + t5);
    var s3, t3 := Digits(a.day, 2) + ("T" + s4), Digits(b.day, 2) + ("T" + t4);
    var s2, t2 := Digits(a.month, 2) + ("-" + s3), Digits(b.month, 2) + ("-" + t3);
    TailOrder(a.micro, b.micro);
    DigitsOrder(a.second, b.second, 2);
    SharedLength(Digits(a.second, 2), Digits(b.second, 2), Tail(a.micro), Tail(b.micro));
    Field(a.minute, b.minute, 2, ":", s6, t6);
    Field(a.hour, b.hour, 2, ":", s5, t5);
    Field(a.day, b.day, 2, "T", s4, t4);
    Field(a.month, b.month, 2, "-", s3, t3);
    Field(a.year, b.year, 4, "-", s2, t2);
  }

  /** Two instants are equal or one is before the other, so `<=` and `>` on the text column
      mean expired and live. */
  lemma ExpiryIsReadOffTheText(expires: Instant, now: Instant)
    requires Valid(expires) && Valid(now)
    ensures Less(Iso(now), Iso(expires)) <==> Before(now, expires)
    ensures (Less(Iso(expires), Iso(now)) || Iso(expires) == Iso(now)) <==> !Before(now, expires)
  {
    TextOrderIsTimeOrder(expires, now);
    TextOrderIsTimeOrder(now, expires);
    if expires != now {
      assert Before(expires, now) || Before(now, expires);
    }
    hide Iso, Less;
    Irreflexive(Iso(now));
  }
}
