/** Splitting on a delimiter, and printing and reading decimals, as the header block does. */
module Text {

  /** boost::split on one delimiter: n delimiters give n + 1 parts. */
  function Split(s: string, d: char): (parts: seq<string>)
    ensures |parts| > 0
  {
    if s == "" then [""]
    else
      var rest := Split(s[1..], d);
      if s[0] == d then [""] + rest else [[s[0]] + rest[0]] + rest[1..]
  }

  /** A part contains no delimiter and only characters of the whole. */
  lemma {:induction false} SplitParts(s: string, d: char)
    ensures forall p :: p in Split(s, d) ==> d !in p && forall c :: c in p ==> c in s
  {
    if s == "" {
    } else {
      SplitParts(s[1..], d);
      var rest := Split(s[1..], d);
      assert rest[0] in rest;
      forall p | p in Split(s, d)
        ensures d !in p && forall c :: c in p ==> c in s
      {
        assert p == "" || p in rest || p == [s[0]] + rest[0];
        assert s == [s[0]] + s[1..];
      }
    }
  }

  /** The text before the first delimiter is the first part. */
  lemma {:induction false} SplitFirst(a: string, d: char, s: string)
    requires d !in a
    ensures Split(a + [d] + s, d) == [a] + Split(s, d)
  {
    if a == "" {
      assert a + [d] + s == [d] + s && ([d] + s)[1..] == s;
    } else {
      assert (a + [d] + s)[1..] == a[1..] + [d] + s;
      SplitFirst(a[1..], d, s);
      assert [a[0]] + a[1..] == a;
    }
  }

  lemma {:induction false} SplitWhole(a: string, d: char)
    requires d !in a
    ensures Split(a, d) == [a]
  {
    if a == "" {
    } else {
      SplitWhole(a[1..], d);
      assert [a[0]] + a[1..] == a;
    }
  }

  lemma SplitTerminated(a: string, d: char)
    requires d !in a
    ensures Split(a + [d], d) == [a, ""]
  {
    SplitFirst(a, d, "");
    assert a + [d] + "" == a + [d];
    assert Split("", d) == [""];
  }

  predicate IsDigit(c: char) {
    '0' <= c <= '9'
  }

  predicate IsSpace(c: char) {
    c == ' ' || 9 <= c as int <= 13
  }

  function DigitChar(d: nat): (c: char)
    requires d < 10
    ensures IsDigit(c) && c as int - '0' as int == d
  {
    ('0' as int + d) as char
  }

  function Digits(n: nat): (s: string)
    ensures s != "" && forall c :: c in s ==> IsDigit(c)
  {
    if n < 10 then [DigitChar(n)] else Digits(n / 10) + [DigitChar(n % 10)]
  }

  /** operator<< for int. */
  function Decimal(n: int): (s: string)
    ensures s != "" && forall c :: c in s ==> IsDigit(c) || c == '-'
  {
    if n < 0 then "-" + Digits(-n) else Digits(n)
  }

  function ReadDigits(s: string, acc: nat): nat {
    if s == "" || !IsDigit(s[0]) then acc else ReadDigits(s[1..], 10 * acc + (s[0] as int - '0' as int))
  }

  /** atoi: leading white space, a sign, then digits up to the first other character. */
  function Atoi(s: string): int {
    if s == "" then 0
    else if IsSpace(s[0]) then Atoi(s[1..])
    else if s[0] == '-' then 0 - ReadDigits(s[1..], 0)
    else if s[0] == '+' then ReadDigits(s[1..], 0)
    else ReadDigits(s, 0)
  }

  lemma {:induction false} ReadAppend(s: string, t: string, acc: nat)
    requires forall c :: c in s ==> IsDigit(c)
    ensures ReadDigits(s + t, acc) == ReadDigits(t, ReadDigits(s, acc))
  {
    if s == "" {
      assert s + t == t;
    } else {
      assert (s + t)[1..] == s[1..] + t && s[0] in s;
      ReadAppend(s[1..], t, 10 * acc + (s[0] as int - '0' as int));
    }
  }

  lemma {:induction false} ReadPrinted(n: nat)
    ensures ReadDigits(Digits(n), 0) == n
  {
    if n >= 10 {
      ReadPrinted(n / 10);
      ReadAppend(Digits(n / 10), [DigitChar(n % 10)], 0);
      assert [DigitChar(n % 10)][1..] == "";
    } else {
      assert [DigitChar(n)][1..] == "";
    }
  }

  /** atoi undoes printing, for negative numbers too. */
  lemma AtoiPrinted(n: int)
    ensures Atoi(Decimal(n)) == n
  {
    if n < 0 {
      assert Decimal(n)[1..] == Digits(-n);
      ReadPrinted(-n);
    } else {
      ReadPrinted(n);
      assert Decimal(n)[0] in Decimal(n);
    }
  }

  // ---------------------------------------------------------------- all of it

  /** The parts with the delimiter put back between them. */
  function Join(parts: seq<string>, d: char): string
    requires parts != []
  {
    if |parts| == 1 then parts[0] else parts[0] + [d] + Join(parts[1..], d)
  }

  /** Splitting loses nothing. */
  lemma {:induction false} SplitJoins(s: string, d: char)
    ensures Join(Split(s, d), d) == s
  {
    if s == "" {
    } else {
      SplitJoins(s[1..], d);
      var rest := Split(s[1..], d);
      if s[0] == d {
        assert ([""] + rest)[1..] == rest;
        assert "" + [d] + s[1..] == s;
      } else {
        var first := [s[0]] + rest[0];
        assert ([first] + rest[1..])[1..] == rest[1..];
        if |rest| == 1 {
          assert first == s;
        } else {
          assert first + [d] + Join(rest[1..], d) == [s[0]] + (rest[0] + [d] + Join(rest[1..], d));
        }
      }
    }
  }

  /** No number but 0 is printed with a leading zero. */
  lemma {:induction false} DigitsPlain(n: nat)
    ensures Digits(n)[0] == '0' <==> n == 0
  {
    if n < 10 {
    } else {
      DigitsPlain(n / 10);
    }
  }

  /** White space is what isspace takes for it: space, tab, newline, vertical tab, form feed, return. */
  lemma SpaceIs(c: char)
    ensures IsSpace(c) <==> c in [' ', '\t', '\n', 11 as char, 12 as char, '\r']
  {
  }

  lemma {:induction false} ReadStops(s: string, t: string, acc: nat)
    requires (forall c :: c in s ==> IsDigit(c)) && (t == "" || !IsDigit(t[0]))
    ensures ReadDigits(s + t, acc) == ReadDigits(s, acc)
  {
    ReadAppend(s, t, acc);
  }

  lemma {:induction false} SkipsSpace(ws: string, s: string)
    requires forall c :: c in ws ==> IsSpace(c)
    ensures Atoi(ws + s) == Atoi(s)
  {
    if ws == "" {
      assert ws + s == s;
    } else {
      assert (ws + s)[1..] == ws[1..] + s && ws[0] in ws;
      SkipsSpace(ws[1..], s);
    }
  }

  /** atoi of any white space, a sign or none, a printed number, and anything that does not go on with a digit. */
  lemma AtoiReads(ws: string, sign: string, n: nat, tail: string)
    requires (forall c :: c in ws ==> IsSpace(c)) && sign in ["", "+", "-"] && (tail == "" || !IsDigit(tail[0]))
    ensures Atoi(ws + (sign + (Digits(n) + tail))) == (if sign == "-" then -1 else 1) * n
  {
    var rest := Digits(n) + tail;
    SkipsSpace(ws, sign + rest);
    ReadStops(Digits(n), tail, 0);
    ReadPrinted(n);
    if sign == "" {
      assert sign + rest == rest && rest[0] in Digits(n);
    } else {
      assert (sign + rest)[1..] == rest && (sign + rest)[0] == sign[0];
    }
  }

  /** And of anything else it is 0. */
  lemma AtoiElse(ws: string, sign: string, tail: string)
    requires (forall c :: c in ws ==> IsSpace(c)) && sign in ["", "+", "-"]
    requires tail == "" || (!IsDigit(tail[0]) && (sign == "" ==> !IsSpace(tail[0]) && tail[0] != '-' && tail[0] != '+'))
    ensures Atoi(ws + (sign + tail)) == 0
  {
    SkipsSpace(ws, sign + tail);
    if sign == "" {
      assert sign + tail == tail;
    } else {
      assert (sign + tail)[1..] == tail && (sign + tail)[0] == sign[0];
    }
  }
}
