/** Shared vocabulary of the authentication backend: optional (nullable) values,
    service results, the exceptions the services throw, time, decimal rendering
    and the least element of a set of ids. */
module Common {

  /** A Java reference that may be null. */
  datatype Option<+T> = None | Some(value: T)

  /** The exception a service call throws, by exception class, with its message. */
  datatype Error =
    | ResourceAlreadyExists(message: string)
    | ResourceNotFound(message: string)
    | IllegalState(message: string)
    | UsernameNotFound(message: string)
    | NoSuchElement          // Optional.get() on an empty Optional
    | BadCredentials         // the authentication manager rejected the credentials

  /** A service call either returns a value or throws. */
  datatype Result<+T> = Success(value: T) | Failure(error: Error)

  /** An instant in milliseconds; stands for both LocalDateTime and Instant. */
  type Time = int

  /** `isBefore` of java.time: strictly earlier. */
  predicate IsBefore(a: Time, b: Time)
  {
    a < b
  }

  function DigitChar(d: nat): (c: char)
    requires d < 10
    ensures '0' <= c <= '9' && c as int - '0' as int == d
  {
    ('0' as int + d) as char
  }

  /** The decimal digits of `n`, most significant first. */
  function Digits(n: nat): (s: string)
    ensures |s| >= 1
    ensures forall i :: 0 <= i < |s| ==> '0' <= s[i] <= '9'
    decreases n
  {
    if n < 10 then [DigitChar(n)] else Digits(n / 10) + [DigitChar(n % 10)]
  }

  /** `%d` of a Java long. */
  function Decimal(n: int): string
  {
    if n < 0 then "-" + Digits(-n) else Digits(n)
  }

  /** Reads a string of decimal digits back into a number. */
  function ParseDigits(s: string): int
  {
    if s == [] then 0 else 10 * ParseDigits(s[..|s| - 1]) + (s[|s| - 1] as int - '0' as int)
  }

  /** Reads an optionally signed decimal back into a number. */
  function ParseDecimal(s: string): int
  {
    if |s| > 0 && s[0] == '-' then - ParseDigits(s[1..]) else ParseDigits(s)
  }

  lemma {:induction false} DigitsRoundTrip(n: nat)
    ensures ParseDigits(Digits(n)) == n
    decreases n
  {
    if n >= 10 {
      var s := Digits(n);
      assert s[..|s| - 1] == Digits(n / 10);
      DigitsRoundTrip(n / 10);
    }
  }

  /** `%d` loses nothing: the number can be read back from its rendering. */
  lemma DecimalRoundTrip(n: int)
    ensures ParseDecimal(Decimal(n)) == n
  {
    if n < 0 {
      var s := Decimal(n);
      assert s[1..] == Digits(-n);
      DigitsRoundTrip(-n);
    } else {
      DigitsRoundTrip(n);
    }
  }

  /** Two different numbers never render alike. */
  lemma DecimalInjective(a: int, b: int)
    requires Decimal(a) == Decimal(b)
    ensures a == b
  {
    DecimalRoundTrip(a);
    DecimalRoundTrip(b);
  }

  lemma {:induction false} LeastExists(s: set<int>, w: int)
    requires w in s
    ensures exists m :: m in s && forall x :: x in s ==> m <= x
    decreases |s|
  {
    var rest := s - {w};
    if v :| v in rest {
      LeastExists(rest, v);
      var m :| m in rest && forall x :: x in rest ==> m <= x;
      var least := if w < m then w else m;
      assert forall x :: x in s ==> x == w || x in rest;
      assert least in s && forall x :: x in s ==> least <= x;
    } else {
      assert forall x :: x in s ==> x == w || x in rest;
    }
  }

  /** The smallest element of a non-empty set of ids. */
  function Least(s: set<int>): (m: int)
    requires exists x :: x in s
    ensures m in s && forall x :: x in s ==> m <= x
  {
    var w :| w in s;
    LeastExists(s, w);
    var m :| m in s && forall x :: x in s ==> m <= x;
    m
  }
}
