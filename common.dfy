/** Machine integer ranges, an Option type and C string-buffer helpers shared by the other modules. */
module Common {

  /** A C `uint32_t` / `unsigned int` before any bitwise work: an integer in [0, 2^32). */
  type u32 = x: int | 0 <= x < 0x1_0000_0000

  /** A C `uint64_t` / `size_t` on a 64-bit host: an integer in [0, 2^64). */
  type u64 = x: int | 0 <= x < 0x1_0000_0000_0000_0000

  /** A C `uint8_t` / `unsigned char` used only as data: an integer in [0, 256). */
  type byte = x: int | 0 <= x < 256

  const TWO_32: int := 0x1_0000_0000
  const TWO_64: int := 0x1_0000_0000_0000_0000

  /** A product of naturals is a natural, and it vanishes when a factor does. */
  lemma MulNat(a: int, b: int)
    requires 0 <= a && 0 <= b
    ensures 0 <= a * b
    ensures a == 0 || b == 0 ==> a * b == 0
  {
  }

  /** Reducing a number that is already in range leaves it unchanged. */
  lemma ModInRange(p: int, m: int)
    requires 0 <= p < m
    ensures p % m == p
  {
  }

  /** The conventional optional value, standing in for a C pointer that may be NULL. */
  datatype Option<+T> = None | Some(value: T)

  /** The characters a fixed-size C buffer keeps after `strncpy(buf, s, n)` followed by a
      NUL at index n: at most the first n characters of s. */
  function Truncate(s: string, n: nat): (r: string)
    ensures |r| <= n && |r| <= |s|
    ensures |s| <= n ==> r == s
    ensures |s| > n ==> |r| == n
    ensures forall k :: 0 <= k < |r| ==> r[k] == s[k]
  {
    if |s| <= n then s else s[..n]
  }

  /** Number of elements of s that satisfy p. */
  function Count<T>(s: seq<T>, p: T -> bool): (n: nat)
    ensures n <= |s|
  {
    if s == [] then 0 else Count(s[..|s| - 1], p) + (if p(s[|s| - 1]) then 1 else 0)
  }

  /** Counting distributes over concatenation. */
  lemma {:induction false} CountAppend<T>(a: seq<T>, b: seq<T>, p: T -> bool)
    ensures Count(a + b, p) == Count(a, p) + Count(b, p)
    decreases |b|
  {
    if b != [] {
      assert (a + b)[..|a + b| - 1] == a + b[..|b| - 1];
      CountAppend(a, b[..|b| - 1], p);
    } else {
      assert a + b == a;
    }
  }

  /** Nothing is counted exactly when no element satisfies p. */
  lemma {:induction false} CountZero<T>(s: seq<T>, p: T -> bool)
    ensures Count(s, p) == 0 <==> forall k :: 0 <= k < |s| ==> !p(s[k])
    decreases |s|
  {
    if s != [] {
      var init := s[..|s| - 1];
      CountZero(init, p);
      if Count(s, p) == 0 {
        assert forall k :: 0 <= k < |init| ==> init[k] == s[k];
      }
    }
  }

  /** Decimal rendering of a natural number, as Python's `str(n)` and C's `%zu` print it. */
  function NatToString(n: nat): (r: string)
    ensures |r| >= 1
    ensures forall k :: 0 <= k < |r| ==> '0' <= r[k] <= '9'
    decreases n
  {
    if n < 10 then [DigitChar(n)] else NatToString(n / 10) + [DigitChar(n % 10)]
  }

  function DigitChar(d: nat): (c: char)
    requires d < 10
    ensures '0' <= c <= '9'
  {
    ['0', '1', '2', '3', '4', '5', '6', '7', '8', '9'][d]
  }

  /** Value of a string of decimal digits. */
  function DecimalValue(s: string): nat
    requires forall k :: 0 <= k < |s| ==> '0' <= s[k] <= '9'
  {
    if s == [] then 0 else 10 * DecimalValue(s[..|s| - 1]) + ((s[|s| - 1] as int) - ('0' as int))
  }

  /** Printing a count in decimal loses nothing: the digits read back as the same number. */
  lemma {:induction false} NatToStringRoundTrip(n: nat)
    ensures DecimalValue(NatToString(n)) == n
    decreases n
  {
    if n >= 10 {
      var r := NatToString(n);
      assert r[..|r| - 1] == NatToString(n / 10);
      NatToStringRoundTrip(n / 10);
    }
  }
}
