/**
 * Shared vocabulary of the order-processor services: results and errors in
 * the shape the services throw them, the decimal rendering JavaScript uses
 * when a number is interpolated into a template string, the handful of
 * `String.prototype` operations the services call, and the archive entries
 * that the two zip builders add.
 */
module Common {

  datatype Option<T> = None | Some(value: T)

  /** A JavaScript `Error`, of which the services only ever read `message`. */
  datatype Error = Error(message: string)

  /** The outcome of an `async` service call: a resolved value or a thrown error. */
  datatype Result<T> = Ok(value: T) | Err(error: Error)

  function Min(a: int, b: int): (m: int) { if a <= b then a else b }
  function Max(a: int, b: int): (m: int) { if a <= b then b else a }

  predicate HasPrefix(s: string, p: string) { |p| <= |s| && s[..|p|] == p }
  predicate HasSuffix(s: string, p: string) { |p| <= |s| && s[|s| - |p|..] == p }

  /** `part` stands in `s` starting at index `k`. */
  predicate OccursAt(s: string, part: string, k: nat)
  {
    k + |part| <= |s| && forall i :: 0 <= i < |part| ==> s[k + i] == part[i]
  }

  lemma OccursAtStart(x: string, q: string)
    ensures OccursAt(x + q, x, 0)
  {
  }

  /** An occurrence inside `s` is still one, further on, inside `p + s`. */
  lemma OccursShift(p: string, s: string, x: string, k: nat)
    requires OccursAt(s, x, k)
    ensures OccursAt(p + s, x, |p| + k)
  {
    forall i | 0 <= i < |x| ensures (p + s)[|p| + k + i] == x[i] {
      assert (p + s)[|p| + k + i] == s[k + i];
    }
  }

  // ---------------------------------------------------------------------------
  // Decimal rendering of non-negative integers (`${n}` and `n.toString()`)
  // ---------------------------------------------------------------------------

  predicate IsDigit(c: char) { '0' <= c <= '9' }

  predicate AllDigits(s: string) { forall i :: 0 <= i < |s| ==> IsDigit(s[i]) }

  function DigitChar(d: nat): (c: char)
    requires d < 10
    ensures IsDigit(c) && c as int - '0' as int == d
  {
    ('0' as int + d) as char
  }

  /**
   * The decimal digits of `n`, most significant first, with no leading zero.
   * This is what JavaScript prints for an integer-valued Number below 10^21.
   */
  function DecimalString(n: nat): (s: string)
    ensures 1 <= |s| && AllDigits(s)
    ensures |s| == 1 <==> n < 10
    ensures s[|s| - 1] == DigitChar(n % 10)
    decreases n
  {
    if n < 10 then [DigitChar(n)] else DecimalString(n / 10) + [DigitChar(n % 10)]
  }

  /** Distinct numbers have distinct decimal renderings. */
  lemma {:induction false} DecimalStringInjective(m: nat, n: nat)
    requires DecimalString(m) == DecimalString(n)
    ensures m == n
  {
    var sm, sn := DecimalString(m), DecimalString(n);
    if m < 10 {
      assert n < 10;
      assert DigitChar(m) == sm[0] == sn[0] == DigitChar(n);
    } else {
      assert n >= 10;
      assert sm[..|sm| - 1] == DecimalString(m / 10);
      assert sn[..|sn| - 1] == DecimalString(n / 10);
      DecimalStringInjective(m / 10, n / 10);
      assert m % 10 == n % 10;
    }
  }

  /**
   * A run of digits followed by a non-digit separator is recovered uniquely:
   * if two strings of the form digits + sep + rest are equal, so are the
   * digit runs and the rests.
   */
  lemma DigitRunSplit(d1: string, d2: string, sep: char, rest1: string, rest2: string)
    requires AllDigits(d1) && AllDigits(d2) && !IsDigit(sep)
    requires d1 + [sep] + rest1 == d2 + [sep] + rest2
    ensures d1 == d2 && rest1 == rest2
  {
    var s := d1 + [sep] + rest1;
    SeparatorAfter(d1, sep, rest1);
    SeparatorAfter(d2, sep, rest2);
    if |d1| < |d2| {
      assert false;
    } else if |d2| < |d1| {
      assert false;
    } else {
      assert d1 == s[..|d1|];
      assert d2 == (d2 + [sep] + rest2)[..|d2|];
      assert rest1 == s[|d1| + 1..];
      assert rest2 == (d2 + [sep] + rest2)[|d2| + 1..];
    }
  }

  lemma SeparatorAfter(d: string, sep: char, rest: string)
    ensures (d + [sep] + rest)[|d|] == sep
    ensures forall i :: 0 <= i < |d| ==> (d + [sep] + rest)[i] == d[i]
  {
  }

  /** Equal strings with a common prefix agree on what follows it. */
  lemma CommonPrefix(p: string, a: string, b: string)
    requires p + a == p + b
    ensures a == b
  {
    assert a == (p + a)[|p|..];
    assert b == (p + b)[|p|..];
  }

  /** Equal strings with a common suffix agree on what precedes it. */
  lemma CommonSuffix(a: string, b: string, q: string)
    requires a + q == b + q
    ensures a == b
  {
    assert a == (a + q)[..|a|];
    assert b == (b + q)[..|b|];
  }

  // ---------------------------------------------------------------------------
  // String.prototype operations, with JavaScript's index clamping
  // ---------------------------------------------------------------------------

  /** `s.slice(start)`: a negative start counts from the end, and is clamped at 0. */
  function SliceFrom(s: string, start: int): (r: string)
    ensures start < 0 ==> |r| == Min(-start, |s|) && HasSuffix(s, r)
    ensures 0 <= start ==> |r| == Max(|s| - start, 0) && HasSuffix(s, r)
  {
    var from := if start < 0 then Max(|s| + start, 0) else Min(start, |s|);
    s[from..]
  }

  /**
   * `s.substring(start, end)`: both indices are clamped to [0, |s|] and
   * swapped when start exceeds end.
   */
  function Substring(s: string, start: int, end: int): (r: string)
    ensures 0 <= start <= end ==> |r| == Min(end, |s|) - Min(start, |s|)
    ensures 0 <= start <= end ==> forall i :: 0 <= i < |r| ==> r[i] == s[start + i]
  {
    var a := Min(Max(start, 0), |s|);
    var b := Min(Max(end, 0), |s|);
    s[Min(a, b)..Max(a, b)]
  }

  predicate IsAsciiLower(c: char) { 'a' <= c <= 'z' }

  function UpperChar(c: char): (u: char)
    ensures !IsAsciiLower(u)
    ensures !IsAsciiLower(c) ==> u == c
    ensures IsAsciiLower(c) ==> u as int == c as int - 32
  {
    if IsAsciiLower(c) then (c as int - 32) as char else c
  }

  /** `s.toUpperCase()` on the ASCII letters; every other character is kept. */
  function ToUpperCase(s: string): (r: string)
    ensures |r| == |s|
    ensures forall i :: 0 <= i < |r| ==> r[i] == UpperChar(s[i])
    ensures forall i :: 0 <= i < |r| ==> !IsAsciiLower(r[i])
  {
    seq(|s|, i requires 0 <= i < |s| => UpperChar(s[i]))
  }

  // ---------------------------------------------------------------------------
  // Archive entries
  // ---------------------------------------------------------------------------

  /** The `files` argument both zip builders receive. */
  datatype OrderFiles = OrderFiles(shippingLabel: string, printSheets: seq<string>)

  /** One `archive.file(source, { name })` call: a local file stored under an entry name. */
  datatype ArchiveEntry = ArchiveEntry(source: string, name: string)

  /** Directory for temporary archives, relative to the service's output directory. */
  const TempDir: string := "temp/"
}
