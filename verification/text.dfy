/**
 * The pieces of Go's `strings` and `strconv` packages that the proxy
 * relies on, over byte strings: `strings.Split` with a one-byte
 * separator, `strconv.Atoi`, `strconv.ParseUint(s, 10, 32)` and the
 * `%d` verb of `fmt.Sprintf`.
 */
module Text {
  import opened Wrappers
  import opened Bytes

  const Colon: uint8 := 0x3A
  const Comma: uint8 := 0x2C
  const Dash: uint8 := 0x2D
  const Plus: uint8 := 0x2B
  const Zero: uint8 := 0x30

  /** The bytes of an ASCII literal. */
  function Ascii(s: string): seq<uint8>
  {
    seq(|s|, i requires 0 <= i < |s| => (s[i] as int) % 0x100)
  }

  // ---------------------------------------------------------------- Split

  /**
   * `strings.Split(s, sep)`: the pieces of `s` between occurrences of
   * `sep`. There is always at least one piece, and none holds `sep`.
   */
  function Split(s: seq<uint8>, sep: uint8): (parts: seq<seq<uint8>>)
    ensures |parts| >= 1
    ensures forall i :: 0 <= i < |parts| ==> sep !in parts[i]
  {
    if s == [] then [[]]
    else
      var tail := Split(s[1..], sep);
      if s[0] == sep then [[]] + tail
      else [[s[0]] + tail[0]] + tail[1..]
  }

  /** `strings.Join(parts, [sep])`, the inverse of `Split`. */
  function Join(parts: seq<seq<uint8>>, sep: uint8): seq<uint8>
    requires |parts| >= 1
  {
    if |parts| == 1 then parts[0] else parts[0] + [sep] + Join(parts[1..], sep)
  }

  lemma {:induction false} SplitWithoutSeparator(s: seq<uint8>, sep: uint8)
    requires sep !in s
    ensures Split(s, sep) == [s]
  {
    if s != [] {
      SplitWithoutSeparator(s[1..], sep);
      assert [s[0]] + s[1..] == s;
    }
  }

  lemma {:induction false} SplitAtFirstSeparator(a: seq<uint8>, b: seq<uint8>, sep: uint8)
    requires sep !in a
    ensures Split(a + [sep] + b, sep) == [a] + Split(b, sep)
  {
    if a != [] {
      assert (a + [sep] + b)[1..] == a[1..] + [sep] + b;
      SplitAtFirstSeparator(a[1..], b, sep);
      assert [a[0]] + a[1..] == a;
    } else {
      assert a + [sep] + b == [sep] + b;
    }
  }

  /** Splitting a join of separator-free pieces gives the pieces back. */
  lemma {:induction false} SplitJoin(parts: seq<seq<uint8>>, sep: uint8)
    requires |parts| >= 1
    requires forall i :: 0 <= i < |parts| ==> sep !in parts[i]
    ensures Split(Join(parts, sep), sep) == parts
  {
    if |parts| == 1 {
      SplitWithoutSeparator(parts[0], sep);
    } else {
      SplitJoin(parts[1..], sep);
      SplitAtFirstSeparator(parts[0], Join(parts[1..], sep), sep);
      assert [parts[0]] + parts[1..] == parts;
    }
  }

  /** Joining the pieces of a split gives the string back. */
  lemma {:induction false} JoinSplit(s: seq<uint8>, sep: uint8)
    ensures Join(Split(s, sep), sep) == s
  {
    if s != [] {
      JoinSplit(s[1..], sep);
      var tail := Split(s[1..], sep);
      if s[0] == sep {
        assert Split(s, sep)[1..] == tail;
      } else {
        var parts := Split(s, sep);
        assert parts[0] == [s[0]] + tail[0];
        if |tail| == 1 {
          assert parts == [[s[0]] + tail[0]];
        } else {
          assert parts[1..] == tail[1..];
          assert Join(tail, sep) == tail[0] + [sep] + Join(tail[1..], sep);
        }
      }
    }
  }

  // ---------------------------------------------------------------- digits

  predicate IsDigit(c: uint8)
  {
    Zero <= c <= Zero + 9
  }

  predicate AllDigits(s: seq<uint8>)
  {
    forall i :: 0 <= i < |s| ==> IsDigit(s[i])
  }

  /** The value of a string of decimal digits, read most significant first. */
  function DecimalValue(s: seq<uint8>): nat
    requires AllDigits(s)
  {
    if s == [] then 0 else DecimalValue(s[..|s| - 1]) * 10 + (s[|s| - 1] - Zero)
  }

  /** The `%d` rendering of a natural number: digits, no leading zero. */
  function FormatNat(n: nat): (s: seq<uint8>)
    ensures |s| >= 1 && AllDigits(s)
    ensures n >= 10 ==> s[0] != Zero
  {
    if n < 10 then [Zero + n] else FormatNat(n / 10) + [Zero + n % 10]
  }

  /** The `%d` rendering of an integer: a minus sign before negatives. */
  function FormatInt(i: int): (s: seq<uint8>)
    ensures |s| >= 1 && (s[0] == Dash <==> i < 0)
    ensures i < 0 ==> AllDigits(s[1..])
    ensures i >= 0 ==> AllDigits(s)
  {
    if i < 0 then [Dash] + FormatNat(-i) else FormatNat(i)
  }

  lemma {:induction false} DecimalValueOfFormatNat(n: nat)
    ensures DecimalValue(FormatNat(n)) == n
  {
    if n >= 10 {
      DecimalValueOfFormatNat(n / 10);
      var s := FormatNat(n);
      assert s[..|s| - 1] == FormatNat(n / 10);
    }
  }

  /** A rendered integer holds neither a colon, a comma nor a plus sign. */
  lemma FormatIntIsPlain(i: int)
    ensures Colon !in FormatInt(i) && Comma !in FormatInt(i) && Plus !in FormatInt(i)
    ensures i >= 0 ==> Dash !in FormatInt(i)
  {
    var d := FormatNat(if i < 0 then -i else i);
    assert forall k :: 0 <= k < |d| ==> IsDigit(d[k]);
  }

  // ---------------------------------------------------------------- Atoi

  /**
   * `strconv.Atoi`: an optional `+` or `-`, then at least one decimal
   * digit; anything else is a syntax error (None).
   */
  function Atoi(s: seq<uint8>): (r: Option<int>)
    ensures r.Some? ==> |s| >= 1
    ensures r.Some? && r.value < 0 ==> s[0] == Dash
    ensures r.Some? && s[0] != Dash ==> r.value >= 0
  {
    if s == [] then None
    else if s[0] == Plus || s[0] == Dash then
      if |s| == 1 || !AllDigits(s[1..]) then None
      else if s[0] == Dash then Some(0 - DecimalValue(s[1..]) as int)
      else Some(DecimalValue(s[1..]) as int)
    else if AllDigits(s) then Some(DecimalValue(s) as int)
    else None
  }

  /** Atoi reads back every integer that `%d` writes. */
  lemma AtoiFormatInt(i: int)
    ensures Atoi(FormatInt(i)) == Some(i)
  {
    if i < 0 {
      DecimalValueOfFormatNat(-i);
      assert FormatInt(i)[1..] == FormatNat(-i);
    } else {
      DecimalValueOfFormatNat(i);
      assert IsDigit(FormatInt(i)[0]);
    }
  }

  /** Atoi succeeds exactly on an optional sign followed by digits. */
  lemma AtoiAccepts(s: seq<uint8>)
    ensures Atoi(s).Some? <==>
      (|s| >= 1 && AllDigits(s)) ||
      (|s| >= 2 && (s[0] == Plus || s[0] == Dash) && AllDigits(s[1..]))
  {
    if |s| >= 1 && AllDigits(s) {
      assert IsDigit(s[0]);
    }
  }

  // ---------------------------------------------------------------- ParseUint

  datatype NumError = SyntaxError | RangeError

  /** One more digit at the end multiplies the value by ten and adds the digit. */
  lemma DecimalValueAppend(u: seq<uint8>, d: uint8)
    requires AllDigits(u) && IsDigit(d)
    ensures AllDigits(u + [d]) && DecimalValue(u + [d]) == DecimalValue(u) * 10 + (d - Zero)
  {
    assert (u + [d])[..|u|] == u;
  }

  /** Appending digits never lowers the value. */
  lemma {:induction false} DecimalValueGrows(u: seq<uint8>, v: seq<uint8>)
    requires AllDigits(u + v)
    ensures AllDigits(u) && DecimalValue(u) <= DecimalValue(u + v)
  {
    assert forall i :: 0 <= i < |u| ==> u[i] == (u + v)[i];
    if v == [] {
      assert u + v == u;
    } else {
      var n := |v| - 1;
      assert (u + v)[..|u + v| - 1] == u + v[..n];
      DecimalValueGrows(u, v[..n]);
    }
  }

  /**
   * The digit loop of `strconv.ParseUint(s, 10, 32)`: bytes are taken
   * left to right, a non-digit is a syntax error, and a value that
   * passes MaxUint32 is a range error at once, even if a non-digit
   * follows.
   */
  function ScanUint32(s: seq<uint8>, acc: uint32): Result<uint32, NumError>
    decreases |s|
  {
    if s == [] then Ok(acc)
    else if !IsDigit(s[0]) then Err(SyntaxError)
    else
      var n := acc * 10 + (s[0] - Zero);
      if n > MaxUint32 then Err(RangeError) else ScanUint32(s[1..], n)
  }

  /**
   * A scan that started after the digits `t` and succeeds has read only
   * digits, and its value is the decimal value of `t` followed by them.
   */
  lemma {:induction false} ScanValue(t: seq<uint8>, s: seq<uint8>)
    requires AllDigits(t) && DecimalValue(t) <= MaxUint32
    ensures ScanUint32(s, DecimalValue(t)).Ok? ==>
      AllDigits(t + s) && ScanUint32(s, DecimalValue(t)).value == DecimalValue(t + s)
    decreases |s|
  {
    if s == [] {
      assert t + s == t;
    } else if IsDigit(s[0]) {
      DecimalValueAppend(t, s[0]);
      var t' := t + [s[0]];
      assert t' + s[1..] == t + s;
      if DecimalValue(t') <= MaxUint32 {
        ScanValue(t', s[1..]);
      }
    }
  }

  /** After the digits `t`, digits whose joint value fits in 32 bits scan without error to that value. */
  lemma {:induction false} ScanDigits(t: seq<uint8>, s: seq<uint8>)
    requires AllDigits(t + s) && DecimalValue(t + s) <= MaxUint32
    ensures AllDigits(t) && DecimalValue(t) <= DecimalValue(t + s)
    ensures ScanUint32(s, DecimalValue(t)) == Ok(DecimalValue(t + s))
    decreases |s|
  {
    DecimalValueGrows(t, s);
    if s == [] {
      assert t + s == t;
    } else {
      var t' := t + [s[0]];
      assert t' + s[1..] == t + s;
      assert IsDigit((t + s)[|t|]);
      DecimalValueAppend(t, s[0]);
      DecimalValueGrows(t', s[1..]);
      ScanDigits(t', s[1..]);
    }
  }

  /**
   * `strconv.ParseUint(s, 10, 32)`: it succeeds exactly on a non-empty
   * run of decimal digits whose value fits in 32 bits, and then returns
   * that value.
   */
  function ParseUint32(s: seq<uint8>): (r: Result<uint32, NumError>)
    ensures r.Ok? <==> |s| >= 1 && AllDigits(s) && DecimalValue(s) <= MaxUint32
    ensures r.Ok? ==> r.value == DecimalValue(s)
  {
    if s == [] then Err(SyntaxError)
    else
      assert [] + s == s;
      ScanValue([], s);
      if AllDigits(s) && DecimalValue(s) <= MaxUint32 then ScanDigits([], s); ScanUint32(s, 0)
      else ScanUint32(s, 0)
  }

  /** The value `ParseUint` returns beside its error: 0 for bad syntax, MaxUint32 when out of range. */
  function ParseUint32Value(s: seq<uint8>): (v: uint32)
    ensures ParseUint32(s).Ok? ==> v == ParseUint32(s).value
    ensures ParseUint32(s) == Err(RangeError) ==> v == MaxUint32
  {
    match ParseUint32(s)
    case Ok(v) => v
    case Err(SyntaxError) => 0
    case Err(RangeError) => MaxUint32
  }

  /** ParseUint reads back every 32-bit value `%d` writes. */
  lemma ParseUint32FormatNat(n: nat)
    requires n <= MaxUint32
    ensures ParseUint32(FormatNat(n)) == Ok(n)
  {
    DecimalValueOfFormatNat(n);
  }

  /** ParseUint rejects a sign, which Atoi would accept. */
  lemma ParseUint32RejectsSign(s: seq<uint8>)
    requires |s| >= 1 && (s[0] == Plus || s[0] == Dash)
    ensures ParseUint32(s) == Err(SyntaxError)
  {
  }

}
