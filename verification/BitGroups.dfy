/** Regrouping a string of bits into digits of another width. */
module BitGroups {
  import opened Arithmetic
  import opened MachineInts
  import opened Bech32m

  // ---- Numbers spelled in digits ----

  predicate Digits(digits: seq<byte>, width: nat) {
    forall i :: 0 <= i < |digits| ==> digits[i] < Pow2(width)
  }

  /** The number whose base-2^width digits these are. */
  function Number(digits: seq<byte>, width: nat): nat {
    if digits == [] then 0 else Number(digits[..|digits| - 1], width) * Pow2(width) + digits[|digits| - 1]
  }

  lemma NumberAppends(digits: seq<byte>, d: byte, width: nat)
    ensures Number(digits + [d], width) == Number(digits, width) * Pow2(width) + d
  {
  }

  /** Digits of a given count spell their number in one way only. */
  lemma {:induction false} DigitsAreUnique(a: seq<byte>, b: seq<byte>, width: nat)
    requires |a| == |b| && Digits(a, width) && Digits(b, width) && Number(a, width) == Number(b, width)
    ensures a == b
  {
    if a != [] {
      var n := |a| - 1;
      DivModUnique(Number(a[..n], width), a[n], Number(b[..n], width), b[n], Pow2(width));
      DigitsAreUnique(a[..n], b[..n], width);
      assert a == a[..n] + [a[n]] && b == b[..n] + [b[n]];
    }
  }

  /** `narrow` holds the bits of `wide` followed by fewer than one digit of zeros. */
  predicate Packs(wide: seq<byte>, w: nat, narrow: seq<byte>, n: nat, zeros: nat) {
    && Digits(wide, w) && Digits(narrow, n) && zeros < n
    && |narrow| * n == |wide| * w + zeros
    && Number(narrow, n) == Number(wide, w) * Pow2(zeros)
  }

  // ---- Bits of the accumulator ----

  lemma Nested(b: nat, q: nat, s: nat, p: nat, r: nat)
    requires s < q && r < p
    ensures (b * q + s) * p + r == b * (p * q) + (s * p + r)
    ensures s * p + r < p * q
  {
    NextMultiple(s, q, p);
    assert (b * q + s) * p == b * q * p + s * p;
    assert b * q * p == b * (p * q);
    assert q * p == p * q;
  }

  lemma SplitProduct(x: nat, p: nat, q: nat)
    requires p > 0 && q > 0
    ensures p * q > 0 && x % (p * q) == (x / p) % q * p + x % p
  {
    var a, r := x / p, x % p;
    var b, s := a / q, a % q;
    DivMod(x, p);
    DivMod(a, q);
    Nested(b, q, s, p, r);
    Remainder(x, b, s * p + r, p * q);
  }

  lemma SplitAt(x: nat, low: nat, high: nat)
    ensures x % Pow2(low + high) == (x / Pow2(low)) % Pow2(high) * Pow2(low) + x % Pow2(low)
  {
    Pow2Adds(low, high);
    SplitProduct(x, Pow2(low), Pow2(high));
  }

  lemma ShiftProduct(x: nat, p: nat, f: nat, v: nat)
    requires p > 0 && v < f
    ensures p * f > 0 && (x * f + v) % (p * f) == x % p * f + v
  {
    var a, r := x / p, x % p;
    Nested(a, p, r, f, v);
    assert f * p == p * f;
    Remainder(x * f + v, a, r * f + v, p * f);
  }

  lemma ShiftIn(x: nat, held: nat, from: nat, v: nat)
    requires v < Pow2(from)
    ensures (x * Pow2(from) + v) % Pow2(held + from) == x % Pow2(held) * Pow2(from) + v
  {
    Pow2Adds(held, from);
    ShiftProduct(x, Pow2(held), Pow2(from), v);
  }

  /** Bits lost off the top of the 32-bit accumulator do not reach the low ones. */
  lemma Truncates(x: nat, k: nat)
    requires k <= 32
    ensures x % Pow2(32) % Pow2(k) == x % Pow2(k)
  {
    SplitAt(x, k, 32 - k);
    var q := (x / Pow2(k)) % Pow2(32 - k);
    Remainder(q * Pow2(k) + x % Pow2(k), q, x % Pow2(k), Pow2(k));
  }

  // ---- The conversion loop ----

  /** What was read is what was written out, then the `bits` low bits held. */
  predicate Held(read: seq<byte>, from: nat, out: seq<byte>, to: nat, accumulator: nat, bits: nat) {
    && Digits(read, from) && Digits(out, to)
    && |read| * from == |out| * to + bits
    && Number(read, from) == Number(out, to) * Pow2(bits) + accumulator % Pow2(bits)
  }

  function ShiftedIn(accumulator: nat, from: nat, v: nat): nat {
    (accumulator * Pow2(from) + v) % Pow2(32)
  }

  lemma OneMore(count: nat, width: nat)
    ensures (count + 1) * width == count * width + width
  {
  }

  lemma TakesInNumber(number: nat, n: nat, p: nat, a: nat, f: nat, v: nat)
    requires number == n * p + a
    ensures number * f + v == n * (p * f) + (a * f + v)
  {
  }

  lemma LowBitsTakeIn(accumulator: nat, bits: nat, from: nat, v: nat)
    requires v < Pow2(from) && bits + from <= 32
    ensures ShiftedIn(accumulator, from, v) % Pow2(bits + from) == accumulator % Pow2(bits) * Pow2(from) + v
  {
    var shifted := accumulator * Pow2(from) + v;
    Truncates(shifted, bits + from);
    ShiftIn(accumulator, bits, from, v);
  }

  lemma TakesIn(read: seq<byte>, from: nat, out: seq<byte>, to: nat, accumulator: nat, bits: nat, v: byte)
    requires Held(read, from, out, to, accumulator, bits) && v < Pow2(from) && bits + from <= 32
    ensures Held(read + [v], from, out, to, ShiftedIn(accumulator, from, v), bits + from)
  {
    OneMore(|read|, from);
    NumberAppends(read, v, from);
    LowBitsTakeIn(accumulator, bits, from, v);
    Pow2Adds(bits, from);
    TakesInNumber(Number(read, from), Number(out, to), Pow2(bits), accumulator % Pow2(bits), Pow2(from), v);
  }

  function TopDigit(accumulator: nat, bits: nat, to: nat): nat {
    (accumulator / Pow2(bits)) % Pow2(to)
  }

  lemma PutsOutNumber(n: nat, t: nat, d: nat, p: nat, r: nat)
    ensures n * (t * p) + (d * p + r) == (n * t + d) * p + r
  {
  }

  lemma PutsOut(read: seq<byte>, from: nat, out: seq<byte>, to: nat, accumulator: nat, bits: nat, d: byte)
    requires Held(read, from, out, to, accumulator, bits + to) && d == TopDigit(accumulator, bits, to)
    ensures Held(read, from, out + [d], to, accumulator, bits)
  {
    OneMore(|out|, to);
    NumberAppends(out, d, to);
    SplitAt(accumulator, bits, to);
    Pow2Adds(to, bits);
    PutsOutNumber(Number(out, to), Pow2(to), d, Pow2(bits), accumulator % Pow2(bits));
  }

  lemma DigitFits(x: nat, width: nat)
    requires width <= 8
    ensures x % Pow2(width) < 256
  {
    Pow2Adds(width, 8 - width);
    assert Pow2(8) == 256;
    assert Pow2(width) * 1 <= Pow2(width) * Pow2(8 - width);
  }

  method Drain(read: seq<byte>, from: nat, out: seq<byte>, to: nat, accumulator: nat, held: nat)
      returns (more: seq<byte>, bits: nat)
    requires 1 <= to <= 8 && Held(read, from, out, to, accumulator, held)
    ensures bits < to && Held(read, from, more, to, accumulator, bits)
  {
    more, bits := out, held;
    while bits >= to
      invariant Held(read, from, more, to, accumulator, bits)
    {
      bits := bits - to;
      DigitFits(accumulator / Pow2(bits), to);
      var d := TopDigit(accumulator, bits, to);
      PutsOut(read, from, more, to, accumulator, bits, d);
      more := more + [d];
    }
  }

  /** The held bits moved to the top of a digit. */
  function LastDigit(accumulator: nat, bits: nat, to: nat): nat
    requires bits <= to
  {
    (accumulator * Pow2(to - bits)) % Pow2(32) % Pow2(to)
  }

  lemma LastDigitHolds(accumulator: nat, bits: nat, to: nat)
    requires bits <= to <= 8
    ensures LastDigit(accumulator, bits, to) == accumulator % Pow2(bits) * Pow2(to - bits)
  {
    Truncates(accumulator * Pow2(to - bits), to);
    ShiftIn(accumulator, bits, to - bits, 0);
  }

  lemma PadsOut(data: seq<byte>, from: nat, out: seq<byte>, to: nat, accumulator: nat, bits: nat, d: byte)
    requires Held(data, from, out, to, accumulator, bits) && 0 < bits < to <= 8 && d == LastDigit(accumulator, bits, to)
    ensures Packs(data, from, out + [d], to, to - bits)
  {
    OneMore(|out|, to);
    LastDigitHolds(accumulator, bits, to);
    NumberAppends(out, d, to);
    Pow2Adds(bits, to - bits);
    TakesInNumber(Number(data, from), Number(out, to), Pow2(bits), accumulator % Pow2(bits), Pow2(to - bits), 0);
  }

  lemma NothingPacks(data: seq<byte>, from: nat, out: seq<byte>, to: nat, accumulator: nat, bits: nat,
                     wide: seq<byte>, zeros: nat)
    requires Held(data, from, out, to, accumulator, bits) && bits < to && zeros < to
    requires Packs(wide, to, data, from, zeros)
    ensures bits < from && accumulator % Pow2(bits) == 0
  {
    DivModUnique(|out|, bits, |wide|, zeros, to);
    DivModUnique(Number(out, to), accumulator % Pow2(bits), Number(wide, to), 0, Pow2(bits));
  }

  lemma NothingHeld(from: nat, to: nat)
    ensures Held([], from, [], to, 0, 0)
  {
  }

  method ReadIn(data: seq<byte>, from: nat, to: nat) returns (valid: bool, out: seq<byte>, accumulator: nat, bits: nat)
    requires 1 <= from <= 8 && 1 <= to <= 8
    ensures valid <==> Digits(data, from)
    ensures valid ==> bits < to && Held(data, from, out, to, accumulator, bits)
  {
    valid, out, accumulator, bits := true, [], 0, 0;
    NothingHeld(from, to);
    var n := 0;
    while n < |data|
      invariant 0 <= n <= |data| && bits < to && Held(data[..n], from, out, to, accumulator, bits)
    {
      if data[n] >= Pow2(from) {
        return false, out, accumulator, bits;
      }
      var read := data[..n] + [data[n]];
      TakesIn(data[..n], from, out, to, accumulator, bits, data[n]);
      accumulator := ShiftedIn(accumulator, from, data[n]);
      out, bits := Drain(read, from, out, to, accumulator, bits + from);
      n := n + 1;
      assert data[..n] == read;
    }
    assert data[..n] == data;
  }

  /** Padded, the digits out are those in, followed by zeros. Unpadded, the
      digits in must be those out, followed by zeros. */
  method ConvertBits(data: seq<byte>, from: nat, to: nat, pad: bool) returns (r: Result<seq<byte>, AddressError>)
    requires 1 <= from <= 8 && 1 <= to <= 8
    ensures r == Err(BadData) <==> !Digits(data, from)
    ensures pad && Digits(data, from) ==> r.Ok? && exists zeros :: Packs(data, from, r.value, to, zeros)
    ensures !pad && r.Ok? ==> exists zeros :: Packs(r.value, to, data, from, zeros)
    ensures !pad && r.Err? ==> forall wide, zeros: nat :: zeros < to ==> !Packs(wide, to, data, from, zeros)
  {
    var valid, out, accumulator, bits := ReadIn(data, from, to);
    if !valid {
      return Err(BadData);
    }
    r := Finish(data, from, out, to, accumulator, bits, pad);
  }

  method Finish(data: seq<byte>, from: nat, out: seq<byte>, to: nat, accumulator: nat, bits: nat, pad: bool)
    returns (r: Result<seq<byte>, AddressError>)
    requires Held(data, from, out, to, accumulator, bits) && bits < to <= 8 && 1 <= from
    ensures r != Err(BadData)
    ensures pad ==> r.Ok? && exists zeros :: Packs(data, from, r.value, to, zeros)
    ensures !pad && r.Ok? ==> exists zeros :: Packs(r.value, to, data, from, zeros)
    ensures !pad && r.Err? ==> forall wide, zeros: nat :: zeros < to ==> !Packs(wide, to, data, from, zeros)
  {
    LastDigitHolds(accumulator, bits, to);
    if pad {
      if bits > 0 {
        DigitFits(accumulator * Pow2(to - bits) % Pow2(32), to);
        var d := LastDigit(accumulator, bits, to);
        PadsOut(data, from, out, to, accumulator, bits, d);
        return Ok(out + [d]);
      }
      assert Packs(data, from, out, to, 0);
    } else {
      if bits >= from || LastDigit(accumulator, bits, to) != 0 {
        Refuses(data, from, out, to, accumulator, bits);
        return Err(BadPadding);
      }
      assert accumulator % Pow2(bits) == 0 by {
        ZeroProduct(accumulator % Pow2(bits), Pow2(to - bits));
      }
      assert Packs(out, to, data, from, bits);
    }
    return Ok(out);
  }

  lemma ZeroProduct(a: nat, p: nat)
    requires a * p == 0 && p > 0
    ensures a == 0
  {
  }

  lemma Refuses(data: seq<byte>, from: nat, out: seq<byte>, to: nat, accumulator: nat, bits: nat)
    requires Held(data, from, out, to, accumulator, bits) && bits < to
    requires bits >= from || accumulator % Pow2(bits) != 0
    ensures forall wide, zeros: nat :: zeros < to ==> !Packs(wide, to, data, from, zeros)
  {
    forall wide, zeros: nat | zeros < to && Packs(wide, to, data, from, zeros)
      ensures false
    {
      NothingPacks(data, from, out, to, accumulator, bits, wide, zeros);
    }
  }

  lemma SameMultiple(a: nat, b: nat, n: nat, base: nat, z: nat, y: nat)
    requires a * n == base + z && b * n == base + y && z < n && y < n
    ensures a == b && z == y
  {
    if a < b {
      NextMultiple(a, b, n);
    } else if b < a {
      NextMultiple(b, a, n);
    }
  }

  /** Packing is one-to-one, both ways. */
  lemma PacksOneWay(wide: seq<byte>, w: nat, narrow: seq<byte>, other: seq<byte>, n: nat, z: nat, y: nat)
    requires Packs(wide, w, narrow, n, z) && Packs(wide, w, other, n, y)
    ensures narrow == other
  {
    SameMultiple(|narrow|, |other|, n, |wide| * w, z, y);
    DigitsAreUnique(narrow, other, n);
  }

  lemma SameCount(a: nat, b: nat, n: nat)
    requires n > 0 && a * n == b * n
    ensures a == b
  {
  }

  lemma PacksOtherWay(wide: seq<byte>, other: seq<byte>, w: nat, narrow: seq<byte>, n: nat, z: nat, y: nat)
    requires Packs(wide, w, narrow, n, z) && Packs(other, w, narrow, n, y) && n <= w
    ensures wide == other
  {
    DivModUnique(|wide|, z, |other|, y, w);
    SameCount(Number(wide, w), Number(other, w), Pow2(z));
    DigitsAreUnique(wide, other, w);
  }
}
