/** The Bech32m checksum. The 30-bit register of the polymod loop is read as
    six 5-bit symbols; in that form one step shifts a symbol in and adds, over
    GF(2), the generators selected by the symbol that falls out. */
module Bech32Checksum {

  /** The register, most significant symbol first. */
  datatype Register = Register(s0: bv5, s1: bv5, s2: bv5, s3: bv5, s4: bv5, s5: bv5)

  function Plus(a: Register, b: Register): Register {
    Register(a.s0 ^ b.s0, a.s1 ^ b.s1, a.s2 ^ b.s2, a.s3 ^ b.s3, a.s4 ^ b.s4, a.s5 ^ b.s5)
  }

  const ZERO := Register(0, 0, 0, 0, 0, 0)

  function Pack(r: Register): bv32 {
    ((r.s0 as bv32) << 25) | ((r.s1 as bv32) << 20) | ((r.s2 as bv32) << 15)
    | ((r.s3 as bv32) << 10) | ((r.s4 as bv32) << 5) | (r.s5 as bv32)
  }

  const GENERATORS: seq<bv32> := [0x3b6a_57b2, 0x2650_8e6d, 0x1ea1_19fa, 0x3d42_33dd, 0x2a14_62b3]

  /** The same five constants, symbol by symbol. */
  const GENERATOR_SYMBOLS: seq<Register> := [
    Register(29, 22, 20, 21, 29, 18),
    Register(19, 5, 1, 3, 19, 13),
    Register(15, 10, 2, 6, 15, 26),
    Register(30, 20, 4, 12, 30, 29),
    Register(21, 1, 8, 24, 21, 19)]

  const BECH32M_CONST: bv32 := 0x2bc8_30a3
  const TARGET := Register(21, 28, 16, 12, 5, 3)

  lemma GeneratorsAgree(i: nat)
    requires i < 5
    ensures GENERATORS[i] == Pack(GENERATOR_SYMBOLS[i])
  {
  }

  lemma TargetAgrees()
    ensures BECH32M_CONST == Pack(TARGET)
  {
  }

  // ---- One step ----

  predicate Selects(top: bv5, i: nat)
    requires i < 5
  {
    (top >> i) & 1 != 0
  }

  /** The first `count` generators, each added if its bit of `top` is set. */
  function Feed(r: Register, top: bv5, count: nat): Register
    requires count <= 5
  {
    if count == 0 then r
    else
      var fed := Feed(r, top, count - 1);
      if Selects(top, count - 1) then Plus(fed, GENERATOR_SYMBOLS[count - 1]) else fed
  }

  function Shift(r: Register, value: bv5): Register {
    Register(r.s1, r.s2, r.s3, r.s4, r.s5, value)
  }

  function Step(r: Register, value: bv5): Register {
    Feed(Shift(r, value), r.s0, |GENERATOR_SYMBOLS|)
  }

  lemma SymbolLaws(x: bv5, y: bv5, z: bv5)
    ensures (x ^ y) ^ z == (x ^ z) ^ y
    ensures x ^ 0 == x && 0 ^ x == x && x ^ x == 0
    ensures (x ^ y) ^ y == x
  {
  }

  lemma PlusSwaps(a: Register, b: Register, c: Register)
    ensures Plus(Plus(a, b), c) == Plus(Plus(a, c), b)
  {
  }

  lemma PlusUndoes(a: Register, b: Register)
    ensures Plus(Plus(a, b), b) == a && Plus(a, ZERO) == a
  {
  }

  /** Adding before feeding is adding after feeding. */
  lemma {:induction false} FeedAdds(r: Register, e: Register, top: bv5, count: nat)
    requires count <= 5
    ensures Feed(Plus(r, e), top, count) == Plus(Feed(r, top, count), e)
  {
    if count > 0 {
      FeedAdds(r, e, top, count - 1);
      PlusSwaps(Feed(r, top, count - 1), e, GENERATOR_SYMBOLS[count - 1]);
    }
  }

  lemma PlusUndoesLeft(a: Register, b: Register)
    ensures Plus(a, Plus(a, b)) == b
  {
  }

  lemma PlusCancels(c: Register, a: Register, b: Register)
    requires Plus(c, a) == Plus(c, b)
    ensures a == b
  {
  }

  /** What the selected generators add. */
  function Fed(top: bv5): Register {
    Feed(ZERO, top, |GENERATOR_SYMBOLS|)
  }

  lemma FeedIsPlusFed(r: Register, top: bv5)
    ensures Feed(r, top, |GENERATOR_SYMBOLS|) == Plus(Fed(top), r)
  {
    SymbolLaws(r.s0, 0, 0);
    SymbolLaws(r.s1, 0, 0);
    SymbolLaws(r.s2, 0, 0);
    SymbolLaws(r.s3, 0, 0);
    SymbolLaws(r.s4, 0, 0);
    SymbolLaws(r.s5, 0, 0);
    FeedAdds(ZERO, r, top, |GENERATOR_SYMBOLS|);
  }

  function Gate(open: bool, symbol: bv5): bv5 {
    if open then symbol else 0
  }

  lemma FedLast(top: bv5)
    ensures Fed(top).s5 == Gate(Selects(top, 0), 18) ^ Gate(Selects(top, 1), 13) ^ Gate(Selects(top, 2), 26)
                           ^ Gate(Selects(top, 3), 29) ^ Gate(Selects(top, 4), 19)
  {
    var f1, f2, f3, f4 := Feed(ZERO, top, 1).s5, Feed(ZERO, top, 2).s5, Feed(ZERO, top, 3).s5, Feed(ZERO, top, 4).s5;
    SymbolLaws(18, 0, 0);
    assert Feed(ZERO, top, 0) == ZERO;
    assert f1 == Gate(Selects(top, 0), 18);
    SymbolLaws(f1, 0, 0);
    assert f2 == f1 ^ Gate(Selects(top, 1), 13);
    SymbolLaws(f2, 0, 0);
    assert f3 == f2 ^ Gate(Selects(top, 2), 26);
    SymbolLaws(f3, 0, 0);
    assert f4 == f3 ^ Gate(Selects(top, 3), 29);
    SymbolLaws(f4, 0, 0);
    assert Fed(top).s5 == f4 ^ Gate(Selects(top, 4), 19);
  }

  /** Different outgoing symbols leave different marks on the last symbol. */
  lemma FedLastIsInjective(s: bv5, t: bv5)
    requires Fed(s).s5 == Fed(t).s5
    ensures s == t
  {
    FedLast(s);
    FedLast(t);
  }

  lemma SameOutgoing(a: Register, b: Register, value: bv5)
    requires Plus(Fed(a.s0), Shift(a, value)) == Plus(Fed(b.s0), Shift(b, value))
    ensures a.s0 == b.s0
  {
    assert Fed(a.s0).s5 ^ value == Fed(b.s0).s5 ^ value;
    SymbolLaws(Fed(a.s0).s5, value, 0);
    SymbolLaws(Fed(b.s0).s5, value, 0);
    FedLastIsInjective(a.s0, b.s0);
  }

  /** The step is reversible. */
  lemma StepIsInjective(a: Register, b: Register, value: bv5)
    requires Step(a, value) == Step(b, value)
    ensures a == b
  {
    FeedIsPlusFed(Shift(a, value), a.s0);
    FeedIsPlusFed(Shift(b, value), b.s0);
    SameOutgoing(a, b, value);
    PlusCancels(Fed(a.s0), Shift(a, value), Shift(b, value));
  }

  // ---- Whole words ----

  function Run(r: Register, values: seq<bv5>): Register
    decreases |values|
  {
    if values == [] then r else Run(Step(r, values[0]), values[1..])
  }

  const START := Register(0, 0, 0, 0, 0, 1)

  lemma {:induction false} RunIsInjective(a: Register, b: Register, values: seq<bv5>)
    requires Run(a, values) == Run(b, values)
    ensures a == b
    decreases |values|
  {
    if values != [] {
      RunIsInjective(Step(a, values[0]), Step(b, values[0]), values[1..]);
      StepIsInjective(a, b, values[0]);
    }
  }

  lemma {:induction false} RunAppends(r: Register, xs: seq<bv5>, ys: seq<bv5>)
    ensures Run(r, xs + ys) == Run(Run(r, xs), ys)
    decreases |xs|
  {
    if xs == [] {
      assert xs + ys == ys;
    } else {
      assert (xs + ys)[1..] == xs[1..] + ys;
      RunAppends(Step(r, xs[0]), xs[1..], ys);
    }
  }

  /** A difference that has not reached the top symbol moves up unchanged. */
  lemma StepCarries(r: Register, e: Register, value: bv5)
    requires e.s0 == 0
    ensures Step(Plus(r, e), value) == Plus(Step(r, 0), Shift(e, value))
  {
    SymbolLaws(r.s0, 0, 0);
    SymbolLaws(value, 0, 0);
    assert Shift(Plus(r, e), value) == Plus(Shift(r, 0), Shift(e, value));
    FeedAdds(Shift(r, 0), Shift(e, value), r.s0, |GENERATOR_SYMBOLS|);
  }

  function Zeros(count: nat): seq<bv5> {
    seq(count, _ => 0)
  }

  function Symbols(r: Register): seq<bv5> {
    [r.s0, r.s1, r.s2, r.s3, r.s4, r.s5]
  }

  lemma {:induction false} CarriesAll(r: Register, e: Register, digits: seq<bv5>, zeros: seq<bv5>)
    requires |digits| == |zeros| && forall i :: 0 <= i < |zeros| ==> zeros[i] == 0
    requires Vacant(e, |digits|)
    ensures Run(Plus(r, e), digits) == Plus(Run(r, zeros), Shifts(e, digits))
    decreases |digits|
  {
    if digits != [] {
      StepCarries(r, e, digits[0]);
      CarriesAll(Step(r, 0), Shift(e, digits[0]), digits[1..], zeros[1..]);
    }
  }

  /** The top `count` symbols of a register are zero. */
  predicate Vacant(e: Register, count: nat) {
    && (count >= 1 ==> e.s0 == 0) && (count >= 2 ==> e.s1 == 0) && (count >= 3 ==> e.s2 == 0)
    && (count >= 4 ==> e.s3 == 0) && (count >= 5 ==> e.s4 == 0) && (count >= 6 ==> e.s5 == 0) && count <= 6
  }

  function Shifts(e: Register, digits: seq<bv5>): Register
    decreases |digits|
  {
    if digits == [] then e else Shifts(Shift(e, digits[0]), digits[1..])
  }

  /** Six digits in place of six zeros add exactly themselves to the result. */
  lemma SixDigits(r: Register, d: Register)
    ensures Run(r, Symbols(d)) == Plus(Run(r, Zeros(6)), d)
  {
    var digits := Symbols(d);
    PlusUndoes(r, ZERO);
    CarriesAll(r, ZERO, digits, Zeros(6));
    var e1 := Shift(ZERO, d.s0);
    var e2 := Shift(e1, d.s1);
    var e3 := Shift(e2, d.s2);
    var e4 := Shift(e3, d.s3);
    var e5 := Shift(e4, d.s4);
    assert digits[1..] == [d.s1, d.s2, d.s3, d.s4, d.s5];
    assert digits[1..][1..] == [d.s2, d.s3, d.s4, d.s5];
    assert digits[1..][1..][1..] == [d.s3, d.s4, d.s5];
    assert digits[1..][1..][1..][1..] == [d.s4, d.s5];
    assert digits[1..][1..][1..][1..][1..] == [d.s5];
    assert Shifts(e5, [d.s5]) == Shifts(Shift(e5, d.s5), []);
    assert Shifts(e4, [d.s4, d.s5]) == Shifts(e5, [d.s5]);
    assert Shifts(e3, [d.s3, d.s4, d.s5]) == Shifts(e4, [d.s4, d.s5]);
    assert Shifts(e2, [d.s2, d.s3, d.s4, d.s5]) == Shifts(e3, [d.s3, d.s4, d.s5]);
    assert Shifts(ZERO, digits) == d;
  }

  /** The one checksum that makes a word check, and the digits that spell it. */
  function Checksum(r: Register): Register {
    Plus(Run(r, Zeros(6)), TARGET)
  }

  lemma PlusSolves(a: Register, d: Register, sum: Register)
    ensures Plus(a, d) == sum <==> d == Plus(a, sum)
  {
    PlusUndoesLeft(a, d);
    PlusUndoesLeft(a, sum);
  }

  lemma ChecksumIsUnique(r: Register, d: Register)
    ensures Run(r, Symbols(d)) == TARGET <==> d == Checksum(r)
  {
    SixDigits(r, d);
    PlusSolves(Run(r, Zeros(6)), d, TARGET);
  }

  // ---- The 32-bit loop ----

  lemma BitsShift(a: bv5, b: bv5, c: bv5, d: bv5, e: bv5, f: bv5, v: bv5)
    ensures (((((a as bv32) << 25) | ((b as bv32) << 20) | ((c as bv32) << 15)
               | ((d as bv32) << 10) | ((e as bv32) << 5) | (f as bv32)) & 0x1ff_ffff) << 5) ^ (v as bv32)
            == ((b as bv32) << 25) | ((c as bv32) << 20) | ((d as bv32) << 15)
               | ((e as bv32) << 10) | ((f as bv32) << 5) | (v as bv32)
  {
  }

  lemma PackShifts(r: Register, value: bv5)
    ensures ((Pack(r) & 0x1ff_ffff) << 5) ^ (value as bv32) == Pack(Shift(r, value))
  {
    BitsShift(r.s0, r.s1, r.s2, r.s3, r.s4, r.s5, value);
  }

  lemma PackTop(r: Register)
    ensures Pack(r) >> 25 == r.s0 as bv32
  {
  }

  lemma PackAdds(a: Register, b: Register)
    ensures Pack(a) ^ Pack(b) == Pack(Plus(a, b))
  {
  }

  lemma SelectsAgrees(top: bv5, i: nat)
    requires i < 5
    ensures ((top as bv32) >> i) & 1 != 0 <==> Selects(top, i)
  {
  }

  lemma PackIsInjective(a: Register, b: Register)
    requires Pack(a) == Pack(b)
    ensures a == b
  {
  }

  lemma FeedPacked(r: Register, top: bv5, index: nat, checksum: bv32)
    requires index < 5 && checksum == Pack(Feed(r, top, index))
    ensures Pack(Feed(r, top, index + 1)) == if Selects(top, index) then checksum ^ GENERATORS[index] else checksum
  {
    GeneratorsAgree(index);
    PackAdds(Feed(r, top, index), GENERATOR_SYMBOLS[index]);
  }

  /** One turn of the polymod loop. */
  method StepPacked(checksum: bv32, value: bv5, ghost r: Register) returns (next: bv32)
    requires checksum == Pack(r)
    ensures next == Pack(Step(r, value))
  {
    var top := checksum >> 25;
    next := ((checksum & 0x1ff_ffff) << 5) ^ (value as bv32);
    PackTop(r);
    PackShifts(r, value);
    for index := 0 to 5
      invariant next == Pack(Feed(Shift(r, value), r.s0, index))
    {
      FeedPacked(Shift(r, value), r.s0, index, next);
      SelectsAgrees(r.s0, index);
      if (top >> index) & 1 != 0 {
        next := next ^ GENERATORS[index];
      }
    }
  }

  method Polymod(values: seq<bv5>) returns (checksum: bv32)
    ensures checksum == Pack(Run(START, values))
  {
    checksum := 1;
    for n := 0 to |values|
      invariant checksum == Pack(Run(START, values[..n]))
    {
      checksum := StepPacked(checksum, values[n], Run(START, values[..n]));
      assert values[..n + 1] == values[..n] + [values[n]];
      RunAppends(START, values[..n], [values[n]]);
      assert Run(Run(START, values[..n]), [values[n]]) == Run(Step(Run(START, values[..n]), values[n]), []);
    }
    assert values[..|values|] == values;
  }
}
