/** Amounts of MRK as text. */
module Amount {
  import opened MachineInts

  const MRK_DECIMALS := 8
  const MRK_SCALE := 100_000_000
  const MAX_SUPPLY := 1_000_000_000 * MRK_SCALE

  type Text = seq<char>

  datatype AmountError = NotPositive | Scientific | Invalid | TooLarge | TooManyDecimals | AboveSupply

  // ---- Decimal digits ----

  predicate IsDigit(c: char) {
    '0' <= c <= '9'
  }

  predicate AllDigits(t: Text) {
    forall i :: 0 <= i < |t| ==> IsDigit(t[i])
  }

  function Digit(d: nat): char
    requires d < 10
  {
    '0' + d as char
  }

  function ValueOf(c: char): nat
    requires IsDigit(c)
  {
    (c - '0') as nat
  }

  /** The number a digit string spells, in base ten. */
  function Number(t: Text): nat
    requires AllDigits(t)
  {
    if t == [] then 0 else Number(t[..|t| - 1]) * 10 + ValueOf(t[|t| - 1])
  }

  /** A number without leading zeros. */
  function Decimal(n: nat): (t: Text)
    ensures t != [] && AllDigits(t) && Number(t) == n
  {
    if n < 10 then
      assert [Digit(n)][..0] == [];
      [Digit(n)]
    else
      var init := Decimal(n / 10);
      var t := init + [Digit(n % 10)];
      assert t[..|t| - 1] == init;
      t
  }

  /** The last `width` digits of a number. */
  function Padded(n: nat, width: nat): (t: Text)
    ensures |t| == width && AllDigits(t)
  {
    if width == 0 then [] else Padded(n / 10, width - 1) + [Digit(n % 10)]
  }

  function Pow10(n: nat): nat {
    if n == 0 then 1 else 10 * Pow10(n - 1)
  }

  lemma {:induction false} PaddedValue(n: nat, width: nat)
    requires n < Pow10(width)
    ensures Number(Padded(n, width)) == n
  {
    if width > 0 {
      var t := Padded(n, width);
      assert t[..|t| - 1] == Padded(n / 10, width - 1);
      PaddedValue(n / 10, width - 1);
    }
  }

  function Zeros(count: nat): Text {
    seq(count, _ => '0')
  }

  /** Without trailing zeros. */
  function Trimmed(t: Text): (r: Text)
    ensures |r| <= |t| && r + Zeros(|t| - |r|) == t
    ensures r == [] || r[|r| - 1] != '0'
  {
    if t != [] && t[|t| - 1] == '0' then
      var r := Trimmed(t[..|t| - 1]);
      assert t == t[..|t| - 1] + ['0'];
      assert Zeros(|t| - |r|) == Zeros(|t| - 1 - |r|) + ['0'];
      r
    else t
  }

  // ---- Formatting ----

  const UNIT: Text := [' ', 'M', 'R', 'K']

  function Value(amount: nat): Text {
    var fraction := amount % MRK_SCALE;
    if fraction == 0 then Decimal(amount / MRK_SCALE)
    else Decimal(amount / MRK_SCALE) + ['.'] + Trimmed(Padded(fraction, MRK_DECIMALS))
  }

  function Formatted(amount: nat): Text {
    Value(amount) + UNIT
  }

  method FormatMrk(amount: u128) returns (text: Text)
    ensures text == Formatted(amount)
  {
    var whole, fraction := amount / MRK_SCALE, amount % MRK_SCALE;
    if fraction == 0 {
      return Decimal(whole) + UNIT;
    }
    var digits := Padded(fraction, MRK_DECIMALS);
    while |digits| > 0 && digits[|digits| - 1] == '0'
      invariant Trimmed(digits) == Trimmed(Padded(fraction, MRK_DECIMALS))
    {
      digits := digits[..|digits| - 1];
    }
    return Decimal(whole) + ['.'] + digits + UNIT;
  }

  // ---- Parsing ----

  /** Unicode White_Space. */
  predicate IsSpace(c: char) {
    var n := c as int;
    9 <= n <= 13 || n == 0x20 || n == 0x85 || n == 0xa0 || n == 0x1680 || 0x2000 <= n <= 0x200a
    || n == 0x2028 || n == 0x2029 || n == 0x202f || n == 0x205f || n == 0x3000
  }

  function Trim(t: Text): (r: Text)
    ensures |r| <= |t|
  {
    if t == [] then t
    else if IsSpace(t[0]) then Trim(t[1..])
    else if IsSpace(t[|t| - 1]) then Trim(t[..|t| - 1])
    else t
  }

  predicate EndsWith(t: Text, suffix: Text) {
    |t| >= |suffix| && t[|t| - |suffix|..] == suffix
  }

  function WithoutUnit(t: Text): Text {
    if EndsWith(t, ['M', 'R', 'K']) || EndsWith(t, ['m', 'r', 'k']) then t[..|t| - 3] else t
  }

  /** The place of the first `.` from `at` on, or the end. */
  function FindDot(t: Text, at: nat): (i: nat)
    requires at <= |t|
    ensures at <= i <= |t| && (i < |t| ==> t[i] == '.') && forall k :: at <= k < i ==> t[k] != '.'
    decreases |t| - at
  {
    if at == |t| || t[at] == '.' then at else FindDot(t, at + 1)
  }

  function Parsed(input: Text): Result<nat, AmountError> {
    ParsedValue(Trim(WithoutUnit(Trim(input))))
  }

  function ParsedValue(value: Text): Result<nat, AmountError> {
    if value == [] || value[0] == '-' || value[0] == '+' then Err(NotPositive)
    else if 'e' in value || 'E' in value then Err(Scientific)
    else
      var dot := FindDot(value, 0);
      if dot == |value| then ParsedParts(value, [], false)
      else
        var second := FindDot(value, dot + 1);
        ParsedParts(value[..dot], value[dot + 1..second], second < |value|)
  }

  function ParsedParts(whole: Text, fraction: Text, more: bool): Result<nat, AmountError> {
    if more || whole == [] || !AllDigits(whole) then Err(Invalid)
    else if Number(whole) > U128_MAX then Err(TooLarge)
    else if |fraction| > MRK_DECIMALS || !AllDigits(fraction) then Err(TooManyDecimals)
    else
      var amount := Number(whole) * MRK_SCALE + Number(fraction + Zeros(MRK_DECIMALS - |fraction|));
      if amount > U128_MAX then Err(TooLarge)
      else if amount > MAX_SUPPLY then Err(AboveSupply)
      else Ok(amount)
  }

  // ---- Round trip ----

  predicate Plain(c: char) {
    IsDigit(c) || c == '.'
  }

  lemma ValueIsPlain(amount: nat)
    ensures var v := Value(amount);
            v != [] && IsDigit(v[0]) && IsDigit(v[|v| - 1]) && forall i :: 0 <= i < |v| ==> Plain(v[i])
  {
    var fraction := amount % MRK_SCALE;
    if fraction != 0 {
      FractionSpelled(fraction);
    }
  }

  lemma FractionSpelled(fraction: nat)
    requires 0 < fraction < MRK_SCALE
    ensures var f := Trimmed(Padded(fraction, MRK_DECIMALS));
            && f != [] && |f| <= MRK_DECIMALS && AllDigits(f)
            && AllDigits(f + Zeros(MRK_DECIMALS - |f|)) && Number(f + Zeros(MRK_DECIMALS - |f|)) == fraction
  {
    var padded := Padded(fraction, MRK_DECIMALS);
    var f := Trimmed(padded);
    assert Pow10(4) == 10_000;
    assert Pow10(8) == MRK_SCALE;
    PaddedValue(fraction, MRK_DECIMALS);
    forall i | 0 <= i < |f|
      ensures IsDigit(f[i])
    {
      assert padded[i] == f[i];
    }
    if f == [] {
      assert padded == Zeros(MRK_DECIMALS);
      ZerosAreZero(MRK_DECIMALS);
    }
  }

  lemma {:induction false} ZerosAreZero(count: nat)
    ensures AllDigits(Zeros(count)) && Number(Zeros(count)) == 0
  {
    if count > 0 {
      ZerosAreZero(count - 1);
      assert Zeros(count)[..count - 1] == Zeros(count - 1);
    }
  }

  lemma TrimStays(t: Text)
    requires t != [] && !IsSpace(t[0]) && !IsSpace(t[|t| - 1])
    ensures Trim(t) == t
  {
  }

  lemma TrimsOneSpace(v: Text)
    requires v != [] && !IsSpace(v[0]) && !IsSpace(v[|v| - 1])
    ensures Trim(v + [' ']) == v
  {
  }

  lemma UnitStrips(v: Text)
    ensures WithoutUnit(v + UNIT) == v + [' ']
  {
  }

  lemma UnitComesOff(v: Text)
    requires v != [] && IsDigit(v[0]) && IsDigit(v[|v| - 1])
    ensures Trim(WithoutUnit(Trim(v + UNIT))) == v
  {
    assert (v + UNIT)[0] == v[0] && (v + UNIT)[|v| + 3] == 'K';
    TrimStays(v + UNIT);
    UnitStrips(v);
    TrimsOneSpace(v);
  }

  lemma WholeParses(whole: Text)
    requires whole != [] && AllDigits(whole)
    ensures ParsedValue(whole) == ParsedParts(whole, [], false)
  {
  }

  lemma OnlyDot(t: Text, at: nat)
    requires at < |t| && t[at] == '.' && forall k :: 0 <= k < |t| && t[k] == '.' ==> k == at
    ensures FindDot(t, 0) == at && FindDot(t, at + 1) == |t|
  {
  }

  lemma DotOf(whole: Text, f: Text)
    requires AllDigits(whole) && AllDigits(f)
    ensures FindDot(whole + ['.'] + f, 0) == |whole| && FindDot(whole + ['.'] + f, |whole| + 1) == |whole| + 1 + |f|
  {
    var t := whole + ['.'] + f;
    forall k | 0 <= k < |t| && k != |whole| ensures t[k] != '.' {
      assert t[k] == if k < |whole| then whole[k] else f[k - |whole| - 1];
    }
    OnlyDot(t, |whole|);
  }

  lemma FractionParses(whole: Text, f: Text)
    requires whole != [] && AllDigits(whole) && AllDigits(f)
    ensures ParsedValue(whole + ['.'] + f) == ParsedParts(whole, f, false)
  {
    var t := whole + ['.'] + f;
    DotOf(whole, f);
    assert t[0] == whole[0] && IsDigit(whole[0]);
    assert forall c :: c in t ==> c in whole || c == '.' || c in f;
    assert 'e' !in t && 'E' !in t;
    assert t[..|whole|] == whole && t[|whole| + 1..|t|] == f;
  }

  lemma PartsOfValue(amount: nat) returns (f: Text)
    ensures Parsed(Formatted(amount)) == ParsedParts(Decimal(amount / MRK_SCALE), f, false)
    ensures |f| <= MRK_DECIMALS && AllDigits(f) && AllDigits(f + Zeros(MRK_DECIMALS - |f|))
    ensures Number(f + Zeros(MRK_DECIMALS - |f|)) == amount % MRK_SCALE
  {
    var whole, fraction := Decimal(amount / MRK_SCALE), amount % MRK_SCALE;
    ValueIsPlain(amount);
    UnitComesOff(Value(amount));
    if fraction == 0 {
      WholeParses(whole);
      ZerosAreZero(MRK_DECIMALS);
      f := [];
      assert f + Zeros(MRK_DECIMALS) == Zeros(MRK_DECIMALS);
    } else {
      FractionSpelled(fraction);
      f := Trimmed(Padded(fraction, MRK_DECIMALS));
      FractionParses(whole, f);
    }
  }

  lemma PartsRejoin(amount: u128, f: Text)
    requires |f| <= MRK_DECIMALS && AllDigits(f) && AllDigits(f + Zeros(MRK_DECIMALS - |f|))
    requires Number(f + Zeros(MRK_DECIMALS - |f|)) == amount % MRK_SCALE
    ensures ParsedParts(Decimal(amount / MRK_SCALE), f, false)
            == if amount <= MAX_SUPPLY then Ok(amount) else Err(AboveSupply)
  {
  }

  /** Parsing what was printed gives the amount back, for every amount within the supply. */
  lemma AmountRoundTrip(amount: u128)
    ensures Parsed(Formatted(amount)) == if amount <= MAX_SUPPLY then Ok(amount) else Err(AboveSupply)
  {
    var f := PartsOfValue(amount);
    PartsRejoin(amount, f);
  }
}
