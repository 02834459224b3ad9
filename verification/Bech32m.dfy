/** Bech32m text: a human-readable part, the separator `1`, and data symbols
    followed by six checksum symbols. Text is its UTF-8 bytes. Whether it holds
    an upper-case letter outside ASCII is a parameter, `foreign`, since that
    needs the Unicode tables. */
module Bech32m {
  import opened MachineInts
  import opened Bech32Checksum

  /** qpzry9x8gf2tvdw0s3jn54khce6mua7l */
  const CHARSET: seq<byte> := [
    113, 112, 122, 114, 121, 57, 120, 56, 103, 102, 50, 116, 118, 100, 119, 48,
    115, 51, 106, 110, 53, 52, 107, 104, 99, 101, 54, 109, 117, 97, 55, 108]

  const SEPARATOR: byte := 49
  const MIN_LENGTH := 8
  const MAX_LENGTH := 90

  datatype AddressError = BadLength | UpperCase | NoSeparator | BadStructure | BadCharacter | BadChecksum
                        | NotVersionOne | BadData | BadPadding | BadPayloadLength

  datatype Parts = Parts(hrp: seq<byte>, data: seq<bv5>)

  type Decoding = Result<Parts, AddressError>

  // ---- Letters ----

  function Letter(v: bv5): byte {
    CHARSET[v as int]
  }

  function Letters(values: seq<bv5>): (text: seq<byte>)
    ensures |text| == |values| && forall i :: 0 <= i < |values| ==> text[i] == Letter(values[i])
  {
    if values == [] then [] else Letters(values[..|values| - 1]) + [Letter(values[|values| - 1])]
  }

  /** Where a letter stands in the charset. */
  function Rank(b: byte): nat {
    match b
    case 113 => 0 case 112 => 1 case 122 => 2 case 114 => 3 case 121 => 4 case 57 => 5 case 120 => 6 case 56 => 7
    case 103 => 8 case 102 => 9 case 50 => 10 case 116 => 11 case 118 => 12 case 100 => 13 case 119 => 14 case 48 => 15
    case 115 => 16 case 51 => 17 case 106 => 18 case 110 => 19 case 53 => 20 case 52 => 21 case 107 => 22 case 104 => 23
    case 99 => 24 case 101 => 25 case 54 => 26 case 109 => 27 case 117 => 28 case 97 => 29 case 55 => 30 case 108 => 31
    case _ => 32
  }

  lemma RankOfLetter(i: nat)
    requires i < 32
    ensures Rank(CHARSET[i]) == i
  {
  }

  lemma LetterIsInjective(v: bv5, w: bv5)
    requires Letter(v) == Letter(w)
    ensures v == w
  {
    RankOfLetter(v as int);
    RankOfLetter(w as int);
  }

  lemma LetterIsPlain(v: bv5)
    ensures Letter(v) != SEPARATOR && !IsUpper(Letter(v))
  {
  }

  lemma LettersAreInjective(a: seq<bv5>, b: seq<bv5>)
    requires Letters(a) == Letters(b)
    ensures a == b
  {
    assert |a| == |Letters(a)| == |b|;
    forall i | 0 <= i < |a|
      ensures a[i] == b[i]
    {
      assert Letters(a)[i] == Letters(b)[i];
      LetterIsInjective(a[i], b[i]);
    }
  }

  predicate IsUpper(b: byte) {
    65 <= b <= 90
  }

  predicate HasUpper(text: seq<byte>) {
    exists i :: 0 <= i < |text| && IsUpper(text[i])
  }

  // ---- The checksum of a whole word ----

  function High(b: byte): bv5 {
    (b / 32) as bv5
  }

  function Low(b: byte): bv5 {
    (b % 32) as bv5
  }

  function Expand(hrp: seq<byte>): seq<bv5> {
    seq(|hrp|, i requires 0 <= i < |hrp| => High(hrp[i])) + [0] + seq(|hrp|, i requires 0 <= i < |hrp| => Low(hrp[i]))
  }

  ghost predicate Checks(hrp: seq<byte>, symbols: seq<bv5>) {
    Run(START, Expand(hrp) + symbols) == TARGET
  }

  function Digits(hrp: seq<byte>, data: seq<bv5>): (digits: seq<bv5>)
    ensures |digits| == 6
  {
    Symbols(Checksum(Run(START, Expand(hrp) + data)))
  }

  /** Six symbols complete a word exactly when they are its digits. */
  lemma DigitsAreUnique(hrp: seq<byte>, data: seq<bv5>, tail: seq<bv5>)
    requires |tail| == 6
    ensures Checks(hrp, data + tail) <==> tail == Digits(hrp, data)
  {
    var word := Expand(hrp) + data;
    var d := Register(tail[0], tail[1], tail[2], tail[3], tail[4], tail[5]);
    assert tail == Symbols(d);
    assert Expand(hrp) + (data + tail) == word + tail;
    RunAppends(START, word, tail);
    ChecksumIsUnique(Run(START, word), d);
    if tail == Digits(hrp, data) {
      assert Symbols(d)[0] == Digits(hrp, data)[0] && Symbols(d)[1] == Digits(hrp, data)[1]
          && Symbols(d)[2] == Digits(hrp, data)[2]
          && Symbols(d)[3] == Digits(hrp, data)[3] && Symbols(d)[4] == Digits(hrp, data)[4]
          && Symbols(d)[5] == Digits(hrp, data)[5];
    }
  }

  // ---- Encoding ----

  function Text(hrp: seq<byte>, symbols: seq<bv5>): seq<byte> {
    hrp + [SEPARATOR] + Letters(symbols)
  }

  function Encoded(hrp: seq<byte>, data: seq<bv5>): seq<byte> {
    Text(hrp, data + Digits(hrp, data))
  }

  lemma ChecksumPacked(word: seq<bv5>)
    ensures Pack(Run(START, word + Zeros(6))) ^ BECH32M_CONST == Pack(Checksum(Run(START, word)))
  {
    RunAppends(START, word, Zeros(6));
    TargetAgrees();
    PackAdds(Run(Run(START, word), Zeros(6)), TARGET);
  }

  method Encode(hrp: seq<byte>, data: seq<bv5>) returns (text: seq<byte>)
    ensures text == Encoded(hrp, data)
  {
    var word := Expand(hrp) + data;
    var checksum := Polymod(word + Zeros(6));
    ChecksumPacked(word);
    var digits := CutDigits(checksum ^ BECH32M_CONST, Checksum(Run(START, word)));
    text := SpellOut(hrp, data + digits);
  }

  method SpellOut(hrp: seq<byte>, symbols: seq<bv5>) returns (text: seq<byte>)
    ensures text == Text(hrp, symbols)
  {
    text := hrp + [SEPARATOR];
    for n := 0 to |symbols|
      invariant text == Text(hrp, symbols[..n])
    {
      assert symbols[..n + 1][..n] == symbols[..n];
      text := text + [Letter(symbols[n])];
    }
    assert symbols[..|symbols|] == symbols;
  }

  function LowBits(x: bv32): bv5 {
    (x & 31) as bv5
  }

  lemma CutDigitsAgree(r: Register)
    ensures LowBits(Pack(r) >> 25) == r.s0 && LowBits(Pack(r) >> 20) == r.s1 && LowBits(Pack(r) >> 15) == r.s2
    ensures LowBits(Pack(r) >> 10) == r.s3 && LowBits(Pack(r) >> 5) == r.s4 && LowBits(Pack(r)) == r.s5
  {
  }

  /** The six digits, cut at shifts 25, 20, 15, 10, 5 and 0. */
  method CutDigits(checksum: bv32, ghost r: Register) returns (digits: seq<bv5>)
    requires checksum == Pack(r)
    ensures digits == Symbols(r)
  {
    CutDigitsAgree(r);
    digits := [LowBits(checksum >> 25), LowBits(checksum >> 20), LowBits(checksum >> 15),
      LowBits(checksum >> 10), LowBits(checksum >> 5), LowBits(checksum)];
  }

  // ---- Decoding ----

  function LastSeparator(text: seq<byte>): (at: int)
    ensures -1 <= at < |text| && (at >= 0 ==> text[at] == SEPARATOR)
    ensures forall i :: at < i < |text| ==> text[i] != SEPARATOR
  {
    if text == [] then -1
    else if text[|text| - 1] == SEPARATOR then |text| - 1
    else LastSeparator(text[..|text| - 1])
  }

  ghost predicate Spelled(text: seq<byte>) {
    exists values :: text == Letters(values)
  }

  /** The symbols a text spells, if it is made of letters only. */
  ghost function Values(text: seq<byte>): (values: Option<seq<bv5>>) {
    if Spelled(text) then
      var values :| text == Letters(values);
      Some(values)
    else None
  }

  lemma ValuesReadLetters(text: seq<byte>, values: seq<bv5>)
    ensures Values(text) == Some(values) <==> text == Letters(values)
  {
    if text == Letters(values) {
      LettersAreInjective(values, Values(text).value);
    }
  }

  /** The tests on the text as a whole; a text that passes has its separator at the result. */
  function Screened(text: seq<byte>, foreign: bool): (at: Result<nat, AddressError>)
    ensures at.Ok? ==> at.value == LastSeparator(text) && 0 < at.value && at.value + 7 <= |text|
  {
    if |text| < MIN_LENGTH || |text| > MAX_LENGTH then Err(BadLength)
    else if foreign || HasUpper(text) then Err(UpperCase)
    else
      var separator := LastSeparator(text);
      if separator == -1 then Err(NoSeparator)
      else if separator == 0 || separator + 7 > |text| then Err(BadStructure)
      else Ok(separator)
  }

  ghost function Decoded(text: seq<byte>, foreign: bool): Decoding {
    match Screened(text, foreign)
    case Err(error) => Err(error)
    case Ok(at) => DecodedParts(text[..at], text[at + 1..])
  }

  ghost function DecodedParts(hrp: seq<byte>, tail: seq<byte>): Decoding
    requires |tail| >= 6
  {
    var values := Values(tail);
    if values.None? then Err(BadCharacter)
    else if Run(START, Expand(hrp) + values.value) != TARGET then Err(BadChecksum)
    else Ok(Parts(hrp, values.value[..|values.value| - 6]))
  }

  lemma PartsAreEncoded(hrp: seq<byte>, tail: seq<byte>, data: seq<bv5>)
    requires |tail| >= 6
    ensures DecodedParts(hrp, tail) == Ok(Parts(hrp, data)) <==> tail == Letters(data + Digits(hrp, data))
  {
    var values := Values(tail);
    ValuesReadLetters(tail, data + Digits(hrp, data));
    if tail == Letters(data + Digits(hrp, data)) {
      DigitsAreUnique(hrp, data, Digits(hrp, data));
      assert (data + Digits(hrp, data))[..|data|] == data;
    } else if DecodedParts(hrp, tail) == Ok(Parts(hrp, data)) {
      var split := |values.value| - 6;
      assert values.value == data + values.value[split..];
      DigitsAreUnique(hrp, data, values.value[split..]);
    }
  }

  /** Text the decoder takes on grounds of length and case. */
  predicate Presentable(hrp: seq<byte>, data: seq<bv5>, foreign: bool) {
    hrp != [] && !foreign && !HasUpper(hrp) && |hrp| + 1 + |data| + 6 <= MAX_LENGTH
  }

  lemma LettersHoldNoSeparator(symbols: seq<bv5>)
    ensures !HasUpper(Letters(symbols)) && SEPARATOR !in Letters(symbols)
  {
    forall i | 0 <= i < |symbols|
      ensures Letters(symbols)[i] != SEPARATOR && !IsUpper(Letters(symbols)[i])
    {
      LetterIsPlain(symbols[i]);
    }
  }

  lemma SeparatorOfText(hrp: seq<byte>, symbols: seq<bv5>)
    ensures LastSeparator(Text(hrp, symbols)) == |hrp|
    ensures HasUpper(Text(hrp, symbols)) == HasUpper(hrp)
  {
    LettersHoldNoSeparator(symbols);
    var text := Text(hrp, symbols);
    assert text[|hrp|] == SEPARATOR;
    forall i | |hrp| < i < |text|
      ensures text[i] != SEPARATOR && !IsUpper(text[i])
    {
      assert text[i] == Letters(symbols)[i - |hrp| - 1];
    }
    if HasUpper(hrp) {
      var i :| 0 <= i < |hrp| && IsUpper(hrp[i]);
      assert text[i] == hrp[i];
    }
  }

  lemma TextScreened(hrp: seq<byte>, symbols: seq<bv5>, foreign: bool)
    requires |symbols| >= 6
    ensures Screened(Text(hrp, symbols), foreign)
            == if |hrp| + 1 + |symbols| > MAX_LENGTH || |hrp| + 1 + |symbols| < MIN_LENGTH then Err(BadLength)
               else if foreign || HasUpper(hrp) then Err(UpperCase)
               else if hrp == [] then Err(BadStructure)
               else Ok(|hrp|)
  {
    SeparatorOfText(hrp, symbols);
  }

  lemma TextParts(hrp: seq<byte>, symbols: seq<bv5>)
    ensures |Text(hrp, symbols)| == |hrp| + 1 + |symbols|
    ensures Text(hrp, symbols)[..|hrp|] == hrp && Text(hrp, symbols)[|hrp| + 1..] == Letters(symbols)
  {
  }

  lemma TextDecodes(hrp: seq<byte>, symbols: seq<bv5>, foreign: bool)
    requires |symbols| >= 6
    ensures Decoded(Text(hrp, symbols), foreign)
            == match Screened(Text(hrp, symbols), foreign)
               case Err(error) => Err(error)
               case Ok(_) => DecodedParts(hrp, Letters(symbols))
  {
    TextScreened(hrp, symbols, foreign);
    TextParts(hrp, symbols);
  }

  lemma DecodedParted(text: seq<byte>, foreign: bool) returns (hrp: seq<byte>, tail: seq<byte>)
    requires Decoded(text, foreign).Ok?
    ensures text == hrp + [SEPARATOR] + tail && |tail| >= 6
    ensures DecodedParts(hrp, tail) == Decoded(text, foreign)
  {
    var at := Screened(text, foreign).value;
    hrp, tail := text[..at], text[at + 1..];
    assert text == hrp + [text[at]] + tail;
  }

  lemma PartedHrp(hrp: seq<byte>, tail: seq<byte>)
    requires |tail| >= 6 && DecodedParts(hrp, tail).Ok?
    ensures DecodedParts(hrp, tail).value.hrp == hrp
  {
  }

  lemma DecodedIsText(text: seq<byte>, foreign: bool)
    requires Decoded(text, foreign).Ok?
    ensures text == Encoded(Decoded(text, foreign).value.hrp, Decoded(text, foreign).value.data)
  {
    var parts := Decoded(text, foreign).value;
    var hrp, tail := DecodedParted(text, foreign);
    PartedHrp(hrp, tail);
    PartsAreEncoded(hrp, tail, parts.data);
  }

  /** The decoder accepts exactly the encoder's presentable texts, and reads
      back what was encoded. */
  lemma DecodesExactlyTheEncoded(text: seq<byte>, foreign: bool, hrp: seq<byte>, data: seq<bv5>)
    ensures Decoded(text, foreign) == Ok(Parts(hrp, data))
            <==> text == Encoded(hrp, data) && Presentable(hrp, data, foreign)
  {
    var symbols := data + Digits(hrp, data);
    TextScreened(hrp, symbols, foreign);
    TextDecodes(hrp, symbols, foreign);
    PartsAreEncoded(hrp, Letters(symbols), data);
    if Decoded(text, foreign) == Ok(Parts(hrp, data)) {
      DecodedIsText(text, foreign);
    }
  }

  // ---- The decoder's loops ----

  lemma IndexFits(index: nat)
    requires index < 32
    ensures (index as bv5) as int == index
  {
  }

  method ReadLetter(b: byte) returns (v: Option<bv5>)
    ensures v.Some? ==> Letter(v.value) == b
    ensures v.None? ==> b !in CHARSET
  {
    for index := 0 to 32
      invariant forall k :: 0 <= k < index ==> CHARSET[k] != b
    {
      if CHARSET[index] == b {
        IndexFits(index);
        return Some(index as bv5);
      }
    }
    return None;
  }

  lemma NotSpelled(text: seq<byte>, n: nat)
    requires n < |text| && text[n] !in CHARSET
    ensures Values(text) == None
  {
  }

  method ReadValues(text: seq<byte>) returns (values: Option<seq<bv5>>)
    ensures values == Values(text)
  {
    var read: seq<bv5> := [];
    for n := 0 to |text|
      invariant |read| == n && forall i :: 0 <= i < n ==> text[i] == Letter(read[i])
    {
      var v := ReadLetter(text[n]);
      if v.None? {
        NotSpelled(text, n);
        return None;
      }
      read := read + [v.value];
    }
    ValuesReadLetters(text, read);
    return Some(read);
  }

  method FindSeparator(text: seq<byte>) returns (at: int)
    ensures at == LastSeparator(text)
  {
    at := |text| - 1;
    while at >= 0 && text[at] != SEPARATOR
      invariant -1 <= at < |text|
      invariant forall i :: at < i < |text| ==> text[i] != SEPARATOR
    {
      at := at - 1;
    }
  }

  method DecodeParts(hrp: seq<byte>, tail: seq<byte>) returns (r: Decoding)
    requires |tail| >= 6
    ensures r == DecodedParts(hrp, tail)
  {
    var values := ReadValues(tail);
    if values.None? {
      return Err(BadCharacter);
    }
    if Spelled(tail) {
      assert |values.value| == |tail|;
    }
    var checksum := Polymod(Expand(hrp) + values.value);
    TargetAgrees();
    if checksum != BECH32M_CONST {
      return Err(BadChecksum);
    }
    PackIsInjective(Run(START, Expand(hrp) + values.value), TARGET);
    return Ok(Parts(hrp, values.value[..|values.value| - 6]));
  }

  method Decode(text: seq<byte>, foreign: bool) returns (r: Decoding)
    ensures r == Decoded(text, foreign)
  {
    if |text| < MIN_LENGTH || |text| > MAX_LENGTH {
      return Err(BadLength);
    }
    if foreign || HasUpper(text) {
      return Err(UpperCase);
    }
    var separator := FindSeparator(text);
    if separator == -1 {
      return Err(NoSeparator);
    }
    if separator == 0 || separator + 7 > |text| {
      return Err(BadStructure);
    }
    r := DecodeParts(text[..separator], text[separator + 1..]);
  }

  // ---- Bursts ----

  function Window(s: seq<bv5>, k: nat): Register
    requires k + 6 <= |s|
  {
    Register(s[k], s[k + 1], s[k + 2], s[k + 3], s[k + 4], s[k + 5])
  }

  lemma RunWindow(r: Register, window: Register, rest: seq<bv5>)
    ensures Run(r, Symbols(window) + rest) == Run(Plus(Run(r, Zeros(6)), window), rest)
  {
    RunAppends(r, Symbols(window), rest);
    SixDigits(r, window);
  }

  lemma WordAroundWindow(s: seq<bv5>, k: nat)
    requires k + 6 <= |s|
    ensures s == s[..k] + (Symbols(Window(s, k)) + s[k + 6..])
  {
  }

  lemma RunThroughWindow(word: seq<bv5>, s: seq<bv5>, k: nat)
    requires k + 6 <= |s|
    ensures Run(START, word + s) == Run(Plus(Run(Run(START, word + s[..k]), Zeros(6)), Window(s, k)), s[k + 6..])
  {
    var window, rest := Symbols(Window(s, k)), s[k + 6..];
    WordAroundWindow(s, k);
    assert word + s == (word + s[..k]) + (window + rest);
    RunAppends(START, word + s[..k], window + rest);
    RunWindow(Run(START, word + s[..k]), Window(s, k), rest);
  }

  /** Two words that both check and differ in at most six neighbouring symbols are equal. */
  lemma BurstInSymbols(hrp: seq<byte>, s: seq<bv5>, t: seq<bv5>, k: nat)
    requires |s| == |t| && k + 6 <= |s| && s[..k] == t[..k] && s[k + 6..] == t[k + 6..]
    requires Checks(hrp, s) && Checks(hrp, t)
    ensures s == t
  {
    RunThroughWindow(Expand(hrp), s, k);
    RunThroughWindow(Expand(hrp), t, k);
    var zeros := Run(Run(START, Expand(hrp) + s[..k]), Zeros(6));
    RunIsInjective(Plus(zeros, Window(s, k)), Plus(zeros, Window(t, k)), s[k + 6..]);
    PlusCancels(zeros, Window(s, k), Window(t, k));
    WordAroundWindow(s, k);
    WordAroundWindow(t, k);
  }

  lemma AcceptedText(text: seq<byte>, foreign: bool) returns (hrp: seq<byte>, symbols: seq<bv5>)
    requires Decoded(text, foreign).Ok?
    ensures text == Text(hrp, symbols) && |symbols| >= 6 && Checks(hrp, symbols) && LastSeparator(text) == |hrp|
  {
    var parts := Decoded(text, foreign).value;
    DecodedIsText(text, foreign);
    hrp, symbols := parts.hrp, parts.data + Digits(parts.hrp, parts.data);
    DigitsAreUnique(hrp, parts.data, Digits(hrp, parts.data));
    SeparatorOfText(hrp, symbols);
  }

  /** Equal outside six neighbouring places. */
  predicate SameAround<T(==)>(a: seq<T>, b: seq<T>, at: nat) {
    |a| == |b| && at + 6 <= |a| && forall i :: 0 <= i < |a| && (i < at || i >= at + 6) ==> a[i] == b[i]
  }

  lemma SymbolsAgree(s: seq<bv5>, t: seq<bv5>, k: nat)
    requires SameAround(Letters(s), Letters(t), k)
    ensures |s| == |t| && s[..k] == t[..k] && s[k + 6..] == t[k + 6..]
  {
    forall i | 0 <= i < |s| && (i < k || i >= k + 6)
      ensures s[i] == t[i]
    {
      assert Letters(s)[i] == Letters(t)[i];
      LetterIsInjective(s[i], t[i]);
    }
  }

  lemma SameSeparator(text: seq<byte>, damaged: seq<byte>, at: nat)
    requires SameAround(text, damaged, at) && 0 <= LastSeparator(text) < at
    requires forall i :: at <= i < at + 6 ==> damaged[i] != SEPARATOR
    ensures LastSeparator(damaged) == LastSeparator(text)
  {
  }

  lemma TextsAgree(hrp: seq<byte>, s: seq<bv5>, other: seq<byte>, t: seq<bv5>, at: nat)
    requires |hrp| == |other| < at && SameAround(Text(hrp, s), Text(other, t), at)
    ensures hrp == other && SameAround(Letters(s), Letters(t), at - |hrp| - 1)
  {
    var a, b := Text(hrp, s), Text(other, t);
    assert a[..|hrp|] == b[..|hrp|] && a[..|hrp|] == hrp && b[..|hrp|] == other;
    forall i | 0 <= i < |s| && (i < at - |hrp| - 1 || i >= at - |hrp| + 5)
      ensures Letters(s)[i] == Letters(t)[i]
    {
      assert a[i + |hrp| + 1] == b[i + |hrp| + 1];
    }
  }

  lemma BothCheck(hrp: seq<byte>, s: seq<bv5>, other: seq<byte>, t: seq<bv5>, at: nat)
    requires |hrp| == |other| < at && SameAround(Text(hrp, s), Text(other, t), at) && Checks(hrp, s) && Checks(other, t)
    ensures Text(hrp, s) == Text(other, t)
  {
    TextsAgree(hrp, s, other, t, at);
    SymbolsAgree(s, t, at - |hrp| - 1);
    BurstInSymbols(hrp, s, t, at - |hrp| - 1);
  }

  /** Damage confined to six neighbouring data characters, none of them turned
      into a separator, is always refused. */
  lemma BurstIsRefused(text: seq<byte>, damaged: seq<byte>, at: nat, foreign: bool, nowForeign: bool)
    requires Decoded(text, foreign).Ok?
    requires SameAround(text, damaged, at) && damaged != text && LastSeparator(text) < at
    requires forall i :: at <= i < at + 6 ==> damaged[i] != SEPARATOR
    ensures Decoded(damaged, nowForeign).Err?
  {
    if Decoded(damaged, nowForeign).Ok? {
      var hrp, s := AcceptedText(text, foreign);
      var other, t := AcceptedText(damaged, nowForeign);
      SameSeparator(text, damaged, at);
      BothCheck(hrp, s, other, t, at);
    }
  }
}
