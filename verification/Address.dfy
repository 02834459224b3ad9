/** MRK version 1 addresses: twenty bytes of a public key's SHA-256 digest in
    Bech32m, under the human-readable part `mrk` and version symbol 1. The
    digest itself is a parameter. */
module Address {
  import opened Arithmetic
  import opened MachineInts
  import opened Bech32m
  import opened BitGroups

  const HRP: seq<byte> := [109, 114, 107]
  const VERSION: bv5 := 1
  const PAYLOAD_LENGTH := 20

  function AsGroups(symbols: seq<bv5>): (groups: seq<byte>)
    ensures |groups| == |symbols| && forall i :: 0 <= i < |symbols| ==> groups[i] == symbols[i] as int
  {
    seq(|symbols|, i requires 0 <= i < |symbols| => symbols[i] as int)
  }

  function AsSymbols(groups: seq<byte>): (symbols: seq<bv5>)
    requires forall i :: 0 <= i < |groups| ==> groups[i] < 32
    ensures |symbols| == |groups| && forall i :: 0 <= i < |groups| ==> symbols[i] == groups[i] as bv5
  {
    seq(|groups|, i requires 0 <= i < |groups| => groups[i] as bv5)
  }

  lemma GroupsAreSmall(symbols: seq<bv5>)
    ensures BitGroups.Digits(AsGroups(symbols), 5)
  {
  }

  lemma SymbolsReadBack(groups: seq<byte>)
    requires forall i :: 0 <= i < |groups| ==> groups[i] < 32
    ensures AsGroups(AsSymbols(groups)) == groups
  {
  }

  ghost predicate Spells(text: seq<byte>, payload: seq<byte>, symbols: seq<bv5>, zeros: nat) {
    Packs(payload, 8, AsGroups(symbols), 5, zeros) && text == Encoded(HRP, [VERSION] + symbols)
  }

  /** `text` is the address of `payload`. */
  ghost predicate IsAddressOf(text: seq<byte>, payload: seq<byte>) {
    |payload| == PAYLOAD_LENGTH && exists symbols, zeros :: Spells(text, payload, symbols, zeros)
  }

  method AddressFromDigest(digest: seq<byte>) returns (text: seq<byte>)
    requires |digest| == 32
    ensures IsAddressOf(text, digest[..PAYLOAD_LENGTH])
  {
    var payload := digest[..PAYLOAD_LENGTH];
    assert Pow2(8) == 256 && Pow2(5) == 32;
    var groups := ConvertBits(payload, 8, 5, true);
    ghost var zeros :| Packs(payload, 8, groups.value, 5, zeros);
    var symbols := AsSymbols(groups.value);
    SymbolsReadBack(groups.value);
    text := Encode(HRP, [VERSION] + symbols);
    assert Spells(text, payload, symbols, zeros);
  }

  lemma AddressIsPresentable(payload: seq<byte>, symbols: seq<bv5>, zeros: nat)
    requires |payload| == PAYLOAD_LENGTH && Packs(payload, 8, AsGroups(symbols), 5, zeros)
    ensures Presentable(HRP, [VERSION] + symbols, false)
  {
  }

  lemma AddressDecodes(text: seq<byte>, payload: seq<byte>, symbols: seq<bv5>, zeros: nat)
    requires |payload| == PAYLOAD_LENGTH && Spells(text, payload, symbols, zeros)
    ensures Decoded(text, false) == Ok(Parts(HRP, [VERSION] + symbols))
  {
    AddressIsPresentable(payload, symbols, zeros);
    DecodesExactlyTheEncoded(text, false, HRP, [VERSION] + symbols);
  }

  lemma ForeignIsRefused(text: seq<byte>)
    ensures Decoded(text, true).Err?
  {
  }

  method CheckPayload(symbols: seq<bv5>) returns (r: Result<(), AddressError>)
    ensures r.Ok?
            <==> exists payload, zeros :: |payload| == PAYLOAD_LENGTH && Packs(payload, 8, AsGroups(symbols), 5, zeros)
  {
    GroupsAreSmall(symbols);
    var decoded := ConvertBits(AsGroups(symbols), 5, 8, false);
    if decoded.Err? {
      return Err(decoded.error);
    }
    ghost var zeros :| Packs(decoded.value, 8, AsGroups(symbols), 5, zeros);
    if |decoded.value| != PAYLOAD_LENGTH {
      forall payload, y | Packs(payload, 8, AsGroups(symbols), 5, y)
        ensures payload == decoded.value
      {
        PacksOtherWay(payload, decoded.value, 8, AsGroups(symbols), 5, y, zeros);
      }
      return Err(BadPayloadLength);
    }
    return Ok(());
  }

  /** An address is valid exactly when some payload has it as its address. */
  method ValidateAddress(text: seq<byte>, foreign: bool) returns (r: Result<(), AddressError>)
    ensures r.Ok? <==> !foreign && exists payload :: IsAddressOf(text, payload)
  {
    var parts := Decode(text, foreign);
    if parts.Err? {
      if !foreign {
        NoAddress(text);
      }
      return Err(parts.error);
    }
    var hrp, data := parts.value.hrp, parts.value.data;
    if foreign {
      ForeignIsRefused(text);
    }
    if hrp != HRP || data == [] || data[0] != VERSION {
      NotOurs(text, parts.value);
      return Err(NotVersionOne);
    }
    assert data == [VERSION] + data[1..];
    r := CheckPayload(data[1..]);
    SameVerdict(text, data[1..]);
  }

  lemma NoAddress(text: seq<byte>)
    requires Decoded(text, false).Err?
    ensures forall payload :: !IsAddressOf(text, payload)
  {
    forall payload | IsAddressOf(text, payload)
      ensures false
    {
      var symbols, zeros :| Spells(text, payload, symbols, zeros);
      AddressDecodes(text, payload, symbols, zeros);
    }
  }

  lemma NotOurs(text: seq<byte>, parts: Parts)
    requires Decoded(text, false) == Ok(parts)
    requires parts.hrp != HRP || parts.data == [] || parts.data[0] != VERSION
    ensures forall payload :: !IsAddressOf(text, payload)
  {
    forall payload | IsAddressOf(text, payload)
      ensures false
    {
      var symbols, zeros :| Spells(text, payload, symbols, zeros);
      AddressDecodes(text, payload, symbols, zeros);
    }
  }

  lemma SameVerdict(text: seq<byte>, symbols: seq<bv5>)
    requires Decoded(text, false) == Ok(Parts(HRP, [VERSION] + symbols))
    ensures (exists payload, zeros :: |payload| == PAYLOAD_LENGTH && Packs(payload, 8, AsGroups(symbols), 5, zeros))
            <==> exists payload :: IsAddressOf(text, payload)
  {
    DecodesExactlyTheEncoded(text, false, HRP, [VERSION] + symbols);
    forall payload, zeros: nat | |payload| == PAYLOAD_LENGTH && Packs(payload, 8, AsGroups(symbols), 5, zeros)
      ensures IsAddressOf(text, payload)
    {
      assert Spells(text, payload, symbols, zeros);
    }
    forall payload | IsAddressOf(text, payload)
      ensures exists zeros :: Packs(payload, 8, AsGroups(symbols), 5, zeros)
    {
      var others, zeros :| Spells(text, payload, others, zeros);
      AddressDecodes(text, payload, others, zeros);
      assert others == ([VERSION] + others)[1..] == ([VERSION] + symbols)[1..] == symbols;
    }
  }

  /** Different payloads have different addresses, and a payload has one. */
  lemma AddressesAreOneToOne(text: seq<byte>, other: seq<byte>, payload: seq<byte>, second: seq<byte>)
    requires IsAddressOf(text, payload) && IsAddressOf(other, second)
    ensures text == other <==> payload == second
  {
    var s, z :| Spells(text, payload, s, z);
    var t, y :| Spells(other, second, t, y);
    if payload == second {
      PacksOneWay(payload, 8, AsGroups(s), AsGroups(t), 5, z, y);
      GroupsReadBack(s, t);
    } else if text == other {
      AddressDecodes(text, payload, s, z);
      AddressDecodes(other, second, t, y);
      assert s == ([VERSION] + s)[1..] == ([VERSION] + t)[1..] == t;
      PacksOtherWay(payload, second, 8, AsGroups(s), 5, z, y);
    }
  }

  lemma GroupsReadBack(s: seq<bv5>, t: seq<bv5>)
    requires AsGroups(s) == AsGroups(t)
    ensures s == t
  {
  }

  // ---- Damage ----

  ghost predicate IsAddress(text: seq<byte>) {
    exists payload :: IsAddressOf(text, payload)
  }

  lemma AddressText(text: seq<byte>) returns (symbols: seq<bv5>)
    requires IsAddress(text)
    ensures text == Text(HRP, symbols) && |symbols| >= 6 && Checks(HRP, symbols)
  {
    var payload :| IsAddressOf(text, payload);
    var data, zeros :| Spells(text, payload, data, zeros);
    symbols := [VERSION] + data + Bech32m.Digits(HRP, [VERSION] + data);
    Bech32m.DigitsAreUnique(HRP, [VERSION] + data, Bech32m.Digits(HRP, [VERSION] + data));
  }

  /** The common `mrk1` is never part of a difference. */
  lemma BehindThePrefix(s: seq<bv5>, t: seq<bv5>, at: nat)
    requires SameAround(Text(HRP, s), Text(HRP, t), at) && |s| >= 6
    ensures SameAround(Text(HRP, s), Text(HRP, t), if at < 4 then 4 else at)
  {
    var a, b := Text(HRP, s), Text(HRP, t);
    forall i | 0 <= i < 4
      ensures a[i] == b[i]
    {
    }
  }

  /** Change at most six neighbouring characters of an address anywhere, and it is no address, whatever they become. */
  lemma DamagedIsNoAddress(text: seq<byte>, damaged: seq<byte>, at: nat)
    requires IsAddress(text) && SameAround(text, damaged, at) && damaged != text
    ensures !IsAddress(damaged)
  {
    if IsAddress(damaged) {
      var s := AddressText(text);
      var t := AddressText(damaged);
      BehindThePrefix(s, t, at);
      BothCheck(HRP, s, HRP, t, if at < 4 then 4 else at);
    }
  }
}
