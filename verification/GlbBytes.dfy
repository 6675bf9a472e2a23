/**
 The bytes of a binary glTF file (scripts/build_industrial_models.Model.export):
 how numbers are packed, and the container of section 4.4 of the Khronos glTF 2.0
 specification, as a reader takes it apart.
 */
module GlbBytes {
  import opened Wrappers

  type Byte = x: int | 0 <= x < 256

  const U32 := 0x1_0000_0000

  // ----- Little-endian numbers -----

  function LittleEndian(x: nat, width: nat): (b: seq<Byte>)
    ensures |b| == width
  {
    if width == 0 then [] else [x % 256] + LittleEndian(x / 256, width - 1)
  }

  function Number(b: seq<Byte>): nat {
    if b == [] then 0 else b[0] + 256 * Number(b[1..])
  }

  function Power(width: nat): nat { if width == 0 then 1 else 256 * Power(width - 1) }

  lemma {:induction false} NumberReadsBack(x: nat, width: nat)
    requires x < Power(width)
    ensures Number(LittleEndian(x, width)) == x
  {
    if width > 0 {
      NumberReadsBack(x / 256, width - 1);
      assert LittleEndian(x, width)[1..] == LittleEndian(x / 256, width - 1);
    }
  }

  function Pack32(x: nat): seq<Byte> { LittleEndian(x, 4) }

  lemma Pack32ReadsBack(x: nat)
    requires x < U32
    ensures |Pack32(x)| == 4 && Number(Pack32(x)) == x
  {
    assert Power(1) == 256 && Power(2) == 65536 && Power(3) == 16777216 && Power(4) == U32;
    NumberReadsBack(x, 4);
  }

  // ----- Component values -----

  /** The two component types the exporter uses, by their glTF codes. */
  const FLOAT := 5126
  const USHORT := 5123

  predicate IsComponent(component: int) { component == FLOAT || component == USHORT }

  function Width(component: int): nat { if component == FLOAT then 4 else 2 }

  /** The coordinates of a unit box are -1, 0 and 1, which single precision holds exactly. */
  predicate Fits(component: int, v: int) {
    if component == FLOAT then -1 <= v <= 1 else 0 <= v < 65536
  }

  function Code(component: int, v: int): nat
    requires Fits(component, v)
  {
    if component == FLOAT then (if v == 0 then 0 else if v == 1 then 0x3F80_0000 else 0xBF80_0000) else v
  }

  function Value(component: int, code: nat): int {
    if component == FLOAT then (if code == 0 then 0 else if code == 0x3F80_0000 then 1 else -1) else code
  }

  predicate AllFit(component: int, values: seq<int>) { forall v :: v in values ==> Fits(component, v) }

  /** struct.pack of a list of values of one type. */
  function Packed(component: int, values: seq<int>): (b: seq<Byte>)
    requires AllFit(component, values)
    ensures |b| == Width(component) * |values|
  {
    if values == [] then []
    else
      assert values[0] in values;
      assert AllFit(component, values[1..]) by { assert forall v :: v in values[1..] ==> v in values; }
      LittleEndian(Code(component, values[0]), Width(component)) + Packed(component, values[1..])
  }

  /** What a reader of the view finds. */
  function Unpacked(component: int, b: seq<Byte>): seq<int>
    requires IsComponent(component)
  {
    if |b| < Width(component) then []
    else [Value(component, Number(b[..Width(component)]))] + Unpacked(component, b[Width(component)..])
  }

  lemma CodeReadsBack(component: int, v: int)
    requires IsComponent(component) && Fits(component, v)
    ensures Value(component, Number(LittleEndian(Code(component, v), Width(component)))) == v
  {
    assert Power(1) == 256 && Power(2) == 65536 && Power(3) == 16777216 && Power(4) == U32;
    NumberReadsBack(Code(component, v), Width(component));
  }

  lemma {:induction false} ValuesReadBack(component: int, values: seq<int>)
    requires IsComponent(component) && AllFit(component, values)
    ensures Unpacked(component, Packed(component, values)) == values
  {
    if values != [] {
      assert values[0] in values;
      assert AllFit(component, values[1..]) by { assert forall v :: v in values[1..] ==> v in values; }
      ValuesReadBack(component, values[1..]);
      CodeReadsBack(component, values[0]);
      hide LittleEndian, Number, Code, Value;
      var head, tail := LittleEndian(Code(component, values[0]), Width(component)), Packed(component, values[1..]);
      assert Packed(component, values) == head + tail;
      assert (head + tail)[..Width(component)] == head && (head + tail)[Width(component)..] == tail;
    }
  }

  // ----- The container -----

  const MAGIC: seq<Byte> := [0x67, 0x6C, 0x54, 0x46]
  const JSON: seq<Byte> := [0x4A, 0x53, 0x4F, 0x4E]
  const BIN: seq<Byte> := [0x42, 0x49, 0x4E, 0x00]

  function Padding(n: nat): (k: nat)
    ensures k < 4 && (n + k) % 4 == 0
  {
    (4 - n % 4) % 4
  }

  function Fill(b: Byte, n: nat): (s: seq<Byte>)
    ensures |s| == n
  {
    seq(n, i => b)
  }

  function Padded(b: seq<Byte>, pad: Byte): (s: seq<Byte>)
    ensures |s| % 4 == 0 && |b| <= |s| < |b| + 4 && s[..|b|] == b
  {
    b + Fill(pad, Padding(|b|))
  }

  function Container(text: seq<Byte>, data: seq<Byte>): seq<Byte> {
    MAGIC + Pack32(2) + Pack32(28 + |text| + |data|) + Pack32(|text|) + JSON + text + Pack32(|data|) + BIN + data
  }

  /** A reader that takes nothing on trust: magic, version, total length, and two chunks of the right type that fill the file. */
  function Parse(file: seq<Byte>): Option<(seq<Byte>, seq<Byte>)> {
    if |file| < 28 || file[..4] != MAGIC || Number(file[4..8]) != 2 || Number(file[8..12]) != |file| then None
    else
      var n := Number(file[12..16]);
      if file[16..20] != JSON || n % 4 != 0 || |file| < 28 + n then None
      else
        var m := Number(file[20 + n..24 + n]);
        if file[24 + n..28 + n] != BIN || m % 4 != 0 || |file| != 28 + n + m then None
        else Some((file[20..20 + n], file[28 + n..]))
  }

  /** Reading a written container gives its two chunks back; the header length is the real length of the file. */
  lemma ContainerReadsBack(text: seq<Byte>, data: seq<Byte>)
    requires |text| % 4 == 0 && |data| % 4 == 0 && 28 + |text| + |data| < U32
    ensures var file := Container(text, data);
            && |file| == 28 + |text| + |data| && Number(file[8..12]) == |file|
            && Parse(file) == Some((text, data))
  {
    var total := 28 + |text| + |data|;
    Pack32ReadsBack(2);
    Pack32ReadsBack(total);
    Pack32ReadsBack(|text|);
    Pack32ReadsBack(|data|);
    ContainerParts(text, data, Pack32(2), Pack32(total), Pack32(|text|), Pack32(|data|));
    hide Pack32, Number;
  }

  lemma ContainerParts(text: seq<Byte>, data: seq<Byte>, version: seq<Byte>, total: seq<Byte>, n: seq<Byte>, m: seq<Byte>)
    requires |version| == |total| == |n| == |m| == 4
    ensures var file := MAGIC + version + total + n + JSON + text + m + BIN + data;
            && |file| == 28 + |text| + |data|
            && file[..4] == MAGIC && file[4..8] == version && file[8..12] == total && file[12..16] == n && file[16..20] == JSON
            && file[20..20 + |text|] == text && file[20 + |text|..24 + |text|] == m && file[24 + |text|..28 + |text|] == BIN
            && file[28 + |text|..] == data
  {
  }
}
