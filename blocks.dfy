/**
 * The 16-byte blocks the code writes to a MIFARE Classic 1K card: the
 * "Registered" enrollment marker (two spellings of the same padding), the
 * "HelloWorld!" data block and the sector trailer laid out as in section
 * 8.6.3 (Sector trailer) of the NXP MF1S50yyX datasheet: key A in bytes
 * 0-5, access bits in bytes 6-9, key B in bytes 10-15.
 */
module Blocks {
  import opened Types

  const BlockSize: nat := 16

  predicate IsLatin1(s: string) {
    forall i :: 0 <= i < |s| ==> s[i] as int < 256
  }

  /** `[ord(c) for c in s]`. */
  function Codes(s: string): (r: seq<byte>)
    requires IsLatin1(s)
    ensures |r| == |s| && forall i :: 0 <= i < |s| ==> r[i] == s[i] as int
  {
    seq(|s|, i requires 0 <= i < |s| => s[i] as int)
  }

  /** Python's `s[:n]` for `n >= 0`. */
  function Take<T>(s: seq<T>, n: nat): (r: seq<T>)
    ensures |r| == (if n < |s| then n else |s|) && r == s[..|r|]
  {
    if n < |s| then s[..n] else s
  }

  /** The block a byte list is trimmed or padded to: its first 16 bytes, zeros after its end. */
  predicate IsFitted(data: seq<byte>, r: seq<byte>) {
    |r| == BlockSize && forall i :: 0 <= i < BlockSize ==> r[i] == (if i < |data| then data[i] else 0)
  }

  /** RFIDsystem.py's `data_bytes[:16] + [0] * (16 - len(data_bytes))`. */
  function FitConcat(data: seq<byte>): (r: seq<byte>)
    ensures IsFitted(data, r)
  {
    Take(data, BlockSize) + Copies(0, BlockSize - |data|)
  }

  /** RFIDtest-nosql.py's `(data_bytes[:16] + [0]*16)[:16]`. */
  function FitSlice(data: seq<byte>): (r: seq<byte>)
    ensures IsFitted(data, r)
  {
    Take(Take(data, BlockSize) + Copies(0, BlockSize), BlockSize)
  }

  /** The two paddings build the same block from every byte list. */
  lemma FitFormsAgree(data: seq<byte>)
    ensures FitConcat(data) == FitSlice(data)
  {
    var a, b := FitConcat(data), FitSlice(data);
    assert forall i :: 0 <= i < BlockSize ==> a[i] == b[i];
  }

  const MarkerText: string := "Registered"

  /** The enrollment marker as RFIDsystem.py builds it. */
  function SystemMarker(): seq<byte> {
    FitConcat(Codes(MarkerText))
  }

  /** The enrollment marker as RFIDtest-nosql.py builds it. */
  function NoSqlMarker(): seq<byte> {
    FitSlice(Codes(MarkerText))
  }

  /** The marker is "Registered" in ASCII followed by six zero bytes, in both scripts. */
  lemma MarkerBytes()
    ensures SystemMarker() == NoSqlMarker()
    ensures SystemMarker() == [82, 101, 103, 105, 115, 116, 101, 114, 101, 100, 0, 0, 0, 0, 0, 0]
  {
    FitFormsAgree(Codes(MarkerText));
    var m := SystemMarker();
    assert IsFitted(Codes(MarkerText), m);
    var expected: seq<byte> := [82, 101, 103, 105, 115, 116, 101, 114, 101, 100, 0, 0, 0, 0, 0, 0];
    assert forall i :: 0 <= i < BlockSize ==> m[i] == expected[i];
  }

  /** RFIDWrite.py's `[ord(c) for c in text] + [0] * (16 - len(text))`: pads, never trims. */
  function PadText(text: string): (r: seq<byte>)
    requires IsLatin1(text)
    ensures |r| == (if |text| < BlockSize then BlockSize else |text|)
    ensures forall i :: 0 <= i < |r| ==> r[i] == (if i < |text| then text[i] as int else 0)
  {
    Codes(text) + Copies(0, BlockSize - |text|)
  }

  const HelloText: string := "HelloWorld!"

  function HelloBlock(): seq<byte> {
    PadText(HelloText)
  }

  /** The data block is 16 bytes: "HelloWorld!" in ASCII and five zero bytes. */
  lemma HelloBlockBytes()
    ensures |HelloBlock()| == BlockSize
    ensures HelloBlock() == [72, 101, 108, 108, 111, 87, 111, 114, 108, 100, 33, 0, 0, 0, 0, 0]
  {
    var h := HelloBlock();
    var expected: seq<byte> := [72, 101, 108, 108, 111, 87, 111, 114, 108, 100, 33, 0, 0, 0, 0, 0];
    assert forall i :: 0 <= i < BlockSize ==> h[i] == expected[i];
  }

  /** A sector trailer: `key_a + access_bits + key_b`. */
  function SectorTrailer(keyA: seq<byte>, access: seq<byte>, keyB: seq<byte>): seq<byte> {
    keyA + access + keyB
  }

  /** The datasheet's reading of a 16-byte trailer block. */
  datatype TrailerFields = TrailerFields(keyA: seq<byte>, access: seq<byte>, keyB: seq<byte>)

  function SplitTrailer(block: seq<byte>): (f: TrailerFields)
    requires |block| == BlockSize
    ensures |f.keyA| == 6 && |f.access| == 4 && |f.keyB| == 6
  {
    TrailerFields(block[..6], block[6..10], block[10..])
  }

  /** A trailer built from a 6-byte key A, 4 access bytes and a 6-byte key B is 16 bytes and reads back as those fields. */
  lemma TrailerLayout(keyA: seq<byte>, access: seq<byte>, keyB: seq<byte>)
    requires |keyA| == 6 && |access| == 4 && |keyB| == 6
    ensures |SectorTrailer(keyA, access, keyB)| == BlockSize
    ensures SplitTrailer(SectorTrailer(keyA, access, keyB)) == TrailerFields(keyA, access, keyB)
  {
    var t := SectorTrailer(keyA, access, keyB);
    assert t[..6] == keyA;
    assert t[6..10] == access;
    assert t[10..] == keyB;
  }

  /** RFIDCustomWriteKey.py's new key and access bytes. */
  const NewKey: seq<byte> := [0xA1, 0xB2, 0xC3, 0xD4, 0xE5, 0xF6]
  const AccessBits: seq<byte> := [0xFF, 0x07, 0x80, 0x69]

  /** The trailer RFIDCustomWriteKey.py writes: the new key as both key A and key B. */
  function CustomTrailer(): seq<byte> {
    SectorTrailer(NewKey, AccessBits, NewKey)
  }

  lemma CustomTrailerLayout()
    ensures |CustomTrailer()| == BlockSize
    ensures CustomTrailer()[..6] == NewKey && CustomTrailer()[6..10] == AccessBits
    ensures CustomTrailer()[10..] == NewKey
  {
    TrailerLayout(NewKey, AccessBits, NewKey);
  }

  /** MIFARE Classic 1K: 16 sectors of 4 blocks, the last block of each sector is its trailer. */
  predicate IsTrailerBlock(block: nat) {
    block < 64 && block % 4 == 3
  }

  function SectorOf(block: nat): nat {
    block / 4
  }

  /**
   * Block 7, where RFIDCustomWriteKey.py writes keys, is the trailer of
   * sector 1; block 8, where the marker and "HelloWorld!" go, is a data
   * block of sector 2, so those writes never touch key material.
   */
  lemma BlockRoles()
    ensures IsTrailerBlock(7) && SectorOf(7) == 1
    ensures !IsTrailerBlock(8) && SectorOf(8) == 2
  {
  }
}
