/**
 * `RFIDSensor` (esp32/sensors/rfid.py): the card reader's UID buffer and the
 * string the firmware turns it into.
 *
 * The MFRC522 driver keeps the UID of the last card read as a ten-byte buffer
 * and a size. Detecting a card and reading its serial are the driver's
 * business and appear here as their two boolean outcomes.
 */
module Rfid {
  import opened Wrappers
  import opened Decimal

  type Byte = b: int | 0 <= b < 256

  /** Bytes in the driver's UID buffer. */
  const UidCapacity: nat := 10

  /** `str(b0) + str(b1) + …`: each byte in decimal, no separator, no padding. */
  function CardId(bytes: seq<Byte>): string
    decreases |bytes|
  {
    if bytes == [] then "" else CardId(bytes[..|bytes| - 1]) + DecimalString(bytes[|bytes| - 1])
  }

  /** The bytes `uidByte[0:size]` selects: Python's slice stops at the end of the buffer. */
  function UidBytes(buffer: seq<Byte>, size: int): (r: seq<Byte>)
    requires size > 0
    ensures |r| == if size < |buffer| then size else |buffer|
  {
    if size < |buffer| then buffer[..size] else buffer
  }

  class RFIDSensor {
    /** `uid.uidByte`. */
    const uidByte: array<Byte>
    /** `uid.size`. */
    var size: int

    /** A sensor whose driver has read no card: size 0 and an empty buffer. */
    constructor ()
      ensures fresh(uidByte) && uidByte.Length == UidCapacity && size == 0
      ensures forall i :: 0 <= i < UidCapacity ==> uidByte[i] == 0
    {
      uidByte := new Byte[UidCapacity](_ => 0);
      size := 0;
    }

    /** `scan_card()`: True only when a new card is present and its serial was read. */
    method ScanCard(cardPresent: bool, serialRead: bool) returns (scanned: bool)
      ensures scanned ==> cardPresent
      ensures cardPresent ==> scanned == serialRead
    {
      scanned := false;
      if cardPresent {
        if serialRead {
          scanned := true;
        }
      }
    }

    /** `get_card_id()`: None for size 0, else the decimal concatenation of the UID bytes. */
    method GetCardId() returns (id: Option<string>)
      ensures size <= 0 ==> id == None
      ensures size > 0 ==> id == Some(CardId(UidBytes(uidByte[..], size)))
    {
      if size > 0 {
        var bytes := UidBytes(uidByte[..], size);
        var uid := "";
        var i := 0;
        while i < |bytes|
          invariant 0 <= i <= |bytes|
          invariant uid == CardId(bytes[..i])
        {
          assert bytes[..i + 1][..i] == bytes[..i];
          uid := uid + DecimalString(bytes[i]);
          i := i + 1;
        }
        assert bytes[..i] == bytes;
        id := Some(uid);
      } else {
        id := None;
      }
    }

    /** `clear_card()`: size 0 and the ten buffer bytes zeroed. */
    method ClearCard()
      requires uidByte.Length == UidCapacity
      modifies this`size, uidByte
      ensures size == 0 && uidByte[..] == seq(UidCapacity, _ => 0)
    {
      size := 0;
      var i := 0;
      while i < UidCapacity
        invariant 0 <= i <= UidCapacity && size == 0
        invariant forall j :: 0 <= j < i ==> uidByte[j] == 0
      {
        uidByte[i] := 0;
        i := i + 1;
      }
    }
  }

  /** The rendering of a concatenation is the concatenation of the renderings. */
  lemma {:induction false} CardIdAppend(a: seq<Byte>, b: seq<Byte>)
    ensures CardId(a + b) == CardId(a) + CardId(b)
    decreases |b|
  {
    if b != [] {
      var init := b[..|b| - 1];
      assert (a + b)[..|a + b| - 1] == a + init;
      CardIdAppend(a, init);
    } else {
      assert a + b == a;
    }
  }

  /** A UID of n bytes renders in n to 3n characters, all digits. */
  lemma {:induction false} CardIdLength(bytes: seq<Byte>)
    ensures |bytes| <= |CardId(bytes)| <= 3 * |bytes|
    ensures forall i :: 0 <= i < |CardId(bytes)| ==> IsDigit(CardId(bytes)[i])
    decreases |bytes|
  {
    if bytes != [] {
      CardIdLength(bytes[..|bytes| - 1]);
      ByteLength(bytes[|bytes| - 1]);
    }
  }

  /** Different UIDs can render alike: [1, 23] and [12, 3] both give "123". */
  lemma CardIdNotInjective()
    ensures CardId([1, 23]) == CardId([12, 3]) == "123"
  {
    var a: seq<Byte> := [1, 23];
    var b: seq<Byte> := [12, 3];
    assert a[..1] == [1] && b[..1] == [12];
    assert [1][..0] == [] && [12][..0] == [];
    assert DecimalString(23) == "23" && DecimalString(12) == "12";
  }

  /** After `clear_card()` the sensor reports no card. */
  method ClearedCardReadsNone() returns (before: Option<string>, after: Option<string>)
    ensures before == Some("123") && after == None
  {
    var sensor := new RFIDSensor();
    sensor.uidByte[0] := 1;
    sensor.uidByte[1] := 23;
    sensor.size := 2;
    before := sensor.GetCardId();
    assert sensor.uidByte[..][..2] == [1, 23];
    CardIdNotInjective();
    sensor.ClearCard();
    after := sensor.GetCardId();
  }
}
