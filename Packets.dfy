/**
 * The frame builder and the vendor command grammar of the Mirabox 293S.
 * Every command starts with the token "CRT" and two zero bytes, followed by a
 * three-letter sub-command and its arguments; each is wrapped into a HID report
 * by MakePayloadForReportId before it is written.
 */
module Packets {
  import opened PyBuiltins

  /** The packet length constant (spelled PACKET_LENGHT by the adapter). */
  const PACKET_LENGTH: nat := 512

  /** The report id every frame of this protocol carries. */
  const REPORT_ID: byte := 0x00

  /**
   * `_make_payload_for_report_id`: a zeroed buffer of PACKET_LENGTH + 1 bytes,
   * byte 0 set to the report id, then the slice from 1 up to the payload's
   * length replaced by the whole payload. That slice is one byte narrower than
   * the payload, so every byte of a non-empty payload is kept and the buffer
   * grows by one; an empty payload leaves the zeroed buffer as it was.
   */
  function MakePayloadForReportId(reportId: byte, payloadData: seq<byte>): (r: seq<byte>)
    ensures |payloadData| == 0 ==> r == [reportId] + Zeros(PACKET_LENGTH)
    ensures 1 <= |payloadData| <= PACKET_LENGTH + 1 ==>
              r == [reportId] + payloadData + Zeros(PACKET_LENGTH + 1 - |payloadData|)
    ensures PACKET_LENGTH + 1 < |payloadData| ==> r == [reportId] + payloadData
  {
    var buffer := Zeros(PACKET_LENGTH + 1)[0 := reportId];
    assert buffer[..1] == [reportId];
    SliceAssign(buffer, 1, |payloadData|, payloadData)
  }

  /** A framed payload of 1..513 bytes is 514 bytes long, keeps every payload byte and is zero after it. */
  lemma FrameLayout(reportId: byte, payloadData: seq<byte>)
    requires 1 <= |payloadData| <= PACKET_LENGTH + 1
    ensures var f := MakePayloadForReportId(reportId, payloadData);
            && |f| == PACKET_LENGTH + 2
            && f[0] == reportId
            && f[1..|payloadData| + 1] == payloadData
            && forall i :: |payloadData| + 1 <= i < |f| ==> f[i] == 0
  {
    var f := MakePayloadForReportId(reportId, payloadData);
    assert f[1..|payloadData| + 1] == payloadData;
  }

  /** An empty payload gives a frame of exactly PACKET_LENGTH + 1 bytes. */
  lemma EmptyFrame(reportId: byte)
    ensures |MakePayloadForReportId(reportId, [])| == PACKET_LENGTH + 1
  {
  }

  /** The character codes of an ASCII string, as bytes. */
  function Ascii(s: string): (r: seq<byte>)
    requires forall i :: 0 <= i < |s| ==> s[i] as int < 256
    ensures |r| == |s|
    ensures forall i :: 0 <= i < |s| ==> r[i] == s[i] as int
  {
    seq(|s|, i requires 0 <= i < |s| => s[i] as int)
  }

  /** The command grammar: "CRT", two zero bytes, the sub-command token, then its arguments. */
  function Command(token: string, args: seq<byte>): seq<byte>
    requires forall i :: 0 <= i < |token| ==> token[i] as int < 256
  {
    Ascii("CRT\0\0") + Ascii(token) + args
  }

  /** `CRT\0\0DIS`: disconnect. */
  const DisconnectCommand: seq<byte> := [0x43, 0x52, 0x54, 0x00, 0x00, 0x44, 0x49, 0x53]

  /** `CRT\0\0CONNECT`: connect / ping. */
  const ConnectCommand: seq<byte> := [0x43, 0x52, 0x54, 0x00, 0x00, 0x43, 0x4f, 0x4e, 0x4e, 0x45, 0x43, 0x54]

  /** `CRT\0\0CLE` with target 0xff: clear every key. */
  const ClearAllCommand: seq<byte> := [0x43, 0x52, 0x54, 0x00, 0x00, 0x43, 0x4c, 0x45, 0x00, 0x00, 0x00, 0xff]

  /** `CRT\0\0LIG`: set the brightness to a percent. */
  function BrightnessCommand(percent: byte): seq<byte>
  {
    [0x43, 0x52, 0x54, 0x00, 0x00, 0x4c, 0x49, 0x47, 0x00, 0x00, percent, 0x00]
  }

  /** `CRT\0\0BAT`: start an image batch of the given (encoded) size for a device key id. */
  function StartBatchCommand(sizeBytes: seq<byte>, keyId: byte): seq<byte>
  {
    [0x43, 0x52, 0x54, 0x00, 0x00, 0x42, 0x41, 0x54, 0x00, 0x00] + sizeBytes + [keyId]
  }

  /** `CRT\0\0STP`: stop the image batch. */
  const StopBatchCommand: seq<byte> := [0x43, 0x52, 0x54, 0x00, 0x00, 0x53, 0x54, 0x50]

  /** The byte literals of the adapter spell exactly the commands of the grammar. */
  lemma CommandsFollowGrammar(percent: byte, sizeBytes: seq<byte>, keyId: byte)
    ensures DisconnectCommand == Command("DIS", [])
    ensures ConnectCommand == Command("CONNECT", [])
    ensures ClearAllCommand == Command("CLE", [0x00, 0x00, 0x00, 0xff])
    ensures BrightnessCommand(percent) == Command("LIG", [0x00, 0x00, percent, 0x00])
    ensures StartBatchCommand(sizeBytes, keyId) == Command("BAT", [0x00, 0x00] + sizeBytes + [keyId])
    ensures StopBatchCommand == Command("STP", [])
  {
    var crt := Ascii("CRT\0\0");
    assert crt == [0x43, 0x52, 0x54, 0x00, 0x00];
    assert Ascii("DIS") == [0x44, 0x49, 0x53];
    assert Ascii("CONNECT") == [0x43, 0x4f, 0x4e, 0x4e, 0x45, 0x43, 0x54];
    assert Ascii("CLE") == [0x43, 0x4c, 0x45];
    assert Ascii("LIG") == [0x4c, 0x49, 0x47];
    assert Ascii("BAT") == [0x42, 0x41, 0x54];
    assert Ascii("STP") == [0x53, 0x54, 0x50];
  }

  /** The built-in placeholder image (a small black JPEG), sent when no image is given. */
  const BlankKeyImage: seq<byte> := [
      0xff, 0xd8, 0xff, 0xe0, 0x00, 0x10, 0x4a, 0x46, 0x49, 0x46, 0x00, 0x01, 0x01, 0x00, 0x00, 0x01,
      0x00, 0x01, 0x00, 0x00, 0xff, 0xdb, 0x00, 0x43, 0x00, 0x08, 0x06, 0x06, 0x07, 0x06, 0x05, 0x08,
      0x07, 0x07, 0x07, 0x09, 0x09, 0x08, 0x0a, 0x0c, 0x14, 0x0d, 0x0c, 0x0b, 0x0b, 0x0c, 0x19, 0x12,
      0x13, 0x0f, 0x14, 0x1d, 0x1a, 0x1f, 0x1e, 0x1d, 0x1a, 0x1c, 0x1c, 0x20, 0x24, 0x2e, 0x27, 0x20,
      0x22, 0x2c, 0x23, 0x1c, 0x1c, 0x28, 0x37, 0x29, 0x2c, 0x30, 0x31, 0x34, 0x34, 0x34, 0x1f, 0x27,
      0x39, 0x3d, 0x38, 0x32, 0x3c, 0x2e, 0x33, 0x34, 0x32, 0xff, 0xdb, 0x00, 0x43, 0x01, 0x09, 0x09,
      0x09, 0x0c, 0x0b, 0x0c, 0x18, 0x0d, 0x0d, 0x18, 0x32, 0x21, 0x1c, 0x21, 0x32, 0x32, 0x32, 0x32,
      0x32, 0x32, 0x32, 0x32, 0x32, 0x32, 0x32, 0x32, 0x32, 0x32, 0x32, 0x32, 0x32, 0x32, 0x32, 0x32,
      0x32, 0x32, 0x32, 0x32, 0x32, 0x32, 0x32, 0x32, 0x32, 0x32, 0x32, 0x32, 0x32, 0x32, 0x32, 0x32,
      0x32, 0x32, 0x32, 0x32, 0x32, 0x32, 0x32, 0x32, 0x32, 0x32, 0x32, 0x32, 0x32, 0x32, 0xff, 0xc0,
      0x00, 0x11, 0x08, 0x00, 0x48, 0x00, 0x48, 0x03, 0x01, 0x22, 0x00, 0x02, 0x11, 0x01, 0x03, 0x11,
      0x01, 0xff, 0xc4, 0x00, 0x1f, 0x00, 0x00, 0x01, 0x05, 0x01, 0x01, 0x01, 0x01, 0x01, 0x01, 0x00,
      0x00, 0x00, 0x00, 0x00, 0x00, 0x00, 0x00, 0x01, 0x02, 0x03, 0x04, 0x05, 0x06, 0x07, 0x08, 0x09,
      0x0a, 0x0b, 0xff, 0xc4, 0x00, 0xb5, 0x10, 0x00, 0x02, 0x01, 0x03, 0x03, 0x02, 0x04, 0x03, 0x05,
      0x05, 0x04, 0x04, 0x00, 0x00, 0x01, 0x7d, 0x01, 0x02, 0x03, 0x00, 0x04, 0x11, 0x05, 0x12, 0x21,
      0x31, 0x41, 0x06, 0x13, 0x51, 0x61, 0x07, 0x22, 0x71, 0x14, 0x32, 0x81, 0x91, 0xa1, 0x08, 0x23,
      0x42, 0xb1, 0xc1, 0x15, 0x52, 0xd1, 0xf0, 0x24, 0x33, 0x62, 0x72, 0x82, 0x09, 0x0a, 0x16, 0x17,
      0x18, 0x19, 0x1a, 0x25, 0x26, 0x27, 0x28, 0x29, 0x2a, 0x34, 0x35, 0x36, 0x37, 0x38, 0x39, 0x3a,
      0x43, 0x44, 0x45, 0x46, 0x47, 0x48, 0x49, 0x4a, 0x53, 0x54, 0x55, 0x56, 0x57, 0x58, 0x59, 0x5a,
      0x63, 0x64, 0x65, 0x66, 0x67, 0x68, 0x69, 0x6a, 0x73, 0x74, 0x75, 0x76, 0x77, 0x78, 0x79, 0x7a,
      0x83, 0x84, 0x85, 0x86, 0x87, 0x88, 0x89, 0x8a, 0x92, 0x93, 0x94, 0x95, 0x96, 0x97, 0x98, 0x99,
      0x9a, 0xa2, 0xa3, 0xa4, 0xa5, 0xa6, 0xa7, 0xa8, 0xa9, 0xaa, 0xb2, 0xb3, 0xb4, 0xb5, 0xb6, 0xb7,
      0xb8, 0xb9, 0xba, 0xc2, 0xc3, 0xc4, 0xc5, 0xc6, 0xc7, 0xc8, 0xc9, 0xca, 0xd2, 0xd3, 0xd4, 0xd5,
      0xd6, 0xd7, 0xd8, 0xd9, 0xda, 0xe1, 0xe2, 0xe3, 0xe4, 0xe5, 0xe6, 0xe7, 0xe8, 0xe9, 0xea, 0xf1,
      0xf2, 0xf3, 0xf4, 0xf5, 0xf6, 0xf7, 0xf8, 0xf9, 0xfa, 0xff, 0xc4, 0x00, 0x1f, 0x01, 0x00, 0x03,
      0x01, 0x01, 0x01, 0x01, 0x01, 0x01, 0x01, 0x01, 0x01, 0x00, 0x00, 0x00, 0x00, 0x00, 0x00, 0x01,
      0x02, 0x03, 0x04, 0x05, 0x06, 0x07, 0x08, 0x09, 0x0a, 0x0b, 0xff, 0xc4, 0x00, 0xb5, 0x11, 0x00,
      0x02, 0x01, 0x02, 0x04, 0x04, 0x03, 0x04, 0x07, 0x05, 0x04, 0x04, 0x00, 0x01, 0x02, 0x77, 0x00,
      0x01, 0x02, 0x03, 0x11, 0x04, 0x05, 0x21, 0x31, 0x06, 0x12, 0x41, 0x51, 0x07, 0x61, 0x71, 0x13,
      0x22, 0x32, 0x81, 0x08, 0x14, 0x42, 0x91, 0xa1, 0xb1, 0xc1, 0x09, 0x23, 0x33, 0x52, 0xf0, 0x15,
      0x62, 0x72, 0xd1, 0x0a, 0x16, 0x24, 0x34, 0xe1, 0x25, 0xf1, 0x17, 0x18, 0x19, 0x1a, 0x26, 0x27,
      0x28, 0x29, 0x2a, 0x35, 0x36, 0x37, 0x38, 0x39, 0x3a, 0x43, 0x44, 0x45, 0x46, 0x47, 0x48, 0x49,
      0x4a, 0x53, 0x54, 0x55, 0x56, 0x57, 0x58, 0x59, 0x5a, 0x63, 0x64, 0x65, 0x66, 0x67, 0x68, 0x69,
      0x6a, 0x73, 0x74, 0x75, 0x76, 0x77, 0x78, 0x79, 0x7a, 0x82, 0x83, 0x84, 0x85, 0x86, 0x87, 0x88,
      0x89, 0x8a, 0x92, 0x93, 0x94, 0x95, 0x96, 0x97, 0x98, 0x99, 0x9a, 0xa2, 0xa3, 0xa4, 0xa5, 0xa6,
      0xa7, 0xa8, 0xa9, 0xaa, 0xb2, 0xb3, 0xb4, 0xb5, 0xb6, 0xb7, 0xb8, 0xb9, 0xba, 0xc2, 0xc3, 0xc4,
      0xc5, 0xc6, 0xc7, 0xc8, 0xc9, 0xca, 0xd2, 0xd3, 0xd4, 0xd5, 0xd6, 0xd7, 0xd8, 0xd9, 0xda, 0xe2,
      0xe3, 0xe4, 0xe5, 0xe6, 0xe7, 0xe8, 0xe9, 0xea, 0xf2, 0xf3, 0xf4, 0xf5, 0xf6, 0xf7, 0xf8, 0xf9,
      0xfa, 0xff, 0xda, 0x00, 0x0c, 0x03, 0x01, 0x00, 0x02, 0x11, 0x03, 0x11, 0x00, 0x3f, 0x00, 0xf9,
      0xfe, 0x8a, 0x28, 0xa0, 0x02, 0x8a, 0x28, 0xa0, 0x02, 0x8a, 0x28, 0xa0, 0x02, 0x8a, 0x28, 0xa0,
      0x02, 0x8a, 0x28, 0xa0, 0x02, 0x8a, 0x28, 0xa0, 0x02, 0x8a, 0x28, 0xa0, 0x02, 0x8a, 0x28, 0xa0,
      0x02, 0x8a, 0x28, 0xa0, 0x02, 0x8a, 0x28, 0xa0, 0x02, 0x8a, 0x28, 0xa0, 0x02, 0x8a, 0x28, 0xa0,
      0x02, 0x8a, 0x28, 0xa0, 0x02, 0x8a, 0x28, 0xa0, 0x02, 0x8a, 0x28, 0xa0, 0x02, 0x8a, 0x28, 0xa0,
      0x02, 0x8a, 0x28, 0xa0, 0x02, 0x8a, 0x28, 0xa0, 0x02, 0x8a, 0x28, 0xa0, 0x02, 0x8a, 0x28, 0xa0,
      0x02, 0x8a, 0x28, 0xa0, 0x02, 0x8a, 0x28, 0xa0, 0x02, 0x8a, 0x28, 0xa0, 0x02, 0x8a, 0x28, 0xa0,
      0x02, 0x8a, 0x28, 0xa0, 0x0f, 0xff, 0xd9
    ]

  /** The built-in blank image is 727 bytes long. */
  lemma BlankKeyImageSize()
    ensures |BlankKeyImage| == 727
  {
  }
}
