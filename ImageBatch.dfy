/**
 * The image batch transfer of `set_key_image`: a START frame carrying the
 * image size and the device key id, one frame per page of at most
 * PACKET_LENGTH image bytes in increasing offset order, then a STOP frame.
 * This module states, as functions of the inputs, which frames are written
 * and which exception is raised before anything is written.
 */
module ImageBatch {
  import opened PyBuiltins
  import opened KeyMap
  import opened Packets

  /** The image pages in order: consecutive PACKET_LENGTH-byte pieces, the last one possibly shorter. */
  function Pages(image: seq<byte>): seq<seq<byte>>
    decreases |image|
  {
    if |image| == 0 then []
    else if |image| <= PACKET_LENGTH then [image]
    else [image[..PACKET_LENGTH]] + Pages(image[PACKET_LENGTH..])
  }

  /** The bytes of the pages laid end to end. */
  function Concat(pages: seq<seq<byte>>): seq<byte>
  {
    if |pages| == 0 then [] else pages[0] + Concat(pages[1..])
  }

  /** ceil(length / PACKET_LENGTH). */
  function PageCount(length: nat): nat
  {
    (length + PACKET_LENGTH - 1) / PACKET_LENGTH
  }

  /** A page number that covers the image and whose last page starts inside it is the page count. */
  lemma PageCountExact(length: nat, p: nat)
    requires length <= PACKET_LENGTH * p && (p == 0 || PACKET_LENGTH * (p - 1) < length)
    ensures p == PageCount(length)
  {
  }

  /** Page i is the slice of the image that starts at offset PACKET_LENGTH * i. */
  lemma {:induction false} PagesAt(image: seq<byte>)
    ensures |Pages(image)| == PageCount(|image|)
    ensures forall i :: 0 <= i < |Pages(image)| ==>
              Pages(image)[i] == image[PACKET_LENGTH * i .. Min(PACKET_LENGTH * i + PACKET_LENGTH, |image|)]
    decreases |image|
  {
    if |image| > PACKET_LENGTH {
      var rest := image[PACKET_LENGTH..];
      PagesAt(rest);
      forall i | 0 <= i < |Pages(image)|
        ensures Pages(image)[i] == image[PACKET_LENGTH * i .. Min(PACKET_LENGTH * i + PACKET_LENGTH, |image|)]
      {
        if i > 0 {
          assert Pages(image)[i] == Pages(rest)[i - 1];
          var lo := PACKET_LENGTH * (i - 1);
          var hi := Min(lo + PACKET_LENGTH, |rest|);
          assert lo + PACKET_LENGTH == PACKET_LENGTH * i;
          assert hi + PACKET_LENGTH == Min(PACKET_LENGTH * i + PACKET_LENGTH, |image|);
          assert rest[lo..hi] == image[lo + PACKET_LENGTH .. hi + PACKET_LENGTH];
        }
      }
    }
  }

  /** Every page holds 1..PACKET_LENGTH bytes, and all but the last exactly PACKET_LENGTH. */
  lemma {:induction false} PageSizes(image: seq<byte>)
    ensures forall i :: 0 <= i < |Pages(image)| ==> 0 < |Pages(image)[i]| <= PACKET_LENGTH
    ensures forall i :: 0 <= i < |Pages(image)| - 1 ==> |Pages(image)[i]| == PACKET_LENGTH
    decreases |image|
  {
    if |image| > PACKET_LENGTH {
      var rest := image[PACKET_LENGTH..];
      PageSizes(rest);
      assert forall i :: 1 <= i < |Pages(image)| ==> Pages(image)[i] == Pages(rest)[i - 1];
    }
  }

  /** Laying the pages end to end gives back the image. */
  lemma {:induction false} PagesConcat(image: seq<byte>)
    ensures Concat(Pages(image)) == image
    decreases |image|
  {
    if |image| > PACKET_LENGTH {
      var rest := image[PACKET_LENGTH..];
      PagesConcat(rest);
      var pages := Pages(image);
      assert pages[1..] == Pages(rest);
      assert image == image[..PACKET_LENGTH] + rest;
    } else if |image| > 0 {
      assert Pages(image)[1..] == [];
    }
  }

  /** `image or self.BLANK_KEY_IMAGE`: a missing or empty image is replaced by the blank one. */
  function ImageOrBlank(image: Option<seq<byte>>, blank: seq<byte>): (data: seq<byte>)
    ensures image.Some? && |image.value| > 0 ==> data == image.value
    ensures image.None? || |image.value| == 0 ==> data == blank
  {
    if image.Some? && |image.value| > 0 then image.value else blank
  }

  /** One frame per page, in page order. */
  function PageFrames(image: seq<byte>): (frames: seq<seq<byte>>)
    ensures |frames| == |Pages(image)|
  {
    seq(|Pages(image)|, i requires 0 <= i < |Pages(image)| => MakePayloadForReportId(REPORT_ID, Pages(image)[i]))
  }

  /**
   * What `set_key_image(key, image)` writes, or the exception it raises first:
   * the range guard `min(max(key, 0), KEY_COUNT) != key`, then the table lookup,
   * then the two-byte size encoding. All three come before the first write.
   */
  function KeyImageWrites(key: int, image: Option<seq<byte>>, blank: seq<byte>): (r: Result<seq<seq<byte>>>)
    ensures r.Raised? ==> r.error == IndexError || r.error == OverflowError
    ensures r.Ok? ==> |r.value| >= 2
  {
    if Clamp(key, 0, KEY_COUNT) != key then Raised(IndexError)
    else
      var data := ImageOrBlank(image, blank);
      match ToDeviceKeyId(key)
      case Raised(e) => Raised(e)
      case Ok(keyId) =>
        match ToBytesBig(|data|, 2)
        case Raised(e) => Raised(e)
        case Ok(size) => Ok(BatchFrames(size, keyId, data))
  }

  /** START, the page frames, STOP. */
  function BatchFrames(size: seq<byte>, keyId: byte, data: seq<byte>): seq<seq<byte>>
  {
    [MakePayloadForReportId(REPORT_ID, StartBatchCommand(size, keyId))]
    + PageFrames(data)
    + [MakePayloadForReportId(REPORT_ID, StopBatchCommand)]
  }

  /** The batch holds 2 + ceil(L / PACKET_LENGTH) frames: START, the pages at increasing offsets, STOP. */
  lemma BatchFramesLayout(size: seq<byte>, keyId: byte, data: seq<byte>)
    ensures var frames := BatchFrames(size, keyId, data);
            && |frames| == 2 + PageCount(|data|)
            && frames[0] == MakePayloadForReportId(REPORT_ID, StartBatchCommand(size, keyId))
            && frames[|frames| - 1] == MakePayloadForReportId(REPORT_ID, StopBatchCommand)
            && forall i :: 0 <= i < PageCount(|data|) ==>
                 frames[i + 1] == MakePayloadForReportId(REPORT_ID, data[PACKET_LENGTH * i .. Min(PACKET_LENGTH * i + PACKET_LENGTH, |data|)])
  {
    PagesAt(data);
    var frames := BatchFrames(size, keyId, data);
    assert forall i :: 0 <= i < PageCount(|data|) ==> frames[i + 1] == PageFrames(data)[i];
  }

  /** Page frame p is the page at offset PACKET_LENGTH * p, of PACKET_LENGTH bytes or what remains. */
  lemma PageFrameAt(data: seq<byte>, p: nat)
    requires PACKET_LENGTH * p < |data|
    ensures p < |PageFrames(data)| == PageCount(|data|)
    ensures PageFrames(data)[p]
         == MakePayloadForReportId(REPORT_ID, data[PACKET_LENGTH * p .. PACKET_LENGTH * p + Min(|data| - PACKET_LENGTH * p, PACKET_LENGTH)])
  {
    PagesAt(data);
  }

  /** Key 15 passes the range guard, which admits KEY_COUNT itself, and is caught by the table lookup. */
  lemma GuardAdmitsKeyCount()
    ensures Clamp(KEY_COUNT, 0, KEY_COUNT) == KEY_COUNT
    ensures ToDeviceKeyId(KEY_COUNT) == Raised(IndexError)
  {
  }

  /** Every key outside 0..KEY_COUNT-1 raises IndexError, by the guard or by the lookup. */
  lemma KeyImageRejectsKey(key: int, image: Option<seq<byte>>, blank: seq<byte>)
    requires key < 0 || KEY_COUNT <= key
    ensures KeyImageWrites(key, image, blank) == Raised(IndexError)
  {
  }

  /** A valid key with an image longer than 65535 bytes raises OverflowError; the size never wraps. */
  lemma KeyImageRejectsOversized(key: int, image: Option<seq<byte>>, blank: seq<byte>)
    requires 0 <= key < KEY_COUNT
    requires 65535 < |ImageOrBlank(image, blank)|
    ensures KeyImageWrites(key, image, blank) == Raised(OverflowError)
  {
    ToBytesBigTwo(|ImageOrBlank(image, blank)|);
  }

  /** The transfer succeeds exactly for a valid key and an image that fits the 16-bit size field. */
  lemma KeyImageSucceedsIff(key: int, image: Option<seq<byte>>, blank: seq<byte>)
    ensures KeyImageWrites(key, image, blank).Ok? <==> 0 <= key < KEY_COUNT && |ImageOrBlank(image, blank)| <= 65535
  {
    ToBytesBigTwo(|ImageOrBlank(image, blank)|);
  }

  /**
   * A successful transfer writes 2 + ceil(L / PACKET_LENGTH) frames for an image
   * of L bytes: START with the big-endian size and the device key id, the pages
   * at increasing offsets, and STOP.
   */
  lemma KeyImageFrames(key: int, image: Option<seq<byte>>, blank: seq<byte>)
    requires 0 <= key < KEY_COUNT && |ImageOrBlank(image, blank)| <= 65535
    ensures var data := ImageOrBlank(image, blank);
            var frames := KeyImageWrites(key, image, blank).value;
            && KeyImageWrites(key, image, blank).Ok?
            && |frames| == 2 + PageCount(|data|)
            && frames[0] == MakePayloadForReportId(REPORT_ID,
                 StartBatchCommand([|data| / 256, |data| % 256], KeyNumToDeviceKeyId[key]))
            && frames[|frames| - 1] == MakePayloadForReportId(REPORT_ID, StopBatchCommand)
            && forall i :: 0 <= i < PageCount(|data|) ==>
                 frames[i + 1] == MakePayloadForReportId(REPORT_ID, data[PACKET_LENGTH * i .. Min(PACKET_LENGTH * i + PACKET_LENGTH, |data|)])
  {
    var data := ImageOrBlank(image, blank);
    ToBytesBigTwo(|data|);
    BatchFramesLayout([|data| / 256, |data| % 256], KeyNumToDeviceKeyId[key], data);
  }

  /** No image and an empty image both send the blank image as a whole batch. */
  lemma MissingImageBatch(key: int, blank: seq<byte>)
    requires 0 <= key < KEY_COUNT && |blank| <= 65535
    ensures KeyImageWrites(key, None, blank) == KeyImageWrites(key, Some([]), blank)
         == Ok(BatchFrames([|blank| / 256, |blank| % 256], KeyNumToDeviceKeyId[key], blank))
  {
    ToBytesBigTwo(|blank|);
  }

  /**
   * A 727-byte blank image, as the built-in one is (Packets.BlankKeyImageSize),
   * goes out as two pages: four frames, with size bytes 2, 215, a full page of
   * PACKET_LENGTH bytes, a page of the remaining 215 bytes padded to the same
   * frame length, and STOP.
   */
  lemma BlankImageBatch(key: int, blank: seq<byte>)
    requires 0 <= key < KEY_COUNT && |blank| == 727
    ensures var frames := KeyImageWrites(key, None, blank).value;
            && KeyImageWrites(key, None, blank).Ok?
            && |frames| == 4
            && frames[0] == MakePayloadForReportId(REPORT_ID, StartBatchCommand([2, 215], KeyNumToDeviceKeyId[key]))
            && frames[1] == MakePayloadForReportId(REPORT_ID, blank[..PACKET_LENGTH])
            && frames[2] == MakePayloadForReportId(REPORT_ID, blank[PACKET_LENGTH..])
            && |blank[PACKET_LENGTH..]| == 215
            && |frames[1]| == |frames[2]| == PACKET_LENGTH + 2
            && frames[2][216..] == Zeros(PACKET_LENGTH - 215 + 1)
            && frames[3] == MakePayloadForReportId(REPORT_ID, StopBatchCommand)
  {
    MissingImageBatch(key, blank);
    BatchFramesLayout([2, 215], KeyNumToDeviceKeyId[key], blank);
    var frames := BatchFrames([2, 215], KeyNumToDeviceKeyId[key], blank);
    assert frames[1] == MakePayloadForReportId(REPORT_ID, blank[PACKET_LENGTH * 0 .. Min(PACKET_LENGTH * 0 + PACKET_LENGTH, 727)]);
    assert frames[2] == MakePayloadForReportId(REPORT_ID, blank[PACKET_LENGTH * 1 .. Min(PACKET_LENGTH * 1 + PACKET_LENGTH, 727)]);
    FrameLayout(REPORT_ID, blank[0..PACKET_LENGTH]);
    FrameLayout(REPORT_ID, blank[PACKET_LENGTH..727]);
  }
}
