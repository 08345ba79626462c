/**
 * The Mirabox 293S adapter as an object: the press/release flag is a field
 * that polling updates, and every operation writes its frames, in order,
 * to a HID transport. The transport is a fake that records the frames
 * written and answers reads from a scripted queue.
 */
module Mirabox {
  import opened PyBuiltins
  import opened KeyMap
  import opened Packets
  import opened ImageBatch
  import opened Poller

  /** Stand-in for the HID device: a log of written frames and the reads still to be returned. */
  class FakeHidDevice {
    var written: seq<seq<byte>>
    var pending: seq<Option<seq<byte>>>

    constructor (script: seq<Option<seq<byte>>>)
      ensures written == [] && pending == script
    {
      written := [];
      pending := script;
    }

    /** `device.write(frame)`. */
    method Write(frame: seq<byte>)
      modifies this
      ensures written == old(written) + [frame]
      ensures pending == old(pending)
    {
      written := written + [frame];
    }

    /** `device.read(...)`: the next scripted result, None once the script is exhausted. */
    method Read() returns (data: Option<seq<byte>>)
      modifies this
      ensures (data, pending) == NextRead(old(pending))
      ensures written == old(written)
    {
      if |pending| == 0 {
        data := None;
      } else {
        data := pending[0];
        pending := pending[1..];
      }
    }
  }

  /** The frames `reset` writes: disconnect, connect, clear every key. */
  const ResetFrames: seq<seq<byte>> := [
    MakePayloadForReportId(REPORT_ID, DisconnectCommand),
    MakePayloadForReportId(REPORT_ID, ConnectCommand),
    MakePayloadForReportId(REPORT_ID, ClearAllCommand)
  ]

  /** The frame `set_brightness(percent)` writes for an integer percent. */
  function BrightnessFrame(percent: int): seq<byte>
  {
    MakePayloadForReportId(REPORT_ID, BrightnessCommand(Clamp(percent, 0, 100)))
  }

  /** `reset` writes three 1 + 12 + 501 or 1 + 8 + 505 byte frames whose payloads spell DIS, CONNECT, CLE 0xff. */
  lemma ResetFramesLayout()
    ensures |ResetFrames| == 3
    ensures forall i :: 0 <= i < 3 ==> |ResetFrames[i]| == PACKET_LENGTH + 2 && ResetFrames[i][0] == REPORT_ID
    ensures ResetFrames[0][1..9] == Command("DIS", [])
    ensures ResetFrames[1][1..13] == Command("CONNECT", [])
    ensures ResetFrames[2][1..13] == Command("CLE", [0x00, 0x00, 0x00, 0xff])
  {
    CommandsFollowGrammar(0, [], 0);
    FrameLayout(REPORT_ID, DisconnectCommand);
    FrameLayout(REPORT_ID, ConnectCommand);
    FrameLayout(REPORT_ID, ClearAllCommand);
  }

  /** The brightness frame carries the percent clamped to 0..100 at payload offset 10. */
  lemma BrightnessFrameLayout(percent: int)
    ensures var f := BrightnessFrame(percent);
            && |f| == PACKET_LENGTH + 2
            && f[1..13] == Command("LIG", [0x00, 0x00, Clamp(percent, 0, 100), 0x00])
            && 0 <= f[11] <= 100
            && (0 <= percent <= 100 ==> f[11] == percent)
            && (percent < 0 ==> f[11] == 0)
            && (100 < percent ==> f[11] == 100)
  {
    var p := Clamp(percent, 0, 100);
    CommandsFollowGrammar(p, [], 0);
    FrameLayout(REPORT_ID, BrightnessCommand(p));
    assert BrightnessFrame(percent)[11] == BrightnessCommand(p)[10];
  }

  /** Extending a prefix by one element. */
  lemma PrefixStep<T>(s: seq<T>, n: nat)
    requires n < |s|
    ensures s[..n + 1] == s[..n] + [s[n]]
  {
  }

  /** The Mirabox Stream Dock 293S adapter. */
  class Mirabox293S {
    const device: FakeHidDevice
    /** `BLANK_KEY_IMAGE`, read through the instance as in the source. */
    const blankKeyImage: seq<byte>
    /** Set by a poll that reported a press, so that the next poll reports the release. */
    var keyTriggeredLastRead: bool

    constructor (device: FakeHidDevice)
      ensures this.device == device
      ensures blankKeyImage == BlankKeyImage
      ensures !keyTriggeredLastRead
    {
      this.device := device;
      blankKeyImage := BlankKeyImage;
      keyTriggeredLastRead := false;
    }

    /**
     * `_read_control_states`: one step of the press/release state machine.
     * Disarmed, it reads one report; armed, it reads nothing. It never writes.
     */
    method ReadControlStates() returns (r: Result<Option<seq<bool>>>)
      modifies this, device
      ensures (r, PollerState(keyTriggeredLastRead, device.pending))
           == Poll(PollerState(old(keyTriggeredLastRead), old(device.pending)))
      ensures device.written == old(device.written)
    {
      var states := AllReleased();
      if !keyTriggeredLastRead {
        var deviceInputData := device.Read();
        if deviceInputData.None? {
          return Ok(None);
        }
        var data := deviceInputData.value;
        var triggeredKey: nat;
        if StartsWith(data, AckMagic) {
          var lookup := ToKeyNum(FromBytesBig(Slice(data, 9, 10)));
          if lookup.Raised? {
            return Raised(lookup.error);
          }
          triggeredKey := lookup.value;
        } else {
          return Ok(None);
        }
        states := AllReleased();
        states := states[triggeredKey := true];
        keyTriggeredLastRead := true;
      } else {
        keyTriggeredLastRead := false;
      }
      return Ok(Some(states));
    }

    /** `reset`: disconnect, connect, clear all keys, each framed and written in that order. */
    method Reset()
      modifies device
      ensures device.written == old(device.written) + ResetFrames
      ensures device.pending == old(device.pending)
    {
      var payload := MakePayloadForReportId(0x00, DisconnectCommand);
      device.Write(payload);
      payload := MakePayloadForReportId(0x00, ConnectCommand);
      device.Write(payload);
      payload := MakePayloadForReportId(0x00, ClearAllCommand);
      device.Write(payload);
    }

    /** `set_brightness` for an integer percent: clamp to 0..100 and write one frame. */
    method SetBrightness(percent: int)
      modifies device
      ensures device.written == old(device.written) + [BrightnessFrame(percent)]
      ensures device.pending == old(device.pending)
    {
      var clamped := Min(Max(percent, 0), 100);
      var payload := MakePayloadForReportId(0x00, BrightnessCommand(clamped));
      device.Write(payload);
    }

    /**
     * The page loop of `set_key_image`: while bytes remain, frame and write the
     * next slice of at most PACKET_LENGTH bytes, starting at page_number * PACKET_LENGTH.
     */
    method WritePages(data: seq<byte>)
      modifies device
      ensures device.written == old(device.written) + PageFrames(data)
      ensures device.pending == old(device.pending)
    {
      var imagePayloadPageLength := PACKET_LENGTH;
      ghost var frames := PageFrames(data);
      var pageNumber := 0;
      var bytesRemaining := |data|;
      while bytesRemaining > 0
        invariant 0 <= pageNumber && (pageNumber == 0 || PACKET_LENGTH * (pageNumber - 1) < |data|)
        invariant PACKET_LENGTH * pageNumber <= |data| ==> bytesRemaining == |data| - PACKET_LENGTH * pageNumber
        invariant |data| < PACKET_LENGTH * pageNumber ==> bytesRemaining == 0
        invariant pageNumber <= |frames|
        invariant device.written == old(device.written) + frames[..pageNumber]
        invariant device.pending == old(device.pending)
        decreases bytesRemaining
      {
        var thisLength := Min(bytesRemaining, imagePayloadPageLength);
        var bytesSent := pageNumber * imagePayloadPageLength;
        assert bytesSent == PACKET_LENGTH * pageNumber;
        PageFrameAt(data, pageNumber);
        var payload := MakePayloadForReportId(0x00, data[bytesSent..bytesSent + thisLength]);
        ghost var before := device.written;
        device.Write(payload);
        PrefixStep(frames, pageNumber);
        assert device.written == before + [frames[pageNumber]];
        bytesRemaining := bytesRemaining - thisLength;
        pageNumber := pageNumber + 1;
      }
      PageCountExact(|data|, pageNumber);
      PagesAt(data);
      assert frames[..pageNumber] == frames;
    }

    /**
     * `set_key_image`: check the key, fall back to the blank image, look up the
     * device key id, encode the size, then write START, the pages and STOP.
     */
    method SetKeyImage(key: int, image: Option<seq<byte>>) returns (r: Result<()>)
      modifies device
      ensures match KeyImageWrites(key, image, blankKeyImage)
              case Ok(frames) => r == Ok(()) && device.written == old(device.written) + frames
              case Raised(e) => r == Raised(e) && device.written == old(device.written)
      ensures device.pending == old(device.pending)
    {
      if Min(Max(key, 0), KEY_COUNT) != key {
        return Raised(IndexError);
      }
      var data := ImageOrBlank(image, blankKeyImage);
      var keyId := ToDeviceKeyId(key);
      if keyId.Raised? {
        return Raised(keyId.error);
      }
      var imageSizeUint16Be := ToBytesBig(|data|, 2);
      if imageSizeUint16Be.Raised? {
        return Raised(imageSizeUint16Be.error);
      }
      var command := StartBatchCommand(imageSizeUint16Be.value, keyId.value);
      var payload := MakePayloadForReportId(0x00, command);
      device.Write(payload);
      WritePages(data);
      payload := MakePayloadForReportId(0x00, StopBatchCommand);
      device.Write(payload);
      return Ok(());
    }
  }

  /**
   * A client: one key report on a fresh adapter gives a press, then a release
   * without a read, and the third poll reads the next scripted result.
   */
  method PressReleaseScenario(id: byte, later: seq<Option<seq<byte>>>)
    returns (first: Result<Option<seq<bool>>>, second: Result<Option<seq<bool>>>,
             third: Result<Option<seq<bool>>>, writes: nat)
    requires 1 <= id <= 15
    ensures first == Ok(Some(KeyStates(KeyNumOfDeviceKeyId(id))))
    ensures second == Ok(Some(AllReleased()))
    ensures third == Poll(PollerState(false, later)).0
    ensures writes == 0
  {
    var report := AckMagic + [0x00, id];
    var device := new FakeHidDevice([Some(report)] + later);
    var deck := new Mirabox293S(device);
    PressThenRelease(PollerState(false, [Some(report)] + later), report, id);
    first := deck.ReadControlStates();
    second := deck.ReadControlStates();
    assert device.pending == later;
    third := deck.ReadControlStates();
    writes := |device.written|;
  }

  /** A client: key KEY_COUNT passes the range guard yet raises IndexError, and nothing is written. */
  method OutOfRangeKeyScenario(image: Option<seq<byte>>) returns (r: Result<()>, writes: nat)
    ensures r == Raised(IndexError)
    ensures writes == 0
  {
    var device := new FakeHidDevice([]);
    var deck := new Mirabox293S(device);
    r := deck.SetKeyImage(KEY_COUNT, image);
    writes := |device.written|;
  }

  /** A client: reset on a fresh adapter writes exactly its three frames. */
  method ResetScenario() returns (frames: seq<seq<byte>>)
    ensures |frames| == 3
    ensures forall i :: 0 <= i < 3 ==> |frames[i]| == PACKET_LENGTH + 2
    ensures frames[0][1..9] == Command("DIS", [])
    ensures frames[1][1..13] == Command("CONNECT", [])
    ensures frames[2][1..13] == Command("CLE", [0x00, 0x00, 0x00, 0xff])
  {
    var device := new FakeHidDevice([]);
    var deck := new Mirabox293S(device);
    deck.Reset();
    frames := device.written;
    ResetFramesLayout();
  }

  /** A client: set_brightness(-5) sends 0 and set_brightness(150) sends 100. */
  method BrightnessScenario() returns (low: byte, high: byte)
    ensures low == 0 && high == 100
  {
    var device := new FakeHidDevice([]);
    var deck := new Mirabox293S(device);
    deck.SetBrightness(-5);
    deck.SetBrightness(150);
    BrightnessFrameLayout(-5);
    BrightnessFrameLayout(150);
    low := device.written[0][11];
    high := device.written[1][11];
  }
}
