/**
 * The release-to-press/release state machine of `_read_control_states`.
 * The 293S sends one acknowledgement report when a key is released and
 * nothing when it is pressed. The adapter therefore reports that key as
 * pressed on the poll that reads the report and arms a flag; the next poll
 * reads nothing, reports every key released and disarms the flag.
 *
 * The state is the flag together with the scripted reads still pending on
 * the transport; Poll is one call of the source method on that state.
 */
module Poller {
  import opened PyBuiltins
  import opened KeyMap

  /** `ACK\0\0OK\0`: the first eight bytes of a key report. */
  const AckMagic: seq<byte> := [0x41, 0x43, 0x4b, 0x00, 0x00, 0x4f, 0x4b, 0x00]

  /** The device key id of a report: `int.from_bytes(data[9:10], 'big')`, 0 when byte 9 is missing. */
  function ReportedKeyId(data: seq<byte>): (id: nat)
    ensures id == if |data| > 9 then data[9] else 0
  {
    FromBytesBigShort(Slice(data, 9, 10));
    FromBytesBig(Slice(data, 9, 10))
  }

  /** `[False] * KEY_COUNT`: every key released. */
  function AllReleased(): (states: seq<bool>)
    ensures |states| == KEY_COUNT
    ensures forall i :: 0 <= i < KEY_COUNT ==> !states[i]
  {
    seq(KEY_COUNT, _ => false)
  }

  /** `states[key] = True` on all-released states: exactly that key pressed. */
  function KeyStates(key: nat): (states: seq<bool>)
    requires key < KEY_COUNT
    ensures |states| == KEY_COUNT
    ensures forall i :: 0 <= i < KEY_COUNT ==> states[i] == (i == key)
  {
    AllReleased()[key := true]
  }

  /** What one read of the transport returns, and the reads left after it; nothing scripted reads as None. */
  function NextRead(pending: seq<Option<seq<byte>>>): (Option<seq<byte>>, seq<Option<seq<byte>>>)
  {
    if |pending| == 0 then (None, pending) else (pending[0], pending[1..])
  }

  /** The poller's state: `_key_triggered_last_read` and the pending transport reads. */
  datatype PollerState = PollerState(armed: bool, pending: seq<Option<seq<byte>>>)

  /**
   * One `_read_control_states` call: the result (None for "no update", else the
   * key states, or the KeyError raised) and the state afterwards.
   */
  function Poll(s: PollerState): (out: (Result<Option<seq<bool>>>, PollerState))
    ensures s.armed ==> out.1.pending == s.pending
    ensures !s.armed ==> out.1.pending == NextRead(s.pending).1
    ensures out.1.armed ==> !s.armed
    ensures out.0.Raised? ==> out.0.error == KeyError
  {
    if s.armed then
      (Ok(Some(AllReleased())), PollerState(false, s.pending))
    else
      var (input, rest) := NextRead(s.pending);
      match input
      case None => (Ok(None), PollerState(false, rest))
      case Some(data) =>
        if !StartsWith(data, AckMagic) then (Ok(None), PollerState(false, rest))
        else
          match ToKeyNum(ReportedKeyId(data))
          case Raised(e) => (Raised(e), PollerState(false, rest))
          case Ok(key) => (Ok(Some(KeyStates(key))), PollerState(true, rest))
  }

  /** A report of the key with id d: the magic, one byte, then d at offset 9. */
  ghost predicate IsKeyReport(data: seq<byte>, id: int)
  {
    StartsWith(data, AckMagic) && |data| > 9 && data[9] == id
  }

  /**
   * Disarmed, reading a report of a mapped id: that key alone is pressed, the
   * read is consumed and the flag is armed.
   */
  lemma PollPress(s: PollerState, data: seq<byte>)
    requires !s.armed && |s.pending| > 0 && s.pending[0] == Some(data)
    requires StartsWith(data, AckMagic) && |data| > 9 && 1 <= data[9] <= 15
    ensures var (r, s') := Poll(s);
            && r == Ok(Some(KeyStates(KeyNumOfDeviceKeyId(data[9]))))
            && s' == PollerState(true, s.pending[1..])
  {
    ToKeyNumDomain(data[9]);
  }

  /** Armed: nothing is read, every key is released and the flag is cleared. */
  lemma PollRelease(s: PollerState)
    requires s.armed
    ensures var (r, s') := Poll(s);
            && r == Ok(Some(AllReleased()))
            && s' == PollerState(false, s.pending)
  {
  }

  /** Disarmed, nothing to read (None, or an exhausted script): no update, flag stays down. */
  lemma PollNoInput(s: PollerState)
    requires !s.armed && (|s.pending| == 0 || s.pending[0].None?)
    ensures Poll(s) == (Ok(None), PollerState(false, NextRead(s.pending).1))
  {
  }

  /** Disarmed, a report without the magic: no update, the read is consumed, flag stays down. */
  lemma PollNoMagic(s: PollerState, data: seq<byte>)
    requires !s.armed && |s.pending| > 0 && s.pending[0] == Some(data)
    requires !StartsWith(data, AckMagic)
    ensures Poll(s) == (Ok(None), PollerState(false, s.pending[1..]))
  {
  }

  /**
   * Disarmed, a report with the magic raises KeyError exactly when byte 9 is
   * missing or is not a mapped id; the flag stays down.
   */
  lemma PollKeyError(s: PollerState, data: seq<byte>)
    requires !s.armed && |s.pending| > 0 && s.pending[0] == Some(data)
    requires StartsWith(data, AckMagic)
    ensures Poll(s).0 == Raised(KeyError) <==> |data| <= 9 || !(1 <= data[9] <= 15)
    ensures Poll(s).1 == PollerState(Poll(s).0.Ok?, s.pending[1..])
  {
    ToKeyNumDomain(ReportedKeyId(data));
  }

  /**
   * The flag is armed after a poll exactly when that poll reported a press;
   * every failure path from the disarmed state leaves it down.
   */
  lemma ArmedIffPressReported(s: PollerState)
    ensures var (r, s') := Poll(s);
            s'.armed <==> (r.Ok? && r.value.Some? && exists i :: 0 <= i < |r.value.value| && r.value.value[i])
  {
    var (r, s') := Poll(s);
    if s'.armed {
      var input := NextRead(s.pending).0;
      var key := ToKeyNum(ReportedKeyId(input.value)).value;
      ToKeyNumDomain(ReportedKeyId(input.value));
      assert r.value.value[key];
    }
  }

  /**
   * One key report gives exactly two outcomes: the press of its key, then the
   * release of every key without a read; the poll after that reads again.
   */
  lemma PressThenRelease(s: PollerState, data: seq<byte>, id: int)
    requires !s.armed && |s.pending| > 0 && s.pending[0] == Some(data)
    requires 1 <= id <= 15 && IsKeyReport(data, id)
    ensures var (r1, s1) := Poll(s);
            var (r2, s2) := Poll(s1);
            && r1 == Ok(Some(KeyStates(KeyNumOfDeviceKeyId(id))))
            && r2 == Ok(Some(AllReleased()))
            && s1.pending == s2.pending == s.pending[1..]
            && s2 == PollerState(false, s.pending[1..])
            && Poll(s2).1.pending == NextRead(s.pending[1..]).1
  {
    PollPress(s, data);
  }

  /** A malformed report in between does not disturb the pairing of the next key report. */
  lemma MalformedThenPair(bad: seq<byte>, good: seq<byte>, id: int, later: seq<Option<seq<byte>>>)
    requires !StartsWith(bad, AckMagic)
    requires 1 <= id <= 15 && IsKeyReport(good, id)
    ensures var s0 := PollerState(false, [Some(bad), Some(good)] + later);
            var (r1, s1) := Poll(s0);
            var (r2, s2) := Poll(s1);
            var (r3, s3) := Poll(s2);
            && r1 == Ok(None)
            && r2 == Ok(Some(KeyStates(KeyNumOfDeviceKeyId(id))))
            && r3 == Ok(Some(AllReleased()))
            && s3 == PollerState(false, later)
  {
    var s0 := PollerState(false, [Some(bad), Some(good)] + later);
    PollNoMagic(s0, bad);
    var s1 := Poll(s0).1;
    assert s1.pending == [Some(good)] + later;
    PressThenRelease(s1, good, id);
  }
}
