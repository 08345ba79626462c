# Mirabox Stream Dock 293S adapter, modelled in Dafny

This project models the device adapter `Mirabox293S` of the Python Stream Deck
library. The adapter turns generic deck operations (set a key image, set the
brightness, reset, poll the keys) into the vendor's binary protocol. That
protocol is made of `CRT\0\0`-prefixed commands, each framed into a HID report
by `_make_payload_for_report_id`. The 293S signals a key only when it is
released. The adapter turns that one notification into a press on the poll
that reads it, then a release on the next poll, which reads nothing.

Layout, one module per part of the adapter:

- `PyBuiltins.dfy`: the Python behaviour the adapter relies on, written out
  exactly. This covers list indexing (negative indices wrap), clipped slices,
  a bytearray slice assignment that grows the buffer, `int.to_bytes` (which
  raises `OverflowError`) and `int.from_bytes`. Exceptions are the `Raised`
  case of a `Result`.
- `KeyMap.dfy`: the 15-entry key table and the dictionary that inverts it.
  They are proved to be a permutation of 1..15 and mutually inverse.
- `Packets.dfy`: the frame builder, the six command encodings, the grammar
  they follow, and the blank key image. The image is transcribed byte for
  byte, but its JPEG meaning is not modelled.
- `ImageBatch.dfy`: the pages of an image, and `KeyImageWrites`, the frames
  `set_key_image` writes or the exception it raises. The module also holds
  the lemmas about both.
- `Poller.dfy`: `Poll`, one `_read_control_states` call on a state made of
  the flag and the pending transport reads, and the lemmas about the
  press/release pairing.
- `Mirabox.dfy`: the stateful layer. `FakeHidDevice` is the transport: a log
  of written frames and a script of read results. `Mirabox293S` is a class
  holding the flag. Its methods are proved against the functions above.
  Four client methods at the end drive a fresh adapter.

Three behaviours of the code are easy to misread; the model follows the code:

- The frame builder assigns `n` payload bytes into the slice `[1:n]`, which
  is one byte narrower. So the buffer grows rather than staying at 513
  bytes. A 1..513-byte payload gives `[report_id] ++ payload ++ zeros(513 - n)`,
  which is 514 bytes, with no byte dropped. An empty payload gives 513 bytes.
  A longer payload gives `[report_id] ++ payload`.
- The poll does not return `None` for an unmapped device key id in a key
  report. The dictionary lookup raises `KeyError` out of the poll, and the flag
  stays down. A report too short to have byte 9 decodes to id 0 and raises
  the same way.
- The range guard of `set_key_image` admits key 15. That key then fails the
  list lookup with `IndexError`. So every key outside 0..14 raises
  `IndexError`, and does so before anything is written.

## Model

| member | source | states |
|---|---|---|
| `PyBuiltins.Clamp` | src/StreamDeck/Devices/Mirabox293S.py:144 | `min(max(x, lo), hi)` lies in `[lo, hi]`, is `x` inside it, `lo` below it and `hi` above it |
| `PyBuiltins.Zeros` | src/StreamDeck/Devices/Mirabox293S.py:91 | `bytearray(n)` is n bytes, all zero |
| `PyBuiltins.ListIndex` | src/StreamDeck/Devices/Mirabox293S.py:84 | a list lookup succeeds exactly for `-len <= i < len`; negative indices count from the end; otherwise `IndexError` |
| `PyBuiltins.Slice` | src/StreamDeck/Devices/Mirabox293S.py:109 | `s[i:j]` has length `max(0, min(j,len) - min(i,len))` and holds the elements starting at `i` |
| `PyBuiltins.SliceAssign` | src/StreamDeck/Devices/Mirabox293S.py:93 | `buf[i:j] = v` keeps the prefix before the clipped start, then all of `v`, then the suffix from the clipped stop; the length changes by `len(v)` minus the slice width |
| `PyBuiltins.StartsWith` | src/StreamDeck/Devices/Mirabox293S.py:108 | `data.startswith(prefix)`; the cases a poll meets are stated by `PollPress`, `PollNoMagic` and `PollKeyError` |
| `PyBuiltins.FromBytesBig` | src/StreamDeck/Devices/Mirabox293S.py:109 | `int.from_bytes(s, 'big')` is below `256^len(s)` |
| `PyBuiltins.FromBytesBigShort` | src/StreamDeck/Devices/Mirabox293S.py:109 | an empty slice decodes to 0 and a one-byte slice to that byte |
| `PyBuiltins.ToBytesBig` | src/StreamDeck/Devices/Mirabox293S.py:166 | `int.to_bytes(n, k, 'big')` succeeds exactly when `n < 256^k`, otherwise raises `OverflowError` (no wrap-around); the k bytes decode back to `n` |
| `PyBuiltins.ToBytesBigTwo` | src/StreamDeck/Devices/Mirabox293S.py:166 | the two-byte size is `[n / 256, n % 256]` for `n < 65536` and `OverflowError` from 65536 on |
| `KeyMap.DictFromEnumerate` | src/StreamDeck/Devices/Mirabox293S.py:35 | the dictionary comprehension over `enumerate`, later indices overwriting earlier ones; its meaning is stated by `DictFromEnumerateInverts` |
| `KeyMap.DictFromEnumerateInverts` | src/StreamDeck/Devices/Mirabox293S.py:35 | the enumerated dictionary holds every table value, maps each key back to an index holding it, and maps `t[k]` to `k` when the table has no repeats |
| `KeyMap.TableClosedForm` | src/StreamDeck/Devices/Mirabox293S.py:34 | key k has device id `13 + k/5 - 3*(k%5)` |
| `KeyMap.KeyNumOfDeviceKeyId` | src/StreamDeck/Devices/Mirabox293S.py:34-35 | for every id 1..15, the closed-form inverse gives a key number in 0..14 whose table entry is that id |
| `KeyMap.TableIsPermutation` | src/StreamDeck/Devices/Mirabox293S.py:17-19 | the table has `KEY_COUNT = KEY_COLS * KEY_ROWS` entries, no repeats, all in 1..15, and contains every id 1..15 |
| `KeyMap.ToDeviceKeyId` | src/StreamDeck/Devices/Mirabox293S.py:83-84 | the key-number lookup succeeds exactly for -15..14 (Python indexing) and gives the table entry for 0..14; otherwise `IndexError` |
| `KeyMap.ToKeyNum` | src/StreamDeck/Devices/Mirabox293S.py:86-87 | the id lookup succeeds exactly for ids in the dictionary, giving a key number below 15 whose table entry is the id; otherwise `KeyError` |
| `KeyMap.ToKeyNumDomain` | src/StreamDeck/Devices/Mirabox293S.py:35 | the dictionary is defined exactly on 1..15 and agrees with the closed-form inverse |
| `KeyMap.KeyNumRoundTrip` | src/StreamDeck/Devices/Mirabox293S.py:83-87 | for k in 0..14, `to_num(to_id(k)) == k` and `to_id(k)` is in 1..15 |
| `KeyMap.DeviceKeyIdRoundTrip` | src/StreamDeck/Devices/Mirabox293S.py:83-87 | for d in 1..15, `to_id(to_num(d)) == d` and `to_num(d)` is in 0..14 |
| `Packets.MakePayloadForReportId` | src/StreamDeck/Devices/Mirabox293S.py:90-94 | an empty payload gives `[id] ++ zeros(512)`; a 1..513-byte payload gives `[id] ++ payload ++ zeros(513 - n)`; a longer one gives `[id] ++ payload` |
| `Packets.FrameLayout` | src/StreamDeck/Devices/Mirabox293S.py:90-94 | a framed 1..513-byte payload is 514 bytes, starts with the report id, keeps every payload byte at offset 1 and is zero after it |
| `Packets.EmptyFrame` | src/StreamDeck/Devices/Mirabox293S.py:91-93 | an empty payload leaves the frame at 513 bytes |
| `Packets.CommandsFollowGrammar` | src/StreamDeck/Devices/Mirabox293S.py:128-187 | every command is `CRT\0\0` followed by its token and arguments: DIS, CONNECT, CLE `0 0 0 ff`, LIG `0 0 percent 0`, BAT `0 0 size key_id`, and STP |
| `Packets.BlankKeyImageSize` | src/StreamDeck/Devices/Mirabox293S.py:41-81 | the built-in blank image is 727 bytes |
| `ImageBatch.Pages` | src/StreamDeck/Devices/Mirabox293S.py:173-184 | the pages the loop cuts the image into; `PagesAt`, `PageSizes` and `PagesConcat` state their number, offsets, sizes and that they make up the image |
| `ImageBatch.PagesAt` | src/StreamDeck/Devices/Mirabox293S.py:173-184 | there are `ceil(L/512)` pages and page i is the image slice from offset `512*i` to `min(512*i + 512, L)`, which is increasing offset order |
| `ImageBatch.PageSizes` | src/StreamDeck/Devices/Mirabox293S.py:175-176 | every page holds 1..512 bytes and all but the last exactly 512 |
| `ImageBatch.PagesConcat` | src/StreamDeck/Devices/Mirabox293S.py:173-184 | the pages laid end to end are the image |
| `ImageBatch.ImageOrBlank` | src/StreamDeck/Devices/Mirabox293S.py:161 | a present non-empty image is sent as is; a missing or empty one is replaced by the blank image |
| `ImageBatch.PageFrames` | src/StreamDeck/Devices/Mirabox293S.py:175-181 | one frame is written per page |
| `ImageBatch.PageFrameAt` | src/StreamDeck/Devices/Mirabox293S.py:176-180 | page frame p frames the slice at `512*p` of length `min(remaining, 512)` |
| `ImageBatch.BatchFramesLayout` | src/StreamDeck/Devices/Mirabox293S.py:169-188 | a batch is `2 + ceil(L/512)` frames: START first, STOP last, and in between the pages in offset order |
| `ImageBatch.BatchFrames` | src/StreamDeck/Devices/Mirabox293S.py:168-188 | START, then the page frames, then STOP; `BatchFramesLayout` states the count and each frame |
| `ImageBatch.KeyImageWrites` | src/StreamDeck/Devices/Mirabox293S.py:157-188 | what `set_key_image` writes or raises: only `IndexError` or `OverflowError` is raised, and a success writes at least START and STOP; `KeyImageRejectsKey`, `KeyImageRejectsOversized`, `KeyImageSucceedsIff` and `KeyImageFrames` state which case applies and the exact frames |
| `ImageBatch.GuardAdmitsKeyCount` | src/StreamDeck/Devices/Mirabox293S.py:158-164 | key 15 passes the `min(max(key, 0), 15)` guard and then fails the table lookup with `IndexError` |
| `ImageBatch.KeyImageRejectsKey` | src/StreamDeck/Devices/Mirabox293S.py:158-164 | every key outside 0..14 raises `IndexError`, so nothing is written |
| `ImageBatch.KeyImageRejectsOversized` | src/StreamDeck/Devices/Mirabox293S.py:166 | a valid key with an image over 65535 bytes raises `OverflowError`, so nothing is written |
| `ImageBatch.KeyImageSucceedsIff` | src/StreamDeck/Devices/Mirabox293S.py:158-166 | the transfer succeeds if and only if the key is in 0..14 and the image, or the blank one, fits in 16 bits |
| `ImageBatch.KeyImageFrames` | src/StreamDeck/Devices/Mirabox293S.py:157-188 | a successful transfer writes `2 + ceil(L/512)` frames: `CRT\0\0BAT\0\0 ++ be16(L) ++ [device_id(key)]`, then the pages at offsets `512*i`, then `CRT\0\0STP` |
| `ImageBatch.MissingImageBatch` | src/StreamDeck/Devices/Mirabox293S.py:161 | `None` and an empty image both send the blank image as a whole batch |
| `ImageBatch.BlankImageBatch` | src/StreamDeck/Devices/Mirabox293S.py:161-188 | a 727-byte blank image goes out as four frames: START with size bytes 2, 215; two 514-byte page frames holding 512 and 215 image bytes, the second padded with zeros; then STOP |
| `Poller.ReportedKeyId` | src/StreamDeck/Devices/Mirabox293S.py:109 | the id decoded from `data[9:10]` is byte 9, or 0 when the report is too short |
| `Poller.AllReleased` | src/StreamDeck/Devices/Mirabox293S.py:97 | the states of all 15 keys are released |
| `Poller.KeyStates` | src/StreamDeck/Devices/Mirabox293S.py:114-115 | 15 states in which only the given key is pressed |
| `Poller.NextRead` | src/StreamDeck/Devices/Mirabox293S.py:104 | one transport read: the next scripted result, `None` once the script is exhausted; stated through `PollNoInput` and `FakeHidDevice.Read` |
| `Poller.Poll` | src/StreamDeck/Devices/Mirabox293S.py:96-122 | one `_read_control_states` call: armed, it reads nothing; disarmed, it consumes exactly one read; the flag is never armed two polls in a row; the only exception is `KeyError`. `PollPress`, `PollRelease`, `PollNoInput`, `PollNoMagic` and `PollKeyError` state each branch |
| `Poller.PollPress` | src/StreamDeck/Devices/Mirabox293S.py:103-116 | disarmed, a report with the `ACK\0\0OK\0` magic and a mapped id d at byte 9 gives exactly key `to_num(d)` pressed, consumes the read and arms the flag |
| `Poller.PollRelease` | src/StreamDeck/Devices/Mirabox293S.py:117-122 | armed, a poll reads nothing, reports every key released and clears the flag |
| `Poller.PollNoInput` | src/StreamDeck/Devices/Mirabox293S.py:104-106 | disarmed, a `None` read returns `None` and leaves the flag down |
| `Poller.PollNoMagic` | src/StreamDeck/Devices/Mirabox293S.py:108-112 | disarmed, a report without the magic returns `None`, consumes the read and leaves the flag down |
| `Poller.PollKeyError` | src/StreamDeck/Devices/Mirabox293S.py:108-109 | with the magic present, a poll raises `KeyError` if and only if byte 9 is missing or is not in 1..15; when it raises, the flag stays down |
| `Poller.ArmedIffPressReported` | src/StreamDeck/Devices/Mirabox293S.py:103-122 | after any poll the flag is armed if and only if that poll reported a pressed key |
| `Poller.PressThenRelease` | src/StreamDeck/Devices/Mirabox293S.py:96-122 | one key report gives a press of its key, then a release with no read, and the poll after that reads again |
| `Poller.MalformedThenPair` | src/StreamDeck/Devices/Mirabox293S.py:103-122 | a report without the magic gives `None` and still leaves the next key report correctly paired into press and release |
| `Mirabox.FakeHidDevice.Write` | src/StreamDeck/Devices/Mirabox293S.py:130 | a write appends the frame to the log and leaves the reads untouched |
| `Mirabox.FakeHidDevice.Read` | src/StreamDeck/Devices/Mirabox293S.py:104 | a read takes the next scripted result (`None` once exhausted) and writes nothing |
| `Mirabox.ResetFrames` | src/StreamDeck/Devices/Mirabox293S.py:127-138 | the three frames `reset` writes; `ResetFramesLayout` states their layout |
| `Mirabox.BrightnessFrame` | src/StreamDeck/Devices/Mirabox293S.py:144-147 | the frame `set_brightness` writes for an integer percent; `BrightnessFrameLayout` states its layout and the clamped percent |
| `Mirabox.ResetFramesLayout` | src/StreamDeck/Devices/Mirabox293S.py:127-138 | reset writes three 514-byte frames with report id 0, whose payloads are `CRT\0\0DIS`, `CRT\0\0CONNECT` and `CRT\0\0CLE\0\0\0\xff` |
| `Mirabox.BrightnessFrameLayout` | src/StreamDeck/Devices/Mirabox293S.py:144-147 | the brightness frame is `CRT\0\0LIG\0\0 ++ [clamp(p,0,100)] ++ [0]` framed, so the percent at frame byte 11 is 0 below 0, 100 above 100, and p in between |
| `Mirabox.Mirabox293S.constructor` | src/StreamDeck/Devices/Mirabox293S.py:38 | a new adapter starts disarmed and uses the built-in blank image |
| `Mirabox.Mirabox293S.ReadControlStates` | src/StreamDeck/Devices/Mirabox293S.py:96-122 | the result, the new flag and the remaining reads are exactly `Poll` of the old flag and reads; nothing is written |
| `Mirabox.Mirabox293S.Reset` | src/StreamDeck/Devices/Mirabox293S.py:127-138 | appends exactly the three reset frames, in order, and reads nothing |
| `Mirabox.Mirabox293S.SetBrightness` | src/StreamDeck/Devices/Mirabox293S.py:140-148 | appends exactly one brightness frame for the clamped percent and reads nothing |
| `Mirabox.Mirabox293S.WritePages` | src/StreamDeck/Devices/Mirabox293S.py:173-184 | the `while` loop appends exactly the page frames, in page order |
| `Mirabox.Mirabox293S.SetKeyImage` | src/StreamDeck/Devices/Mirabox293S.py:157-188 | on success, appends exactly the frames `KeyImageWrites` gives; when an exception is raised, returns it and writes nothing |
| `Mirabox.PressReleaseScenario` | src/StreamDeck/Devices/Mirabox293S.py:96-122 | on a fresh adapter, one key report gives press, then release, and then the next scripted result; nothing is written |
| `Mirabox.OutOfRangeKeyScenario` | src/StreamDeck/Devices/Mirabox293S.py:157-164 | `set_key_image(15, image)` raises `IndexError` and writes zero frames |
| `Mirabox.ResetScenario` | src/StreamDeck/Devices/Mirabox293S.py:127-138 | reset on a fresh adapter produces exactly three frames: DIS, CONNECT, CLE 0xff |
| `Mirabox.BrightnessScenario` | src/StreamDeck/Devices/Mirabox293S.py:144-147 | `set_brightness(-5)` sends 0 and `set_brightness(150)` sends 100 |

## Left out

- The real HID transport behind `self.device` is foreign I/O. It is replaced by `FakeHidDevice`: writes never fail, and a read returns the next scripted result as given. The requested length of 512 bytes is not enforced, and an exhausted script reads as `None`. Transport errors, which the adapter does not catch, are therefore not modelled.
- `get_serial_number` and `get_firmware_version` are left out. They are pass-through transport calls, and the string extraction they use lives in the `StreamDeck` base class, which is not part of this model.
- The float branch of `set_brightness` (`int(100.0 * percent)`) is left out because it is floating point. Only integer percents are modelled, so a fraction such as 0.5 giving 50 is not covered.
- The JPEG content of the blank image, image resizing and rotation (`KEY_ROTATION`, `KEY_FLIP`), the pixel sizes and the deck descriptor strings are left out. The blank image is carried as its 727 bytes; nothing depends on it being a valid JPEG.
- The `StreamDeck` base class and `ControlType` are not part of this model. A poll returns the list of 15 key states, not the dictionary `{ControlType.KEY: states}`, and any reader thread the base class runs is not modelled.
- `set_touchscreen_image` is a no-op and `_reset_key_stream` only calls `reset`, so neither is modelled separately.
- Python type errors are excluded by typing. `bytes(image)` and `bytearray` element assignment would raise on values outside 0..255, but images, payloads and report ids are byte sequences and bytes here.
- `Mirabox.Mirabox293S.WritePages`: the page loop of `set_key_image` is its own method so that each proof stays small. It runs the same loop, with the same offsets and lengths, at the same point between START and STOP.
