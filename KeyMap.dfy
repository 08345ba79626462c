/**
 * Translation between the row-major key numbers callers use and the key ids
 * the Mirabox 293S reports and accepts. The forward direction is a 15-entry
 * table; the backward direction is the dictionary built by enumerating that
 * table, so it is a true inverse exactly because the table has no repeats.
 */
module KeyMap {
  import opened PyBuiltins

  const KEY_COUNT: int := 15
  const KEY_COLS: int := 5
  const KEY_ROWS: int := 3

  /** Device key id of each key number, in row-major key order. */
  const KeyNumToDeviceKeyId: seq<byte> :=
    [0x0d, 0x0a, 0x07, 0x04, 0x01, 0x0e, 0x0b, 0x08, 0x05, 0x02, 0x0f, 0x0c, 0x09, 0x06, 0x03]

  /**
   * `{value: index for index, value in enumerate(t)}`: entries are inserted in
   * table order, so a later index would overwrite an earlier one for the same value.
   */
  function DictFromEnumerate(t: seq<byte>): map<int, nat>
  {
    if |t| == 0 then map[] else DictFromEnumerate(t[..|t| - 1])[t[|t| - 1] := |t| - 1]
  }

  const KeyDeviceKeyIdToNum: map<int, nat> := DictFromEnumerate(KeyNumToDeviceKeyId)

  ghost predicate Injective(t: seq<byte>)
  {
    forall i, j :: 0 <= i < |t| && 0 <= j < |t| && t[i] == t[j] ==> i == j
  }

  /**
   * The enumerated dictionary holds exactly the table's values; each maps back
   * to an index holding it, and to the index it came from when the table is injective.
   */
  lemma {:induction false} DictFromEnumerateInverts(t: seq<byte>)
    ensures forall d :: d in DictFromEnumerate(t) ==>
              DictFromEnumerate(t)[d] < |t| && t[DictFromEnumerate(t)[d]] == d
    ensures forall k :: 0 <= k < |t| ==> t[k] in DictFromEnumerate(t)
    ensures Injective(t) ==> forall k :: 0 <= k < |t| ==> DictFromEnumerate(t)[t[k]] == k
  {
    if |t| > 0 {
      var front := t[..|t| - 1];
      DictFromEnumerateInverts(front);
      assert forall k :: 0 <= k < |front| ==> front[k] == t[k];
      if Injective(t) {
        assert Injective(front) by {
          forall i, j | 0 <= i < |front| && 0 <= j < |front| && front[i] == front[j]
            ensures i == j
          {
            assert t[i] == t[j];
          }
        }
        forall k | 0 <= k < |t| ensures DictFromEnumerate(t)[t[k]] == k {
          if k < |t| - 1 {
            assert t[k] != t[|t| - 1];
          }
        }
      }
    }
  }

  /** The table in closed form: key k (row k / 5, column k % 5) has id 13 + row - 3 * column. */
  lemma TableClosedForm(k: int)
    requires 0 <= k < KEY_COUNT
    ensures KeyNumToDeviceKeyId[k] == 13 + k / 5 - 3 * (k % 5)
  {
    var t := KeyNumToDeviceKeyId;
    if k < 5 {
      assert t[0] == 13 && t[1] == 10 && t[2] == 7 && t[3] == 4 && t[4] == 1;
    } else if k < 10 {
      assert t[5] == 14 && t[6] == 11 && t[7] == 8 && t[8] == 5 && t[9] == 2;
    } else {
      assert t[10] == 15 && t[11] == 12 && t[12] == 9 && t[13] == 6 && t[14] == 3;
    }
  }

  /** The key number whose table entry is d, solved from the closed form. */
  function KeyNumOfDeviceKeyId(d: int): (k: int)
    requires 1 <= d <= 15
    ensures 0 <= k < KEY_COUNT && KeyNumToDeviceKeyId[k] == d
  {
    var k := 5 * ((d - 1) % 3) + 4 - (d - 1) / 3;
    TableClosedForm(k);
    k
  }

  /** The table is a permutation of the ids 1..15. */
  lemma TableIsPermutation()
    ensures |KeyNumToDeviceKeyId| == KEY_COUNT == KEY_COLS * KEY_ROWS
    ensures Injective(KeyNumToDeviceKeyId)
    ensures forall k :: 0 <= k < KEY_COUNT ==> 1 <= KeyNumToDeviceKeyId[k] <= 15
    ensures forall d: byte :: 1 <= d <= 15 ==> d in KeyNumToDeviceKeyId
  {
    forall i, j | 0 <= i < KEY_COUNT && 0 <= j < KEY_COUNT && KeyNumToDeviceKeyId[i] == KeyNumToDeviceKeyId[j]
      ensures i == j
    {
      TableClosedForm(i);
      TableClosedForm(j);
    }
    forall k | 0 <= k < KEY_COUNT ensures 1 <= KeyNumToDeviceKeyId[k] <= 15 {
      TableClosedForm(k);
    }
    forall d: byte | 1 <= d <= 15 ensures d in KeyNumToDeviceKeyId {
      assert KeyNumToDeviceKeyId[KeyNumOfDeviceKeyId(d)] == d;
    }
  }

  /** `_convert_key_num_to_device_key_id`: a Python list lookup, so -15..-1 index from the end. */
  function ToDeviceKeyId(key: int): (r: Result<byte>)
    ensures r.Ok? <==> -KEY_COUNT <= key < KEY_COUNT
    ensures !r.Ok? ==> r == Raised(IndexError)
    ensures 0 <= key < KEY_COUNT ==> r == Ok(KeyNumToDeviceKeyId[key])
  {
    ListIndex(KeyNumToDeviceKeyId, key)
  }

  /** `_convert_device_key_id_to_key_num`: a dictionary lookup, KeyError for an unknown id. */
  function ToKeyNum(id: int): (r: Result<nat>)
    ensures r.Ok? <==> id in KeyDeviceKeyIdToNum
    ensures !r.Ok? ==> r == Raised(KeyError)
    ensures r.Ok? ==> r.value < KEY_COUNT && KeyNumToDeviceKeyId[r.value] == id
  {
    DictFromEnumerateInverts(KeyNumToDeviceKeyId);
    if id in KeyDeviceKeyIdToNum then Ok(KeyDeviceKeyIdToNum[id]) else Raised(KeyError)
  }

  /** The dictionary is defined exactly on the ids 1..15 and agrees with the closed form. */
  lemma ToKeyNumDomain(id: int)
    ensures ToKeyNum(id).Ok? <==> 1 <= id <= 15
    ensures 1 <= id <= 15 ==> ToKeyNum(id) == Ok(KeyNumOfDeviceKeyId(id))
  {
    TableIsPermutation();
    DictFromEnumerateInverts(KeyNumToDeviceKeyId);
    if id in KeyDeviceKeyIdToNum {
      var k := KeyDeviceKeyIdToNum[id];
      assert KeyNumToDeviceKeyId[k] == id;
    }
    if 1 <= id <= 15 {
      var k := KeyNumOfDeviceKeyId(id);
      assert KeyDeviceKeyIdToNum[KeyNumToDeviceKeyId[k]] == k;
    }
  }

  /** Key number to id and back gives the key number. */
  lemma KeyNumRoundTrip(key: int)
    requires 0 <= key < KEY_COUNT
    ensures ToDeviceKeyId(key).Ok?
    ensures 1 <= ToDeviceKeyId(key).value <= 15
    ensures ToKeyNum(ToDeviceKeyId(key).value) == Ok(key)
  {
    TableIsPermutation();
    DictFromEnumerateInverts(KeyNumToDeviceKeyId);
  }

  /** Id to key number and back gives the id. */
  lemma DeviceKeyIdRoundTrip(id: int)
    requires 1 <= id <= 15
    ensures ToKeyNum(id).Ok? && ToKeyNum(id).value < KEY_COUNT
    ensures ToDeviceKeyId(ToKeyNum(id).value) == Ok(id)
  {
    ToKeyNumDomain(id);
  }
}
