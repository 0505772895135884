/**
 * Staff identifiers as `CreateAdminStaffView` builds them
 * (accounts/views.py:749-751): `f"STAFF{uuid.uuid4().hex[:8].upper()}"`.
 * The uuid is an input: its 32-character lower-case hex form.
 */
module StaffIds {
  import opened Text

  const STAFF_PREFIX: string := "STAFF"

  /** What `uuid.uuid4().hex` can be: 32 lower-case hex digits. */
  predicate IsUuidHex(h: string) {
    |h| == 32 && forall i :: 0 <= i < |h| ==> IsLowerHexDigit(h[i])
  }

  /** `"STAFF" + hex[:8].upper()` */
  function StaffIdOf(hex: string): (id: string)
    requires IsUuidHex(hex)
    ensures |id| == 13 && id[..5] == STAFF_PREFIX
    ensures forall i :: 5 <= i < 13 ==> id[i] == UpperChar(hex[i - 5])
  {
    STAFF_PREFIX + Upper(hex[..8])
  }

  /** The shape every generated id has: "STAFF" and then eight upper-case hex digits. */
  predicate IsStaffIdShape(id: string) {
    |id| == 13 && id[..5] == STAFF_PREFIX && forall i :: 5 <= i < 13 ==> IsUpperHexDigit(id[i])
  }

  /** A generated id has the documented shape. */
  lemma {:induction false} StaffIdShape(hex: string)
    requires IsUuidHex(hex)
    ensures IsStaffIdShape(StaffIdOf(hex))
  {
    var id := StaffIdOf(hex);
    forall i | 5 <= i < 13
      ensures IsUpperHexDigit(id[i])
    {
      assert id[i] == UpperChar(hex[i - 5]);
      UpperCharOnHex(hex[i - 5], hex[i - 5]);
    }
  }

  /** Two uuids give the same id exactly when their first eight hex digits agree. */
  lemma {:induction false} StaffIdDeterminedByPrefix(a: string, b: string)
    requires IsUuidHex(a) && IsUuidHex(b)
    ensures StaffIdOf(a) == StaffIdOf(b) <==> a[..8] == b[..8]
  {
    if StaffIdOf(a) == StaffIdOf(b) {
      forall i | 0 <= i < 8
        ensures a[i] == b[i]
      {
        assert StaffIdOf(a)[5 + i] == UpperChar(a[i]);
        assert StaffIdOf(b)[5 + i] == UpperChar(b[i]);
        UpperCharOnHex(a[i], b[i]);
      }
      assert a[..8] == b[..8];
    }
  }

  /** Some uuid in the stream yields an id outside `used`: the regeneration loop ends. */
  predicate SomeUnused(uuids: seq<string>, used: set<string>)
    requires forall i :: 0 <= i < |uuids| ==> IsUuidHex(uuids[i])
  {
    exists i :: 0 <= i < |uuids| && StaffIdOf(uuids[i]) !in used
  }

  lemma SomeUnusedTail(uuids: seq<string>, used: set<string>)
    requires forall i :: 0 <= i < |uuids| ==> IsUuidHex(uuids[i])
    requires SomeUnused(uuids, used) && StaffIdOf(uuids[0]) in used
    ensures SomeUnused(uuids[1..], used)
  {
    var i :| 0 <= i < |uuids| && StaffIdOf(uuids[i]) !in used;
    assert uuids[1..][i - 1] == uuids[i];
  }

  /**
   * The id the `while Staff.objects.filter(staff_id=...).exists()` loop settles on:
   * the first draw whose id is not in `used`.
   */
  function FirstUnusedStaffId(uuids: seq<string>, used: set<string>): (id: string)
    requires forall i :: 0 <= i < |uuids| ==> IsUuidHex(uuids[i])
    requires SomeUnused(uuids, used)
    ensures id !in used && IsStaffIdShape(id)
  {
    if StaffIdOf(uuids[0]) !in used then
      StaffIdShape(uuids[0]);
      StaffIdOf(uuids[0])
    else
      SomeUnusedTail(uuids, used);
      FirstUnusedStaffId(uuids[1..], used)
  }

  /**
   * The settled id is unused, has the documented shape, and is the id of the
   * first draw not already taken: every earlier draw collided.
   */
  lemma {:induction false} FirstUnusedStaffIdIsFresh(uuids: seq<string>, used: set<string>)
    requires forall i :: 0 <= i < |uuids| ==> IsUuidHex(uuids[i])
    requires SomeUnused(uuids, used)
    ensures FirstUnusedStaffId(uuids, used) !in used
    ensures IsStaffIdShape(FirstUnusedStaffId(uuids, used))
    ensures exists k :: 0 <= k < |uuids| && FirstUnusedStaffId(uuids, used) == StaffIdOf(uuids[k])
                      && forall j :: 0 <= j < k ==> StaffIdOf(uuids[j]) in used
  {
    if StaffIdOf(uuids[0]) !in used {
      StaffIdShape(uuids[0]);
      assert FirstUnusedStaffId(uuids, used) == StaffIdOf(uuids[0]);
    } else {
      SomeUnusedTail(uuids, used);
      var tail := uuids[1..];
      FirstUnusedStaffIdIsFresh(tail, used);
      var k :| 0 <= k < |tail| && FirstUnusedStaffId(tail, used) == StaffIdOf(tail[k])
               && forall j :: 0 <= j < k ==> StaffIdOf(tail[j]) in used;
      assert FirstUnusedStaffId(uuids, used) == StaffIdOf(uuids[k + 1]);
      forall j | 0 <= j < k + 1
        ensures StaffIdOf(uuids[j]) in used
      {
        if j > 0 { assert uuids[j] == tail[j - 1]; }
      }
    }
  }
}
