/**
 * Controller and pod identifiers used to address protocol exchanges with a pod
 * (OmniBLE/Bluetooth/Ids.swift).
 *
 * An `Id` is four bytes. The bodies of `Id.fromInt`, `Id.fromLong` and
 * `Id.increment` are not part of this model: here `fromInt`/`fromLong` write the
 * low 32 bits of their argument big-endian, and `increment` adds one modulo 2^32.
 */
module Ids {
  import opened Wrappers
  import opened RawValues
  import opened Collaborators

  type Byte = x: int | 0 <= x < 0x100

  /** The four bytes of an id. */
  type Address = s: seq<Byte> | |s| == 4 witness [0, 0, 0, 0]

  /** The fixed controller id. */
  const CONTROLLER_ID: int := 4242

  /** The pod id of a pod that has not been activated yet. */
  const POD_ID_NOT_ACTIVATED: Address := [0xFF, 0xFF, 0xFF, 0xFE]

  datatype Id = Id(address: Address) {

    /** The id read as a big-endian 32-bit number. */
    function Value(): UInt32 {
      (address[0] as int) * 0x100_0000 + (address[1] as int) * 0x1_0000
        + (address[2] as int) * 0x100 + (address[3] as int)
    }

    /** The next id, wrapping around after 0xFFFFFFFF. */
    function Increment(): (next: Id)
      ensures next.Value() == (Value() + 1) % 0x1_0000_0000
    {
      FromLong((Value() + 1) % 0x1_0000_0000)
    }
  }

  /** `Id.fromLong`: the id whose big-endian value is `v`. */
  function FromLong(v: UInt32): (id: Id)
    ensures id.Value() == v
  {
    var low24 := v % 0x100_0000;
    var low16 := low24 % 0x1_0000;
    Id([v / 0x100_0000, low24 / 0x1_0000, low16 / 0x100, low16 % 0x100])
  }

  /** `Id.fromInt`: the id holding the low 32 bits of `v`. */
  function FromInt(v: int): (id: Id)
    ensures id.Value() == v % 0x1_0000_0000
  {
    FromLong(v % 0x1_0000_0000)
  }

  /** An id is determined by its value: reading and rebuilding an id gives it back. */
  lemma FromLongValue(id: Id)
    ensures FromLong(id.Value()) == id
  {
    var a: seq<int> := id.address;
    var v := id.Value();
    var low16 := a[2] * 0x100 + a[3];
    var low24 := a[1] * 0x1_0000 + low16;
    DivMod(v, 0x100_0000, a[0], low24);
    DivMod(low24, 0x1_0000, a[1], low16);
    DivMod(low16, 0x100, a[2], a[3]);
    assert FromLong(v).address == a;
  }

  /** Splitting a number into a quotient and a remainder by a positive divisor. */
  lemma DivMod(v: int, d: int, q: int, r: int)
    requires 0 < d && v == q * d + r && 0 <= r < d
    ensures v / d == q && v % d == r
  {
    var q', r' := v / d, v % d;
    assert (q - q') * d == r' - r;
    if q > q' {
      AtLeastOnce(q - q', d);
    } else if q < q' {
      AtLeastOnce(q' - q, d);
    }
  }

  /** A positive multiple of `d` is at least `d`. */
  lemma AtLeastOnce(n: int, d: int)
    requires n >= 1 && d > 0
    ensures n * d >= d
  {
  }

  /** Two ids are equal exactly when their values are. */
  lemma ValueInjective(x: Id, y: Id)
    ensures x == y <==> x.Value() == y.Value()
  {
    FromLongValue(x);
    FromLongValue(y);
  }

  /** `Ids.notActivated()`: the sentinel pod id FFFFFFFE. */
  function NotActivated(): (id: Id)
    ensures id.Value() == 0xFFFF_FFFE
  {
    Id(POD_ID_NOT_ACTIVATED)
  }

  /** `Ids.controllerId()`: the id built from `CONTROLLER_ID`. */
  function ControllerId(): (id: Id)
    ensures id.Value() == CONTROLLER_ID
    ensures id.address == [0x00, 0x00, 0x10, 0x92]
  {
    FromInt(CONTROLLER_ID)
  }

  /** The pair of ids of one controller/pod session. */
  datatype Ids = Ids(myId: Id, podId: Id)

  /**
   * `Ids.init(podState:)`: the controller id is fixed; the pod id is the successor of
   * the pod's address when there is a pod, else the successor of the controller id.
   */
  function NewIds(podState: Option<PodState>): (ids: Ids)
    ensures ids.myId == ControllerId()
    ensures podState.None? ==> ids.podId.Value() == CONTROLLER_ID + 1
    ensures podState.Some? ==> ids.podId.Value() == (podState.value.address + 1) % 0x1_0000_0000
  {
    var myId := FromInt(CONTROLLER_ID);
    var uniqueId := if podState.Some? then FromLong(podState.value.address) else myId;
    Ids(myId, uniqueId.Increment())
  }

  /** The ids depend on the pod state only through its address: equal addresses give equal ids. */
  lemma NewIdsDeterministic(p: Option<PodState>, q: Option<PodState>)
    requires p.None? <==> q.None?
    requires p.Some? ==> p.value.address == q.value.address
    ensures NewIds(p) == NewIds(q)
  {
  }

  /**
   * The controller and the pod get different ids, except when the pod's address is the
   * one just below the controller id, where the successor collides with it.
   */
  lemma NewIdsCollision(p: Option<PodState>)
    ensures NewIds(p).podId == NewIds(p).myId <==> p.Some? && p.value.address == CONTROLLER_ID - 1
  {
    var ids := NewIds(p);
    ValueInjective(ids.podId, ids.myId);
  }

  /** The not-activated sentinel is not the controller id, and a derived pod id is the sentinel only for pod address FFFFFFFD. */
  lemma NotActivatedIsDistinct(p: Option<PodState>)
    ensures NotActivated() != ControllerId()
    ensures NewIds(p).podId == NotActivated() <==> p.Some? && p.value.address == 0xFFFF_FFFD
  {
    ValueInjective(NewIds(p).podId, NotActivated());
  }
}
