/** A store with a fixed number of slots that moves to a growing vector when they run out. It backs
    the return-path stack and the payload of a memory bus packet. */
module PreAllocatedStore {
  import opened Wrappers

  class PreAllocatedStore<T> {
    const slots: array<T>
    var size: nat
    /** None while the store is static. */
    var dynamic: Option<seq<T>>

    ghost predicate Valid()
      reads this
    {
      size <= slots.Length
    }

    /** The plain sequence the store stands for, whichever variant it is in. */
    ghost function Contents(): seq<T>
      reads this, slots
      requires Valid()
    {
      if dynamic.Some? then dynamic.value else slots[..size]
    }

    constructor (staticStore: nat, default: T)
      ensures Valid() && fresh(slots) && slots.Length == staticStore && Contents() == [] && dynamic == None
    {
      slots := new T[staticStore](_ => default);
      size := 0;
      dynamic := None;
    }

    method Len() returns (n: nat)
      requires Valid()
      ensures n == |Contents()|
    {
      n := if dynamic.Some? then |dynamic.value| else size;
    }

    method Push(value: T)
      requires Valid()
      modifies this, slots
      ensures Valid() && Contents() == old(Contents()) + [value]
      ensures dynamic.Some? <==> old(dynamic).Some? || old(size) == slots.Length
    {
      if dynamic.None? {
        if size < slots.Length {
          slots[size] := value;
          size := size + 1;
        } else {
          dynamic := Some(slots[..] + [value]);
        }
      } else {
        dynamic := Some(dynamic.value + [value]);
      }
    }

    method Pop() returns (r: Option<T>)
      requires Valid()
      modifies this
      ensures Valid() && (dynamic.Some? <==> old(dynamic).Some?)
      ensures old(Contents()) == [] ==> r == None && Contents() == []
      ensures old(Contents()) != [] ==> r.Some? && old(Contents()) == Contents() + [r.value]
    {
      if dynamic.None? {
        if size == 0 {
          return None;
        }
        size := size - 1;
        r := Some(slots[size]);
        assert old(slots[..size]) == slots[..size] + [slots[size]];
      } else if |dynamic.value| == 0 {
        r := None;
      } else {
        var last := |dynamic.value| - 1;
        r := Some(dynamic.value[last]);
        dynamic := Some(dynamic.value[..last]);
      }
    }

    method ExtendFromSlice(other: seq<T>)
      requires Valid()
      modifies this, slots
      ensures Valid() && Contents() == old(Contents()) + other
      ensures dynamic.Some? <==> old(dynamic).Some? || old(size) + |other| > slots.Length
    {
      if dynamic.Some? {
        dynamic := Some(dynamic.value + other);
      } else if size + |other| <= slots.Length {
        var i := 0;
        while i < |other|
          invariant 0 <= i <= |other| && dynamic == None && size == old(size) + i && size + |other| - i <= slots.Length
          invariant slots[..size] == old(slots[..size]) + other[..i]
        {
          slots[size] := other[i];
          size := size + 1;
          i := i + 1;
        }
      } else {
        dynamic := Some(slots[..size] + other);
      }
    }

    method IntoVec() returns (v: seq<T>)
      requires Valid()
      ensures v == Contents()
    {
      v := if dynamic.Some? then dynamic.value else slots[..size];
    }
  }
}
