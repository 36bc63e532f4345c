/** The registry of events: names to numbers, handed out on first use. */
module EventNames {
  import opened Wrappers

  datatype Names = Names(nameUid: map<string, nat>, nxtEventUid: nat)

  const NO_NAMES := Names(map[], 0)

  /** event_uid: the number of a known name, otherwise the next one. */
  function Looked(n: Names, name: string): Names {
    if name in n.nameUid then n else Names(n.nameUid[name := n.nxtEventUid], n.nxtEventUid + 1)
  }

  function UidOf(n: Names, name: string): nat {
    if name in n.nameUid then n.nameUid[name] else n.nxtEventUid
  }

  /** The registry after a sequence of look-ups, and the numbers they returned. */
  function After(names: seq<string>): Names {
    if names == [] then NO_NAMES else Looked(After(names[..|names| - 1]), names[|names| - 1])
  }

  function Returned(names: seq<string>): (r: seq<nat>)
    ensures |r| == |names|
  {
    if names == [] then [] else Returned(names[..|names| - 1]) + [UidOf(After(names[..|names| - 1]), names[|names| - 1])]
  }

  ghost predicate OneToOne(n: Names) {
    && (forall a :: a in n.nameUid ==> n.nameUid[a] < n.nxtEventUid)
    && (forall a, b :: a in n.nameUid && b in n.nameUid && n.nameUid[a] == n.nameUid[b] ==> a == b)
    && (forall u: nat :: u < n.nxtEventUid ==> u in n.nameUid.Values)
  }

  lemma LookedKeeps(n: Names, name: string)
    requires OneToOne(n)
    ensures OneToOne(Looked(n, name)) && name in Looked(n, name).nameUid && Looked(n, name).nameUid[name] == UidOf(n, name)
    ensures forall a :: a in n.nameUid ==> a in Looked(n, name).nameUid && Looked(n, name).nameUid[a] == n.nameUid[a]
  {
    var m := Looked(n, name);
    forall u: nat | u < m.nxtEventUid
      ensures u in m.nameUid.Values
    {
      if u < n.nxtEventUid {
        assert u in n.nameUid.Values;
        var a :| a in n.nameUid && n.nameUid[a] == u;
        assert m.nameUid[a] == u;
      } else {
        assert m.nameUid[name] == u;
      }
    }
  }

  /** The registry knows just the names looked up so far, with the numbers returned. */
  lemma {:induction false} AfterKnows(names: seq<string>)
    ensures OneToOne(After(names))
    ensures forall i :: 0 <= i < |names| ==> names[i] in After(names).nameUid && After(names).nameUid[names[i]] == Returned(names)[i]
  {
    if names != [] {
      var front := names[..|names| - 1];
      AfterKnows(front);
      LookedKeeps(After(front), names[|names| - 1]);
      assert forall i :: 0 <= i < |front| ==> names[i] == front[i] && Returned(names)[i] == Returned(front)[i];
    }
  }

  /** However events are looked up, two look-ups return the same number if and only if they ask for the same
      name, and the numbers in use are those below the counter. */
  lemma SameUidIffSameName(names: seq<string>, i: nat, j: nat)
    requires i < |names| && j < |names|
    ensures Returned(names)[i] == Returned(names)[j] <==> names[i] == names[j]
    ensures Returned(names)[i] < After(names).nxtEventUid
  {
    AfterKnows(names);
  }

  class EventKeeper {
    var nameUid: map<string, nat>
    var nxtEventUid: nat

    function Value(): Names
      reads this
    {
      Names(nameUid, nxtEventUid)
    }

    constructor ()
      ensures Value() == NO_NAMES
    {
      nameUid, nxtEventUid := map[], 0;
    }

    method EventUid(name: string) returns (uid: nat)
      modifies this
      ensures uid == UidOf(old(Value()), name) && Value() == Looked(old(Value()), name)
    {
      if name in nameUid {
        uid := nameUid[name];
      } else {
        uid := nxtEventUid;
        nxtEventUid := nxtEventUid + 1;
        nameUid := nameUid[name := uid];
      }
    }

    /** event_name: the reverse look-up. */
    method EventName(uid: nat) returns (name: Option<string>)
      ensures name.Some? ==> name.value in nameUid && nameUid[name.value] == uid
      ensures name.None? ==> uid !in nameUid.Values
    {
      var left := nameUid.Keys;
      while left != {}
        invariant left <= nameUid.Keys && forall a :: a in nameUid && a !in left ==> nameUid[a] != uid
        decreases |left|
      {
        var key :| key in left;
        if nameUid[key] == uid {
          return Some(key);
        }
        left := left - {key};
      }
      name := None;
    }
  }
}
