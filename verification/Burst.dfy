/** Packets in uid order: bursts over a plain port, and the session queues of a tagged port. */
module Burst {
  import opened Wrappers

  /** A packet; only uid and session matter to ordering, `data` is the rest of it. */
  datatype Packet<T> = Packet(uid: nat, sid: Option<nat>, data: T)

  predicate SortedByUid<T>(ll: seq<Packet<T>>) {
    forall i, j :: 0 <= i < j < |ll| ==> ll[i].uid <= ll[j].uid
  }

  /** The place of the cursor: before the first packet with a greater uid, else at the end. */
  predicate CursorAt<T>(ll: seq<Packet<T>>, uid: nat, k: nat) {
    && k <= |ll|
    && (forall i :: 0 <= i < k ==> ll[i].uid <= uid)
    && (k < |ll| ==> uid < ll[k].uid)
  }

  function Cursor<T>(ll: seq<Packet<T>>, uid: nat): (k: nat)
    ensures CursorAt(ll, uid, k)
  {
    if ll == [] || uid < ll[0].uid then 0
    else
      var rest := Cursor(ll[1..], uid);
      assert forall i :: 1 <= i < |ll| ==> ll[i] == ll[1..][i - 1];
      1 + rest
  }

  lemma CursorIsUnique<T>(ll: seq<Packet<T>>, uid: nat, k: nat)
    requires CursorAt(ll, uid, k)
    ensures k == Cursor(ll, uid)
  {
  }

  /** The list with the packet at its place. */
  function Inserted<T>(ll: seq<Packet<T>>, pkt: Packet<T>): seq<Packet<T>> {
    var k := Cursor(ll, pkt.uid);
    ll[..k] + [pkt] + ll[k..]
  }

  /** The cursor loop shared by enqueue and by the burst receiver. */
  method InsertByUid<T>(ll: seq<Packet<T>>, pkt: Packet<T>) returns (r: seq<Packet<T>>)
    ensures r == Inserted(ll, pkt)
  {
    var llc := 0;
    while true
      invariant 0 <= llc <= |ll| && forall i :: 0 <= i < llc ==> ll[i].uid <= pkt.uid
      decreases |ll| - llc
    {
      if llc == |ll| {
        CursorIsUnique(ll, pkt.uid, llc);
        r := ll + [pkt];
        break;
      } else if pkt.uid < ll[llc].uid {
        CursorIsUnique(ll, pkt.uid, llc);
        r := ll[..llc] + [pkt] + ll[llc..];
        break;
      } else {
        llc := llc + 1;
      }
    }
  }

  lemma InsertAtKeepsSorted<T>(ll: seq<Packet<T>>, pkt: Packet<T>, k: nat)
    requires SortedByUid(ll) && CursorAt(ll, pkt.uid, k)
    ensures SortedByUid(ll[..k] + [pkt] + ll[k..])
  {
  }

  lemma InsertAtKeepsAll<T>(ll: seq<T>, pkt: T, k: nat)
    requires k <= |ll|
    ensures multiset(ll[..k] + [pkt] + ll[k..]) == multiset(ll) + multiset{pkt}
  {
    assert ll == ll[..k] + ll[k..];
  }

  lemma InsertKeepsSorted<T>(ll: seq<Packet<T>>, pkt: Packet<T>)
    requires SortedByUid(ll)
    ensures SortedByUid(Inserted(ll, pkt)) && multiset(Inserted(ll, pkt)) == multiset(ll) + multiset{pkt}
  {
    hide Cursor, SortedByUid;
    InsertAtKeepsSorted(ll, pkt, Cursor(ll, pkt.uid));
    InsertAtKeepsAll(ll, pkt, Cursor(ll, pkt.uid));
  }

  // ------------------------------------------------------------ bursts

  function Reversed<T>(s: seq<T>): seq<T> { if s == [] then [] else Reversed(s[1..]) + [s[0]] }

  /** send_pkt_burst pops from the back of the vector: the burst goes out last packet first. */
  method SendBurst<T>(burst: seq<Packet<T>>) returns (sent: seq<Packet<T>>)
    ensures sent == Reversed(burst)
    ensures multiset(sent) == multiset(burst)
  {
    sent := [];
    var pkt := burst;
    while |pkt| > 0
      invariant |pkt| <= |burst| && pkt == burst[..|pkt|]
      invariant sent == Reversed(burst[|pkt|..])
    {
      var last := |pkt| - 1;
      sent := sent + [pkt[last]];
      ReversedFront(burst, last);
      pkt := pkt[..last];
    }
    ReversedSame(burst);
  }

  lemma ReversedFront<T>(s: seq<T>, k: nat)
    requires k < |s|
    ensures Reversed(s[k..]) == Reversed(s[k + 1..]) + [s[k]]
  {
    assert s[k..][1..] == s[k + 1..];
  }

  lemma {:induction false} ReversedSame<T>(s: seq<T>)
    ensures |Reversed(s)| == |s| && multiset(Reversed(s)) == multiset(s)
    ensures forall i :: 0 <= i < |s| ==> Reversed(s)[i] == s[|s| - 1 - i]
  {
    if s != [] {
      ReversedSame(s[1..]);
      assert s == [s[0]] + s[1..];
    }
  }

  /** wait_pkt_burst_ep: the next `respCnt` packets of the channel, put in uid order one by one. */
  method WaitBurst<T>(channel: seq<Packet<T>>, respCnt: nat) returns (resp: seq<Packet<T>>)
    requires respCnt <= |channel|
    ensures SortedByUid(resp) && multiset(resp) == multiset(channel[..respCnt])
  {
    resp := [];
    for i := 0 to respCnt
      invariant SortedByUid(resp) && multiset(resp) == multiset(channel[..i])
    {
      var pkt := channel[i];
      InsertKeepsSorted(resp, pkt);
      resp := InsertByUid(resp, pkt);
      assert channel[..i + 1] == channel[..i] + [pkt];
    }
  }

  predicate Increasing<T>(s: seq<Packet<T>>) {
    forall i, j :: 0 <= i < j < |s| ==> s[i].uid < s[j].uid
  }

  lemma FirstIsUnique<T>(a: seq<Packet<T>>, b: seq<Packet<T>>)
    requires SortedByUid(a) && Increasing(b) && a != [] && b != [] && a[0] in b && b[0] in a
    ensures a[0] == b[0]
  {
    var i :| 0 <= i < |b| && b[i] == a[0];
    var j :| 0 <= j < |a| && a[j] == b[0];
    assert a[0].uid <= a[j].uid;
    if i > 0 {
      assert false;
    }
  }

  lemma TailOf<T>(a: seq<T>)
    requires a != []
    ensures multiset(a[1..]) == multiset(a) - multiset{a[0]}
  {
    assert a == [a[0]] + a[1..];
  }

  lemma SameSize<T>(a: seq<T>, b: seq<T>)
    requires multiset(a) == multiset(b)
    ensures |a| == |b| && forall x :: x in a <==> x in b
  {
    assert |multiset(a)| == |multiset(b)|;
    assert forall x :: x in a <==> x in multiset(a);
    assert forall x :: x in b <==> x in multiset(b);
  }

  /** With distinct uids there is just one sorted order. */
  lemma {:induction false} SortedIsUnique<T>(a: seq<Packet<T>>, b: seq<Packet<T>>)
    requires SortedByUid(a) && Increasing(b) && multiset(a) == multiset(b)
    ensures a == b
  {
    SameSize(a, b);
    if a != [] {
      assert a[0] in a && b[0] in b;
      FirstIsUnique(a, b);
      TailOf(a);
      TailOf(b);
      SortedIsUnique(a[1..], b[1..]);
      assert a == [a[0]] + a[1..] && b == [b[0]] + b[1..];
    }
  }

  /** Requests have increasing uids, each response has the uid of its request, and the responses
      arrive in any order: the burst comes back in request order. */
  lemma BurstComesBackInOrder<T>(requests: seq<Packet<T>>, responses: seq<Packet<T>>, arrived: seq<Packet<T>>, received: seq<Packet<T>>)
    requires Increasing(requests) && |responses| == |requests|
    requires forall i :: 0 <= i < |requests| ==> responses[i].uid == requests[i].uid
    requires multiset(arrived) == multiset(responses)
    requires SortedByUid(received) && multiset(received) == multiset(arrived)
    ensures received == responses
  {
    SortedIsUnique(received, responses);
  }

  /** b_req_resp_burst against a responder that answers in some order of its own. */
  method RequestBurst<T>(requests: seq<Packet<T>>, ghost responses: seq<Packet<T>>, arrived: seq<Packet<T>>)
    returns (sent: seq<Packet<T>>, received: seq<Packet<T>>)
    requires Increasing(requests) && |responses| == |requests|
    requires forall i :: 0 <= i < |requests| ==> responses[i].uid == requests[i].uid
    requires multiset(arrived) == multiset(responses)
    ensures sent == Reversed(requests) && received == responses
  {
    var burstLen := |requests|;
    sent := SendBurst(requests);
    assert |arrived| == |responses| by {
      assert |multiset(arrived)| == |multiset(responses)|;
    }
    assert arrived[..burstLen] == arrived;
    received := WaitBurst(arrived, burstLen);
    BurstComesBackInOrder(requests, responses, arrived, received);
  }
}
