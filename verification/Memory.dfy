/** A byte memory, and the copy of some bytes into it. */
module Memory {
  type Byte = bv8

  function Overwrite(memory: seq<Byte>, addr: nat, bytes: seq<Byte>): (after: seq<Byte>)
    requires addr + |bytes| <= |memory|
    ensures |after| == |memory|
    ensures forall a :: 0 <= a < |memory| ==> after[a] == if addr <= a < addr + |bytes| then bytes[a - addr] else memory[a]
  {
    memory[..addr] + bytes + memory[addr + |bytes|..]
  }
}
