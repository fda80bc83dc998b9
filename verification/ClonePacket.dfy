/**
 clonePacket on the heap: a recycled packet struct is overwritten with the source's fields, then payload and
 extension payloads are replaced by fresh copies. Slices are arrays, the nil slice is null.
 */
module ClonePacket {

  newtype Byte = x: int | 0 <= x < 256

  /** Header fields that are plain values; the CSRC list is a slice. */
  datatype Header = Header(seqNo: nat, timestamp: nat, ssrc: nat, payloadType: nat, csrc: array?<int>)

  datatype Extension = Extension(id: Byte, payload: array?<Byte>)

  class Packet {
    var header: Header
    var payload: array?<Byte>
    var extensions: array?<Extension>

    /** The zero packet, as the pool makes and keeps it. */
    constructor ()
      ensures Zeroed()
    {
      header, payload, extensions := Header(0, 0, 0, 0, null), null, null;
    }

    predicate Zeroed()
      reads this
    {
      header == Header(0, 0, 0, 0, null) && payload == null && extensions == null
    }

    /** What runWriter and the drop path do before returning a packet to the pool. */
    method Recycle()
      modifies this
      ensures Zeroed()
    {
      header, payload, extensions := Header(0, 0, 0, 0, null), null, null;
    }
  }

  /** b has its own copy of a's bytes; an extension payload without bytes becomes nil. */
  ghost predicate Copied(a: array?<Byte>, b: array?<Byte>)
    reads if a == null then {} else {a}, if b == null then {} else {b}
  {
    if a == null || a.Length == 0 then b == null else b != null && b != a && b[..] == a[..]
  }

  /** append([]byte(nil), a...) */
  method AppendCopy(a: array<Byte>) returns (b: array?<Byte>)
    ensures Copied(a, b)
    ensures b != null ==> fresh(b)
  {
    if a.Length == 0 {
      return null;
    }
    b := CopyBytes(a);
  }

  /** make and copy: the copy of an empty slice is empty, not nil. */
  method CopyBytes(a: array<Byte>) returns (b: array<Byte>)
    ensures fresh(b) && b[..] == a[..]
  {
    b := new Byte[a.Length];
    var i := 0;
    while i < a.Length
      invariant 0 <= i <= a.Length
      invariant b[..i] == a[..i]
    {
      b[i] := a[i];
      i := i + 1;
    }
  }

  method CopyExtensions(exts: array<Extension>) returns (copies: array<Extension>)
    ensures fresh(copies) && copies.Length == exts.Length
    ensures forall i :: 0 <= i < exts.Length ==> copies[i].id == exts[i].id && Copied(exts[i].payload, copies[i].payload)
    ensures forall i :: 0 <= i < exts.Length && copies[i].payload != null ==> fresh(copies[i].payload)
    ensures forall i, j :: 0 <= i < j < exts.Length && copies[i].payload != null ==> copies[i].payload != copies[j].payload
  {
    copies := new Extension[exts.Length](_ => Extension(0, null));
    var i := 0;
    while i < exts.Length
      invariant 0 <= i <= exts.Length
      invariant forall k :: 0 <= k < i ==> copies[k].id == exts[k].id && Copied(exts[k].payload, copies[k].payload)
      invariant forall k :: 0 <= k < i && copies[k].payload != null ==> fresh(copies[k].payload)
      invariant forall k, l :: 0 <= k < l < i && copies[k].payload != null ==> copies[k].payload != copies[l].payload
    {
      var p: array?<Byte> := null;
      if exts[i].payload != null {
        p := AppendCopy(exts[i].payload);
      }
      copies[i] := Extension(exts[i].id, p);
      i := i + 1;
    }
  }

  /**
   The clone has the source's values but shares neither payload nor extension payloads with it or, being fresh,
   with any other clone. The CSRC list stays shared, and so does a missing or empty extension list.
   */
  method Clone(pkt: Packet, pooled: Packet) returns (clone: Packet)
    requires pooled != pkt && pooled.Zeroed()
    modifies pooled
    ensures clone == pooled && clone.header == pkt.header
    ensures pkt.payload == null ==> clone.payload == null
    ensures pkt.payload != null ==> clone.payload != null && fresh(clone.payload) && clone.payload[..] == pkt.payload[..]
    ensures pkt.extensions == null || pkt.extensions.Length == 0 ==> clone.extensions == pkt.extensions
    ensures pkt.extensions != null && pkt.extensions.Length > 0 ==>
              && clone.extensions != null && fresh(clone.extensions) && clone.extensions.Length == pkt.extensions.Length
              && (forall i :: 0 <= i < pkt.extensions.Length ==>
                    clone.extensions[i].id == pkt.extensions[i].id && Copied(pkt.extensions[i].payload, clone.extensions[i].payload))
              && (forall i :: 0 <= i < pkt.extensions.Length && clone.extensions[i].payload != null ==>
                    fresh(clone.extensions[i].payload))
              && (forall i, j :: 0 <= i < j < pkt.extensions.Length && clone.extensions[i].payload != null ==>
                    clone.extensions[i].payload != clone.extensions[j].payload)
  {
    clone := pooled;
    clone.header, clone.payload, clone.extensions := pkt.header, pkt.payload, pkt.extensions;
    if pkt.payload != null {
      clone.payload := CopyBytes(pkt.payload);
    }
    if pkt.extensions != null && pkt.extensions.Length > 0 {
      clone.extensions := CopyExtensions(pkt.extensions);
    }
  }

  /** The two arrays are not the same one. */
  predicate Apart(a: array?<Byte>, b: array?<Byte>) { a == null || a != b }

  /**
   Two clones of one packet, as two subscribers get them: equal bytes, and no payload or extension payload of either
   is the other's or the source's, so writing through one is never seen through another.
   */
  method CloneTwice(pkt: Packet, first: Packet, second: Packet) returns (a: Packet, b: Packet)
    requires first != pkt && second != pkt && first != second && first.Zeroed() && second.Zeroed()
    modifies first, second
    ensures Apart(a.payload, b.payload) && Apart(a.payload, pkt.payload) && Apart(b.payload, pkt.payload)
    ensures pkt.payload != null ==> a.payload != null && b.payload != null && a.payload[..] == b.payload[..] == pkt.payload[..]
    ensures pkt.extensions != null && pkt.extensions.Length > 0 ==>
              && a.extensions != null && b.extensions != null
              && a.extensions.Length == b.extensions.Length == pkt.extensions.Length
              && (forall i, j :: 0 <= i < pkt.extensions.Length && 0 <= j < pkt.extensions.Length ==>
                    && Apart(a.extensions[i].payload, b.extensions[j].payload)
                    && Apart(a.extensions[i].payload, pkt.extensions[j].payload)
                    && Apart(b.extensions[i].payload, pkt.extensions[j].payload))
  {
    a := Clone(pkt, first);
    b := Clone(pkt, second);
  }
}
