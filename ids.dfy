/** Document identifiers (Mongoose ObjectIds) and identifiers as they arrive in a request. */
module Ids {

  /** An ObjectId, abstracted to a number; the store hands out fresh ones in increasing order. */
  type Id = nat

  /**
   * An id taken from a path, query or body: one `ObjectId.isValid` accepts, or any other text.
   * A valid id stands for its canonical 24-digit hex form.
   */
  datatype RequestId = Valid(id: Id) | Malformed(raw: string)

  /** JavaScript truthiness of the raw parameter: only the empty string is falsy. */
  predicate Present(r: RequestId) {
    r != Malformed("")
  }

  /**
   * The text `toString()` gives for an ObjectId: its lowercase hex digits, zero-padded on
   * the left to 24. A request that spells a valid id in this canonical form is echoed as this.
   */
  function IdText(id: Id): (r: string)
    ensures |r| >= 24
    ensures forall k :: 0 <= k < |r| ==> r[k] in HexDigits
  {
    var digits := Hex(id);
    if |digits| >= 24 then digits else seq(24 - |digits|, _ => '0') + digits
  }

  const HexDigits := "0123456789abcdef"

  /** The hex digits of an id, most significant first, without padding. */
  function Hex(id: Id): (r: string)
    ensures |r| >= 1
    ensures forall k :: 0 <= k < |r| ==> r[k] in HexDigits
    decreases id
  {
    var digit := HexDigits[id % 16];
    if id < 16 then [digit] else Hex(id / 16) + [digit]
  }
}
