/**
 * The lines of an order refund request. The element class,
 * `OrderRefundLineRequest`, is not part of this model beyond its identifier:
 * its serialisation is taken as a given function of the element.
 */
module MollieOrderRefundLinesRequest {
  import opened Json

  /** An element: built from an order line identifier. */
  class OrderRefundLineRequest {
    const id: string

    constructor (id: string)
      ensures this.id == id
    {
      this.id := id;
    }
  }

  class OrderRefundLinesRequest {
    var lines: seq<OrderRefundLineRequest>

    /** A new request holds no line. */
    constructor ()
      ensures lines == []
    {
      lines := [];
    }

    /** `new_line`: a fresh element for the identifier is appended and returned; the others stay. */
    method NewLine(id: string) returns (line: OrderRefundLineRequest)
      modifies this
      ensures fresh(line) && line.id == id
      ensures lines == old(lines) + [line]
    {
      line := new OrderRefundLineRequest(id);
      lines := lines + [line];
    }

    /**
     * `jsonSerialize`: `serialize` stands for the element's own
     * `jsonSerialize`; element j of the result is line j's, in order.
     */
    method JsonSerialize(serialize: OrderRefundLineRequest -> Wire) returns (docs: seq<Wire>)
      ensures |docs| == |lines|
      ensures forall j :: 0 <= j < |lines| ==> docs[j] == serialize(lines[j])
    {
      docs := [];
      var i := 0;
      while i < |lines|
        invariant 0 <= i <= |lines| && |docs| == i
        invariant forall j :: 0 <= j < i ==> docs[j] == serialize(lines[j])
      {
        docs := docs + [serialize(lines[i])];
        i := i + 1;
      }
    }
  }
}
