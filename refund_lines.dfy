/**
 * The lines of an order refund: appended by `new_line` and serialised one by
 * one, in insertion order.
 */
module MollieRefundLines {
  import opened Json
  import opened MollieRefundLine

  /** The states of a sequence of refund lines, in order. */
  function RefundLineStatesOf(ls: seq<RefundLine>): (sts: seq<RefundLineState>)
    reads set l | l in ls
    ensures |sts| == |ls|
    ensures forall i :: 0 <= i < |ls| ==> sts[i] == ls[i].State()
  {
    if |ls| == 0 then [] else RefundLineStatesOf(ls[..|ls| - 1]) + [ls[|ls| - 1].State()]
  }

  class RefundLines {
    var lines: seq<RefundLine>

    function States(): seq<RefundLineState>
      reads this, set l | l in lines
    {
      RefundLineStatesOf(lines)
    }

    /** A new collection holds no line. */
    constructor ()
      ensures lines == []
    {
      lines := [];
    }

    /** `new_line`: a fresh line for the identifier, with the constructor's defaults, is appended and returned. */
    method NewLine(id: string) returns (line: RefundLine)
      modifies this
      ensures fresh(line)
      ensures lines == old(lines) + [line]
      ensures line.State() == RefundLineState(id, 0, DefaultAmount)
      ensures States() == old(States()) + [line.State()]
    {
      line := new RefundLine(id);
      lines := lines + [line];
      assert lines[..|lines| - 1] == old(lines);
    }

    /** `jsonSerialize`: every line's serialisation, in insertion order; nothing is changed. */
    method JsonSerialize() returns (docs: seq<Wire>)
      ensures |docs| == |lines|
      ensures forall j :: 0 <= j < |lines| ==> docs[j] == Obj(RefundLineDocument(lines[j].State()))
    {
      docs := [];
      var i := 0;
      while i < |lines|
        invariant 0 <= i <= |lines| && |docs| == i
        invariant forall j :: 0 <= j < i ==> docs[j] == Obj(RefundLineDocument(lines[j].State()))
      {
        var doc := lines[i].JsonSerialize();
        docs := docs + [doc];
        i := i + 1;
      }
    }
  }
}
