/**
 * The ordered collection of order lines: lines are appended by `new_line` and
 * serialised one by one, in insertion order.
 */
module MollieLines {
  import opened Wrappers
  import opened Json
  import opened MollieAmount
  import opened MollieLine

  /** The states of a sequence of lines, in order. */
  function LineStatesOf(ls: seq<Line>): (sts: seq<LineState>)
    reads set l | l in ls
    ensures |sts| == |ls|
    ensures forall i :: 0 <= i < |ls| ==> sts[i] == ls[i].State()
  {
    if |ls| == 0 then [] else LineStatesOf(ls[..|ls| - 1]) + [ls[|ls| - 1].State()]
  }

  class Lines {
    var lines: seq<Line>

    function States(): seq<LineState>
      reads this, set l | l in lines
    {
      LineStatesOf(lines)
    }

    /** A new collection holds no line. */
    constructor ()
      ensures lines == []
    {
      lines := [];
    }

    /** `new_line`: a fresh line built from the four arguments is appended and returned. */
    method NewLine(name: string, quantity: int, unitPrice: Amount, totalAmount: Amount) returns (line: Line)
      modifies this
      ensures fresh(line)
      ensures lines == old(lines) + [line]
      ensures line.State() == LineState(None, None, name, quantity, unitPrice, None, totalAmount,
                                        None, None, None, None, None)
      ensures States() == old(States()) + [line.State()]
    {
      line := new Line(name, quantity, unitPrice, totalAmount);
      lines := lines + [line];
      assert lines[..|lines| - 1] == old(lines);
    }

    /** `jsonSerialize`: every line's serialisation, in insertion order; nothing is changed. */
    method JsonSerialize(env: Collaborators) returns (docs: seq<Wire>)
      ensures |docs| == |lines|
      ensures forall j :: 0 <= j < |lines| ==> docs[j] == Obj(LineDocument(lines[j].State(), env))
    {
      docs := [];
      var i := 0;
      while i < |lines|
        invariant 0 <= i <= |lines| && |docs| == i
        invariant forall j :: 0 <= j < i ==> docs[j] == Obj(LineDocument(lines[j].State(), env))
      {
        var doc := lines[i].JsonSerialize(env);
        docs := docs + [doc];
        i := i + 1;
      }
    }
  }
}
