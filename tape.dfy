/**
 * The Tape class of turing.py: a list of cells that grows at either end and a
 * head index, both updated in place. Each method is proved to take the tape
 * from old(State()) to the state the matching function of TapeSpec describes.
 */
module Tapes {
  import opened TapeSpec

  class Tape {
    var cells: seq<Symbol>
    var head: nat

    /** The tape as a value. */
    function State(): TapeState
      reads this
    {
      TapeState(cells, head)
    }

    predicate Valid()
      reads this
    {
      State().Valid()
    }

    /** A new tape holds two Blank cells with the head on the first. */
    constructor ()
      ensures Valid() && State() == Fresh
    {
      cells := [Blank, Blank];
      head := 0;
    }

    /** read: the symbol under the head, which is cell 0 of the unbounded tape seen from the head. */
    function Read(): (s: Symbol)
      reads this
      requires Valid()
      ensures s == State().Rel(0)
    {
      State().Read()
    }

    /** move_left, returning the symbol now under the head. */
    method MoveLeft() returns (s: Symbol)
      requires Valid()
      modifies this
      ensures Valid() && State() == MovedLeft(old(State()))
      ensures s == Read()
    {
      if head == 0 {
        cells := [Blank] + cells;
      } else {
        head := head - 1;
      }
      s := cells[head];
    }

    /** move_right, returning the symbol now under the head. */
    method MoveRight() returns (s: Symbol)
      requires Valid()
      modifies this
      ensures Valid() && State() == MovedRight(old(State()))
      ensures s == Read()
    {
      head := head + 1;
      if head >= |cells| {
        cells := cells + [Blank];
      }
      s := cells[head];
    }

    /** write_symbol: overwrite the cell under the head, then pad the end the head is on. */
    method WriteSymbol(s: Symbol)
      requires Valid()
      modifies this
      ensures Valid() && State() == Written(old(State()), s)
    {
      cells := cells[head := s];
      if head == 0 {
        cells := [Blank] + cells;
        head := 1;
      } else if head == |cells| - 1 {
        cells := cells + [Blank];
      }
    }

    /**
     * fill_tape: for each value, move right and write a One as many times as the
     * value, then move right once more; finally put the head back on index 0.
     */
    method FillTape(values: seq<int>)
      requires Valid()
      modifies this
      ensures Valid() && State() == Filled(old(State()), values)
    {
      ghost var start := State();
      for i := 0 to |values|
        invariant Valid()
        invariant State() == FillAll(start, values[..i])
      {
        WriteRun(values[i]);
        var _ := MoveRight();
        FillAllStep(start, values, i);
      }
      assert values[..|values|] == values;
      head := 0;
    }

    /** The inner loop of fill_tape: while n > 0, move right and write a One. */
    method WriteRun(n: int)
      requires Valid()
      modifies this
      ensures Valid() && State() == WriteOnes(old(State()), n)
    {
      var value := n;
      while value > 0
        invariant Valid()
        invariant WriteOnes(State(), value) == WriteOnes(old(State()), n)
      {
        var _ := MoveRight();
        WriteSymbol(One);
        value := value - 1;
      }
    }

    /**
     * get_number: the number of One cells strictly right of the head, counted to
     * the very end of the tape (it does not stop at the first Blank).
     */
    method GetNumber() returns (n: nat)
      requires Valid()
      ensures n == multiset(cells[head + 1..])[One]
      ensures n == State().Number()
    {
      var i := head + 1;
      n := 0;
      while i < |cells|
        invariant head + 1 <= i <= |cells|
        invariant n + OnesFrom(cells, i) == OnesFrom(cells, head + 1)
      {
        if cells[i] == One {
          n := n + 1;
        }
        i := i + 1;
      }
      OnesFromIsMultiplicity(cells, head + 1);
    }
  }
}
