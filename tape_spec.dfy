/**
 * The tape of the Turing machine as a value: a sequence of cells and a head
 * index. The functions here say what each tape operation of turing.py does;
 * the class in tape.dfy performs them in place and is proved against them.
 */
module TapeSpec {

  /** The two symbols the tape holds, written "B" and "1" in rule tables. */
  datatype Symbol = Blank | One

  /** The spelling of a symbol, as rule tables and the tape's cells use it. */
  function Text(s: Symbol): string
  {
    if s == Blank then "B" else "1"
  }

  datatype TapeState = TapeState(cells: seq<Symbol>, head: nat)
  {
    /** Never shorter than the two cells a new tape starts with; the head is on a cell. */
    predicate Valid()
    {
      2 <= |cells| && head < |cells|
    }

    /** The symbol under the head. */
    function Read(): Symbol
      requires Valid()
    {
      cells[head]
    }

    /**
     * The symbol k cells to the right of the head (to the left when k < 0) on the
     * unbounded tape this sequence stands for: Blank beyond either end.
     */
    function Rel(k: int): Symbol
    {
      if 0 <= head + k < |cells| then cells[head + k] else Blank
    }

    /** What get_number reports: the number of One cells strictly right of the head. */
    function Number(): nat
      requires Valid()
    {
      OnesFrom(cells, head + 1)
    }
  }

  /** The number of One cells at index i or later, counted left to right as get_number's loop does. */
  function OnesFrom(s: seq<Symbol>, i: nat): nat
    decreases |s| - i
  {
    if i >= |s| then 0 else (if s[i] == One then 1 else 0) + OnesFrom(s, i + 1)
  }

  /** OnesFrom agrees with the multiplicity of One among the cells from index i on. */
  lemma {:induction false} OnesFromIsMultiplicity(s: seq<Symbol>, i: nat)
    requires i <= |s|
    ensures OnesFrom(s, i) == multiset(s[i..])[One]
    decreases |s| - i
  {
    if i < |s| {
      OnesFromIsMultiplicity(s, i + 1);
      assert s[i..] == [s[i]] + s[i + 1..];
    }
  }

  /** A new tape: two Blank cells, head on the first. */
  const Fresh := TapeState([Blank, Blank], 0)

  /**
   * move_left: at the left end a Blank is prepended and the head stays at index 0,
   * elsewhere the head index goes down by one.
   */
  function MovedLeft(t: TapeState): (r: TapeState)
    requires t.Valid()
    ensures r.Valid()
    ensures |t.cells| <= |r.cells| <= |t.cells| + 1
  {
    if t.head == 0 then TapeState([Blank] + t.cells, 0)
    else TapeState(t.cells, t.head - 1)
  }

  /**
   * move_right: the head index goes up by one and a Blank is appended when it has
   * run past the end.
   */
  function MovedRight(t: TapeState): (r: TapeState)
    requires t.Valid()
    ensures r.Valid()
    ensures |t.cells| <= |r.cells| <= |t.cells| + 1
  {
    var h := t.head + 1;
    TapeState(if h >= |t.cells| then t.cells + [Blank] else t.cells, h)
  }

  /**
   * write_symbol: overwrite the cell under the head, then pad with a Blank at the
   * end the head is on. Afterwards the head is on s, strictly inside the tape.
   */
  function Written(t: TapeState, s: Symbol): (r: TapeState)
    requires t.Valid()
    ensures r.Valid() && 0 < r.head < |r.cells| - 1
    ensures |t.cells| <= |r.cells| <= |t.cells| + 1
  {
    var c := t.cells[t.head := s];
    if t.head == 0 then TapeState([Blank] + c, 1)
    else if t.head == |c| - 1 then TapeState(c + [Blank], t.head)
    else TapeState(c, t.head)
  }

  /**
   * move_left: at index 0 one Blank is prepended, so every old cell shifts right by
   * one and the head stays at 0; elsewhere the cells are unchanged and the head
   * index goes down by one. Either way the old cells stay a suffix, and on the
   * unbounded tape the head moves one cell left and no cell changes.
   */
  lemma MoveLeftView(t: TapeState)
    requires t.Valid()
    ensures t.head == 0 ==> MovedLeft(t) == TapeState([Blank] + t.cells, 0)
    ensures t.head > 0 ==> MovedLeft(t) == TapeState(t.cells, t.head - 1)
    ensures MovedLeft(t).cells[|MovedLeft(t).cells| - |t.cells|..] == t.cells
    ensures forall k :: MovedLeft(t).Rel(k) == t.Rel(k - 1)
  {
  }

  /**
   * move_right: the head index goes up by one; exactly when it passes the end one
   * Blank is appended, otherwise the cells are unchanged. The old cells stay a
   * prefix, and on the unbounded tape the head moves one cell right and no cell changes.
   */
  lemma MoveRightView(t: TapeState)
    requires t.Valid()
    ensures MovedRight(t).head == t.head + 1
    ensures MovedRight(t).cells == if t.head == |t.cells| - 1 then t.cells + [Blank] else t.cells
    ensures MovedRight(t).cells[..|t.cells|] == t.cells
    ensures forall k :: MovedRight(t).Rel(k) == t.Rel(k + 1)
  {
  }

  /**
   * write_symbol: s is read back under the head. At index 0 a Blank is prepended and
   * the head moves to index 1, on the written cell; at the last index a Blank is
   * appended and the head stays; elsewhere only the cell under the head changes and
   * the length stays. On the unbounded tape every other cell is as it was.
   */
  lemma WriteView(t: TapeState, s: Symbol)
    requires t.Valid()
    ensures Written(t, s).Read() == s
    ensures t.head == 0 ==> Written(t, s) == TapeState([Blank] + t.cells[0 := s], 1)
    ensures t.head == |t.cells| - 1 ==> Written(t, s) == TapeState(t.cells[t.head := s] + [Blank], t.head)
    ensures 0 < t.head < |t.cells| - 1 ==> Written(t, s) == TapeState(t.cells[t.head := s], t.head)
    ensures forall k :: k != 0 ==> Written(t, s).Rel(k) == t.Rel(k)
  {
  }

  /** The inner loop of fill_tape: while n > 0, move right and write a One. */
  function WriteOnes(t: TapeState, n: int): (r: TapeState)
    requires t.Valid()
    ensures r.Valid() && |t.cells| <= |r.cells|
    ensures r.cells[0] == t.cells[0]
    decreases n
  {
    if n <= 0 then t else WriteOnes(Written(MovedRight(t), One), n - 1)
  }

  /** One value of fill_tape: its run of Ones, then one more move right. */
  function FillValue(t: TapeState, v: int): (r: TapeState)
    requires t.Valid()
    ensures r.Valid() && |t.cells| <= |r.cells|
    ensures r.cells[0] == t.cells[0]
  {
    MovedRight(WriteOnes(t, v))
  }

  /** The values of fill_tape laid down in order, before the head is reset. */
  function FillAll(t: TapeState, values: seq<int>): (r: TapeState)
    requires t.Valid()
    ensures r.Valid() && |t.cells| <= |r.cells|
    ensures r.cells[0] == t.cells[0]
  {
    if values == [] then t
    else FillValue(FillAll(t, values[..|values| - 1]), values[|values| - 1])
  }

  /** Laying down one more value extends FillAll by FillValue. */
  lemma FillAllStep(t: TapeState, values: seq<int>, i: nat)
    requires t.Valid() && i < |values|
    ensures FillAll(t, values[..i + 1]) == FillValue(FillAll(t, values[..i]), values[i])
  {
    assert values[..i + 1][..i] == values[..i];
  }

  /** fill_tape: lay the values down, then put the head back on index 0. */
  function Filled(t: TapeState, values: seq<int>): (r: TapeState)
    requires t.Valid()
    ensures r.Valid() && r.head == 0
    ensures r.cells[0] == t.cells[0]
  {
    TapeState(FillAll(t, values).cells, 0)
  }

  /** How many Ones the source writes for a value: none unless it is positive. */
  function Clamp(v: int): nat
  {
    if v > 0 then v else 0
  }

  /** A run of k Ones. */
  function Ones(k: nat): (r: seq<Symbol>)
    ensures |r| == k
  {
    seq(k, _ => One)
  }

  /** The unary block for one value: its Ones, then the separating Blank. */
  function Unary(v: int): seq<Symbol>
  {
    Ones(Clamp(v)) + [Blank]
  }

  /** The blocks for all values, in order. */
  function Layout(values: seq<int>): seq<Symbol>
  {
    if values == [] then []
    else Layout(values[..|values| - 1]) + Unary(values[|values| - 1])
  }

  /** The sum of the values, as unary numbers (non-positive ones count as zero). */
  function Sum(values: seq<int>): nat
  {
    if values == [] then 0
    else Sum(values[..|values| - 1]) + Clamp(values[|values| - 1])
  }

  /** Cells c, then k >= 1 Ones and a Blank, with the head on the last One. */
  function RunEnd(c: seq<Symbol>, k: nat): (r: TapeState)
    requires |c| >= 1 && k >= 1
    ensures r.Valid()
  {
    TapeState(c + Ones(k) + [Blank], |c| + k - 1)
  }

  /** One round of the inner loop of fill_tape adds a One to the run under the head. */
  lemma WriteOneAtRunEnd(c: seq<Symbol>, n: nat)
    requires |c| >= 1 && n >= 1
    ensures Written(MovedRight(RunEnd(c, n)), One) == RunEnd(c, n + 1)
  {
    assert Ones(n) + [One] == Ones(n + 1);
  }

  /** m more rounds of the inner loop of fill_tape extend a run of n Ones to n + m. */
  lemma {:induction false} WriteOnesRun(c: seq<Symbol>, n: nat, m: nat)
    requires |c| >= 1 && n >= 1
    ensures WriteOnes(RunEnd(c, n), m) == RunEnd(c, n + m)
    decreases m
  {
    if m > 0 {
      WriteOneAtRunEnd(c, n);
      WriteOnesRun(c, n + 1, m - 1);
    }
  }

  /** From a tape whose head is on its last cell, one value appends its unary block. */
  lemma FillValueAtEnd(c: seq<Symbol>, v: int)
    requires |c| >= 2
    ensures FillValue(TapeState(c, |c| - 1), v) == TapeState(c + Unary(v), |c| + Clamp(v))
  {
    var t := TapeState(c, |c| - 1);
    if v > 0 {
      assert Written(MovedRight(t), One) == RunEnd(c, 1);
      WriteOnesRun(c, 1, v - 1);
      assert WriteOnes(t, v) == RunEnd(c, v);
    } else {
      assert Unary(v) == [Blank];
    }
  }

  /** On a new tape, the first value leaves a Blank, its block, and the head on its end. */
  lemma FillValueFresh(v: int)
    ensures FillValue(Fresh, v) == TapeState([Blank] + Unary(v), 1 + Clamp(v))
  {
    if v > 0 {
      assert Written(MovedRight(Fresh), One) == RunEnd([Blank], 1);
      WriteOnesRun([Blank], 1, v - 1);
      assert WriteOnes(Fresh, v) == RunEnd([Blank], v);
    } else {
      assert Unary(v) == [Blank];
    }
  }

  /** On a new tape, any non-empty list of values leaves a Blank and their layout, the head on the last cell. */
  lemma {:induction false} FillAllFresh(values: seq<int>)
    requires values != []
    ensures FillAll(Fresh, values) == TapeState([Blank] + Layout(values), |Layout(values)|)
  {
    var init, v := values[..|values| - 1], values[|values| - 1];
    assert Layout(values) == Layout(init) + Unary(v);
    assert FillAll(Fresh, values) == FillValue(FillAll(Fresh, init), v);
    if init == [] {
      FillValueFresh(v);
      assert Layout(values) == Unary(v);
    } else {
      FillAllFresh(init);
      var c := [Blank] + Layout(init);
      assert FillAll(Fresh, init) == TapeState(c, |c| - 1);
      FillValueAtEnd(c, v);
      assert c + Unary(v) == [Blank] + Layout(values);
    }
  }

  /**
   * fill_tape on a new tape: with no values the tape stays [B, B]; otherwise it holds
   * a Blank followed by the unary block of every value; the head is back on index 0.
   */
  lemma FillFresh(values: seq<int>)
    ensures Filled(Fresh, values)
         == TapeState(if values == [] then [Blank, Blank] else [Blank] + Layout(values), 0)
  {
    if values != [] {
      FillAllFresh(values);
    }
  }

  /** The layout of the values holds exactly as many Ones as their sum. */
  lemma {:induction false} LayoutOnes(values: seq<int>)
    ensures multiset(Layout(values))[One] == Sum(values)
  {
    if values != [] {
      var init, v := values[..|values| - 1], values[|values| - 1];
      LayoutOnes(init);
      assert multiset(Ones(Clamp(v)))[One] == Clamp(v) by {
        assert multiset(Ones(Clamp(v))) == multiset{} [One := Clamp(v)] by {
          RunMultiset(Clamp(v));
        }
      }
    }
  }

  /** A run of n Ones is, as a multiset, n copies of One. */
  lemma {:induction false} RunMultiset(n: nat)
    ensures multiset(Ones(n)) == multiset{} [One := n]
  {
    if n > 0 {
      RunMultiset(n - 1);
      assert Ones(n) == Ones(n - 1) + [One];
    }
  }

  /**
   * get_number after fill_tape on a new tape is the sum of the values: the output
   * convention reads back what the input convention wrote.
   */
  lemma FillFreshNumber(values: seq<int>)
    ensures Filled(Fresh, values).Number() == Sum(values)
  {
    FillFresh(values);
    var cells := Filled(Fresh, values).cells;
    OnesFromIsMultiplicity(cells, 1);
    if values != [] {
      LayoutOnes(values);
      assert cells[1..] == Layout(values);
    } else {
      assert cells[1..] == [Blank];
    }
  }

  /** The blocks for the values 2, 0 and 3. */
  lemma LayoutExample()
    ensures Layout([2, 0, 3]) == [One, One, Blank, Blank, One, One, One, Blank]
  {
    assert Ones(2) == [One, One];
    assert Ones(3) == [One, One, One];
    assert Ones(0) == [];
    assert [2, 0, 3][..2] == [2, 0] && [2, 0][..1] == [2] && [2][..0] == [];
    assert Layout([2]) == [One, One, Blank];
    assert Layout([2, 0]) == [One, One, Blank, Blank];
  }

  /** The worked example of fill_tape([2, 0, 3]). */
  lemma FillExample()
    ensures Filled(Fresh, [2, 0, 3]).cells
         == [Blank, One, One, Blank, Blank, One, One, One, Blank]
  {
    FillFresh([2, 0, 3]);
    LayoutExample();
  }

  /** get_number does not stop at the first Blank: on B,1,1,B,1,B from index 0 it counts 3. */
  lemma NumberExample()
    ensures TapeState([Blank, One, One, Blank, One, Blank], 0).Number() == 3
  {
  }
}
