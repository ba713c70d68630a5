/**
 * A worked run: a unary successor program loaded the way the command-line program
 * loads it, on the input value 3.
 */
module SuccessorExample {
  import opened TapeSpec
  import opened Quadruples
  import opened MachineSpec

  /** Walk right over the block, turn the Blank after it into a One, walk back to the start. */
  const Successor := [Rule(1, "B", "R", 2), Rule(2, "1", "R", 2), Rule(2, "B", "1", 3), Rule(3, "1", "L", 3)]

  /** The rule the successor program picks for each state and scanned symbol it meets. */
  function Expected(state: int, sym: Symbol): Option<Rule>
  {
    if state == 1 && sym == Blank then Some(Successor[0])
    else if state == 2 && sym == One then Some(Successor[1])
    else if state == 2 && sym == Blank then Some(Successor[2])
    else if state == 3 && sym == One then Some(Successor[3])
    else None
  }

  /** get_next_quadruple's first match over the successor rules, for the states they use. */
  lemma SuccessorLookup(state: int, sym: Symbol)
    requires 1 <= state <= 3
    ensures FirstMatch(Successor, state, sym) == Expected(state, sym)
  {
    if Expected(state, sym).None? {
      assert forall i :: 0 <= i < |Successor| ==> !Matches(Successor[i], state, sym);
    } else {
      assert Matches(Expected(state, sym).value, state, sym);
    }
  }

  /** The input 3 on a fresh tape, and the same block grown by one. */
  const Three := [Blank, One, One, One, Blank]
  const Four := [Blank, One, One, One, One, Blank]

  /** A running successor program after some steps, its output read from its tape. */
  function At(cells: seq<Symbol>, head: nat, state: int, pending: Option<Rule>, step: nat): Machine
    requires 2 <= |cells| && head < |cells|
  {
    Machine(Successor, TapeState(cells, head), state, pending, false, step, OnesFrom(cells, head + 1))
  }

  /** The output of the halted program: the four Ones right of the start cell. */
  lemma FourCount()
    ensures OnesFrom(Four, 1) == 4
  {
  }

  /** fill_tape([3]) on a new tape. */
  lemma ThreeFilled()
    ensures Filled(Fresh, [3]) == TapeState(Three, 0)
  {
    FillFresh([3]);
    assert Ones(3) == [One, One, One];
    assert Layout([3]) == [One, One, One, Blank];
  }

  /** The program after its rules and then its input are loaded, as the command-line program does. */
  lemma Loaded()
    ensures LoadValues(LoadRules(Initial, Successor), [3])
         == Machine(Successor, TapeState(Three, 0), 1, Some(Successor[0]), false, 0, 0)
  {
    SuccessorLookup(1, Blank);
    ThreeFilled();
  }

  /** Step 1: move right from the start onto the block. */
  lemma Trace1()
    ensures Step(Machine(Successor, TapeState(Three, 0), 1, Some(Successor[0]), false, 0, 0))
         == At(Three, 1, 2, Some(Successor[1]), 1)
  {
    SuccessorLookup(2, One);
    ActionOfTokens("R");
  }

  /** Steps 2 to 4: walk right over the block. */
  lemma Trace2()
    ensures Step(At(Three, 1, 2, Some(Successor[1]), 1)) == At(Three, 2, 2, Some(Successor[1]), 2)
  {
    SuccessorLookup(2, One);
    ActionOfTokens("R");
  }

  lemma Trace3()
    ensures Step(At(Three, 2, 2, Some(Successor[1]), 2)) == At(Three, 3, 2, Some(Successor[1]), 3)
  {
    SuccessorLookup(2, One);
    ActionOfTokens("R");
  }

  lemma Trace4()
    ensures Step(At(Three, 3, 2, Some(Successor[1]), 3)) == At(Three, 4, 2, Some(Successor[2]), 4)
  {
    SuccessorLookup(2, Blank);
    ActionOfTokens("R");
  }

  /** Step 5: write a One on the Blank after the block; the tape grows at the right. */
  lemma Trace5()
    ensures Step(At(Three, 4, 2, Some(Successor[2]), 4)) == At(Four, 4, 3, Some(Successor[3]), 5)
  {
    SuccessorLookup(3, One);
    ActionOfTokens("1");
    assert Three[4 := One] + [Blank] == Four;
    assert Written(TapeState(Three, 4), One) == TapeState(Four, 4);
  }

  /** Steps 6 to 9: walk left back over the block; on the start cell no rule applies. */
  lemma Trace6()
    ensures Step(At(Four, 4, 3, Some(Successor[3]), 5)) == At(Four, 3, 3, Some(Successor[3]), 6)
  {
    SuccessorLookup(3, One);
    ActionOfTokens("L");
  }

  lemma Trace7()
    ensures Step(At(Four, 3, 3, Some(Successor[3]), 6)) == At(Four, 2, 3, Some(Successor[3]), 7)
  {
    SuccessorLookup(3, One);
    ActionOfTokens("L");
  }

  lemma Trace8()
    ensures Step(At(Four, 2, 3, Some(Successor[3]), 7)) == At(Four, 1, 3, Some(Successor[3]), 8)
  {
    SuccessorLookup(3, One);
    ActionOfTokens("L");
  }

  lemma Trace9()
    ensures Step(At(Four, 1, 3, Some(Successor[3]), 8)) == At(Four, 0, 3, None, 9)
  {
    SuccessorLookup(3, Blank);
    ActionOfTokens("L");
  }

  /** Step 10: nothing is pending, so the program halts with output 4. */
  lemma Trace10()
    ensures Step(At(Four, 0, 3, None, 9)) == Halted
  {
  }

  /** The program after its tenth step: halted on the start cell with output 4. */
  const Halted := At(Four, 0, 3, None, 10).(halted := true)

  /** The first half of the run: the walk right and the write. */
  lemma RunToWrite()
    ensures Run(Machine(Successor, TapeState(Three, 0), 1, Some(Successor[0]), false, 0, 0), 20)
         == Run(At(Four, 4, 3, Some(Successor[3]), 5), 15)
  {
    Trace1(); Trace2(); Trace3(); Trace4(); Trace5();
    RunUnfolds(Machine(Successor, TapeState(Three, 0), 1, Some(Successor[0]), false, 0, 0), 20);
    RunUnfolds(At(Three, 1, 2, Some(Successor[1]), 1), 19);
    RunUnfolds(At(Three, 2, 2, Some(Successor[1]), 2), 18);
    RunUnfolds(At(Three, 3, 2, Some(Successor[1]), 3), 17);
    RunUnfolds(At(Three, 4, 2, Some(Successor[2]), 4), 16);
  }

  /** The second half of the run: the walk back, the halt, and the early return. */
  lemma RunFromWrite()
    ensures Run(At(Four, 4, 3, Some(Successor[3]), 5), 15) == (Halted, Some(4))
  {
    Trace6(); Trace7(); Trace8(); Trace9(); Trace10();
    RunUnfolds(At(Four, 4, 3, Some(Successor[3]), 5), 15);
    RunUnfolds(At(Four, 3, 3, Some(Successor[3]), 6), 14);
    RunUnfolds(At(Four, 2, 3, Some(Successor[3]), 7), 13);
    RunUnfolds(At(Four, 1, 3, Some(Successor[3]), 8), 12);
    RunUnfolds(At(Four, 0, 3, None, 9), 11);
    RunUnfolds(Halted, 10);
    FourCount();
  }

  /**
   * The successor program, loaded as the command-line program loads it, with the
   * input 3: within a budget of 20 steps it halts after 10 steps and run_program
   * returns 4.
   */
  lemma SuccessorRun()
    ensures LoadValues(LoadRules(Initial, Successor), [3]).tape.Valid()
    ensures Run(LoadValues(LoadRules(Initial, Successor), [3]), 20) == (Halted, Some(4))
  {
    Loaded();
    RunToWrite();
    RunFromWrite();
  }
}

/** The successor example driven through the TuringProgram class. */
module SuccessorClassRun {
  import opened Quadruples
  import opened MachineSpec
  import opened Turing
  import opened SuccessorExample

  /**
   * The same run through the TuringProgram class, in the order of the command-line
   * program: a new program, the rules, the input values, then a bounded run.
   */
  method RunSuccessor() returns (r: Option<nat>)
    ensures r == Some(4)
  {
    var program := new TuringProgram();
    program.LoadRules(Successor);
    program.LoadValues([3]);
    SuccessorRun();
    r := program.RunProgram(20);
  }
}
