/**
 * The TuringProgram class of turing.py: a rule list, a tape object and the
 * control fields that execute_step and run_program update in place. Every
 * method is proved to take Model() where the matching function of MachineSpec
 * takes the machine value, so the lemmas proved there hold of the class.
 */
module Turing {
  import opened TapeSpec
  import opened Tapes
  import opened Quadruples
  import opened MachineSpec

  class TuringProgram {
    var rules: seq<Rule>
    const tape: Tape
    var state: int
    /** The rule executed by the last step (current_quadruple); it is kept but never read. */
    var current: Option<Rule>
    /** The rule the next step will execute (next_quadruple). */
    var pending: Option<Rule>
    var halted: bool
    var step: nat
    var output: nat

    predicate Valid()
      reads this, tape
    {
      tape.Valid()
    }

    /** The program as a value. */
    function Model(): Machine
      reads this, tape
    {
      Machine(rules, tape.State(), state, pending, halted, step, output)
    }

    /** A new program: no rules, a new tape, state 1, nothing pending or executed, not halted. */
    constructor ()
      ensures Valid() && Model() == Initial && current == None
      ensures fresh(tape)
    {
      rules := [];
      tape := new Tape();
      state := 1;
      current := None;
      pending := None;
      halted := false;
      step := 0;
      output := 0;
    }

    /**
     * The end of load_quadruples_from_file: append the parsed rules to the list,
     * then look up the rule for the current state and scanned symbol.
     */
    method LoadRules(more: seq<Rule>)
      requires Valid()
      modifies this
      ensures Valid() && Model() == MachineSpec.LoadRules(old(Model()), more)
      ensures current == old(pending)
    {
      rules := rules + more;
      GetNextQuadruple();
    }

    /** load_values: fill the tape with the values. */
    method LoadValues(values: seq<int>)
      requires Valid()
      modifies tape
      ensures Valid() && Model() == MachineSpec.LoadValues(old(Model()), values)
    {
      tape.FillTape(values);
    }

    /**
     * get_next_quadruple: remember the pending rule as the current one, then scan the
     * list for the first rule for this state and scanned symbol. Every rule that does
     * not apply clears the pending rule; over an empty list it is left as it was.
     */
    method GetNextQuadruple()
      requires Valid()
      modifies this
      ensures Valid()
      ensures Model() == old(Model()).(pending := Lookup(rules, state, tape.Read(), old(pending)))
      ensures current == old(pending)
    {
      current := pending;
      var i := 0;
      while i < |rules|
        invariant i <= |rules|
        invariant Model() == old(Model()).(pending := pending) && current == old(pending)
        invariant forall j :: 0 <= j < i ==> !Matches(rules[j], state, tape.Read())
        invariant pending == if i == 0 then old(pending) else None
      {
        if state == rules[i].currentState && Text(tape.Read()) == rules[i].scanning {
          pending := Some(rules[i]);
          break;
        } else {
          pending := None;
        }
        i := i + 1;
      }
    }

    /**
     * execute_step: count the step; if a rule is pending, carry out its action,
     * enter its next state and look up the next rule; otherwise halt. Either way
     * the output is recounted from the tape.
     */
    method ExecuteStep()
      requires Valid()
      modifies this, tape
      ensures Valid() && Model() == Step(old(Model()))
      ensures old(pending).Some? ==> current == old(pending)
      ensures old(pending).None? ==> current == old(current)
    {
      step := step + 1;
      if pending.Some? {
        Perform(pending.value.action);
        state := pending.value.nextState;
        GetNextQuadruple();
      } else {
        halted := true;
      }
      output := tape.GetNumber();
    }

    /**
     * The action branch of execute_step: the lower-cased token "l" moves left, "r"
     * moves right, "1" writes a One, anything else writes a Blank.
     */
    method Perform(token: string)
      requires Valid()
      modifies tape
      ensures Valid() && tape.State() == Apply(old(tape.State()), ActionOf(token))
    {
      var action := Lower(token);
      if action == "l" {
        var _ := tape.MoveLeft();
      } else if action == "r" {
        var _ := tape.MoveRight();
      } else if action == "1" {
        tape.WriteSymbol(One);
      } else {
        tape.WriteSymbol(Blank);
      }
    }

    /**
     * run_program for a budget of steps >= 0: each round first returns the output
     * if the program has halted, and otherwise executes a step; when the budget is
     * used up nothing is returned. The program ends where Run ends and returns what
     * Run returns: something exactly when it stopped early, and then the output of
     * the halted program.
     */
    method RunProgram(steps: nat) returns (r: Option<nat>)
      requires Valid()
      modifies this, tape
      ensures Valid() && (Model(), r) == Run(old(Model()), steps)
      ensures r.Some? ==> halted && r.value == output
    {
      ghost var target := Run(Model(), steps);
      var count := 0;
      while count != steps
        invariant count <= steps
        invariant Valid()
        invariant target == Run(Model(), steps - count)
      {
        ghost var before := Model();
        RunUnfolds(before, steps - count);
        count := count + 1;
        if halted {
          return Some(output);
        }
        ExecuteStep();
        assert Run(before, steps - count + 1) == Run(Model(), steps - count);
      }
      return None;
    }
  }
}
