# A verified model of turing.py

turing.py is a small interpreter for Turing machines written as quadruples. The
model covers its three parts:

- **Tape.** A list of `B`/`1` cells that grows by one Blank whenever the head runs
  off either end. It is written in unary by `fill_tape`, and `get_number` reads
  it back by counting the Ones right of the head.
- **Quadruple.** A rule `(current_state, scanning_symbol, action, next_state)`.
- **TuringProgram.** The engine. It keeps a rule list, a control state (starting
  at 1), a cached *pending* rule (`next_quadruple`), and the `halt`, `step` and
  `output` fields. It advances by `execute_step` and `run_program`.

`Tape` and `TuringProgram` are Dafny classes that update their fields in place;
`Quadruple`, which is never changed, is the datatype `Rule`. Each class method
is proved to move the object's value (`State()` for a tape, `Model()` for a
program) exactly as a function on values does. The properties are then proved about those functions:

- the tape stays well formed, and it is an unbounded tape in disguise;
- fill_tape lays down unary blocks, and get_number reads back their sum;
- the lookup is first-match-wins;
- a step is the textbook transition, whenever the cached rule is current;
- budgets can be split, and halting is final;
- a unary successor program run end to end.

| file | module | contents |
|---|---|---|
| `tape_spec.dfy` | `TapeSpec` | `Symbol`, the tape as a value `TapeState`, one function per tape operation, fill and count lemmas |
| `tape.dfy` | `Tapes` | class `Tape` |
| `quadruple.dfy` | `Quadruples` | `Rule`, action tokens, the first-match lookup |
| `machine_spec.dfy` | `MachineSpec` | the program as a value `Machine`, `Step`, `Run`, the textbook transition `Next`, engine lemmas |
| `turing_program.dfy` | `Turing` | class `TuringProgram` |
| `successor.dfy` | `SuccessorExample`, `SuccessorClassRun` | a unary successor program run on the input 3, on values and through the class |

Representation choices:

- Tape cells are `Symbol = Blank | One`.
- A rule keeps the text of its scanned symbol and of its action token, as loaded.
- A rule applies when its state equals the program's state and its symbol text
  equals exactly `"B"` or `"1"` for the cell under the head. A rule written with
  any other symbol never applies (`Quadruples.OtherSymbolsNeverMatch`).
- The action token is lower-cased before it is compared, so `l`/`L`, `r`/`R` and
  `1` select the three actions and every other token writes a Blank.

Points where the code does something easy to misread; the model follows the code:

- Loading rules appends them to the list, then looks up the pending rule
  (turing.py:120-121). Loading does not replace the list.
- `run_program` returns `None` when its budget runs out before it sees the halt
  flag (turing.py:167-172). It does not return the output in that case.
- `fill_tape` accepts any integers. A value `<= 0` writes no Ones, because the
  inner loop runs only while `value > 0`.
- `get_number` counts every One right of the head to the end of the tape
  (turing.py:69-72). Its docstring says it stops at
  the next Blank, but the code does not stop there.

## Model

| member | source | states |
|---|---|---|
| Tapes.Tape.constructor | turing.py:9-11 | a new tape is `[B, B]` with the head on index 0, and it is valid |
| TapeSpec.MovedLeft | turing.py:19-27 | move_left keeps the tape valid (at least two cells, head on a cell) and grows it by at most one cell, never shrinking it |
| TapeSpec.MoveLeftView | turing.py:23-27 | at index 0 a Blank is prepended and the head stays at 0, otherwise only the head index goes down; the old cells stay a suffix; on the unbounded tape the head moves one cell left and no cell changes |
| Tapes.Tape.Read | turing.py:13-17 | read returns the symbol under the head, which is cell 0 of the unbounded tape seen from the head (`Rel(0)`), the view the move and write lemmas use |
| Tapes.Tape.MoveLeft | turing.py:19-27 | the tape object changes exactly as `MovedLeft` says, and the method returns the symbol now under the head |
| TapeSpec.MovedRight | turing.py:29-36 | move_right keeps the tape valid and grows it by at most one cell |
| TapeSpec.MoveRightView | turing.py:33-36 | the head index goes up by one and a Blank is appended exactly when it passed the end; the old cells stay a prefix; on the unbounded tape the head moves one cell right and no cell changes |
| Tapes.Tape.MoveRight | turing.py:29-36 | the tape object changes exactly as `MovedRight` says, and the method returns the symbol now under the head |
| TapeSpec.Written | turing.py:38-49 | after write_symbol the head is strictly inside the tape (`0 < head < len - 1`), the tape is valid and grew by at most one cell |
| TapeSpec.WriteView | turing.py:38-49 | the written symbol is under the head; at index 0 a Blank is prepended and the head moves to 1; at the last index a Blank is appended; otherwise only that cell changes and the length stays; on the unbounded tape no other cell changes |
| Tapes.Tape.WriteSymbol | turing.py:38-49 | the tape object changes exactly as `Written` says |
| TapeSpec.WriteOnes | turing.py:56-59 | the inner loop of fill_tape keeps the tape valid, never shrinks it and never changes cell 0 |
| Tapes.Tape.WriteRun | turing.py:56-59 | the inner while loop moves the tape exactly as `WriteOnes` says |
| TapeSpec.FillValue | turing.py:55-60 | one value of fill_tape keeps the tape valid, never shrinks it and never changes cell 0 |
| TapeSpec.FillAll | turing.py:55-60 | laying down all the values keeps the tape valid, never shrinks it and never changes cell 0 |
| TapeSpec.FillAllStep | turing.py:55-60 | each round of the outer loop extends the values laid so far by one |
| TapeSpec.Filled | turing.py:51-61 | after fill_tape the head is on index 0 and cell 0 is unchanged |
| Tapes.Tape.FillTape | turing.py:51-61 | the tape object ends exactly as `Filled` says |
| TapeSpec.WriteOneAtRunEnd | turing.py:56-59 | one round of the inner loop after a run of Ones adds one more One and keeps the head on it |
| TapeSpec.WriteOnesRun | turing.py:56-59 | m rounds of the inner loop turn a run of n Ones into a run of n + m Ones, the head on the last |
| TapeSpec.FillValueAtEnd | turing.py:55-60 | from the last cell, one value appends its unary block (its Ones, then a Blank) and leaves the head on the block's Blank |
| TapeSpec.FillValueFresh | turing.py:55-60 | on a new tape, the first value leaves a Blank, then its block, with the head on the block's Blank |
| TapeSpec.FillAllFresh | turing.py:55-60 | on a new tape, a non-empty list leaves a Blank followed by the blocks of all values in order |
| TapeSpec.FillFresh | turing.py:51-61 | fill_tape on a new tape: with no values the tape stays `[B, B]`, otherwise it is `B` followed by each value's Ones and a Blank; the head is on 0 |
| TapeSpec.FillExample | turing.py:51-61 | fill_tape([2, 0, 3]) on a new tape gives `B,1,1,B,B,1,1,1,B` |
| TapeSpec.OnesFromIsMultiplicity | turing.py:63-73 | the count that get_number's loop builds equals the number of One cells in the suffix it scans |
| Tapes.Tape.GetNumber | turing.py:63-73 | get_number changes nothing and returns the number of One cells strictly right of the head, up to the end of the tape |
| TapeSpec.NumberExample | turing.py:69-72 | on `B,1,1,B,1,B` with the head on 0 the count is 3, since it does not stop at the first Blank |
| TapeSpec.LayoutOnes | turing.py:51-61 | the unary blocks of the values hold as many Ones as the values sum to (non-positive values count 0) |
| TapeSpec.FillFreshNumber | turing.py:51-73 | get_number after fill_tape on a new tape is the sum of the values: the output convention reads back the input convention |
| Quadruples.ActionOfTokens | turing.py:147-155 | exactly the tokens `l`/`L` move left, `r`/`R` move right, `1` writes a One; every other token writes a Blank |
| Quadruples.ActionOf | turing.py:147-155 | the lower-cased token picks the action; a token that is not exactly one character long always writes a Blank |
| Quadruples.OtherSymbolsNeverMatch | turing.py:135 | a rule whose scanned symbol is neither `B` nor `1` never applies |
| Quadruples.FirstMatchIndex | turing.py:134-139 | the scan stops at the first applicable rule: none before it applies, it applies, or it is past the end when none does |
| Quadruples.FirstMatch | turing.py:129-139 | the lookup finds a rule exactly when one applies; that rule applies, is in the list, and is the one at the least applicable index |
| Quadruples.ShadowedRuleNeverChosen | turing.py:134-137 | of two rules for the same state and symbol, the scan never stops at the later one, and when they apply it stops at or before the earlier one: first match wins |
| Quadruples.Lookup | turing.py:133-139 | how get_next_quadruple sets the pending rule: over an empty list it is left as it was; otherwise a rule is found exactly when some rule applies, that rule applies and is in the list, and it is the one at the least applicable index |
| Turing.TuringProgram.constructor | turing.py:101-109 | a new program has no rules, a new tape, state 1, nothing pending or executed, not halted, step 0 and output 0 |
| MachineSpec.LoadRules | turing.py:120-121 | loading appends the rules and changes nothing but the rule list and the pending rule; with a non-empty list a rule is pending exactly when one applies to the current state and symbol; loading no rules into an empty program changes nothing |
| Turing.TuringProgram.LoadRules | turing.py:120-121 | loading appends the rules and then looks up the pending rule, and the old pending rule becomes the current one |
| MachineSpec.LoadValues | turing.py:123-127 | load_values changes only the tape; the tape stays valid, never shrinks, keeps cell 0 and ends with the head on index 0 |
| Turing.TuringProgram.LoadValues | turing.py:123-127 | load_values fills the tape and changes nothing else |
| Turing.TuringProgram.GetNextQuadruple | turing.py:129-139 | the old pending rule becomes the current one; the pending rule becomes the first match, or None, and is left unchanged over an empty list; nothing else changes |
| MachineSpec.Apply | turing.py:147-155 | applying an action keeps the tape valid and never shrinks it |
| Turing.TuringProgram.Perform | turing.py:147-155 | the action branch changes the tape exactly as the action of the lower-cased token says |
| MachineSpec.Step | turing.py:141-160 | execute_step adds exactly 1 to step and sets output to get_number of the new tape; it halts exactly when nothing was pending or it had halted; with nothing pending the tape, state and pending rule stay; otherwise the state becomes the rule's next state; rules never change |
| Turing.TuringProgram.ExecuteStep | turing.py:141-160 | the program changes exactly as `Step` says, and the executed rule becomes the current one |
| MachineSpec.StepIsStep | turing.py:141-160 | execute_step is defined on every valid program, keeps the tape valid and the rules, and counts one step |
| MachineSpec.RunWith | turing.py:162-172 | run_program(n) runs between 0 and n steps, none when n is 0; it returns a value exactly when it stopped early, and then the machine is halted and the value is its output; a halted machine is left unchanged |
| MachineSpec.Run | turing.py:162-172 | run_program(n) over execute_step keeps the tape valid and the rules; it returns a value exactly when it stopped before using the whole budget, and then the program is halted and the value is its output; when it returns nothing, exactly n steps were executed; a halted program is left unchanged |
| MachineSpec.RunUnfolds | turing.py:165-172 | one round of the loop: return the output when halted, otherwise step and continue with one less |
| Turing.TuringProgram.RunProgram | turing.py:162-172 | the program ends where `Run` ends and the method returns what `Run` returns; a returned value is the output of the halted program |
| MachineSpec.RunWithSplits | turing.py:162-172 | running a + b steps ends where running a steps and then b steps ends, for any step function |
| MachineSpec.RunSplits | turing.py:162-172 | budgets can be handed out in pieces: run_program(a) then run_program(b) ends where run_program(a + b) ends |
| MachineSpec.HaltIsFinal | turing.py:167-170 | once a run has halted the program, further runs change nothing |
| MachineSpec.RunWithKeeps | turing.py:162-172 | a property that every step from a running machine keeps holds after any run |
| MachineSpec.StepFollowsNext | turing.py:141-160 | when the cached rule is the first match, execute_step is the textbook transition (first matching rule decides action and next state); with no such rule it halts in place; the cache is current again afterwards |
| MachineSpec.RunKeepsSynced | turing.py:162-172 | running keeps the cached rule current |
| MachineSpec.LoadRulesSynced | turing.py:120-121 | appending rules and looking up again makes the cached rule current whenever the combined list is non-empty, even if it had gone stale; over an empty list a current cache stays current |
| MachineSpec.LoadValuesSynced | turing.py:123-127 | loading values while the head is on cell 0 keeps the cached rule current, since fill_tape never writes cell 0 and puts the head back there |
| MachineSpec.LoadOrderSynced | turing.py:191-193 | a new program, rules loaded, then values loaded: the cached rule is current and the tape is exactly fill_tape on a new tape |
| SuccessorExample.Loaded | turing.py:191-193 | the successor rules and the input 3 load to the tape `B,1,1,1,B`, head 0, state 1, the first rule pending |
| SuccessorExample.SuccessorRun | turing.py:191-194 | the successor program on input 3 halts after 10 steps, and run_program with a budget of 20 returns 4 |
| SuccessorClassRun.RunSuccessor | turing.py:191-194 | the same run through the TuringProgram class returns 4 |

## Left out

- Logging setup (turing.py:1-6): it has no effect on behaviour.
- Reading and parsing the rule file in `load_quadruples_from_file` (turing.py:111-119). This is file I/O plus string splitting and integer parsing. `Turing.TuringProgram.LoadRules` takes the parsed rules.
- The command-line program and its interactive loop (turing.py:181-200). These are console I/O. The examples only follow its order: new program, rules, values, run.
- The interactive loop passes the typed text to `run_program` without converting it (turing.py:198-199). `count != steps` then never fails, so each such call runs until the program halts. The prompted input path also reads one integer, not a list, as the values (turing.py:188). Both belong to the console front end, which is not modelled.
- String rendering: `__str__`/`__repr__` of Tape and Quadruple, and `__str__`/`__repl__` of TuringProgram (turing.py:75-85, 94-98, 175-179). It is display only.
- Turing.TuringProgram.RunProgram: budgets are natural numbers only. A negative budget (`-1` for "no limit") runs until the machine halts, which it may never do. `MachineSpec.Run` and `MachineSpec.RunWith` are bounded for the same reason.
- Quadruples.Lower: lower-casing covers the ASCII letters `A`-`Z` only, while Python's `str.lower` also lower-cases other Unicode letters. This does not change which action a token selects: the only characters whose lower case is `l`, `r` or `1` are `l`/`L`, `r`/`R` and `1`, and `str.lower` never shortens a string. So `Quadruples.ActionOf` agrees with the source for every token.
- Tape cells hold only `B` and `1`. The source could store another string in a cell only through a rule action, and every action writes `B` or `1`.
- Tapes.Tape.WriteRun: the inner `while` of `fill_tape` is a method of its own, called from the outer loop of `Tapes.Tape.FillTape`. The behaviour is the same.
- Turing.TuringProgram.Perform: the action branch of `execute_step` is a method of its own, called from `Turing.TuringProgram.ExecuteStep`. The behaviour is the same.
- Integer width: states, values and counters are unbounded integers, as Python's are.
