/**
 * Quadruples (transition rules) and the first-match lookup that
 * get_next_quadruple performs over the rule list.
 */
module Quadruples {
  import opened TapeSpec

  datatype Option<T> = None | Some(value: T)

  /**
   * A quadruple as loaded: the state and the scanned symbol it applies to, the
   * action token and the state to go to. The symbol and the token keep the text
   * of the rule table; a symbol other than "B" or "1" is kept and never matches.
   */
  datatype Rule = Rule(currentState: int, scanning: string, action: string, nextState: int)

  /** What a step does to the tape. */
  datatype Action = MoveLeft | MoveRight | WriteOne | WriteBlank

  /** Lower-case of one character (letters A to Z; every other character is kept). */
  function LowerChar(c: char): char
  {
    if 'A' <= c <= 'Z' then (c as int - 'A' as int + 'a' as int) as char else c
  }

  /** The action token, lower-cased before it is compared. */
  function Lower(s: string): string
  {
    seq(|s|, i requires 0 <= i < |s| => LowerChar(s[i]))
  }

  /** The action a token stands for: "l", "r", "1" after lower-casing, anything else writes a Blank. */
  function ActionOf(token: string): (a: Action)
    ensures |token| != 1 ==> a == WriteBlank
  {
    var t := Lower(token);
    if t == "l" then MoveLeft
    else if t == "r" then MoveRight
    else if t == "1" then WriteOne
    else WriteBlank
  }

  /**
   * The tokens behind each action: exactly "l" and "L" move left, "r" and "R"
   * move right, "1" writes a One; every other token writes a Blank.
   */
  lemma ActionOfTokens(token: string)
    ensures ActionOf(token) == MoveLeft <==> token == "l" || token == "L"
    ensures ActionOf(token) == MoveRight <==> token == "r" || token == "R"
    ensures ActionOf(token) == WriteOne <==> token == "1"
  {
    var t := Lower(token);
    if |token| == 1 {
      assert t == [LowerChar(token[0])];
    } else {
      assert |t| != 1;
    }
  }

  /** Whether a rule applies in the given state to the given scanned symbol (exact text comparison). */
  predicate Matches(r: Rule, state: int, sym: Symbol)
  {
    r.currentState == state && r.scanning == Text(sym)
  }

  /** A rule whose scanned symbol is neither "B" nor "1" applies nowhere. */
  lemma OtherSymbolsNeverMatch(r: Rule, state: int, sym: Symbol)
    requires r.scanning != "B" && r.scanning != "1"
    ensures !Matches(r, state, sym)
  {
  }

  /** The index of the first rule, in list order, that applies; |rules| when none does. */
  function FirstMatchIndex(rules: seq<Rule>, state: int, sym: Symbol): (k: nat)
    ensures k <= |rules|
    ensures forall j :: 0 <= j < k ==> !Matches(rules[j], state, sym)
    ensures k < |rules| ==> Matches(rules[k], state, sym)
  {
    if rules == [] then 0
    else if Matches(rules[0], state, sym) then 0
    else 1 + FirstMatchIndex(rules[1..], state, sym)
  }

  /**
   * The first rule in list order that applies, or None. It is present exactly
   * when some rule applies, and it is the rule at the least such index.
   */
  function FirstMatch(rules: seq<Rule>, state: int, sym: Symbol): (r: Option<Rule>)
    ensures r.Some? <==> exists i :: 0 <= i < |rules| && Matches(rules[i], state, sym)
    ensures r.Some? ==> r.value in rules && Matches(r.value, state, sym)
    ensures forall i :: 0 <= i < |rules| && Matches(rules[i], state, sym)
                        && (forall j :: 0 <= j < i ==> !Matches(rules[j], state, sym))
                        ==> r == Some(rules[i])
  {
    var k := FirstMatchIndex(rules, state, sym);
    if k < |rules| then Some(rules[k]) else None
  }

  /**
   * The lookup of get_next_quadruple: over an empty rule list the pending rule is
   * left as it was; otherwise it becomes the first match, or None.
   */
  function Lookup(rules: seq<Rule>, state: int, sym: Symbol, pending: Option<Rule>): (r: Option<Rule>)
    ensures rules == [] ==> r == pending
    ensures rules != [] ==> (r.Some? <==> exists i :: 0 <= i < |rules| && Matches(rules[i], state, sym))
    ensures rules != [] && r.Some? ==> r.value in rules && Matches(r.value, state, sym)
    ensures forall i :: 0 <= i < |rules| && Matches(rules[i], state, sym)
                        && (forall j :: 0 <= j < i ==> !Matches(rules[j], state, sym))
                        ==> r == Some(rules[i])
  {
    if rules == [] then pending else FirstMatch(rules, state, sym)
  }

  /**
   * First match wins: of two rules for the same state and symbol, the later one is
   * never the one chosen, and whenever it applies the scan stops at or before the
   * earlier one.
   */
  lemma ShadowedRuleNeverChosen(rules: seq<Rule>, i: nat, j: nat, state: int, sym: Symbol)
    requires i < j < |rules|
    requires rules[i].currentState == rules[j].currentState && rules[i].scanning == rules[j].scanning
    ensures FirstMatchIndex(rules, state, sym) != j
    ensures Matches(rules[j], state, sym) ==> FirstMatchIndex(rules, state, sym) <= i
  {
    if Matches(rules[j], state, sym) {
      assert Matches(rules[i], state, sym);
    }
  }
}
