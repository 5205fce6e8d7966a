/** The next button and the chain of rules every validator runs.

    Each validator resets `is_valid` to true, disables the button with the
    default prompt, then runs a fixed sequence of `if` statements. Each such
    `if` is a `Rule`: it fires when `(is_valid && whenValid) || regardless`
    holds, and then it clears `is_valid` and writes its message on the button.
    At the end the button is enabled when `is_valid` survived. */
module Gating {

  const ContinueText := "Continue"
  const DefaultPrompt := "Please answer all the questions above"
  const EnabledColour := "#37904b"
  const DisabledColour := "#903738"

  /** What the participant sees of the next button. */
  datatype ButtonView = ButtonView(disabled: bool, text: string, colour: string)

  /** The button after `allow_next(enable, textOnFalse)`: `allow_next` sets all
      three properties on either branch, so the old button does not matter. */
  function AllowNext(enable: bool, textOnFalse: string): ButtonView {
    if enable then ButtonView(false, ContinueText, EnabledColour)
    else ButtonView(true, textOnFalse, DisabledColour)
  }

  /** How a firing rule writes its message: through `allow_next(false, m)`,
      or by assigning `innerText` alone. */
  datatype Report = ViaAllowNext | TextOnly

  /** One `if` of a validator. `whenValid` is the part of the condition joined
      to `is_valid` by `&&`; `regardless` is a part joined by `||` outside it
      (what operator precedence makes of `is_valid && a || b`). */
  datatype Rule = Rule(whenValid: bool, regardless: bool, message: string, report: Report)

  /** The usual form `if (is_valid && (fails)) { ... }`. */
  function Guarded(fails: bool, message: string, report: Report): Rule {
    Rule(fails, false, message, report)
  }

  predicate Fires(r: Rule, isValid: bool) {
    (isValid && r.whenValid) || r.regardless
  }

  /** The rule accepts the current answers. */
  predicate Passes(r: Rule) {
    !r.whenValid && !r.regardless
  }

  /** The module variable `is_valid` together with the button. */
  datatype GateState = GateState(isValid: bool, button: ButtonView)

  function Show(r: Rule, b: ButtonView): ButtonView {
    match r.report
    case ViaAllowNext => AllowNext(false, r.message)
    case TextOnly => b.(text := r.message)
  }

  /** One rule of the chain. `is_valid` survives exactly when it was true and
      the rule passes, so it is never set back to true; a disabled button
      stays disabled; and a rule that changes anything leaves `is_valid` false
      and its own message on the button. */
  function Step(g: GateState, r: Rule): (g': GateState)
    ensures g'.isValid <==> g.isValid && Passes(r)
    ensures g.button.disabled ==> g'.button.disabled
    ensures g' != g ==> !g'.isValid && g'.button.text == r.message
  {
    if Fires(r, g.isValid) then GateState(false, Show(r, g.button)) else g
  }

  /** The rules of a validator in source order. */
  function Run(g: GateState, rules: seq<Rule>): GateState
    decreases |rules|
  {
    if rules == [] then g else Run(Step(g, rules[0]), rules[1..])
  }

  /** The state after `set_globals(); allow_next(false);`. */
  const Start := GateState(true, AllowNext(false, DefaultPrompt))

  /** The closing `if(is_valid){ allow_next(true); }`. */
  function Finish(g: GateState): GateState {
    if g.isValid then g.(button := AllowNext(true, DefaultPrompt)) else g
  }

  /** A whole validator over its rules. The validity flag ends true exactly when
      every rule passes, and the button ends enabled exactly then, showing
      "Continue". */
  function Validate(rules: seq<Rule>): (g: GateState)
    ensures g.isValid <==> forall i :: 0 <= i < |rules| ==> Passes(rules[i])
    ensures g.button.disabled <==> !g.isValid
    ensures g.isValid ==> g.button == ButtonView(false, ContinueText, EnabledColour)
  {
    RunValidity(Start, rules);
    RunKeepsDisabled(Start, rules);
    Finish(Run(Start, rules))
  }

  lemma {:induction false} RunValidity(g: GateState, rules: seq<Rule>)
    ensures Run(g, rules).isValid <==> g.isValid && forall i :: 0 <= i < |rules| ==> Passes(rules[i])
    decreases |rules|
  {
    if rules != [] {
      RunValidity(Step(g, rules[0]), rules[1..]);
      assert forall i :: 1 <= i < |rules| ==> rules[i] == rules[1..][i - 1];
    }
  }

  lemma {:induction false} RunKeepsDisabled(g: GateState, rules: seq<Rule>)
    requires g.button.disabled
    ensures Run(g, rules).button.disabled
    decreases |rules|
  {
    if rules != [] {
      RunKeepsDisabled(Step(g, rules[0]), rules[1..]);
    }
  }

  /** Once `is_valid` is false, a chain of guarded rules changes nothing. */
  lemma {:induction false} GuardedChainIdlesWhenInvalid(g: GateState, rules: seq<Rule>)
    requires !g.isValid
    requires forall i :: 0 <= i < |rules| ==> !rules[i].regardless
    ensures Run(g, rules) == g
    decreases |rules|
  {
    if rules != [] {
      assert forall i :: 0 <= i < |rules| - 1 ==> rules[1..][i] == rules[i + 1];
      GuardedChainIdlesWhenInvalid(Step(g, rules[0]), rules[1..]);
    }
  }

  /** In a chain of guarded rules only the first failing rule writes on the
      button: the rules before it pass and leave the button alone, and the
      rules after it see `is_valid` false. */
  lemma {:induction false} GuardedChainShowsFirstFailure(g: GateState, rules: seq<Rule>, k: nat)
    requires g.isValid
    requires forall i :: 0 <= i < |rules| ==> !rules[i].regardless
    requires k < |rules| && rules[k].whenValid
    requires forall i :: 0 <= i < k ==> !rules[i].whenValid
    ensures Run(g, rules) == GateState(false, Show(rules[k], g.button))
    decreases |rules|
  {
    assert forall i :: 0 <= i < |rules| - 1 ==> rules[1..][i] == rules[i + 1];
    if k == 0 {
      GuardedChainIdlesWhenInvalid(Step(g, rules[0]), rules[1..]);
    } else {
      GuardedChainShowsFirstFailure(Step(g, rules[0]), rules[1..], k - 1);
    }
  }

  /** Running a chain is running its first rule, then the rest. */
  lemma RunCons(g: GateState, r: Rule, rules: seq<Rule>)
    ensures Run(g, [r] + rules) == Run(Step(g, r), rules)
  {
    assert ([r] + rules)[1..] == rules;
  }

  /** Unfolds a chain of four rules. */
  lemma Run4(g: GateState, a: Rule, b: Rule, c: Rule, d: Rule)
    ensures Run(g, [a, b, c, d]) == Step(Step(Step(Step(g, a), b), c), d)
  {
    assert [a, b, c, d] == [a] + ([b] + ([c] + ([d] + [])));
    RunCons(g, a, [b, c, d]);
    RunCons(Step(g, a), b, [c, d]);
    RunCons(Step(Step(g, a), b), c, [d]);
    RunCons(Step(Step(Step(g, a), b), c), d, []);
  }

  /** Unfolds a chain of six rules. */
  lemma Run6(g: GateState, a: Rule, b: Rule, c: Rule, d: Rule, e: Rule, f: Rule)
    ensures Run(g, [a, b, c, d, e, f]) == Step(Step(Step(Step(Step(Step(g, a), b), c), d), e), f)
  {
    assert [a, b, c, d, e, f] == [a] + ([b] + [c, d, e, f]);
    RunCons(g, a, [b, c, d, e, f]);
    RunCons(Step(g, a), b, [c, d, e, f]);
    Run4(Step(Step(g, a), b), c, d, e, f);
  }

  /** Unfolds a chain of one rule. */
  lemma Run1(g: GateState, a: Rule)
    ensures Run(g, [a]) == Step(g, a)
  {
    RunCons(g, a, []);
  }
}
