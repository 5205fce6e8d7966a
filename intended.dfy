/** What the contact and background validators evidently mean to do, for
    comparison with the pages as written (module Pages). On the contact page
    every condition is meant to sit inside `is_valid && ( ... )`, and the
    second rule is meant to bound the first name; the background page's first
    rule is meant to test the age of arrival it has just read. */
module Intended {
  import opened Js
  import opened Gating
  import opened Pages

  function IntendedContactRules(lname: JsString, fname: JsString, phone: JsString, email: JsString, host: Host): seq<Rule> {
    [ Guarded(LengthOutside(lname, 1, 100), InvalidSurname, ViaAllowNext),
      Guarded(LengthOutside(fname, 1, 100), InvalidFirstName, ViaAllowNext),
      Guarded(LengthOutside(phone, 5, 100), InvalidPhone, ViaAllowNext),
      Guarded(!host.emailPattern(host.toLowerCase(email)), InvalidEmail, ViaAllowNext) ]
  }

  function IntendedContactPage(form: seq<JsString>, host: Host): (o: Outcome)
    ensures o.result.Throw? <==> ContactPage(form, host).result.Throw?
    ensures o.result.Throw? ==> o.gate == Start
    ensures o.result.Ok? ==> (o.gate.button.disabled <==> !o.gate.isValid)
  {
    if |form| <= 4 then MissingAnswer
    else Outcome(Validate(IntendedContactRules(form[1], form[2], form[3], form[4], host)), Ok(()))
  }

  /** With the parentheses in place the page shows the first failing rule's
      message, and lets the participant on exactly when all four pass. */
  lemma IntendedContactFirstFailure(form: seq<JsString>, host: Host)
    requires |form| > 4
    ensures IntendedContactPage(form, host).gate.button ==
      if LengthOutside(form[1], 1, 100) then AllowNext(false, InvalidSurname)
      else if LengthOutside(form[2], 1, 100) then AllowNext(false, InvalidFirstName)
      else if LengthOutside(form[3], 5, 100) then AllowNext(false, InvalidPhone)
      else if !host.emailPattern(host.toLowerCase(form[4])) then AllowNext(false, InvalidEmail)
      else AllowNext(true, DefaultPrompt)
  {
    var rules := IntendedContactRules(form[1], form[2], form[3], form[4], host);
    assert forall i :: 0 <= i < |rules| ==> !rules[i].regardless;
    var k: nat :=
      if rules[0].whenValid then 0
      else if rules[1].whenValid then 1
      else if rules[2].whenValid then 2
      else if rules[3].whenValid then 3
      else 4;
    if k < 4 {
      GuardedChainShowsFirstFailure(Start, rules, k);
    } else {
      assert forall i :: 0 <= i < |rules| ==> Passes(rules[i]);
    }
  }

  /** Where no answer is over-long the slips make no difference: the page as
      written and the intended one end the same way. */
  lemma ContactAsWrittenAgreesOnShortAnswers(form: seq<JsString>, host: Host)
    requires |form| > 4 && |form[1]| <= 100 && |form[2]| <= 100 && |form[3]| <= 100
    ensures ContactPage(form, host) == IntendedContactPage(form, host)
  {
    var rules := ContactRules(form[1], form[2], form[3], form[4], host);
    var intended := IntendedContactRules(form[1], form[2], form[3], form[4], host);
    Run4(Start, rules[0], rules[1], rules[2], rules[3]);
    Run4(Start, intended[0], intended[1], intended[2], intended[3]);
  }

  const InvalidArrivalAge := "Invalid age of arrival in Canada"
  const InvalidNativeLanguage := "Invalid native language"
  const InvalidParent1Language := "Invalid parent 1's native language"
  const InvalidParent2Language := "Invalid parent 2's native language"

  /** The arrival-age rule refuses a value that is not a number, is below 0,
      or is above 120. */
  predicate ArrivalAgeFails(n: Number) {
    IsNaN(n) || Below(n, 0.0) || Above(n, 120.0)
  }

  function IntendedBackgroundRules(ageArrival: JsString, native: JsString, parent1: JsString, parent2: JsString, host: Host): seq<Rule> {
    [ Guarded(ArrivalAgeFails(host.toNumber(ageArrival)), InvalidArrivalAge, TextOnly),
      Guarded(LengthOutside(native, 2, 50), InvalidNativeLanguage, TextOnly),
      Guarded(LengthOutside(parent1, 2, 50), InvalidParent1Language, TextOnly),
      Guarded(LengthOutside(parent2, 2, 50), InvalidParent2Language, TextOnly) ]
  }

  function IntendedBackgroundPage(form: seq<JsString>, host: Host): (o: Outcome)
    ensures o.result.Throw? <==> |form| <= 4
    ensures o.result.Throw? ==> o.gate == Start
    ensures o.result.Ok? ==> (o.gate.button.disabled <==> !o.gate.isValid)
  {
    if |form| <= 4 then MissingAnswer
    else Outcome(Validate(IntendedBackgroundRules(form[1], form[2], form[3], form[4], host)), Ok(()))
  }

  /** Testing the age of arrival, the background page completes normally,
      shows the first failing rule's message, and lets the participant on
      exactly when the age of arrival is a number in [0, 120] and the three
      languages have 2 to 50 code units each. */
  lemma IntendedBackgroundFirstFailure(form: seq<JsString>, host: Host)
    requires |form| > 4
    ensures IntendedBackgroundPage(form, host).result == Ok(())
    ensures IntendedBackgroundPage(form, host).gate.button ==
      if ArrivalAgeFails(host.toNumber(form[1])) then ButtonView(true, InvalidArrivalAge, DisabledColour)
      else if LengthOutside(form[2], 2, 50) then ButtonView(true, InvalidNativeLanguage, DisabledColour)
      else if LengthOutside(form[3], 2, 50) then ButtonView(true, InvalidParent1Language, DisabledColour)
      else if LengthOutside(form[4], 2, 50) then ButtonView(true, InvalidParent2Language, DisabledColour)
      else AllowNext(true, DefaultPrompt)
  {
    var rules := IntendedBackgroundRules(form[1], form[2], form[3], form[4], host);
    assert forall i :: 0 <= i < |rules| ==> !rules[i].regardless;
    var k: nat :=
      if rules[0].whenValid then 0
      else if rules[1].whenValid then 1
      else if rules[2].whenValid then 2
      else if rules[3].whenValid then 3
      else 4;
    if k < 4 {
      GuardedChainShowsFirstFailure(Start, rules, k);
    } else {
      assert forall i :: 0 <= i < |rules| ==> Passes(rules[i]);
    }
  }
}
