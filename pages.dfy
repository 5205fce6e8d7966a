/** The six validators of validators.js as rule chains over the answers of a
    form. `form[i]` is the value of `form.children[i].children[1]`, the answer
    that `get_answer(i)` reads; child 0 is never read.
    A validator that reads a child the form does not have throws a TypeError
    before any rule runs, leaving the button as `allow_next(false)` left it. */
module Pages {
  import opened Js
  import opened Gating

  /** The end state of a validator and how it completed. */
  datatype Outcome = Outcome(gate: GateState, result: Result<()>)

  /** A `get_answer` past the last child: `form.children[i]` is undefined. */
  const MissingAnswer := Outcome(Start, Throw(TypeError))

  /** The button a participant may click. */
  predicate Enabled(o: Outcome) {
    !o.gate.button.disabled
  }

  // validate_contact_info

  const InvalidSurname := "Invalid surname"
  const InvalidFirstName := "Invalid first name"
  const InvalidPhone := "Invalid phone number"
  const InvalidEmail := "Invalid email address"

  /** The four rules of the contact page, as written: the second and third
      conditions have `||` outside the `is_valid &&` (operator precedence), and
      the second tests the surname's length where the first name's is meant. */
  function ContactRules(lname: JsString, fname: JsString, phone: JsString, email: JsString, host: Host): seq<Rule> {
    [ Guarded(|lname| == 0 || |lname| > 100, InvalidSurname, ViaAllowNext),
      Rule(|fname| == 0, |lname| > 100, InvalidFirstName, ViaAllowNext),
      Rule(|phone| < 5, |phone| > 100, InvalidPhone, ViaAllowNext),
      Guarded(!host.emailPattern(host.toLowerCase(email)), InvalidEmail, ViaAllowNext) ]
  }

  /** The contact page reads children 1 to 4; a missing one throws. */
  function ContactPage(form: seq<JsString>, host: Host): (o: Outcome)
    ensures o.result.Throw? <==> |form| <= 4
    ensures o.result.Throw? ==> o.gate == Start
    ensures o.result.Ok? ==> (o.gate.button.disabled <==> !o.gate.isValid)
  {
    if |form| <= 4 then MissingAnswer
    else Outcome(Validate(ContactRules(form[1], form[2], form[3], form[4], host)), Ok(()))
  }

  /** The contact page lets the participant on exactly when the surname has 1
      to 100 code units, the first name is not empty, the phone number has 5
      to 100 and the lower-cased email matches the pattern; then the button
      reads "Continue". */
  lemma ContactEnabled(form: seq<JsString>, host: Host)
    ensures Enabled(ContactPage(form, host)) <==>
      && |form| > 4
      && 1 <= |form[1]| <= 100
      && |form[2]| >= 1
      && 5 <= |form[3]| <= 100
      && host.emailPattern(host.toLowerCase(form[4]))
    ensures Enabled(ContactPage(form, host)) ==> ContactPage(form, host).gate.button.text == ContinueText
  {
    if |form| > 4 {
      var rules := ContactRules(form[1], form[2], form[3], form[4], host);
      assert (forall i :: 0 <= i < |rules| ==> Passes(rules[i])) <==>
        Passes(rules[0]) && Passes(rules[1]) && Passes(rules[2]) && Passes(rules[3]);
    }
  }

  /** The message the contact page ends with is that of the LAST rule that
      fired, not the first: an over-long surname or phone number fires its
      rule even after an earlier rule has cleared `is_valid`. */
  lemma ContactMessage(form: seq<JsString>, host: Host)
    requires |form| > 4
    ensures ContactPage(form, host).gate.button.text ==
      var lname, fname, phone, email := form[1], form[2], form[3], form[4];
      var surnameBad := |lname| == 0 || |lname| > 100;
      if |phone| > 100 || (!surnameBad && |fname| != 0 && |phone| < 5) then InvalidPhone
      else if |lname| > 100 || (!surnameBad && |fname| == 0) then InvalidFirstName
      else if surnameBad then InvalidSurname
      else if !host.emailPattern(host.toLowerCase(email)) then InvalidEmail
      else ContinueText
  {
    var rules := ContactRules(form[1], form[2], form[3], form[4], host);
    Run4(Start, rules[0], rules[1], rules[2], rules[3]);
  }

  /** An empty surname shows "Invalid surname" with the button disabled, as long
      as the phone number is not over-long. */
  lemma ContactEmptySurname(form: seq<JsString>, host: Host)
    requires |form| > 4 && form[1] == [] && |form[3]| <= 100
    ensures ContactPage(form, host).gate.button == AllowNext(false, InvalidSurname)
  {
    var rules := ContactRules(form[1], form[2], form[3], form[4], host);
    Run4(Start, rules[0], rules[1], rules[2], rules[3]);
  }

  /** A surname of more than 100 code units shows "Invalid first name" (not
      "Invalid surname") unless the phone number is over-long too. */
  lemma ContactLongSurnameShowsFirstName(form: seq<JsString>, host: Host)
    requires |form| > 4 && |form[1]| > 100 && |form[3]| <= 100
    ensures ContactPage(form, host).gate.button == AllowNext(false, InvalidFirstName)
  {
    var rules := ContactRules(form[1], form[2], form[3], form[4], host);
    Run4(Start, rules[0], rules[1], rules[2], rules[3]);
  }

  /** A phone number of more than 100 code units shows "Invalid phone number"
      whatever the earlier answers are, an empty surname included. */
  lemma ContactLongPhoneHidesEarlierFailures(form: seq<JsString>, host: Host)
    requires |form| > 4 && |form[3]| > 100
    ensures ContactPage(form, host).gate.button == AllowNext(false, InvalidPhone)
  {
    var rules := ContactRules(form[1], form[2], form[3], form[4], host);
    Run4(Start, rules[0], rules[1], rules[2], rules[3]);
  }

  /** The first name has no upper bound: a 101-unit first name with otherwise
      valid answers lets the participant on. */
  lemma ContactLongFirstNameAccepted(form: seq<JsString>, host: Host)
    requires |form| > 4 && 1 <= |form[1]| <= 100 && |form[2]| == 101 && 5 <= |form[3]| <= 100
    requires host.emailPattern(host.toLowerCase(form[4]))
    ensures Enabled(ContactPage(form, host))
  {
    ContactEnabled(form, host);
  }

  // validate_personal_info

  const InvalidAge := "Invalid age"
  const InvalidGender := "Invalid gender"
  const InvalidBirthCountry := "Invalid birth country"
  const HearingPrompt := "Please enter any hearing problems you have or n/a"
  const LanguageDisorderPrompt := "Please enter any language disorders you have or n/a"
  const LearningDisorderPrompt := "Please enter any learning disorders you have or n/a"

  /** The age rule refuses a value that is not a number, is at most 0, or is
      above 120. */
  predicate AgeFails(n: Number) {
    IsNaN(n) || AtMost(n, 0.0) || Above(n, 120.0)
  }

  predicate LengthOutside(s: JsString, lo: nat, hi: nat) {
    |s| < lo || |s| > hi
  }

  function PersonalRules(age: JsString, gender: JsString, country: JsString,
                         hearing: JsString, language: JsString, learning: JsString, host: Host): seq<Rule> {
    [ Guarded(AgeFails(host.toNumber(age)), InvalidAge, TextOnly),
      Guarded(LengthOutside(gender, 1, 20), InvalidGender, TextOnly),
      Guarded(LengthOutside(country, 2, 50), InvalidBirthCountry, TextOnly),
      Guarded(LengthOutside(hearing, 1, 1000), HearingPrompt, TextOnly),
      Guarded(LengthOutside(language, 1, 1000), LanguageDisorderPrompt, TextOnly),
      Guarded(LengthOutside(learning, 1, 1000), LearningDisorderPrompt, TextOnly) ]
  }

  /** The personal page reads children 1 to 6; a missing one throws. */
  function PersonalPage(form: seq<JsString>, host: Host): (o: Outcome)
    ensures o.result.Throw? <==> |form| <= 6
    ensures o.result.Throw? ==> o.gate == Start
    ensures o.result.Ok? ==> (o.gate.button.disabled <==> !o.gate.isValid)
  {
    if |form| <= 6 then MissingAnswer
    else Outcome(Validate(PersonalRules(form[1], form[2], form[3], form[4], form[5], form[6], host)), Ok(()))
  }

  /** Answers 2 to 6 of the personal page are within their length ranges. */
  predicate PersonalLengthsValid(form: seq<JsString>)
    requires |form| > 6
  {
    && 1 <= |form[2]| <= 20
    && 2 <= |form[3]| <= 50
    && 1 <= |form[4]| <= 1000
    && 1 <= |form[5]| <= 1000
    && 1 <= |form[6]| <= 1000
  }

  /** The personal page lets the participant on exactly when the age is a
      number in (0, 120] and every other answer is within its range. */
  lemma PersonalEnabled(form: seq<JsString>, host: Host)
    ensures Enabled(PersonalPage(form, host)) <==>
      |form| > 6 && !AgeFails(host.toNumber(form[1])) && PersonalLengthsValid(form)
  {
    if |form| > 6 {
      var rules := PersonalRules(form[1], form[2], form[3], form[4], form[5], form[6], host);
      assert (forall i :: 0 <= i < |rules| ==> Passes(rules[i])) <==>
        Passes(rules[0]) && Passes(rules[1]) && Passes(rules[2]) && Passes(rules[3]) && Passes(rules[4]) && Passes(rules[5]);
    }
  }

  /** Every rule of the personal page is guarded by `is_valid`, so the message
      shown is the first failing rule's. */
  lemma PersonalMessage(form: seq<JsString>, host: Host)
    requires |form| > 6
    ensures PersonalPage(form, host).gate.button.text ==
      if AgeFails(host.toNumber(form[1])) then InvalidAge
      else if LengthOutside(form[2], 1, 20) then InvalidGender
      else if LengthOutside(form[3], 2, 50) then InvalidBirthCountry
      else if LengthOutside(form[4], 1, 1000) then HearingPrompt
      else if LengthOutside(form[5], 1, 1000) then LanguageDisorderPrompt
      else if LengthOutside(form[6], 1, 1000) then LearningDisorderPrompt
      else ContinueText
  {
    var rules := PersonalRules(form[1], form[2], form[3], form[4], form[5], form[6], host);
    Run6(Start, rules[0], rules[1], rules[2], rules[3], rules[4], rules[5]);
  }

  /** The age bounds: 0, 121 and a non-number are refused with "Invalid age";
      1 and 120 pass, and then the other answers decide. */
  lemma PersonalAgeBoundaries(form: seq<JsString>, host: Host)
    requires |form| > 6
    ensures host.toNumber(form[1]) in {NaN, Finite(0.0), Finite(121.0)} ==>
      PersonalPage(form, host).gate.button == ButtonView(true, InvalidAge, DisabledColour)
    ensures host.toNumber(form[1]) in {Finite(1.0), Finite(120.0)} ==>
      (Enabled(PersonalPage(form, host)) <==> PersonalLengthsValid(form))
  {
    var rules := PersonalRules(form[1], form[2], form[3], form[4], form[5], form[6], host);
    Run6(Start, rules[0], rules[1], rules[2], rules[3], rules[4], rules[5]);
    PersonalEnabled(form, host);
  }

  // validate_background_info

  /** The background page reads its four answers and then evaluates the
      undeclared identifier `age` in its first rule (is_valid is true there),
      which throws; no rule ever writes on the button. */
  function BackgroundPage(form: seq<JsString>, host: Host): (o: Outcome)
    ensures o.result.Throw? && o.gate.isValid
    ensures o.gate.button == ButtonView(true, DefaultPrompt, DisabledColour)
  {
    if |form| <= 4 then MissingAnswer
    else Outcome(Start, Throw(ReferenceError("age")))
  }

  /** The background page never lets the participant on: the button keeps the
      default prompt and the validator always ends in an exception. */
  lemma BackgroundNeverEnables(form: seq<JsString>, host: Host)
    ensures BackgroundPage(form, host).gate.button == ButtonView(true, DefaultPrompt, DisabledColour)
    ensures BackgroundPage(form, host).result.Throw?
    ensures |form| > 4 ==> BackgroundPage(form, host).result == Throw(ReferenceError("age"))
  {
  }

  // validate_language_info

  const DominantLanguagePrompt := "Please enter at least your most dominant language"

  /** The one rule of the dominant-language page; it is not joined to
      `is_valid`, which is true there anyway. */
  function LanguageRules(dominant: JsString): seq<Rule> {
    [Rule(false, LengthOutside(dominant, 2, 50), DominantLanguagePrompt, TextOnly)]
  }

  /** The dominant-language page reads child 1 only; a missing one throws. */
  function LanguagePage(form: seq<JsString>): (o: Outcome)
    ensures o.result.Throw? <==> |form| <= 1
    ensures o.result.Throw? ==> o.gate == Start
    ensures o.result.Ok? ==> (o.gate.button.disabled <==> !o.gate.isValid)
  {
    if |form| <= 1 then MissingAnswer
    else Outcome(Validate(LanguageRules(form[1])), Ok(()))
  }

  /** Only the most dominant language is required: the page lets the
      participant on exactly when answer 1 has 2 to 50 code units, and shows
      the dominant-language prompt otherwise. */
  lemma LanguageEnabled(form: seq<JsString>)
    ensures Enabled(LanguagePage(form)) <==> |form| > 1 && 2 <= |form[1]| <= 50
    ensures |form| > 1 && LengthOutside(form[1], 2, 50) ==>
      LanguagePage(form).gate.button == ButtonView(true, DominantLanguagePrompt, DisabledColour)
  {
    if |form| > 1 {
      Run1(Start, LanguageRules(form[1])[0]);
    }
  }

  /** The other answers of the dominant-language page play no part. */
  lemma LanguageIgnoresOtherAnswers(form: seq<JsString>, form': seq<JsString>)
    requires |form| > 1 && |form'| > 1 && form[1] == form'[1]
    ensures LanguagePage(form) == LanguagePage(form')
  {
  }

  // validate_language_detailed_info

  /** The detailed-language page has no rules. */
  function LanguageDetailedPage(form: seq<JsString>): (o: Outcome)
    ensures o.result == Ok(()) && o.gate.isValid
  {
    Outcome(Validate([]), Ok(()))
  }

  /** The detailed-language page always lets the participant on. */
  lemma LanguageDetailedAlwaysEnabled(form: seq<JsString>)
    ensures LanguageDetailedPage(form) == Outcome(GateState(true, AllowNext(true, DefaultPrompt)), Ok(()))
  {
  }

  // validate_musical_info

  const MusicalPrompt := "Please enter your musical experience or n/a"

  function MusicalRules(instruments: JsString): seq<Rule> {
    [Guarded(LengthOutside(instruments, 1, 1000), MusicalPrompt, TextOnly)]
  }

  /** The musical page reads child 1 only; a missing one throws. */
  function MusicalPage(form: seq<JsString>): (o: Outcome)
    ensures o.result.Throw? <==> |form| <= 1
    ensures o.result.Throw? ==> o.gate == Start
    ensures o.result.Ok? ==> (o.gate.button.disabled <==> !o.gate.isValid)
  {
    if |form| <= 1 then MissingAnswer
    else Outcome(Validate(MusicalRules(form[1])), Ok(()))
  }

  /** The musical page lets the participant on exactly when answer 1 has 1 to
      1000 code units, and shows the musical-experience prompt otherwise. */
  lemma MusicalEnabled(form: seq<JsString>)
    ensures Enabled(MusicalPage(form)) <==> |form| > 1 && 1 <= |form[1]| <= 1000
    ensures |form| > 1 && LengthOutside(form[1], 1, 1000) ==>
      MusicalPage(form).gate.button == ButtonView(true, MusicalPrompt, DisabledColour)
  {
    if |form| > 1 {
      Run1(Start, MusicalRules(form[1])[0]);
    }
  }
}
