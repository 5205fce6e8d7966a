/** validators.js as the program it is: module variables that each validator
    resets and then updates statement by statement, and a next button whose
    properties are overwritten in place. Each validator's end state and
    completion are those its page function in module Pages describes. */
module Validators {
  import opened Js
  import opened Gating
  import opened Pages

  /** The survey's next button, the DOM element "jspsych-survey-text-next". */
  class NextButton {
    var disabled: bool
    var text: string
    var colour: string

    constructor(disabled: bool, text: string, colour: string)
      ensures View() == ButtonView(disabled, text, colour)
    {
      this.disabled := disabled;
      this.text := text;
      this.colour := colour;
    }

    function View(): ButtonView
      reads this
    {
      ButtonView(disabled, text, colour)
    }
  }

  /** The module variables `is_valid`, `next_button` and `form` (whose
      children's answers are `form`), as `set_globals` leaves them. */
  class Globals {
    var isValid: bool
    const next: NextButton
    var form: seq<JsString>

    /** Before any validator has run, `is_valid` is undefined, which is falsy. */
    constructor(form: seq<JsString>, next: NextButton)
      ensures this.form == form && this.next == next && !isValid
    {
      this.form := form;
      this.next := next;
      isValid := false;
    }

    function State(): GateState
      reads this, next
    {
      GateState(isValid, next.View())
    }

    /** `set_globals`: look the button and the form up again, and reset the
        validity flag. */
    method SetGlobals()
      modifies this`isValid
      ensures isValid
    {
      isValid := true;
    }

    /** `allow_next(enable, text_on_false)`: enable the button with
        "Continue", or disable it showing `textOnFalse`. */
    method AllowNext(enable: bool, textOnFalse: string := DefaultPrompt)
      modifies next
      ensures next.View() == Gating.AllowNext(enable, textOnFalse)
    {
      if enable {
        next.disabled := false;
        next.colour := EnabledColour;
        next.text := ContinueText;
      }
      if !enable {
        next.disabled := true;
        next.colour := DisabledColour;
        next.text := textOnFalse;
      }
    }

    /** `get_answer(question)`: the answer of child `question`; a child the
        form does not have is undefined, and reading from it throws. */
    method GetAnswer(question: nat) returns (r: Result<JsString>)
      ensures r.Ok? <==> question < |form|
      ensures r.Ok? ==> r.value == form[question]
      ensures r.Throw? ==> r.error == TypeError
    {
      if question < |form| {
        r := Ok(form[question]);
      } else {
        r := Throw(TypeError);
      }
    }

    method ValidateContactInfo(host: Host) returns (r: Result<()>)
      modifies this`isValid, next
      ensures Outcome(State(), r) == ContactPage(form, host)
    {
      SetGlobals();
      AllowNext(false);

      var lname :- GetAnswer(1);
      var fname :- GetAnswer(2);
      var phone :- GetAnswer(3);
      var email :- GetAnswer(4);

      ghost var rules := ContactRules(lname, fname, phone, email, host);
      Run4(Start, rules[0], rules[1], rules[2], rules[3]);

      if isValid && (|lname| == 0 || |lname| > 100) {
        AllowNext(false, InvalidSurname);
        isValid := false;
      }
      if (isValid && |fname| == 0) || |lname| > 100 {
        AllowNext(false, InvalidFirstName);
        isValid := false;
      }
      if (isValid && |phone| < 5) || |phone| > 100 {
        AllowNext(false, InvalidPhone);
        isValid := false;
      }
      if isValid && !host.emailPattern(host.toLowerCase(email)) {
        AllowNext(false, InvalidEmail);
        isValid := false;
      }
      if isValid {
        AllowNext(true);
      }
      r := Ok(());
    }

    method ValidatePersonalInfo(host: Host) returns (r: Result<()>)
      modifies this`isValid, next
      ensures Outcome(State(), r) == PersonalPage(form, host)
    {
      SetGlobals();
      AllowNext(false);

      var age :- GetAnswer(1);
      var gender :- GetAnswer(2);
      var country :- GetAnswer(3);
      var hearing :- GetAnswer(4);
      var language :- GetAnswer(5);
      var learning :- GetAnswer(6);

      ghost var rules := PersonalRules(age, gender, country, hearing, language, learning, host);
      Run6(Start, rules[0], rules[1], rules[2], rules[3], rules[4], rules[5]);

      if isValid && (IsNaN(host.toNumber(age)) || AtMost(host.toNumber(age), 0.0) || Above(host.toNumber(age), 120.0)) {
        next.text := InvalidAge;
        isValid := false;
      }
      if isValid && (|gender| == 0 || |gender| > 20) {
        next.text := InvalidGender;
        isValid := false;
      }
      if isValid && (|country| < 2 || |country| > 50) {
        next.text := InvalidBirthCountry;
        isValid := false;
      }
      if isValid && (|hearing| == 0 || |hearing| > 1000) {
        next.text := HearingPrompt;
        isValid := false;
      }
      if isValid && (|language| == 0 || |language| > 1000) {
        next.text := LanguageDisorderPrompt;
        isValid := false;
      }
      if isValid && (|learning| == 0 || |learning| > 1000) {
        next.text := LearningDisorderPrompt;
        isValid := false;
      }
      if isValid {
        AllowNext(true);
      }
      r := Ok(());
    }

    method ValidateBackgroundInfo(host: Host) returns (r: Result<()>)
      modifies this`isValid, next
      ensures Outcome(State(), r) == BackgroundPage(form, host)
    {
      SetGlobals();
      AllowNext(false);

      var ageArrival :- GetAnswer(1);
      var native :- GetAnswer(2);
      var parent1 :- GetAnswer(3);
      var parent2 :- GetAnswer(4);

      // The first rule's condition starts with `is_valid`, which is true here,
      // so its test of `age`, an identifier no script declares, is evaluated
      // and throws before any rule can write on the button.
      r := Throw(ReferenceError("age"));
    }

    method ValidateLanguageInfo() returns (r: Result<()>)
      modifies this`isValid, next
      ensures Outcome(State(), r) == LanguagePage(form)
    {
      SetGlobals();
      AllowNext(false);

      var dominant :- GetAnswer(1);

      Run1(Start, LanguageRules(dominant)[0]);

      if |dominant| < 2 || |dominant| > 50 {
        next.text := DominantLanguagePrompt;
        isValid := false;
      }
      if isValid {
        AllowNext(true);
      }
      r := Ok(());
    }

    method ValidateLanguageDetailedInfo() returns (r: Result<()>)
      modifies this`isValid, next
      ensures Outcome(State(), r) == LanguageDetailedPage(form)
    {
      SetGlobals();
      AllowNext(false);
      if isValid {
        AllowNext(true);
      }
      r := Ok(());
    }

    method ValidateMusicalInfo() returns (r: Result<()>)
      modifies this`isValid, next
      ensures Outcome(State(), r) == MusicalPage(form)
    {
      SetGlobals();
      AllowNext(false);

      var instruments :- GetAnswer(1);

      Run1(Start, MusicalRules(instruments)[0]);

      if isValid && (|instruments| == 0 || |instruments| > 1000) {
        next.text := MusicalPrompt;
        isValid := false;
      }
      if isValid {
        AllowNext(true);
      }
      r := Ok(());
    }
  }
}
