// The project set-up command of
// modules/utils/management/commands/swd_setup_project.py: it walks the
// configuration sections in order, asks for each value (skipping those whose
// `show_if` answer in the same section differs), and keeps the answers in a
// nested map by config file and key. The answers are not written anywhere:
// the call that would write them is commented out. What the user types is a
// sequence of lines; running out of lines is where `input()` raises.
module SetupWizard {
  import opened Wrappers

  /** One entry of `config_values`; absent dictionary keys are `None`. */
  datatype ConfigValue = ConfigValue(
    key: string,
    prompt: string,
    default: Option<string>,
    allowedValues: seq<string>,
    showIf: Option<string>,
    showIfValue: Option<string>)

  /** One entry of `ASK_CONFIG_FOR`. */
  datatype Section = Section(name: string, configFile: string, configValues: seq<ConfigValue>)

  /** Python truthiness of an optional string: present and not empty. */
  predicate Truthy(s: Option<string>)
  {
    s.Some? && s.value != ""
  }

  /** `self.tmp_answers`: config file, then key, to the answer. */
  type Answers = map<string, map<string, string>>

  /** `get_tmp_answer`. */
  function GetAnswer(answers: Answers, section: string, key: string): (r: Option<string>)
    ensures r.Some? <==> section in answers && key in answers[section]
    ensures r.Some? ==> r.value == answers[section][key]
  {
    if section in answers && key in answers[section] then Some(answers[section][key]) else None
  }

  /** `set_tmp_answer`: a new section starts with just this key. */
  function SetAnswer(answers: Answers, section: string, key: string, value: string): (r: Answers)
    ensures r.Keys == answers.Keys + {section}
  {
    if section !in answers then answers[section := map[key := value]]
    else answers[section := answers[section][key := value]]
  }

  /** After `set_tmp_answer(s, k, v)`, `get_tmp_answer(s, k)` is `v` and every other pair reads as before. */
  lemma GetAfterSet(answers: Answers, section: string, key: string, value: string)
    ensures GetAnswer(SetAnswer(answers, section, key, value), section, key) == Some(value)
    ensures forall s, k :: (s, k) != (section, key) ==>
      GetAnswer(SetAnswer(answers, section, key, value), s, k) == GetAnswer(answers, s, k)
  {
    var r := SetAnswer(answers, section, key, value);
    forall s, k | (s, k) != (section, key)
      ensures GetAnswer(r, s, k) == GetAnswer(answers, s, k)
    {
      if s == section {
        assert k != key;
      }
    }
  }

  /** Why a question found no answer: the input ran out (`input()` raises `EOFError`). */
  datatype InputEnded = InputEnded

  /** An input accepted for a question with these allowed values. */
  predicate Acceptable(value: string, allowedValues: seq<string>)
  {
    |allowedValues| == 0 || value in allowedValues
  }

  /**
   * `ask_for_input` on the lines still to be read: an empty line takes a
   * (truthy) default; a line outside non-empty allowed values asks again;
   * anything else is the answer. The result carries the lines left over.
   */
  function Ask(inputs: seq<string>, default: Option<string>, allowedValues: seq<string>): (r: Result<(string, seq<string>), InputEnded>)
    ensures r.Ok? ==> |r.value.1| < |inputs| && r.value.1 == inputs[|inputs| - |r.value.1|..]
    ensures r.Ok? ==> (Truthy(default) && r.value.0 == default.value) || Acceptable(r.value.0, allowedValues)
  {
    if |inputs| == 0 then Err(InputEnded)
    else if inputs[0] == "" && Truthy(default) then Ok((default.value, inputs[1..]))
    else if !Acceptable(inputs[0], allowedValues) then
      var r := Ask(inputs[1..], default, allowedValues);
      if r.Ok? then assert inputs[1..][|inputs| - 1 - |r.value.1|..] == inputs[|inputs| - |r.value.1|..]; r else r
    else Ok((inputs[0], inputs[1..]))
  }

  /** Pressing Enter on a question with a default gives the default. */
  lemma AskEmptyTakesDefault(inputs: seq<string>, default: Option<string>, allowedValues: seq<string>)
    requires |inputs| > 0 && inputs[0] == "" && Truthy(default)
    ensures Ask(inputs, default, allowedValues) == Ok((default.value, inputs[1..]))
  {
  }

  /** An answer outside the allowed values is dropped and the question asked again. */
  lemma AskInvalidAsksAgain(inputs: seq<string>, default: Option<string>, allowedValues: seq<string>)
    requires |inputs| > 0 && !(inputs[0] == "" && Truthy(default)) && !Acceptable(inputs[0], allowedValues)
    ensures Ask(inputs, default, allowedValues) == Ask(inputs[1..], default, allowedValues)
  {
  }

  /** Lines are read only until the first acceptable one: the answer is the first line that is acceptable or empty with a default. */
  lemma {:induction false} AskTakesFirstAcceptable(inputs: seq<string>, default: Option<string>, allowedValues: seq<string>)
    ensures match Ask(inputs, default, allowedValues)
      case Ok((v, rest)) =>
        var n := |inputs| - |rest| - 1;
        (forall j :: 0 <= j < n ==> !(inputs[j] == "" && Truthy(default)) && !Acceptable(inputs[j], allowedValues)) &&
        (if inputs[n] == "" && Truthy(default) then v == default.value else v == inputs[n] && Acceptable(v, allowedValues))
      case Err(_) =>
        forall j :: 0 <= j < |inputs| ==> !(inputs[j] == "" && Truthy(default)) && !Acceptable(inputs[j], allowedValues)
  {
    if |inputs| > 0 && !(inputs[0] == "" && Truthy(default)) && !Acceptable(inputs[0], allowedValues) {
      AskTakesFirstAcceptable(inputs[1..], default, allowedValues);
      match Ask(inputs[1..], default, allowedValues)
      case Ok((v, rest)) =>
        var n := |inputs| - |rest| - 1;
        assert forall j :: 1 <= j <= n ==> inputs[j] == inputs[1..][j - 1];
      case Err(_) =>
        assert forall j :: 1 <= j < |inputs| ==> inputs[j] == inputs[1..][j - 1];
    }
  }

  /** Where the run stands: finished with answers and unread lines, or stopped by the end of the input with the answers so far. */
  datatype Outcome = Finished(answers: Answers, rest: seq<string>) | Stopped(answers: Answers)

  /** Whether the `show_if` gate lets a value be asked: no gate, or the recorded answer equals `show_if_value`. */
  predicate Shown(answers: Answers, configFile: string, config: ConfigValue)
  {
    !Truthy(config.showIf) || config.showIfValue == GetAnswer(answers, configFile, config.showIf.value)
  }

  /** One pass of the inner loop of `handle`. */
  function Step(configFile: string, config: ConfigValue, answers: Answers, inputs: seq<string>): (r: Outcome)
    ensures !Shown(answers, configFile, config) ==> r == Finished(answers, inputs)
    ensures Shown(answers, configFile, config) && r.Finished? ==>
      Ask(inputs, config.default, config.allowedValues).Ok? &&
      r.answers == SetAnswer(answers, configFile, config.key, Ask(inputs, config.default, config.allowedValues).value.0)
    ensures r.Stopped? <==> Shown(answers, configFile, config) && Ask(inputs, config.default, config.allowedValues).Err?
    ensures r.Stopped? ==> r.answers == answers
  {
    if !Shown(answers, configFile, config) then Finished(answers, inputs)
    else
      match Ask(inputs, config.default, config.allowedValues)
      case Err(_) => Stopped(answers)
      case Ok((value, rest)) => Finished(SetAnswer(answers, configFile, config.key, value), rest)
  }

  /** The inner loop of `handle` over one section's values, from the front. */
  function RunSection(configFile: string, configs: seq<ConfigValue>, answers: Answers, inputs: seq<string>): Outcome
    decreases |configs|
  {
    if |configs| == 0 then Finished(answers, inputs)
    else
      match Step(configFile, configs[0], answers, inputs)
      case Stopped(a) => Stopped(a)
      case Finished(a, rest) => RunSection(configFile, configs[1..], a, rest)
  }

  /** The outer loop of `handle` over the sections, from the front. */
  function RunSections(sections: seq<Section>, answers: Answers, inputs: seq<string>): Outcome
    decreases |sections|
  {
    if |sections| == 0 then Finished(answers, inputs)
    else
      match RunSection(sections[0].configFile, sections[0].configValues, answers, inputs)
      case Stopped(a) => Stopped(a)
      case Finished(a, rest) => RunSections(sections[1..], a, rest)
  }

  /** A section only ever records answers under its own config file. */
  lemma {:induction false} RunSectionTouchesOwnFile(configFile: string, configs: seq<ConfigValue>, answers: Answers, inputs: seq<string>)
    ensures forall f :: f != configFile ==>
      (f in RunSection(configFile, configs, answers, inputs).answers <==> f in answers)
    ensures forall f :: f != configFile && f in answers ==> RunSection(configFile, configs, answers, inputs).answers[f] == answers[f]
    decreases |configs|
  {
    if |configs| > 0 {
      match Step(configFile, configs[0], answers, inputs)
      case Stopped(a) =>
      case Finished(a, rest) =>
        RunSectionTouchesOwnFile(configFile, configs[1..], a, rest);
    }
  }

  /** Every key a section records is the key of one of its values. */
  lemma {:induction false} RunSectionRecordsOwnKeys(configFile: string, configs: seq<ConfigValue>, answers: Answers, inputs: seq<string>, k: string)
    requires forall c :: c in configs ==> c.key != k
    ensures GetAnswer(RunSection(configFile, configs, answers, inputs).answers, configFile, k) == GetAnswer(answers, configFile, k)
    decreases |configs|
  {
    if |configs| > 0 {
      assert configs[0] in configs;
      match Step(configFile, configs[0], answers, inputs)
      case Stopped(a) =>
      case Finished(a, rest) =>
        if Shown(answers, configFile, configs[0]) {
          GetAfterSet(answers, configFile, configs[0].key, Ask(inputs, configs[0].default, configs[0].allowedValues).value.0);
        }
        assert forall c :: c in configs[1..] ==> c in configs;
        RunSectionRecordsOwnKeys(configFile, configs[1..], a, rest, k);
    }
  }

  /** `handle`'s state: the answers given so far. */
  class Command {
    /** `self.tmp_answers`. */
    var tmpAnswers: Answers

    constructor ()
      ensures tmpAnswers == map[]
    {
      tmpAnswers := map[];
    }

    /** `get_tmp_answer`: `GetAnswer` on the answers recorded so far. */
    function GetTmpAnswer(section: string, key: string): Option<string>
      reads this
    {
      GetAnswer(tmpAnswers, section, key)
    }

    /** `set_tmp_answer`. */
    method SetTmpAnswer(section: string, key: string, value: string)
      modifies this
      ensures tmpAnswers == SetAnswer(old(tmpAnswers), section, key, value)
      ensures GetTmpAnswer(section, key) == Some(value)
    {
      if section !in tmpAnswers {
        tmpAnswers := tmpAnswers[section := map[key := value]];
      } else {
        tmpAnswers := tmpAnswers[section := tmpAnswers[section][key := value]];
      }
      GetAfterSet(old(tmpAnswers), section, key, value);
    }

    /** The inner loop of `handle` for one section; `stopped` is the end of the input. */
    method AskSection(section: Section, inputs: seq<string>) returns (stopped: bool, rest: seq<string>)
      modifies this
      ensures RunSection(section.configFile, section.configValues, old(tmpAnswers), inputs) ==
        if stopped then Stopped(tmpAnswers) else Finished(tmpAnswers, rest)
    {
      rest := inputs;
      stopped := false;
      var configs := section.configValues;
      var i := 0;
      while i < |configs|
        invariant 0 <= i <= |configs|
        invariant RunSection(section.configFile, configs[i..], tmpAnswers, rest) ==
          RunSection(section.configFile, configs, old(tmpAnswers), inputs)
      {
        assert configs[i..][1..] == configs[i + 1..];
        var config := configs[i];
        var showIf := config.showIf;
        if Truthy(showIf) {
          var answer := GetTmpAnswer(section.configFile, showIf.value);
          if config.showIfValue != answer {
            i := i + 1;
            continue;
          }
        }
        match Ask(rest, config.default, config.allowedValues) {
          case Err(_) =>
            stopped := true;
            return;
          case Ok((value, more)) =>
            SetTmpAnswer(section.configFile, config.key, value);
            rest := more;
        }
        i := i + 1;
      }
    }

    /** `handle`: the answers start empty and every section is asked in order. */
    method Handle(sections: seq<Section>, inputs: seq<string>) returns (stopped: bool, rest: seq<string>)
      modifies this
      ensures RunSections(sections, map[], inputs) == if stopped then Stopped(tmpAnswers) else Finished(tmpAnswers, rest)
    {
      tmpAnswers := map[];
      rest := inputs;
      stopped := false;
      var i := 0;
      while i < |sections|
        invariant 0 <= i <= |sections|
        invariant RunSections(sections[i..], tmpAnswers, rest) == RunSections(sections, map[], inputs)
      {
        assert sections[i..][1..] == sections[i + 1..];
        stopped, rest := AskSection(sections[i], rest);
        if stopped {
          return;
        }
        i := i + 1;
      }
    }
  }

  /** The `Emailing` section of `ASK_CONFIG_FOR`. */
  const EMAILING: Section := Section("Emailing", "emails", [
    ConfigValue("EMAIL_PROVIDER", "Enter the email provider", Some("smtp"), ["smtp", "sendgrid"], None, None),
    ConfigValue("SENDGRID_API_KEY", "Enter the SendGrid API key", None, [], Some("EMAIL_PROVIDER"), Some("sendgrid")),
    ConfigValue("EMAIL_USE_TASK_QUEUE", "Use task queue for sending emails?", Some("True"), ["True", "False"], None, None)
  ])

  /** Choosing SMTP skips the SendGrid key: it is neither asked nor recorded. */
  lemma SmtpSkipsSendgridKey(answers: Answers, more: seq<string>)
    requires "emails" !in answers
    ensures var r := RunSection(EMAILING.configFile, EMAILING.configValues, answers, ["", ""] + more);
      r.Finished? && r.rest == more &&
      GetAnswer(r.answers, "emails", "EMAIL_PROVIDER") == Some("smtp") &&
      GetAnswer(r.answers, "emails", "SENDGRID_API_KEY") == None &&
      GetAnswer(r.answers, "emails", "EMAIL_USE_TASK_QUEUE") == Some("True")
  {
    var cs := EMAILING.configValues;
    var in0 := ["", ""] + more;
    assert in0[1..] == [""] + more && ([""] + more)[1..] == more;
    var a1 := SetAnswer(answers, "emails", "EMAIL_PROVIDER", "smtp");
    assert Step("emails", cs[0], answers, in0) == Finished(a1, [""] + more);
    assert GetAnswer(a1, "emails", "EMAIL_PROVIDER") == Some("smtp");
    assert !Shown(a1, "emails", cs[1]);
    var a3 := SetAnswer(a1, "emails", "EMAIL_USE_TASK_QUEUE", "True");
    assert Step("emails", cs[2], a1, [""] + more) == Finished(a3, more);
    assert cs[1..][1..] == [cs[2]] && [cs[2]][1..] == [];
    assert RunSection("emails", cs, answers, in0) == Finished(a3, more);
  }
}
