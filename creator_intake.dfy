/** The creator intake form: six fields, their validation, the goal
    checkboxes and the submission that classifies the creator and puts the
    new profile at the head of the creator list. */
module CreatorIntake {
  import opened Base
  import opened Text
  import opened Types
  import opened AppState
  import opened MockAI

  datatype IntakeForm = IntakeForm(
    name: string,
    email: string,
    platform: string,
    followerCount: string,
    description: string,
    goals: seq<string>)

  /** The form as the view opens and after every successful submission. */
  const EmptyIntake := IntakeForm("", "", "", "", "", [])

  /** The error record: the message under each field's key, or `None` when
      the key is absent. */
  datatype IntakeErrors = IntakeErrors(
    name: Option<string>,
    email: Option<string>,
    platform: Option<string>,
    followerCount: Option<string>,
    description: Option<string>,
    goals: Option<string>)

  const NoErrors := IntakeErrors(None, None, None, None, None, None)

  /** The number of keys present in the record. */
  function EntryCount(e: IntakeErrors): nat
  {
    (if e.name.Some? then 1 else 0) + (if e.email.Some? then 1 else 0) + (if e.platform.Some? then 1 else 0)
    + (if e.followerCount.Some? then 1 else 0) + (if e.description.Some? then 1 else 0) + (if e.goals.Some? then 1 else 0)
  }

  const NameRequired := "Name is required"
  const EmailRequired := "Email is required"
  const InvalidEmail := "Invalid email format"
  const PlatformRequired := "Please select a platform"
  const FollowerCountRequired := "Follower count is required"
  const DescriptionRequired := "Description is required"
  const GoalsRequired := "Please select at least one goal"

  /** The email test `/\S+@\S+\.\S+/`, which is not anchored: somewhere in
      `s` a non-space character is followed by '@', then by a non-empty run
      of non-space characters, then by '.', then by a non-space character. */
  predicate EmailShaped(s: string)
  {
    exists at, dot | 0 < at && at + 1 < dot && dot + 1 < |s| :: EmailAt(s, at, dot)
  }

  /** The address test matches with its '@' at `at` and its '.' at `dot`. */
  predicate EmailAt(s: string, at: int, dot: int)
    requires 0 < at && at + 1 < dot && dot + 1 < |s|
  {
    s[at] == '@' && s[dot] == '.' && !IsSpace(s[at - 1]) && NonSpaceRun(s, at + 1, dot) && !IsSpace(s[dot + 1])
  }

  /** No whitespace in `s[lo..hi]`. */
  predicate NonSpaceRun(s: string, lo: int, hi: int)
    requires 0 <= lo <= hi <= |s|
  {
    forall k :: lo <= k < hi ==> !IsSpace(s[k])
  }

  /** Because the test is not anchored, any text around an accepted address
      is accepted too. */
  lemma EmailUnanchored(before: string, s: string, after: string)
    requires EmailShaped(s)
    ensures EmailShaped(before + s + after)
  {
    var at, dot :| 0 < at && at + 1 < dot && dot + 1 < |s| && EmailAt(s, at, dot);
    var t := before + s + after;
    var at', dot' := |before| + at, |before| + dot;
    assert t[at'] == s[at] && t[dot'] == s[dot] && t[at' - 1] == s[at - 1] && t[dot' + 1] == s[dot + 1];
    forall k | at' + 1 <= k < dot' ensures !IsSpace(t[k]) {
      assert t[k] == s[k - |before|];
    }
    assert NonSpaceRun(t, at' + 1, dot');
    assert EmailAt(t, at', dot');
  }

  /** An accepted address has an '@' and a '.' and is not blank. */
  lemma EmailNeeds(s: string)
    requires EmailShaped(s)
    ensures '@' in s && '.' in s
    ensures !Blank(s)
  {
    var at, dot :| 0 < at && at + 1 < dot && dot + 1 < |s| && EmailAt(s, at, dot);
    assert s[at] == '@' && s[dot] == '.';
    assert !IsSpace(s[at]);
    TrimEmptyIff(s);
  }

  const SampleAddress := "sarah@creatorchart.com"

  /** A plain address passes the test; a spaced-out one does not. */
  lemma EmailExamples()
    ensures EmailShaped(SampleAddress)
    ensures !EmailShaped("a @b.c")
  {
    var s := SampleAddress;
    assert s[5] == '@' && s[18] == '.';
    assert NonSpaceRun(s, 6, 18);
    assert EmailAt(s, 5, 18);
    var t := "a @b.c";
    forall at, dot | 0 < at && at + 1 < dot && dot + 1 < |t|
      ensures !EmailAt(t, at, dot)
    {
      if t[at] == '@' {
        assert at == 2;
      }
    }
  }

  /** The errors the form shows. A blank name, follower count or
      description, an unchosen platform and an empty goal list each get their
      message. The email gets "required" when blank and, failing that,
      "invalid" when it does not pass the address test, which looks at the
      untrimmed text. */
  function ErrorsOf(form: IntakeForm): IntakeErrors
  {
    IntakeErrors(
      if Blank(form.name) then Some(NameRequired) else None,
      if Blank(form.email) then Some(EmailRequired)
      else if !EmailShaped(form.email) then Some(InvalidEmail)
      else None,
      if form.platform == "" then Some(PlatformRequired) else None,
      if Blank(form.followerCount) then Some(FollowerCountRequired) else None,
      if Blank(form.description) then Some(DescriptionRequired) else None,
      if |form.goals| == 0 then Some(GoalsRequired) else None)
  }

  /** Every field is filled in, the address passes the test and a goal is
      chosen. */
  predicate IntakeAccepted(form: IntakeForm)
  {
    !Blank(form.name) && !Blank(form.email) && EmailShaped(form.email) && form.platform != ""
    && !Blank(form.followerCount) && !Blank(form.description) && |form.goals| > 0
  }

  /** Validation succeeds exactly when no error entry was produced. */
  lemma IntakeValidIff(form: IntakeForm)
    ensures EntryCount(ErrorsOf(form)) == 0 <==> IntakeAccepted(form)
  {
  }

  /** A form is accepted exactly when every text field has a non-space
      character, the address passes the test, a platform is chosen and a
      goal is ticked. */
  lemma IntakeAcceptedIff(form: IntakeForm)
    ensures IntakeAccepted(form) <==>
              && (exists i :: 0 <= i < |form.name| && !IsSpace(form.name[i]))
              && EmailShaped(form.email) && form.platform != ""
              && (exists i :: 0 <= i < |form.followerCount| && !IsSpace(form.followerCount[i]))
              && (exists i :: 0 <= i < |form.description| && !IsSpace(form.description[i]))
              && |form.goals| > 0
  {
    TrimEmptyIff(form.name);
    TrimEmptyIff(form.followerCount);
    TrimEmptyIff(form.description);
    if EmailShaped(form.email) {
      EmailNeeds(form.email);
    }
  }

  /** The checkbox of `goal`: unticking removes every copy, ticking appends
      it at the end. */
  function GoalsToggled(goals: seq<string>, goal: string): (r: seq<string>)
    ensures goal in r <==> goal !in goals
    ensures forall g :: g != goal ==> (g in r <==> g in goals)
    ensures goal !in goals ==> r == goals + [goal]
    ensures goal in goals ==> IsSubsequence(r, goals) && |r| < |goals|
  {
    var p := (g: string) => g != goal;
    if goal in goals then
      FilterIsSubsequence(goals, p);
      FilterLength(goals, p);
      CountRemoved(goals, goal);
      forall g ensures g in Filter(goals, p) <==> g in goals && p(g) {
        FilterMembers(goals, p, g);
      }
      Filter(goals, p)
    else goals + [goal]
  }

  lemma {:induction false} CountRemoved(goals: seq<string>, goal: string)
    requires goal in goals
    ensures Count(goals, (g: string) => g != goal) < |goals|
  {
    if goals[0] != goal {
      CountRemoved(goals[1..], goal);
    } else {
      assert Count(goals[1..], (g: string) => g != goal) <= |goals[1..]| by {
        CountAtMost(goals[1..], (g: string) => g != goal);
      }
    }
  }

  lemma {:induction false} CountAtMost<T>(s: seq<T>, p: T -> bool)
    ensures Count(s, p) <= |s|
  {
    if s != [] {
      CountAtMost(s[1..], p);
    }
  }

  /** Ticking a box twice gives back the same goals; toggling twice always
      restores which goals are chosen. */
  lemma ToggleTwice(goals: seq<string>, goal: string)
    ensures goal !in goals ==> GoalsToggled(GoalsToggled(goals, goal), goal) == goals
    ensures forall g :: g in GoalsToggled(GoalsToggled(goals, goal), goal) <==> g in goals
  {
    if goal !in goals {
      var p := (g: string) => g != goal;
      FilterAppend(goals, [goal], p);
      FilterAll(goals, p);
      assert Filter([goal], p) == [];
    }
  }

  /** Goals chosen only through the checkboxes never repeat. */
  lemma ToggleKeepsDistinct(goals: seq<string>, goal: string)
    requires Distinct(goals)
    ensures Distinct(GoalsToggled(goals, goal))
  {
    if goal in goals {
      FilterDistinct(goals, (g: string) => g != goal);
    }
  }

  /** The profile a successful submission creates: the form's fields as
      typed, the classification's four results and the submission time. */
  function NewCreator(form: IntakeForm, newId: string, result: AICreatorClassification, now: int): (r: CreatorProfile)
    ensures r.id == newId && r.name == form.name && r.email == form.email && r.platform == form.platform
    ensures r.followerCount == form.followerCount && r.description == form.description && r.goals == form.goals
    ensures r.aiNiche == Some(result.niche) && r.aiPlatformFocus == Some(result.platformFocus)
    ensures r.aiStage == Some(result.stage) && r.aiRecommendations == Some(result.recommendations)
    ensures r.submittedDate == now
  {
    CreatorProfile(newId, form.name, form.email, form.platform, form.followerCount, form.description, form.goals,
                   Some(result.niche), Some(result.platformFocus), Some(result.stage), Some(result.recommendations), now)
  }

  /** The classification the engine gives a submitted form, as one
      statement about a new profile. */
  ghost predicate ClassifiedAs(c: CreatorProfile, form: IntakeForm)
  {
    && c.aiStage == Some(StageName(DetermineStage(form.followerCount)))
    && exists n :: NicheChoice(Lower(form.description), n)
                  && c.aiNiche == Some(NicheName(n))
                  && c.aiPlatformFocus == Some(PlatformFocus(n, form.platform))
                  && c.aiRecommendations == Some(Recommendations(n, DetermineStage(form.followerCount), form.platform, form.goals))
  }

  /** The classification step of a submission: the engine classifies the
      form, and the new profile copies the form's fields and the engine's
      four results, with the new id and the submission time. */
  method ClassifyForm(form: IntakeForm, newId: string, now: int) returns (c: CreatorProfile)
    ensures c.id == newId && c.submittedDate == now
    ensures c.name == form.name && c.email == form.email && c.platform == form.platform
    ensures c.followerCount == form.followerCount && c.description == form.description && c.goals == form.goals
    ensures ClassifiedAs(c, form)
  {
    var result, progress := ClassifyCreator(form.name, form.platform, form.followerCount, form.description, form.goals);
    c := NewCreator(form, newId, result, now);
  }

  class Intake {
    const app: Store
    var form: IntakeForm
    var errors: IntakeErrors
    var isAnalyzing: bool
    var showResults: bool
    var lastCreator: Option<CreatorProfile>

    constructor (app: Store)
      ensures this.app == app && form == EmptyIntake && errors == NoErrors
      ensures !isAnalyzing && !showResults && lastCreator == None
    {
      this.app := app;
      form := EmptyIntake;
      errors := NoErrors;
      isAnalyzing := false;
      showResults := false;
      lastCreator := None;
    }

    /** Validation records the form's errors and reports whether there were
        none. */
    method Validate() returns (ok: bool)
      modifies this
      ensures form == old(form) && isAnalyzing == old(isAnalyzing) && showResults == old(showResults)
      ensures lastCreator == old(lastCreator)
      ensures errors == ErrorsOf(form)
      ensures ok <==> IntakeAccepted(form)
    {
      var newErrors := NoErrors;
      if Blank(form.name) {
        newErrors := newErrors.(name := Some(NameRequired));
      }
      assert newErrors.name == ErrorsOf(form).name;
      if Blank(form.email) {
        newErrors := newErrors.(email := Some(EmailRequired));
      } else if !EmailShaped(form.email) {
        newErrors := newErrors.(email := Some(InvalidEmail));
      }
      assert newErrors.email == ErrorsOf(form).email;
      if form.platform == "" {
        newErrors := newErrors.(platform := Some(PlatformRequired));
      }
      assert newErrors.platform == ErrorsOf(form).platform;
      if Blank(form.followerCount) {
        newErrors := newErrors.(followerCount := Some(FollowerCountRequired));
      }
      assert newErrors.followerCount == ErrorsOf(form).followerCount;
      if Blank(form.description) {
        newErrors := newErrors.(description := Some(DescriptionRequired));
      }
      assert newErrors.description == ErrorsOf(form).description;
      if |form.goals| == 0 {
        newErrors := newErrors.(goals := Some(GoalsRequired));
      }
      assert newErrors.goals == ErrorsOf(form).goals;
      assert newErrors == ErrorsOf(form);
      IntakeValidIff(form);
      errors := newErrors;
      ok := EntryCount(newErrors) == 0;
    }

    /** A goal checkbox: the goal is toggled and its error entry is emptied
        (the key stays, with an empty message). */
    method ToggleGoal(goal: string)
      modifies this
      ensures form == old(form).(goals := GoalsToggled(old(form).goals, goal))
      ensures errors == old(errors).(goals := Some(""))
      ensures isAnalyzing == old(isAnalyzing) && showResults == old(showResults) && lastCreator == old(lastCreator)
    {
      form := form.(goals := GoalsToggled(form.goals, goal));
      errors := errors.(goals := Some(""));
    }

    /** Submitting the form. An invalid form shows its errors and never
        reaches the classifier. A valid one is classified; `rejected` says
        the classifier threw, which leaves the creator list and the form as
        they were. On success the new profile heads the creator list, is
        shown as the last creator, and the form is emptied. The busy flag is
        off at the end either way. */
    method HandleSubmit(newId: string, now: int, rejected: bool)
      modifies this, app
      ensures app.content == old(app.content)
      ensures !IntakeAccepted(old(form)) ==>
                && form == old(form) && errors == ErrorsOf(old(form))
                && app.creators == old(app.creators)
                && isAnalyzing == old(isAnalyzing) && showResults == old(showResults)
                && lastCreator == old(lastCreator)
      ensures IntakeAccepted(old(form)) ==> errors == NoErrors
      ensures IntakeAccepted(old(form)) && rejected ==>
                && form == old(form) && app.creators == old(app.creators)
                && !isAnalyzing && !showResults && lastCreator == old(lastCreator)
      ensures IntakeAccepted(old(form)) && !rejected ==>
                && |app.creators| == |old(app.creators)| + 1
                && app.creators[1..] == old(app.creators)
                && lastCreator == Some(app.creators[0])
                && app.creators[0].id == newId && app.creators[0].submittedDate == now
                && app.creators[0].name == old(form).name && app.creators[0].email == old(form).email
                && app.creators[0].platform == old(form).platform
                && app.creators[0].followerCount == old(form).followerCount
                && app.creators[0].description == old(form).description
                && app.creators[0].goals == old(form).goals
                && ClassifiedAs(app.creators[0], old(form))
                && form == EmptyIntake && !isAnalyzing && showResults
    {
      var ok := Validate();
      if !ok {
        return;
      }
      isAnalyzing := true;
      showResults := false;
      if !rejected {
        AddClassified(newId, now);
      }
      isAnalyzing := false;
    }

    /** The success path of a submission: the form is classified, the new
        profile heads the creator list and is shown, and the form is
        emptied. */
    method AddClassified(newId: string, now: int)
      modifies this, app
      ensures app.content == old(app.content) && isAnalyzing == old(isAnalyzing) && errors == old(errors)
      ensures |app.creators| == |old(app.creators)| + 1
      ensures app.creators[1..] == old(app.creators)
      ensures lastCreator == Some(app.creators[0])
      ensures app.creators[0].id == newId && app.creators[0].submittedDate == now
      ensures app.creators[0].name == old(form).name && app.creators[0].email == old(form).email
      ensures app.creators[0].platform == old(form).platform
      ensures app.creators[0].followerCount == old(form).followerCount
      ensures app.creators[0].description == old(form).description
      ensures app.creators[0].goals == old(form).goals
      ensures ClassifiedAs(app.creators[0], old(form))
      ensures form == EmptyIntake && showResults
    {
      var creator := ClassifyForm(form, newId, now);
      app.creators := [creator] + app.creators;
      lastCreator := Some(creator);
      showResults := true;
      form := EmptyIntake;
    }
  }
}
