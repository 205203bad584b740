/** src/pages/CompleteProfile.jsx: the bounded multi-select dropdown and the
    profile form's submit checks. */
module CompleteProfile {
  import opened Wrappers
  import opened Lists
  import opened Strings

  /** The dropdown's defaults, which both dropdowns on the page also pass. */
  const DefaultMinSelections := 2
  const DefaultMaxSelections := 4

  /** A selection the dropdown can be handed: no option twice, within the cap. */
  predicate WellFormed(selected: seq<string>, maxSelections: int) {
    NoDuplicates(selected) && |selected| <= maxSelections
  }

  /** CustomDropdown.toggleOption: the list handed to `onChange`, or `None`
      when the early return at the cap skips `onChange`. */
  function ToggleOption(selected: seq<string>, option: string, maxSelections: int): (r: Option<seq<string>>)
    ensures r.None? <==> option !in selected && |selected| >= maxSelections
    ensures r.Some? ==> (option in r.value <==> option !in selected)
    ensures r.Some? ==> forall y :: y != option ==> (y in r.value <==> y in selected)
    ensures r.Some? && option !in selected ==> r.value == selected + [option]
    ensures WellFormed(selected, maxSelections) && r.Some? ==> WellFormed(r.value, maxSelections)
  {
    if option in selected then
      Some(Without(selected, option))
    else if |selected| >= maxSelections then
      None
    else
      var r := selected + [option];
      assert NoDuplicates(selected) ==> NoDuplicates(r) by {
        if NoDuplicates(selected) {
          forall i, j | 0 <= i < j < |r| ensures r[i] != r[j] {
            if j == |selected| {
              assert r[i] == selected[i];
            }
          }
        }
      }
      Some(r)
  }

  /** CustomDropdown.removeOption: always calls `onChange`. */
  function RemoveOption(selected: seq<string>, option: string): (r: seq<string>)
    ensures option !in r
    ensures forall y :: y != option ==> (y in r <==> y in selected)
    ensures forall m :: WellFormed(selected, m) ==> WellFormed(r, m)
  {
    Without(selected, option)
  }

  /** Toggling a selected option removes exactly that entry, the rest keeping
      their order. */
  lemma ToggleSelectedCutsOut(a: seq<string>, option: string, b: seq<string>, maxSelections: int)
    requires NoDuplicates(a + [option] + b)
    ensures ToggleOption(a + [option] + b, option, maxSelections) == Some(a + b)
  {
    WithoutCutsOut(a, option, b);
  }

  /** Below the cap, toggling an absent option twice restores the list. */
  lemma ToggleTwice(selected: seq<string>, option: string, maxSelections: int)
    requires option !in selected && |selected| < maxSelections
    ensures ToggleOption(selected, option, maxSelections).Some?
    ensures ToggleOption(ToggleOption(selected, option, maxSelections).value, option, maxSelections) == Some(selected)
  {
    AppendThenWithout(selected, option);
  }

  /** The profile form. */
  datatype FormData = FormData(researchInterests: seq<string>, careerGoals: seq<string>, yearLevel: string)

  const ResearchError := "Please select at least 2 research interests"
  const CareerError := "Please select at least 2 career goals"
  const YearError := "Please select your year level"

  /** handleSubmit's checks: the first one that fails names the error;
      `None` means the request is sent. */
  function SubmitError(form: FormData): (r: Option<string>)
    ensures r.None? <==> |form.researchInterests| >= 2 && |form.careerGoals| >= 2 && form.yearLevel != ""
    ensures r == Some(ResearchError) <==> |form.researchInterests| < 2
    ensures r == Some(CareerError) <==> |form.researchInterests| >= 2 && |form.careerGoals| < 2
    ensures r == Some(YearError) <==>
      |form.researchInterests| >= 2 && |form.careerGoals| >= 2 && form.yearLevel == ""
  {
    if |form.researchInterests| < 2 then Some(ResearchError)
    else if |form.careerGoals| < 2 then Some(CareerError)
    else if form.yearLevel == "" then Some(YearError)
    else None
  }

  /** The outcome of `POST /api/match/complete-profile`: a response (whether
      its data has a `student`), or a thrown error with the server's message
      if it sent one. */
  datatype SubmitResponse = Submitted(hasStudent: bool) | SubmitFailed(serverMessage: Option<string>)

  const SubmitFailedText := "Failed to complete profile"

  /** The page's state. */
  class Page {
    var formData: FormData
    var loading: bool
    var error: string

    constructor ()
      ensures formData == FormData([], [], "") && !loading && error == ""
    {
      formData := FormData([], [], "");
      loading := false;
      error := "";
    }

    /** A toggle in the research dropdown, passed on to handleResearchChange. */
    method ToggleResearch(option: string)
      modifies this
      ensures var r := ToggleOption(old(formData.researchInterests), option, DefaultMaxSelections);
        formData == if r.None? then old(formData) else old(formData).(researchInterests := r.value)
      ensures loading == old(loading) && error == old(error)
    {
      var r := ToggleOption(formData.researchInterests, option, DefaultMaxSelections);
      if r.Some? {
        formData := formData.(researchInterests := r.value);
      }
    }

    /** A toggle in the career dropdown, passed on to handleCareerChange. */
    method ToggleCareer(option: string)
      modifies this
      ensures var r := ToggleOption(old(formData.careerGoals), option, DefaultMaxSelections);
        formData == if r.None? then old(formData) else old(formData).(careerGoals := r.value)
      ensures loading == old(loading) && error == old(error)
    {
      var r := ToggleOption(formData.careerGoals, option, DefaultMaxSelections);
      if r.Some? {
        formData := formData.(careerGoals := r.value);
      }
    }

    /** handleSubmit up to the request: on a failed check the message is
        shown, loading is switched off again and nothing is sent; otherwise
        the form data is the request body and loading stays on until the
        response arrives. */
    method Submit() returns (request: Option<FormData>)
      modifies this
      ensures formData == old(formData)
      ensures request.None? <==> SubmitError(formData).Some?
      ensures request.Some? ==> request.value == formData && loading && error == ""
      ensures request.None? ==> !loading && error == SubmitError(formData).value
    {
      loading := true;
      error := "";
      if |formData.researchInterests| < 2 {
        error := ResearchError;
        loading := false;
        return None;
      }
      if |formData.careerGoals| < 2 {
        error := CareerError;
        loading := false;
        return None;
      }
      if formData.yearLevel == "" {
        error := YearError;
        loading := false;
        return None;
      }
      request := Some(formData);
    }
  
    /** handleSubmit after the request: navigate to "/match" when the
        response carries the student, show the error when it failed; loading
        ends either way. */
    method OnSubmitResponse(response: SubmitResponse) returns (navigate: Option<string>)
      modifies this
      ensures !loading && formData == old(formData)
      ensures navigate == (if response.Submitted? && response.hasStudent then Some("/match") else None)
      ensures response.Submitted? ==> error == old(error)
      ensures response.SubmitFailed? ==> error == OrElse(response.serverMessage, SubmitFailedText)
    {
      navigate := None;
      match response {
        case Submitted(hasStudent) =>
          if hasStudent {
            navigate := Some("/match");
          }
        case SubmitFailed(m) =>
          error := OrElse(m, SubmitFailedText);
      }
      loading := false;
    }
  }
}
