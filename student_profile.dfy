/** src/pages/StudentProfile.jsx: the page App routes "/complete-profile" to.
    Capped toggles on the two selection lists, the submit checks and payload,
    and the defaults applied when a stored profile is loaded. */
module StudentProfile {
  import opened Wrappers
  import opened Lists
  import opened Strings

  /** The page's profile state. */
  datatype Profile = Profile(researchInterests: seq<string>, careerGoals: seq<string>, yearLevel: string)

  /** The two keys `toggle` is called with. */
  datatype ListKey = ResearchInterests | CareerGoals

  /** The property name, as it appears in the cap message. */
  function KeyName(key: ListKey): string {
    match key
    case ResearchInterests => "researchInterests"
    case CareerGoals => "careerGoals"
  }

  function Other(key: ListKey): ListKey {
    if key == ResearchInterests then CareerGoals else ResearchInterests
  }

  /** `prev[key]`. */
  function Get(p: Profile, key: ListKey): seq<string> {
    match key
    case ResearchInterests => p.researchInterests
    case CareerGoals => p.careerGoals
  }

  /** `{ ...prev, [key]: list }`. */
  function With(p: Profile, key: ListKey, list: seq<string>): (q: Profile)
    ensures Get(q, key) == list && Get(q, Other(key)) == Get(p, Other(key)) && q.yearLevel == p.yearLevel
  {
    match key
    case ResearchInterests => p.(researchInterests := list)
    case CareerGoals => p.(careerGoals := list)
  }

  /** The default cap of `toggle`, and the cap both call sites pass. */
  const DefaultMax: nat := 4

  /** The message `toggle` shows at the cap. */
  function CapMessage(max: nat, key: ListKey): string {
    "Maximum " + NatToString(max) + " " + KeyName(key) + " allowed"
  }

  /** What `toggle` leaves behind: the next profile, and the message it set
      when it refused to add. */
  datatype ToggleResult = ToggleResult(profile: Profile, message: Option<string>)

  /** toggle(key, value, max). */
  function Toggle(p: Profile, key: ListKey, value: string, max: nat): (r: ToggleResult)
    ensures value in Get(p, key) ==>
      r.message.None? && Get(r.profile, key) == Without(Get(p, key), value)
    ensures r.message.Some? <==> value !in Get(p, key) && |Get(p, key)| >= max
    ensures r.message.Some? ==> r.profile == p && r.message.value == CapMessage(max, key)
    ensures value !in Get(p, key) && r.message.None? ==> Get(r.profile, key) == Get(p, key) + [value]
    ensures r.message.None? ==> (value in Get(r.profile, key) <==> value !in Get(p, key))
    ensures Get(r.profile, Other(key)) == Get(p, Other(key)) && r.profile.yearLevel == p.yearLevel
    ensures NoDuplicates(Get(p, key)) && |Get(p, key)| <= max ==>
      NoDuplicates(Get(r.profile, key)) && |Get(r.profile, key)| <= max
  {
    var list := Get(p, key);
    if value in list then
      ToggleResult(With(p, key, Without(list, value)), None)
    else if |list| >= max then
      ToggleResult(p, Some(CapMessage(max, key)))
    else
      var next := list + [value];
      assert NoDuplicates(list) ==> NoDuplicates(next) by {
        if NoDuplicates(list) {
          forall i, j | 0 <= i < j < |next| ensures next[i] != next[j] {
            if j == |list| {
              assert next[i] == list[i];
            }
          }
        }
      }
      ToggleResult(With(p, key, next), None)
  }

  /** Below the cap, toggling an absent value twice restores the profile. */
  lemma ToggleTwice(p: Profile, key: ListKey, value: string, max: nat)
    requires value !in Get(p, key) && |Get(p, key)| < max
    ensures Toggle(Toggle(p, key, value, max).profile, key, value, max) == ToggleResult(p, None)
  {
    AppendThenWithout(Get(p, key), value);
  }

  /** The body of `POST /api/match/complete-profile`: exactly these three fields. */
  datatype Payload = Payload(researchInterests: seq<string>, careerGoals: seq<string>, yearLevel: string)

  const LoggedOutError := "You must be logged in."
  const ResearchError := "Select at least 1 research interest."
  const CareerError := "Select at least 1 career goal."
  const YearError := "Please select your academic year."

  /** `if (token)`: a stored, non-empty token. */
  predicate HasToken(token: Option<string>) {
    token.Some? && token.value != ""
  }

  /** handleSubmit's checks in order, then the payload. */
  function SubmitCheck(token: Option<string>, p: Profile): (r: Result<Payload, string>)
    ensures r.Success? <==>
      HasToken(token) && |p.researchInterests| > 0 && |p.careerGoals| > 0 && p.yearLevel != ""
    ensures r.Success? ==> r.value == Payload(p.researchInterests, p.careerGoals, p.yearLevel)
    ensures !HasToken(token) ==> r == Failure(LoggedOutError)
    ensures HasToken(token) && |p.researchInterests| == 0 ==> r == Failure(ResearchError)
    ensures HasToken(token) && |p.researchInterests| > 0 && |p.careerGoals| == 0 ==> r == Failure(CareerError)
    ensures HasToken(token) && |p.researchInterests| > 0 && |p.careerGoals| > 0 && p.yearLevel == "" ==>
      r == Failure(YearError)
  {
    if !HasToken(token) then Failure(LoggedOutError)
    else if |p.researchInterests| == 0 then Failure(ResearchError)
    else if |p.careerGoals| == 0 then Failure(CareerError)
    else if p.yearLevel == "" then Failure(YearError)
    else Success(Payload(p.researchInterests, p.careerGoals, p.yearLevel))
  }

  /** The stored profile as the load request returns it; any field may be missing. */
  datatype StoredProfile = StoredProfile(
    researchInterests: Option<seq<string>>, careerGoals: Option<seq<string>>, yearLevel: Option<string>)

  /** The load's `|| []` and `|| ""` defaults (an array is truthy even when
      empty, and an empty year level is replaced by an empty one). */
  function Load(data: StoredProfile): (p: Profile)
    ensures data.researchInterests.None? ==> p.researchInterests == []
    ensures data.careerGoals.None? ==> p.careerGoals == []
    ensures data.yearLevel.None? ==> p.yearLevel == ""
    ensures data.researchInterests.Some? ==> p.researchInterests == data.researchInterests.value
    ensures data.careerGoals.Some? ==> p.careerGoals == data.careerGoals.value
    ensures data.yearLevel.Some? ==> p.yearLevel == data.yearLevel.value
  {
    Profile(data.researchInterests.GetOr([]), data.careerGoals.GetOr([]), data.yearLevel.GetOr(""))
  }

  /** A saved payload, stored back with all three fields, loads as the
      profile that produced it. */
  lemma SaveThenLoad(token: Option<string>, p: Profile)
    requires SubmitCheck(token, p).Success?
    ensures var q := SubmitCheck(token, p).value;
      Load(StoredProfile(Some(q.researchInterests), Some(q.careerGoals), Some(q.yearLevel))) == p
  {
  }

  datatype MessageKind = ErrorMessage | SuccessMessage
  datatype Message = Message(kind: MessageKind, text: string)

  /** The save request's outcome: success, or a thrown error with the
      server's message if it sent one. */
  datatype SaveResponse = Saved | SaveFailed(serverMessage: Option<string>)

  const SavedText := "Profile completed successfully! Redirecting to matching..."
  const SaveFailedText := "Saving profile failed."

  /** The page's state; `token` is read from storage when the page renders. */
  class Page {
    const token: Option<string>
    var profile: Profile
    var loading: bool
    var saving: bool
    var msg: Option<Message>

    constructor (token: Option<string>)
      ensures this.token == token
      ensures profile == Profile([], [], "") && !loading && !saving && msg.None?
    {
      this.token := token;
      profile := Profile([], [], "");
      loading := false;
      saving := false;
      msg := None;
    }

    /** loadProfile: without a token, only the "logged in" message; with one,
        a successful response replaces the profile through the defaults and
        a failed one (`None`, a profile not created yet among them) keeps the
        empty form. */
    method LoadProfile(response: Option<StoredProfile>)
      modifies this
      ensures !HasToken(token) ==>
        profile == old(profile) && msg == Some(Message(ErrorMessage, LoggedOutError)) && loading == old(loading)
      ensures HasToken(token) ==>
        msg == old(msg) && !loading && profile == (if response.Some? then Load(response.value) else old(profile))
      ensures saving == old(saving)
    {
      if !HasToken(token) {
        msg := Some(Message(ErrorMessage, LoggedOutError));
        return;
      }
      loading := true;
      if response.Some? {
        profile := Load(response.value);
      }
      loading := false;
    }

    /** toggle through setProfile, with the message it sets at the cap. */
    method ToggleValue(key: ListKey, value: string, max: nat)
      modifies this
      ensures var r := Toggle(old(profile), key, value, max);
        profile == r.profile
        && msg == (if r.message.Some? then Some(Message(ErrorMessage, r.message.value)) else old(msg))
      ensures loading == old(loading) && saving == old(saving)
    {
      var r := Toggle(profile, key, value, max);
      profile := r.profile;
      if r.message.Some? {
        msg := Some(Message(ErrorMessage, r.message.value));
      }
    }

    /** handleSubmit up to the request: the first failed check's message and
        no request, or saving switched on and the payload sent. */
    method Submit() returns (request: Option<Payload>)
      modifies this
      ensures profile == old(profile) && loading == old(loading)
      ensures var c := SubmitCheck(token, profile);
        if c.Success? then request == Some(c.value) && saving && msg.None?
        else request.None? && msg == Some(Message(ErrorMessage, c.error)) && saving == old(saving)
    {
      msg := None;
      if !HasToken(token) {
        msg := Some(Message(ErrorMessage, LoggedOutError));
        return None;
      }
      if |profile.researchInterests| == 0 {
        msg := Some(Message(ErrorMessage, ResearchError));
        return None;
      }
      if |profile.careerGoals| == 0 {
        msg := Some(Message(ErrorMessage, CareerError));
        return None;
      }
      if profile.yearLevel == "" {
        msg := Some(Message(ErrorMessage, YearError));
        return None;
      }
      saving := true;
      request := Some(Payload(profile.researchInterests, profile.careerGoals, profile.yearLevel));
    }
  
    /** handleSubmit after the request: the success or error message; saving
        ends either way. */
    method OnSaveResponse(response: SaveResponse)
      modifies this
      ensures !saving && profile == old(profile) && loading == old(loading)
      ensures response.Saved? ==> msg == Some(Message(SuccessMessage, SavedText))
      ensures response.SaveFailed? ==>
        msg == Some(Message(ErrorMessage, OrElse(response.serverMessage, SaveFailedText)))
    {
      match response {
        case Saved =>
          msg := Some(Message(SuccessMessage, SavedText));
        case SaveFailed(m) =>
          msg := Some(Message(ErrorMessage, OrElse(m, SaveFailedText)));
      }
      saving := false;
    }
  }
}
