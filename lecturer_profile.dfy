/** src/pages/LecturerProfile.jsx: uncapped toggles on the two selection
    lists, the save checks and payload, the capacity inputs, and the defaults
    applied when a stored profile is loaded. */
module LecturerProfile {
  import opened Wrappers
  import opened Lists
  import opened Strings

  /** The page's profile state. */
  datatype Profile = Profile(
    researchInterests: seq<string>, expertiseAreas: seq<string>,
    maxStudents: int, availableSlots: int, bio: string)

  /** The two keys `toggleSelection` is called with. */
  datatype ListKey = ResearchInterests | ExpertiseAreas

  function Other(key: ListKey): ListKey {
    if key == ResearchInterests then ExpertiseAreas else ResearchInterests
  }

  function Get(p: Profile, key: ListKey): seq<string> {
    match key
    case ResearchInterests => p.researchInterests
    case ExpertiseAreas => p.expertiseAreas
  }

  /** Everything but the two selection lists. */
  predicate SameScalars(p: Profile, q: Profile) {
    p.maxStudents == q.maxStudents && p.availableSlots == q.availableSlots && p.bio == q.bio
  }

  /** toggleSelection(key, value): no cap. */
  function ToggleSelection(p: Profile, key: ListKey, value: string): (q: Profile)
    ensures value in Get(p, key) ==> Get(q, key) == Without(Get(p, key), value)
    ensures value !in Get(p, key) ==> Get(q, key) == Get(p, key) + [value]
    ensures value in Get(q, key) <==> value !in Get(p, key)
    ensures forall y :: y != value ==> (y in Get(q, key) <==> y in Get(p, key))
    ensures Get(q, Other(key)) == Get(p, Other(key)) && SameScalars(p, q)
    ensures NoDuplicates(Get(p, key)) ==> NoDuplicates(Get(q, key))
  {
    var list := Get(p, key);
    var next :=
      if value in list then Without(list, value)
      else
        var appended := list + [value];
        assert NoDuplicates(list) ==> NoDuplicates(appended) by {
          if NoDuplicates(list) {
            forall i, j | 0 <= i < j < |appended| ensures appended[i] != appended[j] {
              if j == |list| {
                assert appended[i] == list[i];
              }
            }
          }
        }
        appended;
    match key
    case ResearchInterests => p.(researchInterests := next)
    case ExpertiseAreas => p.(expertiseAreas := next)
  }

  /** Toggling the same value twice restores the profile when the value was
      absent, whatever the list's length. */
  lemma ToggleTwice(p: Profile, key: ListKey, value: string)
    requires value !in Get(p, key)
    ensures ToggleSelection(ToggleSelection(p, key, value), key, value) == p
  {
    AppendThenWithout(Get(p, key), value);
  }

  /** The slots already taken by students. */
  function Occupied(p: Profile): int {
    p.maxStudents - p.availableSlots
  }

  /** The "Maximum Students" input, as written, for an integer entry `n`:
      `maxStudents` becomes `n || 1`, `availableSlots` is computed from the
      raw `n`. */
  function SetMaxStudents(p: Profile, n: int): (q: Profile)
    ensures q.maxStudents == (if n == 0 then 1 else n)
    ensures q.availableSlots == n - Occupied(p)
    ensures n != 0 ==> Occupied(q) == Occupied(p)
    ensures q.researchInterests == p.researchInterests && q.expertiseAreas == p.expertiseAreas && q.bio == p.bio
  {
    p.(maxStudents := if n == 0 then 1 else n, availableSlots := n - (p.maxStudents - p.availableSlots))
  }

  /** Entering 0 sets the maximum to 1 but the available slots to `-occupied`,
      so one occupied slot appears from nowhere. */
  lemma MaxStudentsZeroAddsOccupied(p: Profile)
    ensures SetMaxStudents(p, 0).maxStudents == 1
    ensures Occupied(SetMaxStudents(p, 0)) == Occupied(p) + 1
  {
  }

  /** The "Maximum Students" input as evidently intended: the available slots
      follow the maximum actually stored. */
  function SetMaxStudentsKeepingOccupied(p: Profile, n: int): (q: Profile)
    ensures q.maxStudents == (if n == 0 then 1 else n)
    ensures Occupied(q) == Occupied(p)
    ensures q.researchInterests == p.researchInterests && q.expertiseAreas == p.expertiseAreas && q.bio == p.bio
  {
    var max := if n == 0 then 1 else n;
    p.(maxStudents := max, availableSlots := max - Occupied(p))
  }

  /** Both versions agree on every entry except 0. */
  lemma MaxStudentsVersionsAgree(p: Profile, n: int)
    requires n != 0
    ensures SetMaxStudents(p, n) == SetMaxStudentsKeepingOccupied(p, n)
  {
  }

  /** The "Currently Available Slots" input: `parseInt(value) || 0`, where
      `None` is an entry that is not a number. */
  function SetAvailableSlots(p: Profile, entry: Option<int>): (q: Profile)
    ensures q.availableSlots == (if entry.Some? then entry.value else 0)
    ensures q.maxStudents == p.maxStudents && q.bio == p.bio
    ensures q.researchInterests == p.researchInterests && q.expertiseAreas == p.expertiseAreas
  {
    p.(availableSlots := entry.GetOr(0))
  }

  /** The body of `POST /api/advisors/complete-profile`:
      `{ ...profile, completedProfile: true }`. */
  datatype Payload = Payload(
    researchInterests: seq<string>, expertiseAreas: seq<string>,
    maxStudents: int, availableSlots: int, bio: string, completedProfile: bool)

  const LoggedOutError := "You must be logged in."
  const ResearchError := "Please select at least one research interest."
  const ExpertiseError := "Please select at least one expertise area."

  predicate HasToken(token: Option<string>) {
    token.Some? && token.value != ""
  }

  /** The payload carries every profile field unchanged, and marks the
      profile completed. */
  predicate IsPayloadOf(q: Payload, p: Profile) {
    q.researchInterests == p.researchInterests && q.expertiseAreas == p.expertiseAreas
    && q.maxStudents == p.maxStudents && q.availableSlots == p.availableSlots && q.bio == p.bio
    && q.completedProfile
  }

  /** handleSave's checks in order, then the payload. */
  function SaveCheck(token: Option<string>, p: Profile): (r: Result<Payload, string>)
    ensures r.Success? <==> HasToken(token) && |p.researchInterests| > 0 && |p.expertiseAreas| > 0
    ensures r.Success? ==> IsPayloadOf(r.value, p)
    ensures !HasToken(token) ==> r == Failure(LoggedOutError)
    ensures HasToken(token) && |p.researchInterests| == 0 ==> r == Failure(ResearchError)
    ensures HasToken(token) && |p.researchInterests| > 0 && |p.expertiseAreas| == 0 ==> r == Failure(ExpertiseError)
  {
    if !HasToken(token) then Failure(LoggedOutError)
    else if |p.researchInterests| == 0 then Failure(ResearchError)
    else if |p.expertiseAreas| == 0 then Failure(ExpertiseError)
    else Success(Payload(p.researchInterests, p.expertiseAreas, p.maxStudents, p.availableSlots, p.bio, true))
  }

  /** The stored profile as the load request returns it; any field may be missing. */
  datatype StoredProfile = StoredProfile(
    researchInterests: Option<seq<string>>, expertiseAreas: Option<seq<string>>,
    maxStudents: Option<int>, availableSlots: Option<int>, bio: Option<string>,
    completedProfile: Option<bool>)

  /** `x || 5` on a number: missing and 0 both become 5. */
  function OrFive(x: Option<int>): int {
    if x.None? || x.value == 0 then 5 else x.value
  }

  /** The load's defaults, as written. */
  function Load(data: StoredProfile): (p: Profile)
    ensures p.maxStudents == (if data.maxStudents.None? || data.maxStudents.value == 0 then 5 else data.maxStudents.value)
    ensures p.availableSlots == (if data.availableSlots.None? || data.availableSlots.value == 0 then 5 else data.availableSlots.value)
    ensures p.researchInterests == data.researchInterests.GetOr([])
    ensures p.expertiseAreas == data.expertiseAreas.GetOr([])
    ensures p.bio == data.bio.GetOr("")
  {
    Profile(data.researchInterests.GetOr([]), data.expertiseAreas.GetOr([]),
            OrFive(data.maxStudents), OrFive(data.availableSlots), data.bio.GetOr(""))
  }

  /** `!!res.data.completedProfile`. */
  function LoadCompleted(data: StoredProfile): (r: bool)
    ensures data.completedProfile.None? ==> !r
    ensures data.completedProfile.Some? ==> r == data.completedProfile.value
  {
    data.completedProfile == Some(true)
  }

  /** What a saved payload reads back as. */
  function Stored(q: Payload): StoredProfile {
    StoredProfile(Some(q.researchInterests), Some(q.expertiseAreas), Some(q.maxStudents),
                  Some(q.availableSlots), Some(q.bio), Some(q.completedProfile))
  }

  /** As written, an advisor saved with no available slots loads with five. */
  lemma FullAdvisorLoadsWithFiveSlots(p: Profile)
    requires p.availableSlots == 0
    requires SaveCheck(Some("t"), p).Success?
    ensures Load(Stored(SaveCheck(Some("t"), p).value)).availableSlots == 5
  {
  }

  /** The load's defaults as evidently intended: a missing number becomes 5,
      a stored 0 stays 0. */
  function LoadKeepingZero(data: StoredProfile): (p: Profile)
    ensures data.availableSlots.Some? ==> p.availableSlots == data.availableSlots.value
    ensures data.availableSlots.None? ==> p.availableSlots == 5
    ensures p.maxStudents == OrFive(data.maxStudents)
    ensures p.researchInterests == data.researchInterests.GetOr([])
    ensures p.expertiseAreas == data.expertiseAreas.GetOr([])
    ensures p.bio == data.bio.GetOr("")
  {
    Profile(data.researchInterests.GetOr([]), data.expertiseAreas.GetOr([]),
            OrFive(data.maxStudents), data.availableSlots.GetOr(5), data.bio.GetOr(""))
  }

  /** With the corrected defaults, every saved profile whose maximum is
      positive loads back as itself, completed. */
  lemma SaveThenLoad(token: Option<string>, p: Profile)
    requires SaveCheck(token, p).Success? && p.maxStudents != 0
    ensures LoadKeepingZero(Stored(SaveCheck(token, p).value)) == p
    ensures LoadCompleted(Stored(SaveCheck(token, p).value))
  {
  }

  datatype MessageKind = ErrorMessage | SuccessMessage
  datatype Message = Message(kind: MessageKind, text: string)

  /** The load request's outcome: a response and its `data` (`None` when
      falsy), or a thrown error. */
  datatype LoadResponse = Loaded(data: Option<StoredProfile>) | LoadFailed

  /** The save request's outcome: success, or a thrown error with the
      server's message if it sent one. */
  datatype SaveResponse = Saved | SaveFailed(serverMessage: Option<string>)

  const SavedText := "Profile completed successfully!"
  const SaveFailedText := "Failed to save profile."

  /** The page's state; `token` is read from storage when the page renders. */
  class Page {
    const token: Option<string>
    var profile: Profile
    var loading: bool
    var saving: bool
    var msg: Option<Message>
    var completedProfile: bool

    constructor (token: Option<string>)
      ensures this.token == token
      ensures profile == Profile([], [], 5, 5, "")
      ensures !loading && !saving && msg.None? && !completedProfile
    {
      this.token := token;
      profile := Profile([], [], 5, 5, "");
      loading := false;
      saving := false;
      msg := None;
      completedProfile := false;
    }

    /** load: without a token, navigate to "/login"; otherwise take the
        response's profile (with the corrected defaults) when it has data. */
    method Load(response: LoadResponse) returns (redirect: Option<string>)
      modifies this
      ensures !HasToken(token) ==>
        redirect == Some("/login") && profile == old(profile)
        && completedProfile == old(completedProfile) && loading == old(loading)
      ensures HasToken(token) ==> redirect.None? && !loading
      ensures HasToken(token) && response.Loaded? && response.data.Some? ==>
        profile == LoadKeepingZero(response.data.value) && completedProfile == LoadCompleted(response.data.value)
      ensures HasToken(token) && !(response.Loaded? && response.data.Some?) ==>
        profile == old(profile) && completedProfile == old(completedProfile)
      ensures saving == old(saving) && msg == old(msg)
    {
      if !HasToken(token) {
        return Some("/login");
      }
      redirect := None;
      loading := true;
      if response.Loaded? && response.data.Some? {
        profile := LoadKeepingZero(response.data.value);
        completedProfile := LoadCompleted(response.data.value);
      }
      loading := false;
    }

    method Toggle(key: ListKey, value: string)
      modifies this
      ensures profile == ToggleSelection(old(profile), key, value)
      ensures loading == old(loading) && saving == old(saving) && msg == old(msg)
      ensures completedProfile == old(completedProfile)
    {
      profile := ToggleSelection(profile, key, value);
    }

    /** The capacity input, with the corrected slot arithmetic. */
    method ChangeMaxStudents(n: int)
      modifies this
      ensures profile == SetMaxStudentsKeepingOccupied(old(profile), n)
      ensures Occupied(profile) == Occupied(old(profile))
      ensures loading == old(loading) && saving == old(saving) && msg == old(msg)
      ensures completedProfile == old(completedProfile)
    {
      profile := SetMaxStudentsKeepingOccupied(profile, n);
    }

    method ChangeAvailableSlots(entry: Option<int>)
      modifies this
      ensures profile == SetAvailableSlots(old(profile), entry)
      ensures loading == old(loading) && saving == old(saving) && msg == old(msg)
      ensures completedProfile == old(completedProfile)
    {
      profile := SetAvailableSlots(profile, entry);
    }

    /** handleSave up to the request: the first failed check's message and no
        request, or saving switched on, the message cleared and the payload sent. */
    method Save() returns (request: Option<Payload>)
      modifies this
      ensures profile == old(profile) && loading == old(loading) && completedProfile == old(completedProfile)
      ensures var c := SaveCheck(token, profile);
        if c.Success? then request == Some(c.value) && saving && msg.None?
        else request.None? && msg == Some(Message(ErrorMessage, c.error)) && saving == old(saving)
    {
      if !HasToken(token) {
        msg := Some(Message(ErrorMessage, LoggedOutError));
        return None;
      }
      if |profile.researchInterests| == 0 {
        msg := Some(Message(ErrorMessage, ResearchError));
        return None;
      }
      if |profile.expertiseAreas| == 0 {
        msg := Some(Message(ErrorMessage, ExpertiseError));
        return None;
      }
      saving := true;
      msg := None;
      request := Some(Payload(profile.researchInterests, profile.expertiseAreas,
                              profile.maxStudents, profile.availableSlots, profile.bio, true));
    }

    /** handleSave after the request: the flag `completedProfile` is set only
        when the save succeeded; saving ends either way. */
    method OnSaveResponse(response: SaveResponse)
      modifies this
      ensures !saving && profile == old(profile) && loading == old(loading)
      ensures response.Saved? ==> completedProfile && msg == Some(Message(SuccessMessage, SavedText))
      ensures response.SaveFailed? ==>
        completedProfile == old(completedProfile)
        && msg == Some(Message(ErrorMessage, OrElse(response.serverMessage, SaveFailedText)))
    {
      match response {
        case Saved =>
          msg := Some(Message(SuccessMessage, SavedText));
          completedProfile := true;
        case SaveFailed(m) =>
          msg := Some(Message(ErrorMessage, OrElse(m, SaveFailedText)));
      }
      saving := false;
    }
  }
}
