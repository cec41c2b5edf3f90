/** The client's profile slice: a pure state-transition function keyed by
    action type. Every transition returns a new state built from the old one;
    the fields an action does not name are carried over. */
module ProfileReducer {
  import opened Wrappers

  /** A JSON-like payload value, as the client receives it from the API. */
  datatype Json =
    | Undefined
    | Null
    | Bool(b: bool)
    | Num(n: int)
    | Str(s: string)
    | Arr(items: seq<Json>)
    | Obj(members: map<string, Json>)

  /** The profile slice: the viewed profile, the profile list, the GitHub
      repositories of the viewed profile, the loading flag and the last error. */
  datatype State = State(profile: Json, profiles: Json, repos: Json, loading: bool, error: Json)

  /** A dispatched action. */
  datatype Action = Action(kind: string, payload: Json)

  /** The action types the slice reacts to. */
  const GetProfile: string := "GET_PROFILE"
  const UpdateProfile: string := "UPDATE_PROFILE"
  const GetProfiles: string := "GET_PROFILES"
  const ProfileError: string := "PROFILE_ERROR"
  const ClearProfile: string := "CLEAR_PROFILE"
  const GetRepos: string := "GET_REPOS"

  /** `initialState`: no profile, empty lists, still loading, empty error. */
  const InitialState: State := State(Null, Arr([]), Arr([]), true, Obj(map[]))

  /** An action type one of the cases of the reducer handles. */
  predicate Known(kind: string) {
    kind in {GetProfile, UpdateProfile, GetProfiles, ProfileError, ClearProfile, GetRepos}
  }

  /** `profileReducer(state = initialState, action)`: `None` stands for an
      undefined state, which the default parameter replaces by the initial
      one. Each field is written only by the actions that name it, and no
      action turns loading back on. */
  function Reduce(state: Option<State>, action: Action): (r: State)
    ensures var s := if state.Some? then state.value else InitialState;
      && (action.kind != GetProfiles ==> r.profiles == s.profiles)
      && (action.kind != ProfileError ==> r.error == s.error)
      && (action.kind != GetRepos && action.kind != ClearProfile ==> r.repos == s.repos)
      && (!Known(action.kind) || action.kind == GetProfiles || action.kind == GetRepos ==>
            r.profile == s.profile)
      && (r.loading ==> s.loading)
  {
    var s := if state.Some? then state.value else InitialState;
    if action.kind == GetProfile || action.kind == UpdateProfile then
      s.(profile := action.payload, loading := false)
    else if action.kind == GetProfiles then
      s.(profiles := action.payload, loading := false)
    else if action.kind == ProfileError then
      s.(error := action.payload, loading := false, profile := Null)
    else if action.kind == ClearProfile then
      s.(profile := Null, repos := Arr([]), loading := false)
    else if action.kind == GetRepos then
      s.(repos := action.payload, loading := false)
    else
      s
  }

  /** The initial state holds no profile, no profiles, no repositories and an
      empty error, and is loading; the reducer starts from it when it is
      given no state. */
  lemma InitialStateShape(a: Action)
    ensures InitialState.profile == Null && InitialState.profiles == Arr([])
    ensures InitialState.repos == Arr([]) && InitialState.loading
    ensures InitialState.error == Obj(map[])
    ensures Reduce(None, a) == Reduce(Some(InitialState), a)
  {
  }

  /** GET_PROFILE and UPDATE_PROFILE put the payload in `profile` and stop
      loading; the lists and the error stay. */
  lemma GetProfileFrame(s: State, a: Action)
    requires a.kind == GetProfile || a.kind == UpdateProfile
    ensures var r := Reduce(Some(s), a);
      r.profile == a.payload && !r.loading
      && r.profiles == s.profiles && r.repos == s.repos && r.error == s.error
  {
  }

  /** GET_PROFILES puts the payload in `profiles` and stops loading; the rest
      stays. */
  lemma GetProfilesFrame(s: State, a: Action)
    requires a.kind == GetProfiles
    ensures var r := Reduce(Some(s), a);
      r.profiles == a.payload && !r.loading
      && r.profile == s.profile && r.repos == s.repos && r.error == s.error
  {
  }

  /** PROFILE_ERROR records the payload as the error, drops the profile and
      stops loading; the lists stay. */
  lemma ProfileErrorFrame(s: State, a: Action)
    requires a.kind == ProfileError
    ensures var r := Reduce(Some(s), a);
      r.error == a.payload && r.profile == Null && !r.loading
      && r.profiles == s.profiles && r.repos == s.repos
  {
  }

  /** CLEAR_PROFILE drops the profile and the repositories and stops loading;
      the list and the error stay; clearing twice is clearing once. */
  lemma ClearProfileFrame(s: State, a: Action)
    requires a.kind == ClearProfile
    ensures var r := Reduce(Some(s), a);
      r.profile == Null && r.repos == Arr([]) && !r.loading
      && r.profiles == s.profiles && r.error == s.error
      && Reduce(Some(r), a) == r
  {
  }

  /** GET_REPOS puts the payload in `repos` and stops loading; the rest stays. */
  lemma GetReposFrame(s: State, a: Action)
    requires a.kind == GetRepos
    ensures var r := Reduce(Some(s), a);
      r.repos == a.payload && !r.loading
      && r.profile == s.profile && r.profiles == s.profiles && r.error == s.error
  {
  }

  /** Any other action leaves the state as it is; after a handled one the
      slice is no longer loading. */
  lemma OtherActionsKeepState(s: State, a: Action)
    ensures !Known(a.kind) ==> Reduce(Some(s), a) == s
    ensures Known(a.kind) ==> !Reduce(Some(s), a).loading
  {
  }

  /** The slice after the store dispatches `actions` in order. */
  function Run(s: State, actions: seq<Action>): State
    decreases |actions|
  {
    if |actions| == 0 then s else Run(Reduce(Some(s), actions[0]), actions[1..])
  }

  /** Only GET_PROFILES writes `profiles`: a run of actions none of which has
      that type leaves the list as it was. */
  lemma {:induction false} ProfilesOnlyFromGetProfiles(s: State, actions: seq<Action>)
    requires forall i :: 0 <= i < |actions| ==> actions[i].kind != GetProfiles
    ensures Run(s, actions).profiles == s.profiles
    decreases |actions|
  {
    if |actions| > 0 {
      ProfilesOnlyFromGetProfiles(Reduce(Some(s), actions[0]), actions[1..]);
    }
  }

  /** Only PROFILE_ERROR writes `error`: a run without it keeps the error. */
  lemma {:induction false} ErrorOnlyFromProfileError(s: State, actions: seq<Action>)
    requires forall i :: 0 <= i < |actions| ==> actions[i].kind != ProfileError
    ensures Run(s, actions).error == s.error
    decreases |actions|
  {
    if |actions| > 0 {
      ErrorOnlyFromProfileError(Reduce(Some(s), actions[0]), actions[1..]);
    }
  }

  /** Once a run has left loading, no later action turns it back on: the
      reducer only ever sets the flag to false. */
  lemma {:induction false} LoadingNeverResumes(s: State, actions: seq<Action>)
    requires !s.loading
    ensures !Run(s, actions).loading
    decreases |actions|
  {
    if |actions| > 0 {
      LoadingNeverResumes(Reduce(Some(s), actions[0]), actions[1..]);
    }
  }
}
