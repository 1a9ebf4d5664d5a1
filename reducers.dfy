/** The Redux store of src/reducers/index.js: three independent slices (the
    signed-in user, the channel selection, the theme colours), each a pure
    reducer over typed actions, combined into one store. */
module Reducers {
  import opened Common
  import opened Entities
  import AvatarUrl

  datatype UserState = UserState(currentUser: Option<User>, isLoading: bool)

  datatype ChannelState = ChannelState(
    currentChannel: Option<Channel>,
    isPrivateChannel: bool,
    userPosts: Option<map<string, PostTally>>)

  datatype ColorsState = ColorsState(primaryColor: string, secondaryColor: string)

  /** The store built by `combineReducers({user, channel, colors})`. */
  datatype Store = Store(user: UserState, channel: ChannelState, colors: ColorsState)

  /** The action types the reducers handle. `Other` stands for an action of any type
      none of them handles (Redux's own initialisation action among them); its
      `actionType` is never one of the handled names such as "SET_USER", since an
      action of a handled type is one of the other constructors. */
  datatype Action =
    | SetUser(currentUser: User)
    | ClearUser
    | SetCurrentChannel(currentChannel: Option<Channel>)
    | SetPrivateChannel(isPrivateChannel: bool)
    | SetUserPosts(userPosts: Option<map<string, PostTally>>)
    | SetColors(primaryColor: string, secondaryColor: string)
    | Other(actionType: string)

  const InitialUserState := UserState(None, true)
  const InitialChannelState := ChannelState(None, false, None)
  const InitialColorsState := ColorsState("#4c3c4c", "#eee")
  const InitialStore := Store(InitialUserState, InitialChannelState, InitialColorsState)

  /** user_reducer. SET_USER signs the user in: loading ends, and the stored user
      is the payload with only its avatar URL normalised. CLEAR_USER only ends
      loading; the current user is kept. Any other action leaves the slice as it is. */
  function UserReducer(state: UserState, action: Action): (r: UserState)
    ensures action.SetUser? ==>
      var u := action.currentUser;
      && !r.isLoading && r.currentUser.Some?
      && r.currentUser.value.uid == u.uid
      && r.currentUser.value.displayName == u.displayName
      && r.currentUser.value.email == u.email
      && r.currentUser.value.photoURL == AvatarUrl.ReformatAvatarUrl(u.photoURL)
      && (u.photoURL.Some? ==> |r.currentUser.value.photoURL.value| == |u.photoURL.value|)
    ensures action.ClearUser? ==> r.currentUser == state.currentUser && !r.isLoading
    ensures !action.SetUser? && !action.ClearUser? ==> r == state
  {
    match action
    case SetUser(u) => UserState(Some(u.(photoURL := AvatarUrl.ReformatAvatarUrl(u.photoURL))), false)
    case ClearUser => state.(isLoading := false)
    case _ => state
  }

  /** channel_reducer: each channel action sets its own field to the payload, and
      a field changes only under its own action. */
  function ChannelReducer(state: ChannelState, action: Action): (r: ChannelState)
    ensures r.currentChannel != state.currentChannel ==> action.SetCurrentChannel?
    ensures r.isPrivateChannel != state.isPrivateChannel ==> action.SetPrivateChannel?
    ensures r.userPosts != state.userPosts ==> action.SetUserPosts?
    ensures action.SetCurrentChannel? ==> r.currentChannel == action.currentChannel
    ensures action.SetPrivateChannel? ==> r.isPrivateChannel == action.isPrivateChannel
    ensures action.SetUserPosts? ==> r.userPosts == action.userPosts
  {
    match action
    case SetCurrentChannel(c) => state.(currentChannel := c)
    case SetPrivateChannel(p) => state.(isPrivateChannel := p)
    case SetUserPosts(posts) => state.(userPosts := posts)
    case _ => state
  }

  /** colors_reducer: SET_COLORS replaces both colours, whatever they were; any
      other action leaves them. */
  function ColorsReducer(state: ColorsState, action: Action): (r: ColorsState)
    ensures action.SetColors? ==> r.primaryColor == action.primaryColor && r.secondaryColor == action.secondaryColor
    ensures !action.SetColors? ==> r == state
  {
    match action
    case SetColors(p, s) => ColorsState(p, s)
    case _ => state
  }

  /** One dispatch on the combined store: every slice reducer sees every action,
      so an action for one slice leaves the other two unchanged. */
  function Step(store: Store, action: Action): (r: Store)
    ensures SliceOf(action) != UserSlice ==> r.user == store.user
    ensures SliceOf(action) != ChannelSlice ==> r.channel == store.channel
    ensures SliceOf(action) != ColorsSlice ==> r.colors == store.colors
  {
    Store(UserReducer(store.user, action), ChannelReducer(store.channel, action), ColorsReducer(store.colors, action))
  }

  /** The slice an action is meant for. */
  datatype Slice = UserSlice | ChannelSlice | ColorsSlice | NoSlice

  function SliceOf(action: Action): Slice
  {
    match action
    case SetUser(_) => UserSlice
    case ClearUser => UserSlice
    case SetCurrentChannel(_) => ChannelSlice
    case SetPrivateChannel(_) => ChannelSlice
    case SetUserPosts(_) => ChannelSlice
    case SetColors(_, _) => ColorsSlice
    case Other(_) => NoSlice
  }

  // ---------------------------------------------------------------------
  // Properties of the reducers
  // ---------------------------------------------------------------------

  /** An action nobody handles returns the store as it was. */
  lemma UnhandledActionIsIdentity(store: Store, t: string)
    ensures Step(store, Other(t)) == store
  {
  }

  /** Every action of the store is idempotent: dispatching it twice is dispatching it once. */
  lemma StepIdempotent(store: Store, action: Action)
    ensures Step(Step(store, action), action) == Step(store, action)
  {
  }

  /** The store Redux builds before any action of the application. */
  lemma InitialStoreValues()
    ensures InitialStore.user.currentUser.None? && InitialStore.user.isLoading
    ensures InitialStore.channel == ChannelState(None, false, None)
    ensures InitialStore.colors.primaryColor == "#4c3c4c" && InitialStore.colors.secondaryColor == "#eee"
    ensures Step(InitialStore, Other("@@redux/INIT")) == InitialStore
  {
  }
}
