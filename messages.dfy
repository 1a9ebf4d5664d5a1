/** The Messages view of src/components/Messages/Messages.js: the local state it
    derives from the backend's event streams (loaded messages, unique authors,
    per-author tallies, typing users, search results) and the registry of the
    listeners it must switch off again. Backend subscriptions are left to the
    caller: each callback the view registers is a method here. */
module Messages {
  import opened Common
  import opened Entities
  import Reducers

  // ---------------------------------------------------------------------
  // Distinct authors and the "N user(s)" label (countUniqueUsers)
  // ---------------------------------------------------------------------

  /** The author names of the messages, in message order. */
  function Names(msgs: seq<Message>): (r: seq<string>)
    ensures |r| == |msgs|
    ensures forall i :: 0 <= i < |msgs| ==> r[i] == msgs[i].user.name
  {
    seq(|msgs|, i requires 0 <= i < |msgs| => msgs[i].user.name)
  }

  lemma NamesPrefix(msgs: seq<Message>, i: nat)
    requires i < |msgs|
    ensures Names(msgs[..i + 1]) == Names(msgs[..i]) + [msgs[i].user.name]
  {
  }

  /** The names in order of first appearance, each once: what the `reduce` in
      countUniqueUsers accumulates, one message at a time. */
  function Dedup(s: seq<string>): (r: seq<string>)
    ensures forall x :: x in r <==> x in s
    ensures NoDup(r)
    decreases |s|
  {
    if s == [] then []
    else
      var d := Dedup(s[..|s| - 1]);
      var x := s[|s| - 1];
      assert s == s[..|s| - 1] + [x];
      if x in d then d else d + [x]
  }

  /** Dedup lists the names in the order in which they first appear. */
  lemma {:induction false} DedupFirstAppearance(s: seq<string>)
    ensures forall i, j :: 0 <= i < j < |Dedup(s)| ==> FirstIndex(s, Dedup(s)[i]) < FirstIndex(s, Dedup(s)[j])
    decreases |s|
  {
    if s != [] {
      var init, x := s[..|s| - 1], s[|s| - 1];
      assert s == init + [x];
      DedupFirstAppearance(init);
      var d := Dedup(init);
      forall y | y in init ensures FirstIndex(s, y) == FirstIndex(init, y) {
        FirstIndexExtend(init, x, y);
      }
      if x !in init {
        assert FirstIndex(s, x) == |init|;
      }
    }
  }

  lemma FirstIndexExtend(init: seq<string>, x: string, y: string)
    requires y in init
    ensures FirstIndex(init + [x], y) == FirstIndex(init, y)
  {
    var k1, k2 := FirstIndex(init, y), FirstIndex(init + [x], y);
    assert (init + [x])[k1] == y;
  }

  /** The number of unique authors is the number of distinct names. */
  lemma DedupLength(s: seq<string>)
    ensures |Dedup(s)| == |Elements(s)|
  {
    NoDupLength(Dedup(s));
    assert Elements(Dedup(s)) == Elements(s);
  }

  /** The unique-author count does not depend on the order of the messages. */
  lemma UniqueCountOrderIndependent(s: seq<string>, t: seq<string>)
    requires multiset(s) == multiset(t)
    ensures |Dedup(s)| == |Dedup(t)|
  {
    DedupLength(s);
    DedupLength(t);
    assert forall x :: x in s <==> x in multiset(s);
    assert forall x :: x in t <==> x in multiset(t);
    assert Elements(s) == Elements(t);
  }

  /** `${n} user${plural ? "s" : ""}`, plural when n > 1 or n === 0: the count in
      decimal, then " user", then an "s" exactly when the count is not one. */
  function UsersLabel(n: nat): (r: string)
    ensures var d := DecimalString(n);
            && |r| == |d| + (if n == 1 then 5 else 6)
            && r[..|d|] == d && r[|d|..|d| + 5] == " user"
            && (r[|r| - 1] == 's' <==> n != 1)
  {
    var plural := n > 1 || n == 0;
    DecimalString(n) + " user" + (if plural then "s" else "")
  }

  /** The label tells the count apart: different counts get different labels. */
  lemma UsersLabelInjective(a: nat, b: nat)
    requires UsersLabel(a) == UsersLabel(b)
    ensures a == b
  {
    var la := UsersLabel(a);
    if (a == 1) == (b == 1) {
      var k := if a == 1 then 5 else 6;
      assert DecimalString(a) == la[..|la| - k] == DecimalString(b);
      DecimalStringInjective(a, b);
    }
  }

  /** countUniqueUsers: the label for the number of distinct authors. */
  method CountUniqueUsers(msgs: seq<Message>) returns (usersLabel: string)
    ensures usersLabel == UsersLabel(|Elements(Names(msgs))|)
  {
    var uniqueUsers: seq<string> := [];
    var i := 0;
    while i < |msgs|
      invariant 0 <= i <= |msgs|
      invariant uniqueUsers == Dedup(Names(msgs[..i]))
    {
      NamesPrefix(msgs, i);
      var name := msgs[i].user.name;
      if name !in uniqueUsers {
        uniqueUsers := uniqueUsers + [name];
      }
      i := i + 1;
    }
    assert msgs[..|msgs|] == msgs;
    DedupLength(Names(msgs));
    usersLabel := UsersLabel(|uniqueUsers|);
  }

  // ---------------------------------------------------------------------
  // Per-author post tally (countUserPosts)
  // ---------------------------------------------------------------------

  /** The tally that the `reduce` in countUserPosts builds, one message at a time:
      a known author's count goes up by one, a new author gets the avatar of
      this message and a count of one. */
  function Tally(msgs: seq<Message>): (r: map<string, PostTally>)
    ensures forall n :: n in r ==> r[n].count >= 1
    decreases |msgs|
  {
    if msgs == [] then map[]
    else
      var t := Tally(msgs[..|msgs| - 1]);
      var m := msgs[|msgs| - 1];
      if m.user.name in t then t[m.user.name := PostTally(t[m.user.name].avatar, t[m.user.name].count + 1)]
      else t[m.user.name := PostTally(m.user.avatar, 1)]
  }

  /** The tally has an entry for exactly the authors, counts each author's
      messages, and keeps the avatar of the author's first message. */
  lemma {:induction false} TallyCorrect(msgs: seq<Message>)
    ensures Tally(msgs).Keys == Elements(Names(msgs))
    ensures forall n :: n in Tally(msgs) ==> Tally(msgs)[n].count == multiset(Names(msgs))[n]
    ensures forall n :: n in Tally(msgs) ==> Tally(msgs)[n].avatar == msgs[FirstIndex(Names(msgs), n)].user.avatar
    decreases |msgs|
  {
    if msgs != [] {
      var init, m := msgs[..|msgs| - 1], msgs[|msgs| - 1];
      TallyCorrect(init);
      NamesPrefix(msgs, |msgs| - 1);
      assert msgs[..|msgs|] == msgs;
      var s := Names(msgs);
      assert s == Names(init) + [m.user.name];
      forall n | n in Tally(msgs)
        ensures Tally(msgs)[n].avatar == msgs[FirstIndex(s, n)].user.avatar
      {
        if n in Names(init) {
          FirstIndexExtend(Names(init), m.user.name, n);
          assert msgs[FirstIndex(s, n)] == init[FirstIndex(Names(init), n)];
        } else {
          assert FirstIndex(s, n) == |init|;
        }
      }
    }
  }

  /** The sum of the counts of the given keys. */
  function SumCounts(t: map<string, PostTally>, keys: seq<string>): int
    requires forall k :: k in keys ==> k in t
    decreases |keys|
  {
    if keys == [] then 0 else t[keys[0]].count + SumCounts(t, keys[1..])
  }

  /** The sum of the multiplicities of the given keys. */
  function SumMultiplicity(keys: seq<string>, m: multiset<string>): int
    decreases |keys|
  {
    if keys == [] then 0 else m[keys[0]] + SumMultiplicity(keys[1..], m)
  }

  lemma {:induction false} SumMultiplicityAdd(keys: seq<string>, m: multiset<string>, x: string)
    requires NoDup(keys)
    ensures SumMultiplicity(keys, m + multiset{x}) == SumMultiplicity(keys, m) + (if x in keys then 1 else 0)
    decreases |keys|
  {
    if keys != [] {
      assert NoDup(keys[1..]);
      SumMultiplicityAdd(keys[1..], m, x);
      assert x in keys <==> x == keys[0] || x in keys[1..];
      assert keys[0] !in keys[1..];
    }
  }

  /** Counting every element of `s` once per distinct key gives |s|. */
  lemma {:induction false} SumMultiplicityCovers(keys: seq<string>, s: seq<string>)
    requires NoDup(keys)
    requires forall x :: x in s ==> x in keys
    ensures SumMultiplicity(keys, multiset(s)) == |s|
    decreases |s|
  {
    if s == [] {
      SumMultiplicityEmpty(keys);
    } else {
      var init, x := s[..|s| - 1], s[|s| - 1];
      assert s == init + [x];
      assert multiset(s) == multiset(init) + multiset{x};
      SumMultiplicityCovers(keys, init);
      SumMultiplicityAdd(keys, multiset(init), x);
    }
  }

  lemma {:induction false} SumMultiplicityEmpty(keys: seq<string>)
    ensures SumMultiplicity(keys, multiset{}) == 0
    decreases |keys|
  {
    if keys != [] {
      SumMultiplicityEmpty(keys[1..]);
    }
  }

  lemma {:induction false} SumCountsIsSumMultiplicity(t: map<string, PostTally>, keys: seq<string>, m: multiset<string>)
    requires forall k :: k in keys ==> k in t && t[k].count == m[k]
    ensures SumCounts(t, keys) == SumMultiplicity(keys, m)
    decreases |keys|
  {
    if keys != [] {
      SumCountsIsSumMultiplicity(t, keys[1..], m);
    }
  }

  /** The per-author counts, summed over the distinct authors (listed here in
      order of first appearance), add up to the number of messages. */
  lemma TallySumIsMessageCount(msgs: seq<Message>)
    ensures forall k :: k in Dedup(Names(msgs)) ==> k in Tally(msgs)
    ensures SumCounts(Tally(msgs), Dedup(Names(msgs))) == |msgs|
  {
    var keys := Dedup(Names(msgs));
    TallyCorrect(msgs);
    SumCountsIsSumMultiplicity(Tally(msgs), keys, multiset(Names(msgs)));
    SumMultiplicityCovers(keys, Names(msgs));
  }

  /** countUserPosts: the tally of the messages, as a loop over them. */
  method CountUserPosts(msgs: seq<Message>) returns (userPosts: map<string, PostTally>)
    ensures userPosts == Tally(msgs)
  {
    userPosts := map[];
    var i := 0;
    while i < |msgs|
      invariant 0 <= i <= |msgs|
      invariant userPosts == Tally(msgs[..i])
    {
      assert msgs[..i + 1][..i] == msgs[..i];
      var name := msgs[i].user.name;
      if name in userPosts {
        userPosts := userPosts[name := PostTally(userPosts[name].avatar, userPosts[name].count + 1)];
      } else {
        userPosts := userPosts[name := PostTally(msgs[i].user.avatar, 1)];
      }
      i := i + 1;
    }
    assert msgs[..|msgs|] == msgs;
  }

  // ---------------------------------------------------------------------
  // The listener registry (addToListeners)
  // ---------------------------------------------------------------------

  /** The database locations the view listens on. */
  datatype DbRef = MessagesRef | PrivateMessagesRef | TypingRef

  datatype Event = ChildAdded | ChildRemoved

  datatype Listener = Listener(id: string, ref: DbRef, event: Event)

  /** The registry after one addToListeners: the triple is appended unless an equal one is there. */
  function Registered(listeners: seq<Listener>, l: Listener): (r: seq<Listener>)
    ensures l in r
    ensures l in listeners ==> r == listeners
    ensures NoDup(listeners) ==> NoDup(r)
    ensures |listeners| <= |r| <= |listeners| + 1 && r[..|listeners|] == listeners
  {
    if l in listeners then listeners else listeners + [l]
  }

  /** The three listeners addListeners registers for a channel, in call order. */
  function MountListeners(channelId: string, messagesRef: DbRef): (r: seq<Listener>)
    ensures |r| == 3 && (messagesRef != TypingRef ==> NoDup(r))
    ensures forall l :: l in r ==> l.id == channelId
    ensures r[0].ref == messagesRef && r[0].event == ChildAdded
    ensures r[1].ref == TypingRef && r[1].event == ChildAdded
    ensures r[2].ref == TypingRef && r[2].event == ChildRemoved
  {
    [Listener(channelId, messagesRef, ChildAdded),
     Listener(channelId, TypingRef, ChildAdded),
     Listener(channelId, TypingRef, ChildRemoved)]
  }

  /** Registering listeners one after the other, each call seeing the registry
      the previous one left. */
  function MountRegistry(listeners: seq<Listener>, pending: seq<Listener>): (r: seq<Listener>)
    ensures |listeners| <= |r| <= |listeners| + |pending| && r[..|listeners|] == listeners
    decreases |pending|
  {
    if pending == [] then listeners
    else Registered(MountRegistry(listeners, pending[..|pending| - 1]), pending[|pending| - 1])
  }

  /** Sequential registration keeps the registry free of duplicates, keeps what
      was there, and records every pending listener. */
  lemma {:induction false} MountRegistryComplete(listeners: seq<Listener>, pending: seq<Listener>)
    requires NoDup(listeners)
    ensures NoDup(MountRegistry(listeners, pending))
    ensures forall l :: l in listeners || l in pending ==> l in MountRegistry(listeners, pending)
    ensures forall l :: l in MountRegistry(listeners, pending) ==> l in listeners || l in pending
    decreases |pending|
  {
    if pending != [] {
      var init := pending[..|pending| - 1];
      MountRegistryComplete(listeners, init);
      assert pending == init + [pending[|pending| - 1]];
    }
  }

  /** As written, componentDidMount calls addToListeners three times while
      React batches the state updates: every call reads the same registry
      snapshot and writes snapshot + [its listener], and the last write wins. */
  function MountRegistryBatched(snapshot: seq<Listener>, pending: seq<Listener>): (r: seq<Listener>)
    ensures |snapshot| <= |r| <= |snapshot| + 1 && r[..|snapshot|] == snapshot
    ensures |r| == |snapshot| + 1 ==> r[|snapshot|] in pending
    decreases |pending|
  {
    if pending == [] then snapshot
    else
      var l := pending[|pending| - 1];
      if l in snapshot then MountRegistryBatched(snapshot, pending[..|pending| - 1])
      else snapshot + [l]
  }

  /** With the batched updates only the last listener is recorded: the
      message listener and the typing child_added listener are never switched
      off by removeListeners. */
  lemma MountRegistryBatchedLeaks(channelId: string, messagesRef: DbRef)
    ensures MountRegistryBatched([], MountListeners(channelId, messagesRef)) == [Listener(channelId, TypingRef, ChildRemoved)]
    ensures Listener(channelId, messagesRef, ChildAdded) !in MountRegistryBatched([], MountListeners(channelId, messagesRef))
    ensures Listener(channelId, messagesRef, ChildAdded) in MountRegistry([], MountListeners(channelId, messagesRef))
  {
    var pending := MountListeners(channelId, messagesRef);
    var last := Listener(channelId, TypingRef, ChildRemoved);
    assert pending[|pending| - 1] == last && last !in [];
    assert MountRegistryBatched([], pending) == [] + [last];
    MountRegistryComplete([], pending);
    assert pending[0] in pending;
  }

  // ---------------------------------------------------------------------
  // Typing users, search, channel name, message store
  // ---------------------------------------------------------------------

  /** A user shown as typing: the presence entry's key and value. */
  datatype TypingUser = TypingUser(id: string, name: string)

  /** child_removed on the typing location: drop every entry with that id. */
  function WithoutTypingUser(users: seq<TypingUser>, id: string): (r: seq<TypingUser>)
    ensures |r| <= |users|
    ensures forall u :: u in r <==> u in users && u.id != id
    ensures forall u :: multiset(r)[u] == if u.id != id then multiset(users)[u] else 0
    ensures (forall i :: 0 <= i < |users| ==> users[i].id != id) ==> r == users
  {
    var keep := (u: TypingUser) => u.id != id;
    assert forall u :: multiset(Filter(users, keep))[u] == if keep(u) then multiset(users)[u] else 0 by {
      forall u ensures multiset(Filter(users, keep))[u] == if keep(u) then multiset(users)[u] else 0 {
        FilterMultiplicity(users, keep, u);
      }
    }
    if forall i :: 0 <= i < |users| ==> users[i].id != id then FilterAll(users, keep); Filter(users, keep)
    else Filter(users, keep)
  }

  /** Removing a typing user keeps the order of the others: the removal
      distributes over concatenation. */
  lemma WithoutTypingUserKeepsOrder(users: seq<TypingUser>, more: seq<TypingUser>, id: string)
    ensures WithoutTypingUser(users + more, id) == WithoutTypingUser(users, id) + WithoutTypingUser(more, id)
  {
    FilterAppend(users, more, (u: TypingUser) => u.id != id);
  }

  /** A message matches the search when its non-empty content, or its author's
      name, matches the term. `matches` stands for the case-insensitive regular
      expression built from the term. Empty content is falsy and never tested. */
  predicate SearchHit(matches: (string, string) -> bool, term: string, m: Message)
    ensures matches(term, m.user.name) ==> SearchHit(matches, term, m)
    ensures m.content == "" ==> (SearchHit(matches, term, m) <==> matches(term, m.user.name))
    ensures m.content != "" && matches(term, m.content) ==> SearchHit(matches, term, m)
    ensures !matches(term, m.content) && !matches(term, m.user.name) ==> !SearchHit(matches, term, m)
  {
    (m.content != "" && matches(term, m.content)) || matches(term, m.user.name)
  }

  /** handleSearchMessages: the messages that match, in their loaded order. */
  function SearchMessages(msgs: seq<Message>, term: string, matches: (string, string) -> bool): (r: seq<Message>)
    ensures |r| <= |msgs|
    ensures forall m :: m in r <==> m in msgs && SearchHit(matches, term, m)
  {
    Filter(msgs, m => SearchHit(matches, term, m))
  }

  /** The search keeps each matching message exactly as often as it was loaded,
      drops every other one, and keeps the order (it distributes over
      concatenation). */
  lemma SearchResultsExact(msgs: seq<Message>, more: seq<Message>, term: string, matches: (string, string) -> bool, m: Message)
    ensures multiset(SearchMessages(msgs, term, matches))[m] == if SearchHit(matches, term, m) then multiset(msgs)[m] else 0
    ensures SearchMessages(msgs + more, term, matches) == SearchMessages(msgs, term, matches) + SearchMessages(more, term, matches)
  {
    FilterMultiplicity(msgs, m => SearchHit(matches, term, m), m);
    FilterAppend(msgs, more, m => SearchHit(matches, term, m));
  }

  /** displayChannelName: "@name" for a private channel, "#name" otherwise, "" without a channel. */
  function DisplayChannelName(channel: Option<Channel>, privateChannel: bool): (r: string)
    ensures channel.None? <==> r == ""
    ensures channel.Some? ==> r[1..] == channel.value.name && (r[0] == '@' <==> privateChannel)
    ensures channel.Some? ==> r[0] == (if privateChannel then '@' else '#')
  {
    if channel.Some? then (if privateChannel then "@" else "#") + channel.value.name else ""
  }

  /** getMessagesRef: the private store exactly for a private channel. */
  function GetMessagesRef(privateChannel: bool): (r: DbRef)
    ensures r == PrivateMessagesRef <==> privateChannel
    ensures r == MessagesRef <==> !privateChannel
  {
    if privateChannel then PrivateMessagesRef else MessagesRef
  }

  /** The write starChannel issues after handleStar flipped the flag. */
  datatype StarWrite =
    | StarChannel(uid: string, channelId: string, name: string, details: string, creatorName: string, creatorAvatar: Option<string>)
    | UnstarChannel(uid: string, channelId: string)

  // ---------------------------------------------------------------------
  // The component's state
  // ---------------------------------------------------------------------

  class MessagesView {
    var privateChannel: bool
    var channel: Option<Channel>
    var currentUser: Option<User>
    var isChannelStarred: bool
    var messages: seq<Message>
    var messagesLoading: bool
    var progressBar: bool
    var numUniqueUsers: string
    var searchResults: seq<Message>
    var searchTerm: string
    var searchLoading: bool
    var typingUsers: seq<TypingUser>
    var listeners: seq<Listener>

    /** The initial state, taken from the props. */
    constructor (isPrivateChannel: bool, currentChannel: Option<Channel>, user: Option<User>)
      ensures privateChannel == isPrivateChannel && channel == currentChannel && currentUser == user
      ensures !isChannelStarred && messages == [] && messagesLoading && !progressBar
      ensures numUniqueUsers == "" && searchResults == [] && searchTerm == "" && !searchLoading
      ensures typingUsers == [] && listeners == []
    {
      privateChannel := isPrivateChannel;
      channel := currentChannel;
      currentUser := user;
      isChannelStarred := false;
      messages := [];
      messagesLoading := true;
      progressBar := false;
      numUniqueUsers := "";
      searchResults := [];
      searchTerm := "";
      searchLoading := false;
      typingUsers := [];
      listeners := [];
    }

    /** componentDidMount: with a channel and a user, register the message and
        typing listeners (one registration after the other). */
    method ComponentDidMount()
      modifies this`listeners
      ensures channel.Some? && currentUser.Some? ==>
        listeners == MountRegistry(old(listeners), MountListeners(channel.value.id, GetMessagesRef(privateChannel)))
      ensures channel.None? || currentUser.None? ==> listeners == old(listeners)
    {
      if channel.Some? && currentUser.Some? {
        var id := channel.value.id;
        var pending := MountListeners(id, GetMessagesRef(privateChannel));
        ghost var before := listeners;
        AddToListeners(id, GetMessagesRef(privateChannel), ChildAdded);
        assert pending[..1][..0] == [];
        assert listeners == MountRegistry(before, pending[..1]);
        AddToListeners(id, TypingRef, ChildAdded);
        assert pending[..2][..1] == pending[..1];
        assert listeners == MountRegistry(before, pending[..2]);
        AddToListeners(id, TypingRef, ChildRemoved);
        assert pending[..3][..2] == pending[..2] && pending[..3] == pending;
      }
    }

    /** addToListeners: record the triple unless an equal one is already recorded. */
    method AddToListeners(id: string, ref: DbRef, event: Event)
      modifies this`listeners
      ensures listeners == Registered(old(listeners), Listener(id, ref, event))
    {
      var l := Listener(id, ref, event);
      var index := FindIndex(listeners, (x: Listener) => x == l);
      if index == -1 {
        listeners := listeners + [l];
      }
    }

    /** The typing child_added callback: anyone but the current user is appended. */
    method OnTypingAdded(key: string, name: string)
      requires currentUser.Some?
      modifies this`typingUsers
      ensures typingUsers == if key == currentUser.value.uid then old(typingUsers)
                             else old(typingUsers) + [TypingUser(key, name)]
    {
      if key != currentUser.value.uid {
        typingUsers := typingUsers + [TypingUser(key, name)];
      }
    }

    /** The typing child_removed callback: drop the entries with that key, if any. */
    method OnTypingRemoved(key: string)
      modifies this`typingUsers
      ensures typingUsers == WithoutTypingUser(old(typingUsers), key)
    {
      var index := FindIndex(typingUsers, (u: TypingUser) => u.id == key);
      if index != -1 {
        typingUsers := Filter(typingUsers, (u: TypingUser) => u.id != key);
      }
    }

    /** The message child_added callback: append the message in delivery order,
        end loading, recompute the author label, and dispatch the tally. */
    method OnMessageAdded(m: Message) returns (action: Reducers.Action)
      modifies this`messages, this`messagesLoading, this`numUniqueUsers
      ensures messages == old(messages) + [m] && !messagesLoading
      ensures numUniqueUsers == UsersLabel(|Elements(Names(messages))|)
      ensures action == Reducers.SetUserPosts(Some(Tally(messages)))
    {
      messages := messages + [m];
      messagesLoading := false;
      numUniqueUsers := CountUniqueUsers(messages);
      var userPosts := CountUserPosts(messages);
      action := Reducers.SetUserPosts(Some(userPosts));
    }

    /** addUserStarsListener's callback: the starred channel ids of the user, when there are any. */
    method OnStarredLoaded(channelId: string, starred: Option<set<string>>)
      modifies this`isChannelStarred
      ensures isChannelStarred == if starred.Some? then channelId in starred.value else old(isChannelStarred)
    {
      if starred.Some? {
        isChannelStarred := channelId in starred.value;
      }
    }

    /** handleStar, followed by starChannel: flip the flag, then star or unstar.
        starChannel reads the user's uid, the channel's id and, when starring,
        the channel's creator; where one of them is missing it throws after the
        flag has flipped, and no write is issued. */
    method HandleStar() returns (write: Option<StarWrite>)
      modifies this`isChannelStarred
      ensures isChannelStarred == !old(isChannelStarred)
      ensures write.Some? <==>
        channel.Some? && currentUser.Some? && (isChannelStarred ==> channel.value.createdBy.Some?)
      ensures write.Some? ==>
        && (write.value.StarChannel? <==> isChannelStarred)
        && write.value.uid == currentUser.value.uid && write.value.channelId == channel.value.id
      ensures write.Some? && write.value.StarChannel? ==>
        && write.value.name == channel.value.name && write.value.details == channel.value.details
        && write.value.creatorName == channel.value.createdBy.value.name
        && write.value.creatorAvatar == channel.value.createdBy.value.avatar
    {
      isChannelStarred := !isChannelStarred;
      if channel.None? || currentUser.None? {
        write := None;
      } else {
        var c := channel.value;
        if isChannelStarred {
          if c.createdBy.None? {
            write := None;
          } else {
            write := Some(StarChannel(currentUser.value.uid, c.id, c.name, c.details, c.createdBy.value.name, c.createdBy.value.avatar));
          }
        } else {
          write := Some(UnstarChannel(currentUser.value.uid, c.id));
        }
      }
    }

    /** handleSearchChange and then handleSearchMessages over the loaded messages. */
    method HandleSearchChange(term: string, matches: (string, string) -> bool)
      modifies this`searchTerm, this`searchLoading, this`searchResults
      ensures searchTerm == term && searchLoading
      ensures searchResults == SearchMessages(messages, term, matches)
    {
      searchTerm := term;
      searchLoading := true;
      searchResults := SearchMessages(messages, term, matches);
    }

    /** The timer that ends the search spinner. */
    method OnSearchTimeout()
      modifies this`searchLoading
      ensures !searchLoading
    {
      searchLoading := false;
    }

    /** isProgressBarVisible: the bar appears once an upload reports progress. */
    method IsProgressBarVisible(percent: real)
      modifies this`progressBar
      ensures progressBar == (old(progressBar) || percent > 0.0)
    {
      if percent > 0.0 {
        progressBar := true;
      }
    }

    /** What render lists: the search results while a term is entered, else all messages. */
    function DisplayedMessages(): (r: seq<Message>)
      reads this
      ensures searchTerm == "" ==> r == messages
      ensures searchTerm != "" ==> r == searchResults
    {
      if searchTerm != "" then searchResults else messages
    }
  }
}
