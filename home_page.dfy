/**
 * The `Home` page component: the login gate, logout, community creation and
 * the two message lists, with the newest-first display order.
 */
module HomePage {
  import opened Common
  import opened Text

  /** One stored message: the text as typed and the display time at sending. */
  datatype ChatMessage = ChatMessage(text: string, time: string)

  /** `slice().reverse()`: a reversed copy. */
  function NewestFirst(s: seq<ChatMessage>): (r: seq<ChatMessage>)
    ensures |r| == |s|
    ensures forall k :: 0 <= k < |s| ==> r[k] == s[|s| - 1 - k]
  {
    if s == [] then [] else NewestFirst(s[1..]) + [s[0]]
  }

  /** Reversing the displayed copy gives back the stored order: displaying loses and reorders nothing. */
  lemma NewestFirstRestores(s: seq<ChatMessage>)
    ensures NewestFirst(NewestFirst(s)) == s
  {
  }

  /** The newest message (the last appended) is displayed first. */
  lemma NewestShownFirst(s: seq<ChatMessage>, m: ChatMessage)
    ensures NewestFirst(s + [m]) == [m] + NewestFirst(s)
  {
    var r := NewestFirst(s + [m]);
    assert r[0] == m;
    assert r[1..] == NewestFirst(s);
  }

  /** No name is listed twice: the first is not among the rest, and so on down the list. */
  predicate NoDuplicates(s: seq<string>) {
    s == [] || (s[0] !in s[1..] && NoDuplicates(s[1..]))
  }

  /** Appending a name that is not yet listed keeps a list duplicate-free. */
  lemma {:induction false} AppendFreshKeepsDistinct(s: seq<string>, x: string)
    requires NoDuplicates(s) && x !in s
    ensures NoDuplicates(s + [x])
  {
    if s != [] {
      assert (s + [x])[1..] == s[1..] + [x];
      AppendFreshKeepsDistinct(s[1..], x);
    }
  }

  /** The duplicate-free reading of `NoDuplicates`: distinct positions hold distinct names. */
  lemma {:induction false} NoDuplicatesDistinct(s: seq<string>)
    requires NoDuplicates(s)
    ensures forall i, j :: 0 <= i < j < |s| ==> s[i] != s[j]
  {
    if s != [] {
      NoDuplicatesDistinct(s[1..]);
      assert forall j :: 0 < j < |s| ==> s[j] == s[1..][j - 1];
    }
  }

  /** What `handleCreateCommunity` can add: a non-empty name with no white space at either end. */
  predicate IsCommunityName(c: string) {
    c != [] && !IsSpace(c[0]) && !IsSpace(c[|c| - 1])
  }

  /** Such a name is its own trimmed form. */
  lemma CommunityNameIsTrimmed(c: string)
    requires IsCommunityName(c)
    ensures Trim(c) == c
  {
    TrimFixed(c);
  }

  /** Every listed community has a name as `handleCreateCommunity` makes them. */
  ghost predicate AllCommunityNames(communities: seq<string>) {
    forall c :: c in communities ==> IsCommunityName(c)
  }

  /** Appending a trimmed, non-blank name keeps every listed name one. */
  lemma AddCommunityKeepsNames(communities: seq<string>, name: string)
    requires AllCommunityNames(communities) && IsCommunityName(name)
    ensures AllCommunityNames(communities + [name])
  {
  }

  /**
   * The communities are distinct, each has a message list and no other list
   * exists, and the open community is one of them.
   */
  ghost predicate Consistent(communities: seq<string>, lists: map<string, seq<ChatMessage>>, current: Option<string>) {
    && NoDuplicates(communities)
    && (forall c :: c in lists <==> c in communities)
    && (current.Some? ==> current.value in communities)
  }

  /** Adding a fresh community with an empty list keeps the page consistent. */
  lemma AddCommunityKeepsConsistent(communities: seq<string>, lists: map<string, seq<ChatMessage>>, current: Option<string>, name: string)
    requires Consistent(communities, lists, current)
    requires name !in communities
    ensures Consistent(communities + [name], lists[name := []], current)
  {
    AppendFreshKeepsDistinct(communities, name);
  }

  /** The page's twelve `useState` values at one moment. */
  datatype HomeState = HomeState(
    isLoggedIn: bool,
    showLogin: bool,
    username: string,
    password: string,
    chatStarted: bool,
    anonymousMessages: seq<ChatMessage>,
    communityMode: bool,
    communities: seq<string>,
    communityName: string,
    currentCommunity: Option<string>,
    communityMessages: map<string, seq<ChatMessage>>,
    input: string)

  class Home {
    var isLoggedIn: bool
    var showLogin: bool
    var username: string
    var password: string
    var chatStarted: bool
    var anonymousMessages: seq<ChatMessage>
    var communityMode: bool
    var communities: seq<string>
    var communityName: string
    var currentCommunity: Option<string>
    var communityMessages: map<string, seq<ChatMessage>>
    var input: string

    /** Every field at once, so that each handler can state its whole new state. */
    ghost function Fields(): HomeState
      reads this
    {
      HomeState(isLoggedIn, showLogin, username, password, chatStarted, anonymousMessages,
                communityMode, communities, communityName, currentCommunity, communityMessages, input)
    }

    ghost predicate Valid()
      reads this
    {
      Consistent(communities, communityMessages, currentCommunity)
    }

    /**
     * Every listed community name is trimmed and non-blank. Only
     * `HandleCreateCommunity` changes `communities`; every other method
     * promises to leave it as it was.
     */
    ghost predicate NamesTrimmed()
      reads this
    {
      AllCommunityNames(communities)
    }

    constructor ()
      ensures Valid() && NamesTrimmed()
      ensures Fields() == HomeState(false, true, [], [], false, [], false, [], [], None, map[], [])
    {
      isLoggedIn, showLogin, username, password, chatStarted := false, true, [], [], false;
      anonymousMessages, communityMode, communities, communityName := [], false, [], [];
      currentCommunity, communityMessages, input := None, map[], [];
    }

    method SetUsername(text: string)
      modifies this
      ensures Fields() == old(Fields()).(username := text)
    {
      username := text;
    }

    method SetPassword(text: string)
      modifies this
      ensures Fields() == old(Fields()).(password := text)
    {
      password := text;
    }

    method SetCommunityName(text: string)
      modifies this
      ensures Fields() == old(Fields()).(communityName := text)
    {
      communityName := text;
    }

    method SetInput(text: string)
      modifies this
      ensures Fields() == old(Fields()).(input := text)
    {
      input := text;
    }

    /** `handleAuth`: logs in only when both trimmed fields are non-empty, then clears both; otherwise changes nothing. */
    method HandleAuth()
      modifies this
      ensures isLoggedIn == (old(isLoggedIn) || (Trim(old(username)) != [] && Trim(old(password)) != []))
      ensures Fields() ==
        if Trim(old(username)) != [] && Trim(old(password)) != [] then
          old(Fields()).(isLoggedIn := true, username := [], password := [])
        else
          old(Fields())
    {
      if Trim(username) != [] && Trim(password) != [] {
        isLoggedIn := true;
        username := [];
        password := [];
      }
    }

    /** `handleLogout`: back to the login screen; the communities, every stored message and the input fields are kept. */
    method HandleLogout()
      requires Valid()
      modifies this
      ensures Valid()
      ensures Fields() == old(Fields()).(isLoggedIn := false, chatStarted := false, communityMode := false, currentCommunity := None)
    {
      isLoggedIn := false;
      chatStarted := false;
      communityMode := false;
      currentCommunity := None;
    }

    /**
     * `handleCreateCommunity`: a blank or already listed trimmed name changes
     * nothing; otherwise the trimmed name is appended, given an empty message
     * list, and the name field is cleared.
     */
    method HandleCreateCommunity()
      requires Valid() && NamesTrimmed()
      modifies this
      ensures Valid() && NamesTrimmed()
      ensures var name := Trim(old(communityName));
        Fields() ==
          if name == [] || name in old(communities) then
            old(Fields())
          else
            old(Fields()).(communities := old(communities) + [name],
                           communityMessages := old(communityMessages)[name := []],
                           communityName := [])
    {
      var name := Trim(communityName);
      if name == [] || name in communities {
        return;
      }
      AddCommunityKeepsConsistent(communities, communityMessages, currentCommunity, name);
      AddCommunityKeepsNames(communities, name);
      communities := communities + [name];
      communityMessages := communityMessages[name := []];
      communityName := [];
      assert Valid();
      assert NamesTrimmed();
    }

    /** The community buttons: open one of the listed communities. */
    method SelectCommunity(c: string)
      requires Valid() && c in communities
      modifies this
      ensures Valid()
      ensures Fields() == old(Fields()).(currentCommunity := Some(c))
    {
      currentCommunity := Some(c);
    }

    /** "Back to Communities". */
    method LeaveCommunity()
      requires Valid()
      modifies this
      ensures Valid()
      ensures Fields() == old(Fields()).(currentCommunity := None)
    {
      currentCommunity := None;
    }

    /** `handleSendAnonymousMessage`, with `getTime()` as a parameter: a non-blank input is appended as typed (untrimmed) and cleared. */
    method HandleSendAnonymousMessage(time: string)
      requires Valid()
      modifies this
      ensures Valid()
      ensures Fields() ==
        if Trim(old(input)) == [] then
          old(Fields())
        else
          old(Fields()).(anonymousMessages := old(anonymousMessages) + [ChatMessage(old(input), time)], input := [])
    {
      if Trim(input) == [] {
        return;
      }
      anonymousMessages := anonymousMessages + [ChatMessage(input, time)];
      input := [];
    }

    /**
     * `handleSendCommunityMessage`: refused with no open community (`null` or
     * the empty name, both falsy) or a blank input; otherwise only the open
     * community's list grows, by the input as typed at its end, and every
     * other community's list stays as it was.
     */
    method HandleSendCommunityMessage(time: string)
      requires Valid()
      modifies this
      ensures Valid()
      ensures Fields() ==
        if Trim(old(input)) == [] || old(currentCommunity) == None || old(currentCommunity) == Some([]) then
          old(Fields())
        else
          var c := old(currentCommunity).value;
          old(Fields()).(communityMessages := old(communityMessages)[c := old(communityMessages)[c] + [ChatMessage(old(input), time)]],
                         input := [])
      ensures forall d :: d in old(communityMessages) && Some(d) != old(currentCommunity) ==>
        d in communityMessages && communityMessages[d] == old(communityMessages)[d]
    {
      if Trim(input) == [] || currentCommunity == None || currentCommunity == Some([]) {
        return;
      }
      var c := currentCommunity.value;
      communityMessages := communityMessages[c := communityMessages[c] + [ChatMessage(input, time)]];
      input := [];
    }

    /** The anonymous chat list as rendered: newest first, on a copy. */
    function DisplayedAnonymous(): (r: seq<ChatMessage>)
      reads this
      ensures |r| == |anonymousMessages|
      ensures forall k :: 0 <= k < |r| ==> r[k] == anonymousMessages[|anonymousMessages| - 1 - k]
    {
      NewestFirst(anonymousMessages)
    }

    /** The open community's list as rendered: newest first, on a copy. */
    function DisplayedCommunity(): (r: seq<ChatMessage>)
      requires Valid() && currentCommunity.Some?
      reads this
      ensures var stored := communityMessages[currentCommunity.value];
        |r| == |stored| && forall k :: 0 <= k < |r| ==> r[k] == stored[|stored| - 1 - k]
    {
      NewestFirst(communityMessages[currentCommunity.value])
    }
  }
}
