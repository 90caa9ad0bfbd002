/** The page logic of the story-sharing client: the host name shown beside a story, the star
    and edit/delete controls of a rendered story, and the handlers that submit a story, toggle
    a favourite and edit a title. Rendering, animation and browser storage are not modelled. */
module Ui {
  import opened JsRuntime
  import opened ApiClasses

  // =========================================================================================
  // getHostName

  /** A string holding `://` at position `k` has at least three `/`-separated segments. */
  lemma SegmentsAroundColonSlashSlash(url: string, k: nat)
    requires k + 3 <= |url| && url[k..k + 3] == "://"
    ensures |Split(url, '/')| >= 3
  {
    var scheme, rest := url[..k] + [':'], url[k + 3..];
    var tail := [] + ['/'] + rest;
    assert url == scheme + ['/'] + tail by {
      assert url == url[..k] + url[k..k + 3] + rest;
    }
    SplitAround([], rest, '/');
    SplitAround(scheme, tail, '/');
  }

  /** A URL in which `://` occurs has at least three `/`-separated segments, since `://`
      itself holds two slashes. */
  lemma ThreeSegments(url: string)
    requires IndexOf(url, "://") > -1
    ensures |Split(url, '/')| >= 3
  {
    var k := IndexOf(url, "://");
    assert MatchAt(url, "://", k);
    SegmentsAroundColonSlashSlash(url, k);
  }

  /** `getHostName(url)`: the third `/`-separated segment when `://` occurs in the URL and
      the first one otherwise, without one leading "www.". It never contains a slash. */
  function GetHostName(url: string): (host: string)
    ensures '/' !in host
  {
    var parts := Split(url, '/');
    var hostName := if IndexOf(url, "://") > -1 then ThreeSegments(url); parts[2] else parts[0];
    if SlicePrefix(hostName, 4) == "www." then SliceFrom(hostName, 4) else hostName
  }

  /** `host` does not begin with "www.". */
  predicate NoWww(host: string) {
    |host| < 4 || host[..4] != "www."
  }

  /** The segments of `scheme://host` followed by a path that is empty or starts with `/`. */
  lemma AbsoluteSegments(scheme: string, host: string, path: string)
    requires '/' !in scheme && '/' !in host
    requires path == [] || path[0] == '/'
    ensures var url := scheme + "://" + host + path;
            IndexOf(url, "://") > -1 && |Split(url, '/')| >= 3 && Split(url, '/')[2] == host
  {
    var url := scheme + "://" + host + path;
    assert MatchAt(url, "://", |scheme|) by {
      assert url[|scheme|..|scheme| + 3] == "://";
    }
    var after := host + path;
    assert url == (scheme + [':']) + ['/'] + ([] + ['/'] + after);
    SplitAround(scheme + [':'], [] + ['/'] + after, '/');
    SplitAround([], after, '/');
    SplitWithoutSep(scheme + [':'], '/');
    if path == [] {
      assert after == host;
      SplitWithoutSep(host, '/');
    } else {
      assert after == host + ['/'] + path[1..];
      SplitAround(host, path[1..], '/');
      SplitWithoutSep(host, '/');
    }
  }

  /** An absolute URL gives its host as it stands when the host does not begin with "www.". */
  lemma HostOfAbsoluteUrl(scheme: string, host: string, path: string)
    requires '/' !in scheme && '/' !in host && NoWww(host)
    requires path == [] || path[0] == '/'
    ensures GetHostName(scheme + "://" + host + path) == host
  {
    AbsoluteSegments(scheme, host, path);
  }

  /** An absolute URL whose host begins with "www." loses exactly that one prefix, even when
      what follows begins with "www." again. */
  lemma HostOfWwwUrl(scheme: string, host: string, path: string)
    requires '/' !in scheme && '/' !in host
    requires path == [] || path[0] == '/'
    ensures GetHostName(scheme + "://www." + host + path) == host
  {
    assert scheme + "://www." + host + path == scheme + "://" + ("www." + host) + path;
    AbsoluteSegments(scheme, "www." + host, path);
  }

  /** The first segment of a separator-free host followed by a path that is empty or starts
      with `/` is the host. */
  lemma FirstSegment(host: string, path: string)
    requires '/' !in host
    requires path == [] || path[0] == '/'
    ensures Split(host + path, '/')[0] == host
  {
    SplitWithoutSep(host, '/');
    if path == [] {
      assert host + path == host;
    } else {
      assert host + path == host + ['/'] + path[1..];
      SplitAround(host, path[1..], '/');
    }
  }

  /** A URL without `://` gives its first segment. */
  lemma HostOfRelativeUrl(host: string, path: string)
    requires '/' !in host && NoWww(host)
    requires path == [] || path[0] == '/'
    requires IndexOf(host + path, "://") == -1
    ensures GetHostName(host + path) == host
  {
    FirstSegment(host, path);
  }

  /** A URL without `://` whose first segment begins with "www." loses exactly that prefix. */
  lemma HostOfRelativeWwwUrl(host: string, path: string)
    requires '/' !in host
    requires path == [] || path[0] == '/'
    requires IndexOf("www." + host + path, "://") == -1
    ensures GetHostName("www." + host + path) == host
  {
    assert '/' !in "www." + host;
    FirstSegment("www." + host, path);
  }

  /** The host name shown for "https://www.example.com/p". */
  lemma HostNameExample()
    ensures GetHostName("https://www.example.com/p") == "example.com"
  {
    assert "https://www.example.com/p" == "https" + "://www." + "example.com" + "/p";
    HostOfWwwUrl("https", "example.com", "/p");
  }

  // =========================================================================================
  // The controls of a rendered story (generateStoryHTML)

  /** The star's extra class: "yellow-star" exactly when there is a current user and one of
      their favourites has the story's id, "" otherwise. */
  function StarClass(currentUser: User?, story: Story): (yellow: string)
    reads currentUser
    ensures yellow == "yellow-star" <==>
              currentUser != null &&
              exists j :: 0 <= j < |currentUser.favorites| && currentUser.favorites[j].storyId == story.storyId
    ensures yellow == "" || yellow == "yellow-star"
  {
    if currentUser != null && HasId(currentUser.favorites, story.storyId) then "yellow-star" else ""
  }

  /** The edit and delete buttons' extra class: "" (shown) exactly when there is a current
      user whose username is the story's, "hidden" otherwise. */
  function HiddenClass(currentUser: User?, story: Story): (hidden: string)
    reads currentUser
    ensures hidden == "" <==> currentUser != null && currentUser.username == story.username
    ensures hidden == "" || hidden == "hidden"
  {
    if currentUser != null && currentUser.username == story.username then "" else "hidden"
  }

  // =========================================================================================
  // The edit-submit guard

  /** The check at the top of the edit-submit handler, on the cached stories: the first story
      with the id is looked up with `filter(...)[0]`; the handler goes on (true) when its title
      differs from the submitted one, stops (false) when it is the same, and throws (Rejected)
      when no story has the id, since reading `title` of undefined is a TypeError. */
  function EditGuard(stories: seq<Story>, storyId: Field, title: string): (r: Promise<bool>)
    ensures r.Rejected? <==> forall j :: 0 <= j < |stories| ==> stories[j].storyId != storyId
    ensures r == Resolved(false) <==>
              exists i :: 0 <= i < |stories| && stories[i].storyId == storyId &&
                          stories[i].title == Some(title) &&
                          forall j :: 0 <= j < i ==> stories[j].storyId != storyId
  {
    var matches := FilterById(stories, storyId);
    FirstOfFilter(stories, storyId);
    if matches == [] then Rejected else Resolved(matches[0].title != Some(title))
  }

  /** The object `{ author, title, url }` the submit form sends. */
  function DraftJson(author: string, title: string, url: string): JsonObj {
    map["author" := author, "title" := title, "url" := url]
  }

  // =========================================================================================
  // Findings: the token passed to addStory and editStory

  /** As written, the submit handler passes `currentUser.loginToken` where `addStory` expects
      the user: the POST then carries no token, unlike the one built from the user. */
  lemma SubmitTokenAsWritten(token: string, author: string, title: string, url: string)
    ensures AddStoryRequest(Primitive(Some(token)), DraftJson(author, title, url))
            == Some(PostStoryReq(None, DraftJson(author, title, url)))
    ensures AddStoryRequest(Primitive(Some(token)), DraftJson(author, title, url))
            != AddStoryRequest(UserObject(Some(token)), DraftJson(author, title, url))
  {
  }

  /** As written, the edit handler passes `currentUser.loginToken` where `editStory` expects
      the user: the PATCH then carries no token, unlike the one built from the user. */
  lemma EditTokenAsWritten(token: string, storyId: Field, title: string)
    ensures EditStoryRequest(Primitive(Some(token)), storyId, map["title" := title])
            == Some(PatchStoryReq(storyId, None, map["title" := title]))
    ensures EditStoryRequest(Primitive(Some(token)), storyId, map["title" := title])
            != EditStoryRequest(UserObject(Some(token)), storyId, map["title" := title])
  {
  }

  // =========================================================================================
  // The page

  /** The page's two globals and the handlers that change them. */
  class Page {
    var storyList: StoryList?
    var currentUser: User?

    constructor ()
      ensures storyList == null && currentUser == null
    {
      storyList := null;
      currentUser := null;
    }

    /** Submitting the new-story form. The story is posted with the current user's token; on
        success it goes in front of the cached stories and at the end of the user's own
        stories, every earlier entry staying where it was. Without a story list or a user the
        handler catches the TypeError and sends nothing. */
    method SubmitStory(author: string, title: string, url: string, reply: Promise<JsonObj>)
      returns (req: Option<Request>)
      modifies storyList, currentUser
      ensures req == if storyList == null || currentUser == null then None
                     else Some(PostStoryReq(old(currentUser.loginToken), DraftJson(author, title, url)))
      ensures req.Some? && reply.Resolved? ==>
                && storyList.stories == [NewStory(reply.value)] + old(storyList.stories)
                && currentUser.ownStories == old(currentUser.ownStories) + [NewStory(reply.value)]
      ensures !(req.Some? && reply.Resolved?) ==>
                && (storyList != null ==> storyList.stories == old(storyList.stories))
                && (currentUser != null ==> currentUser.ownStories == old(currentUser.ownStories))
      ensures storyList != null ==> storyList.minusOne == old(storyList.minusOne)
      ensures currentUser != null ==>
                && currentUser.username == old(currentUser.username)
                && currentUser.name == old(currentUser.name)
                && currentUser.createdAt == old(currentUser.createdAt)
                && currentUser.updatedAt == old(currentUser.updatedAt)
                && currentUser.loginToken == old(currentUser.loginToken)
                && currentUser.favorites == old(currentUser.favorites)
    {
      if storyList == null || currentUser == null {
        return None;
      }
      var result;
      req, result := storyList.AddStory(UserObject(currentUser.loginToken), DraftJson(author, title, url), reply);
      if result.Rejected? {
        return;
      }
      currentUser.ownStories := currentUser.ownStories + [result.value];
    }

    /** Clicking a story's star. Without a current user the login forms are shown and nothing
        is sent; otherwise the user's `updateFavorite` runs. */
    method FavoriteClick(storyId: Field, reply: Promise<UserObj>)
      returns (req: Option<Request>, showLogin: bool)
      modifies currentUser
      ensures showLogin <==> currentUser == null
      ensures currentUser == null ==> req.None?
      ensures currentUser != null ==>
                && req == FavoriteRequest(old(currentUser.loginToken), old(currentUser.username),
                                          old(currentUser.favorites), storyId)
                && currentUser.favorites == (if req.Some? && reply.Resolved?
                                             then MapStories(reply.value.favorites)
                                             else old(currentUser.favorites))
                && currentUser.loginToken == old(currentUser.loginToken)
                && currentUser.username == old(currentUser.username)
                && currentUser.name == old(currentUser.name)
                && currentUser.createdAt == old(currentUser.createdAt)
                && currentUser.updatedAt == old(currentUser.updatedAt)
                && currentUser.ownStories == old(currentUser.ownStories)
    {
      if currentUser == null {
        return None, true;
      }
      showLogin := false;
      var completion;
      req, completion := currentUser.UpdateFavorite(storyId, reply);
    }

    /** Submitting the edit form. When the cached story with the id already has the submitted
        title nothing is sent and nothing changes; when no cached story has the id the handler
        throws. Otherwise the title is patched with the current user's token, the cache is
        updated as `editStory` does, and the current user is fetched again. */
    method EditSubmit(storyId: Field, title: string, editReply: Promise<JsonObj>, userReply: Promise<UserObj>)
      returns (editReq: Option<Request>, userReq: Option<Request>, done: Promise<()>)
      modifies this`currentUser, storyList
      ensures storyList == old(storyList)
      ensures storyList == null ==>
                done.Rejected? && editReq.None? && userReq.None? && currentUser == old(currentUser)
      ensures storyList != null && EditGuard(old(storyList.stories), storyId, title) != Resolved(true) ==>
                && editReq.None? && userReq.None?
                && (done.Rejected? <==> EditGuard(old(storyList.stories), storyId, title).Rejected?)
                && currentUser == old(currentUser)
                && storyList.stories == old(storyList.stories)
                && storyList.minusOne == old(storyList.minusOne)
      ensures storyList != null && EditGuard(old(storyList.stories), storyId, title) == Resolved(true) ==>
                && editReq == (if old(currentUser) == null then None
                               else Some(PatchStoryReq(storyId, old(currentUser.loginToken), map["title" := title])))
                && storyList.minusOne == old(storyList.minusOne)
                && (editReq.Some? && editReply.Resolved? ==>
                      var i := IndexOfId(old(storyList.stories), storyId);
                      && storyList.stories == old(storyList.stories)[i := NewStory(editReply.value)]
                      && userReq == RestoreRequest(old(currentUser.loginToken), old(currentUser.username))
                      && (userReq.Some? && userReply.Rejected? <==> done.Rejected?)
                      && (userReq.Some? && userReply.Rejected? ==> currentUser == old(currentUser))
                      && (done.Resolved? && userReq.Some? ==>
                            && userReply.Resolved?
                            && currentUser != null && fresh(currentUser)
                            && currentUser.HasProfile(userReply.value)
                            && currentUser.loginToken == old(currentUser.loginToken)
                            && currentUser.favorites == MapStories(userReply.value.favorites)
                            && currentUser.ownStories == MapStories(userReply.value.stories))
                      && (userReq.None? ==> currentUser == null))
                && (!(editReq.Some? && editReply.Resolved?) ==>
                      && userReq.None? && done.Resolved?
                      && currentUser == old(currentUser)
                      && storyList.stories == old(storyList.stories))
    {
      editReq, userReq := None, None;
      if storyList == null {
        return editReq, userReq, Rejected;
      }
      var guard := EditGuard(storyList.stories, storyId, title);
      if guard.Rejected? {
        return editReq, userReq, Rejected;
      }
      if !guard.value || currentUser == null {
        return editReq, userReq, Resolved(());
      }
      FoundIffHasId(storyList.stories, storyId);
      var res;
      editReq, res := storyList.EditStory(UserObject(currentUser.loginToken), storyId, map["title" := title], editReply);
      if res.Rejected? {
        return editReq, userReq, Resolved(());
      }
      userReq, done := RefetchUser(userReply);
    }

    /** `currentUser = await User.getLoggedInUser(currentUser.loginToken, currentUser.username)`:
        the user is fetched again and replaces the current one; when the fetch fails the
        assignment never runs. */
    method RefetchUser(userReply: Promise<UserObj>) returns (userReq: Option<Request>, done: Promise<()>)
      requires currentUser != null
      modifies this`currentUser
      ensures userReq == RestoreRequest(old(currentUser.loginToken), old(currentUser.username))
      ensures userReq.Some? && userReply.Rejected? <==> done.Rejected?
      ensures done.Rejected? ==> currentUser == old(currentUser)
      ensures done.Resolved? && userReq.Some? ==>
                && userReply.Resolved?
                && currentUser != null && fresh(currentUser)
                && currentUser.HasProfile(userReply.value)
                && currentUser.loginToken == old(currentUser.loginToken)
                && currentUser.favorites == MapStories(userReply.value.favorites)
                && currentUser.ownStories == MapStories(userReply.value.stories)
      ensures userReq.None? ==> currentUser == null
    {
      var restored;
      userReq, restored := User.GetLoggedInUser(currentUser.loginToken, currentUser.username, userReply);
      if restored.Rejected? {
        return userReq, Rejected;
      }
      currentUser := restored.value;
      done := Resolved(());
    }
  }
}
