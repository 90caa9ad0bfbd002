/** The data-access layer of the story-sharing client: the `Story` record, the `StoryList`
    cache of all stories and the `User` session object.

    The service itself is not modelled. Each operation returns the `Request` it sends
    (`None` when it sends none), and the service's answer to that request is a `Promise`
    parameter: `Resolved(body)` carries the response body, `Rejected` a failed request. */
module ApiClasses {
  import opened JsRuntime

  // =========================================================================================
  // Story

  /** One story; each property is undefined when the service's object lacks it. */
  datatype Story = Story(author: Field, title: Field, url: Field, username: Field,
                         storyId: Field, createdAt: Field, updatedAt: Field)

  /** The properties `new Story(obj)` copies. */
  const STORY_KEYS: set<string> :=
    {"author", "title", "url", "username", "storyId", "createdAt", "updatedAt"}

  /** `new Story(obj)`: a copy of the seven story properties of a JSON object. */
  function NewStory(obj: JsonObj): (s: Story)
    ensures forall k :: k in STORY_KEYS ==> Get(StoryJson(s), k) == Get(obj, k)
  {
    Story(Get(obj, "author"), Get(obj, "title"), Get(obj, "url"), Get(obj, "username"),
          Get(obj, "storyId"), Get(obj, "createdAt"), Get(obj, "updatedAt"))
  }

  /** The JSON object a story serialises to (undefined properties are omitted). */
  function StoryJson(s: Story): (obj: JsonObj)
    ensures obj.Keys <= STORY_KEYS
  {
    var o := Put(map[], "author", s.author);
    var o := Put(o, "title", s.title);
    var o := Put(o, "url", s.url);
    var o := Put(o, "username", s.username);
    var o := Put(o, "storyId", s.storyId);
    var o := Put(o, "createdAt", s.createdAt);
    Put(o, "updatedAt", s.updatedAt)
  }

  /** Building a story from its own JSON gives the story back. */
  lemma NewStoryOfJson(s: Story)
    ensures NewStory(StoryJson(s)) == s
  {
    var obj := StoryJson(s);
    assert Get(obj, "author") == s.author && Get(obj, "title") == s.title;
    assert Get(obj, "url") == s.url && Get(obj, "username") == s.username;
    assert Get(obj, "storyId") == s.storyId && Get(obj, "createdAt") == s.createdAt;
    assert Get(obj, "updatedAt") == s.updatedAt;
  }

  /** The copy keeps exactly the seven story properties of the object and drops the rest. */
  lemma JsonOfNewStory(obj: JsonObj)
    ensures StoryJson(NewStory(obj)) == map k | k in obj.Keys * STORY_KEYS :: obj[k]
  {
    var lhs, rhs := StoryJson(NewStory(obj)), map k | k in obj.Keys * STORY_KEYS :: obj[k];
    forall k | k in STORY_KEYS
      ensures (k in lhs <==> k in rhs) && (k in lhs ==> lhs[k] == rhs[k])
    {
    }
    assert lhs.Keys == rhs.Keys;
  }

  /** `objs.map(s => new Story(s))`: one story per object, in the same order. */
  function MapStories(objs: seq<JsonObj>): (r: seq<Story>)
    ensures |r| == |objs|
    ensures forall i :: 0 <= i < |objs| ==> r[i] == NewStory(objs[i])
  {
    if objs == [] then [] else [NewStory(objs[0])] + MapStories(objs[1..])
  }

  // =========================================================================================
  // Searching a list of stories by id (Array.prototype.findIndex, some and filter with the
  // callback `story => story.storyId === storyId`)

  /** `stories.findIndex(s => s.storyId === storyId)`: the first index holding that id, or -1. */
  function IndexOfId(stories: seq<Story>, storyId: Field): (i: int)
    ensures -1 <= i < |stories|
    ensures i >= 0 ==> stories[i].storyId == storyId
    ensures forall j :: 0 <= j < i ==> stories[j].storyId != storyId
    ensures i == -1 ==> forall j :: 0 <= j < |stories| ==> stories[j].storyId != storyId
  {
    if stories == [] then -1
    else if stories[0].storyId == storyId then 0
    else
      var k := IndexOfId(stories[1..], storyId);
      if k == -1 then -1 else k + 1
  }

  /** `stories.some(s => s.storyId === storyId)`. */
  function HasId(stories: seq<Story>, storyId: Field): (b: bool)
    ensures b <==> exists j :: 0 <= j < |stories| && stories[j].storyId == storyId
  {
    stories != [] && (stories[0].storyId == storyId || HasId(stories[1..], storyId))
  }

  /** `findIndex` finds a story exactly when `some` says there is one. */
  lemma FoundIffHasId(stories: seq<Story>, storyId: Field)
    ensures IndexOfId(stories, storyId) >= 0 <==> HasId(stories, storyId)
  {
  }

  /** `stories.filter(s => s.storyId === storyId)`. */
  function FilterById(stories: seq<Story>, storyId: Field): (r: seq<Story>)
    ensures |r| <= |stories|
    ensures forall k :: 0 <= k < |r| ==> r[k].storyId == storyId
    ensures forall s :: s in r <==> s in stories && s.storyId == storyId
  {
    if stories == [] then []
    else if stories[0].storyId == storyId then [stories[0]] + FilterById(stories[1..], storyId)
    else FilterById(stories[1..], storyId)
  }

  /** Filtering a concatenation filters each part, in order: with the one-element cases this
      fixes `FilterById` to the in-order subsequence of the stories with the id. */
  lemma {:induction false} FilterAppend(a: seq<Story>, b: seq<Story>, storyId: Field)
    ensures FilterById(a + b, storyId) == FilterById(a, storyId) + FilterById(b, storyId)
    decreases |a|
  {
    if a != [] {
      assert (a + b)[1..] == a[1..] + b;
      FilterAppend(a[1..], b, storyId);
    } else {
      assert a + b == b;
    }
  }

  /** `filter(...)[0]` is the story `findIndex` finds, and is undefined exactly when there is
      none. */
  lemma {:induction false} FirstOfFilter(stories: seq<Story>, storyId: Field)
    ensures FilterById(stories, storyId) != [] <==> HasId(stories, storyId)
    ensures HasId(stories, storyId) ==>
              FilterById(stories, storyId)[0] == stories[IndexOfId(stories, storyId)]
  {
    if stories != [] && stories[0].storyId != storyId {
      FirstOfFilter(stories[1..], storyId);
    }
  }

  /** No two stories share an id, as the service guarantees of its own lists. */
  ghost predicate UniqueIds(stories: seq<Story>) {
    forall i, j :: 0 <= i < j < |stories| ==> stories[i].storyId != stories[j].storyId
  }

  /** Putting a story with a new id in front keeps the ids unique. */
  lemma UnshiftKeepsUnique(stories: seq<Story>, s: Story)
    requires UniqueIds(stories) && !HasId(stories, s.storyId)
    ensures UniqueIds([s] + stories)
  {
    var r := [s] + stories;
    forall i, j | 0 <= i < j < |r| ensures r[i].storyId != r[j].storyId {
      if i == 0 {
        assert r[j] == stories[j - 1];
      } else {
        assert r[i] == stories[i - 1] && r[j] == stories[j - 1];
      }
    }
  }

  /** Replacing the story found by id with a record of the same id keeps the ids unique. */
  lemma ReplaceKeepsUnique(stories: seq<Story>, storyId: Field, s: Story)
    requires UniqueIds(stories) && HasId(stories, storyId) && s.storyId == storyId
    ensures UniqueIds(stories[IndexOfId(stories, storyId) := s])
  {
  }

  /** Removing the story found by id from a list with unique ids removes that id from the list,
      keeps every other story in order, and keeps the ids unique. */
  lemma {:induction false} RemoveFoundStory(stories: seq<Story>, storyId: Field)
    requires UniqueIds(stories) && HasId(stories, storyId)
    ensures var r := SpliceOne(stories, IndexOfId(stories, storyId));
            && |r| == |stories| - 1
            && !HasId(r, storyId)
            && UniqueIds(r)
            && forall s :: s in r <==> s in stories && s.storyId != storyId
  {
    var i := IndexOfId(stories, storyId);
    var r := SpliceOne(stories, i);
    assert r == stories[..i] + stories[i + 1..];
    forall k | 0 <= k < |r| ensures r[k] == stories[if k < i then k else k + 1] {
    }
    forall s ensures s in r <==> s in stories && s.storyId != storyId {
      if s in stories && s.storyId != storyId {
        var k :| 0 <= k < |stories| && stories[k] == s;
        assert r[if k < i then k else k - 1] == s;
      }
    }
  }

  // =========================================================================================
  // Requests to the service

  /** The requests the client sends; the comment gives the method and path. */
  datatype Request =
    | GetStoriesReq                                                   // GET /stories
    | PostStoryReq(token: Field, story: JsonObj)                      // POST /stories
    | PatchStoryReq(storyId: Field, token: Field, story: JsonObj)     // PATCH /stories/{storyId}
    | DeleteStoryReq(storyId: Field, token: Field)                    // DELETE /stories/{storyId}
    | SignupReq(username: Field, password: Field, name: Field)        // POST /signup
    | LoginReq(username: Field, password: Field)                      // POST /login
    | GetUserReq(username: Field, token: Field)                       // GET /users/{username}
    | PostFavoriteReq(username: Field, storyId: Field, token: Field)  // POST /users/{username}/favorites/{storyId}
    | DeleteFavoriteReq(username: Field, storyId: Field, token: Field) // DELETE /users/{username}/favorites/{storyId}

  /** The JavaScript value passed as the `user` argument of `addStory`, `editStory` and
      `deleteStory`, which read nothing from it but `user.loginToken`: a `User` object, or a
      primitive (a string, or undefined). */
  datatype UserArg = UserObject(loginToken: Field) | Primitive(value: Field)

  /** Evaluating `user.loginToken`: a string has no such property (undefined), and reading a
      property of undefined throws a TypeError, which rejects the calling async method before
      it sends anything. */
  function TokenOf(user: UserArg): (r: Promise<Field>)
    ensures r.Rejected? <==> user == Primitive(None)
    ensures user.UserObject? ==> r == Resolved(user.loginToken)
    ensures user.Primitive? && user.value.Some? ==> r == Resolved(None)
  {
    match user
    case UserObject(token) => Resolved(token)
    case Primitive(Some(_)) => Resolved(None)
    case Primitive(None) => Rejected
  }

  /** The request `addStory(user, story)` sends. */
  function AddStoryRequest(user: UserArg, story: JsonObj): (r: Option<Request>)
    ensures user.UserObject? ==> r == Some(PostStoryReq(user.loginToken, story))
    ensures user.Primitive? && user.value.Some? ==> r == Some(PostStoryReq(None, story))
    ensures user == Primitive(None) ==> r == None
  {
    match TokenOf(user)
    case Resolved(token) => Some(PostStoryReq(token, story))
    case Rejected => None
  }

  /** The request `editStory(user, storyId, story)` sends. */
  function EditStoryRequest(user: UserArg, storyId: Field, story: JsonObj): (r: Option<Request>)
    ensures user.UserObject? ==> r == Some(PatchStoryReq(storyId, user.loginToken, story))
    ensures user.Primitive? && user.value.Some? ==> r == Some(PatchStoryReq(storyId, None, story))
    ensures user == Primitive(None) ==> r == None
  {
    match TokenOf(user)
    case Resolved(token) => Some(PatchStoryReq(storyId, token, story))
    case Rejected => None
  }

  /** The request `deleteStory(user, storyId)` sends. */
  function DeleteStoryRequest(user: UserArg, storyId: Field): (r: Option<Request>)
    ensures user.UserObject? ==> r == Some(DeleteStoryReq(storyId, user.loginToken))
    ensures user.Primitive? && user.value.Some? ==> r == Some(DeleteStoryReq(storyId, None))
    ensures user == Primitive(None) ==> r == None
  {
    match TokenOf(user)
    case Resolved(token) => Some(DeleteStoryReq(storyId, token))
    case Rejected => None
  }

  /** A request built from a `User` object carries that user's token. */
  lemma UserObjectSendsToken(token: Field, storyId: Field, story: JsonObj)
    ensures AddStoryRequest(UserObject(token), story) == Some(PostStoryReq(token, story))
    ensures EditStoryRequest(UserObject(token), storyId, story) == Some(PatchStoryReq(storyId, token, story))
    ensures DeleteStoryRequest(UserObject(token), storyId) == Some(DeleteStoryReq(storyId, token))
  {
  }

  /** A request built from a string in place of a user carries no token at all. */
  lemma StringSendsNoToken(token: string, storyId: Field, story: JsonObj)
    ensures AddStoryRequest(Primitive(Some(token)), story) == Some(PostStoryReq(None, story))
    ensures EditStoryRequest(Primitive(Some(token)), storyId, story) == Some(PatchStoryReq(storyId, None, story))
  {
  }

  // =========================================================================================
  // StoryList

  /** The cached list of all stories, newest first. */
  class StoryList {
    /** The array's elements. */
    var stories: seq<Story>
    /** The array's non-index property "-1", which `editStory` writes when it finds no story
        with the id: an assignment `stories[-1] = …` adds a property, not an element. */
    var minusOne: Option<Story>

    constructor (stories: seq<Story>)
      ensures this.stories == stories && minusOne == None
    {
      this.stories := stories;
      minusOne := None;
    }

    /** `StoryList.getStories()`: one GET of every story, then a new list holding a story per
        object of the response, in the response's order. */
    static method GetStories(reply: Promise<seq<JsonObj>>) returns (req: Request, result: Promise<StoryList>)
      ensures req == GetStoriesReq
      ensures result.Resolved? <==> reply.Resolved?
      ensures result.Resolved? ==>
                && fresh(result.value)
                && result.value.stories == MapStories(reply.value)
                && result.value.minusOne == None
    {
      req := GetStoriesReq;
      if reply.Rejected? {
        return req, Rejected;
      }
      var list := new StoryList(MapStories(reply.value));
      result := Resolved(list);
    }

    /** `addStory(user, story)`: on success the story built from the response is put in front
        of every other story, which all move up one place unchanged, and is returned. */
    method AddStory(user: UserArg, story: JsonObj, reply: Promise<JsonObj>)
      returns (req: Option<Request>, result: Promise<Story>)
      modifies this`stories
      ensures req == AddStoryRequest(user, story)
      ensures result.Resolved? <==> req.Some? && reply.Resolved?
      ensures result.Resolved? ==>
                && result.value == NewStory(reply.value)
                && |stories| == |old(stories)| + 1
                && stories[0] == result.value
                && stories[1..] == old(stories)
      ensures result.Rejected? ==> stories == old(stories)
    {
      req := AddStoryRequest(user, story);
      if req.None? || reply.Rejected? {
        return req, Rejected;
      }
      var newStory := NewStory(reply.value);
      stories := [newStory] + stories;
      result := Resolved(newStory);
    }

    /** `editStory(user, storyId, story)`: on success the first story with the id is replaced by
        the one built from the response and nothing else moves; when no story has the id,
        `findIndex` gives -1 and the new story goes to the property "-1", leaving the elements
        as they were. Returns the response. */
    method EditStory(user: UserArg, storyId: Field, story: JsonObj, reply: Promise<JsonObj>)
      returns (req: Option<Request>, result: Promise<JsonObj>)
      modifies this`stories, this`minusOne
      ensures req == EditStoryRequest(user, storyId, story)
      ensures result.Resolved? <==> req.Some? && reply.Resolved?
      ensures result.Resolved? ==> result.value == reply.value
      ensures result.Resolved? && HasId(old(stories), storyId) ==>
                var i := IndexOfId(old(stories), storyId);
                && |stories| == |old(stories)|
                && stories[i] == NewStory(reply.value)
                && (forall j :: 0 <= j < |stories| && j != i ==> stories[j] == old(stories)[j])
                && minusOne == old(minusOne)
      ensures result.Resolved? && !HasId(old(stories), storyId) ==>
                stories == old(stories) && minusOne == Some(NewStory(reply.value))
      ensures result.Rejected? ==> stories == old(stories) && minusOne == old(minusOne)
    {
      req := EditStoryRequest(user, storyId, story);
      if req.None? || reply.Rejected? {
        return req, Rejected;
      }
      var oldStoryIdx := IndexOfId(stories, storyId);
      if oldStoryIdx == -1 {
        minusOne := Some(NewStory(reply.value));
      } else {
        stories := stories[oldStoryIdx := NewStory(reply.value)];
      }
      result := reply;
    }

    /** `deleteStory(user, storyId)`: on success the first story with the id is spliced out,
        the others keeping their order; when no story has the id, `splice(-1, 1)` removes the
        LAST story of a non-empty list and nothing of an empty one. Returns the service's
        message. */
    method DeleteStory(user: UserArg, storyId: Field, reply: Promise<Field>)
      returns (req: Option<Request>, result: Promise<Field>)
      modifies this`stories
      ensures req == DeleteStoryRequest(user, storyId)
      ensures result.Resolved? <==> req.Some? && reply.Resolved?
      ensures result.Resolved? ==> result.value == reply.value
      ensures result.Resolved? && HasId(old(stories), storyId) ==>
                var i := IndexOfId(old(stories), storyId);
                stories == old(stories)[..i] + old(stories)[i + 1..]
      ensures result.Resolved? && !HasId(old(stories), storyId) ==>
                stories == if old(stories) == [] then [] else old(stories)[..|old(stories)| - 1]
      ensures result.Rejected? ==> stories == old(stories)
    {
      req := DeleteStoryRequest(user, storyId);
      if req.None? || reply.Rejected? {
        return req, Rejected;
      }
      var toDeleteIdx := IndexOfId(stories, storyId);
      FoundIffHasId(stories, storyId);
      ghost var before := stories;
      stories := SpliceOne(stories, toDeleteIdx);
      if toDeleteIdx == -1 {
        assert stories == if before == [] then [] else before[..|before| - 1];
      } else {
        assert stories == before[..toDeleteIdx] + before[toDeleteIdx + 1..];
      }
      result := reply;
    }
  }

  // =========================================================================================
  // User

  /** A user object in a response: its string properties, and its favourite and own stories. */
  datatype UserObj = UserObj(props: JsonObj, favorites: seq<JsonObj>, stories: seq<JsonObj>)

  /** The body of a signup or login response. */
  datatype AuthBody = AuthBody(user: UserObj, token: Field)

  /** The request `getLoggedInUser(token, username)` sends: none unless both are truthy. */
  function RestoreRequest(token: Field, username: Field): (r: Option<Request>)
    ensures r.None? <==> !Truthy(token) || !Truthy(username)
    ensures r.Some? ==> r.value == GetUserReq(username, token)
  {
    if !Truthy(token) || !Truthy(username) then None else Some(GetUserReq(username, token))
  }

  /** The request `updateFavorite(storyId)` sends for a user with this token, username and
      favourites: none without a token and a username; otherwise exactly one, a removal when
      some favourite has the id and an addition when none has. */
  function FavoriteRequest(token: Field, username: Field, favorites: seq<Story>, storyId: Field)
    : (r: Option<Request>)
    ensures r.None? <==> !Truthy(token) || !Truthy(username)
    ensures r.Some? && (exists j :: 0 <= j < |favorites| && favorites[j].storyId == storyId) ==>
              r.value == DeleteFavoriteReq(username, storyId, token)
    ensures r.Some? && (forall j :: 0 <= j < |favorites| ==> favorites[j].storyId != storyId) ==>
              r.value == PostFavoriteReq(username, storyId, token)
  {
    if !Truthy(token) || !Truthy(username) then None
    else if HasId(favorites, storyId) then Some(DeleteFavoriteReq(username, storyId, token))
    else Some(PostFavoriteReq(username, storyId, token))
  }

  /** The user currently logged in. */
  class User {
    var username: Field
    var name: Field
    var createdAt: Field
    var updatedAt: Field
    var loginToken: Field
    var favorites: seq<Story>
    var ownStories: seq<Story>

    /** The four profile properties were copied from `obj`. */
    ghost predicate HasProfile(obj: UserObj)
      reads this
    {
      && username == Get(obj.props, "username")
      && name == Get(obj.props, "name")
      && createdAt == Get(obj.props, "createdAt")
      && updatedAt == Get(obj.props, "updatedAt")
    }

    /** `new User(userObj)`: the profile is copied, the token is "" and both story lists are
        empty. */
    constructor (userObj: UserObj)
      ensures HasProfile(userObj)
      ensures loginToken == Some("") && favorites == [] && ownStories == []
    {
      username := Get(userObj.props, "username");
      name := Get(userObj.props, "name");
      createdAt := Get(userObj.props, "createdAt");
      updatedAt := Get(userObj.props, "updatedAt");
      loginToken := Some("");
      favorites := [];
      ownStories := [];
    }

    /** `User.create(username, password, name)`: one signup request; on success a new user with
        the response's profile and token and no stories. */
    static method Create(username: Field, password: Field, name: Field, reply: Promise<AuthBody>)
      returns (req: Request, result: Promise<User>)
      ensures req == SignupReq(username, password, name)
      ensures result.Resolved? <==> reply.Resolved?
      ensures result.Resolved? ==>
                var u := result.value;
                && fresh(u)
                && u.HasProfile(reply.value.user)
                && u.loginToken == reply.value.token
                && u.favorites == [] && u.ownStories == []
    {
      req := SignupReq(username, password, name);
      if reply.Rejected? {
        return req, Rejected;
      }
      var newUser := new User(reply.value.user);
      newUser.loginToken := reply.value.token;
      result := Resolved(newUser);
    }

    /** `User.login(username, password)`: one login request; on success a new user with the
        response's profile, token, favourites and own stories. */
    static method Login(username: Field, password: Field, reply: Promise<AuthBody>)
      returns (req: Request, result: Promise<User>)
      ensures req == LoginReq(username, password)
      ensures result.Resolved? <==> reply.Resolved?
      ensures result.Resolved? ==>
                var u := result.value;
                && fresh(u)
                && u.HasProfile(reply.value.user)
                && u.loginToken == reply.value.token
                && u.favorites == MapStories(reply.value.user.favorites)
                && u.ownStories == MapStories(reply.value.user.stories)
    {
      req := LoginReq(username, password);
      if reply.Rejected? {
        return req, Rejected;
      }
      var existingUser := new User(reply.value.user);
      existingUser.favorites := MapStories(reply.value.user.favorites);
      existingUser.ownStories := MapStories(reply.value.user.stories);
      existingUser.loginToken := reply.value.token;
      result := Resolved(existingUser);
    }

    /** `User.getLoggedInUser(token, username)`: null, without any request, unless both the
        token and the username are truthy; otherwise one request, and on success a new user
        with the response's profile, favourites and own stories and the given token. */
    static method GetLoggedInUser(token: Field, username: Field, reply: Promise<UserObj>)
      returns (req: Option<Request>, result: Promise<User?>)
      ensures req == RestoreRequest(token, username)
      ensures req.None? ==> result == Resolved(null)
      ensures req.Some? ==> (result.Resolved? <==> reply.Resolved?)
      ensures req.Some? && result.Resolved? ==>
                var u := result.value;
                && u != null && fresh(u)
                && u.HasProfile(reply.value)
                && u.loginToken == token
                && u.favorites == MapStories(reply.value.favorites)
                && u.ownStories == MapStories(reply.value.stories)
    {
      req := RestoreRequest(token, username);
      if req.None? {
        return req, Resolved(null);
      }
      if reply.Rejected? {
        return req, Rejected;
      }
      var existingUser := new User(reply.value);
      existingUser.loginToken := token;
      existingUser.favorites := MapStories(reply.value.favorites);
      existingUser.ownStories := MapStories(reply.value.stories);
      result := Resolved(existingUser);
    }

    /** `updateFavorite(storyId)`: sends `FavoriteRequest` (a removal when the story is a
        favourite, an addition otherwise, nothing without a session); on success `favorites`
        becomes the response's favourites, and no other field changes. */
    method UpdateFavorite(storyId: Field, reply: Promise<UserObj>)
      returns (req: Option<Request>, result: Promise<()>)
      modifies this`favorites
      ensures req == FavoriteRequest(loginToken, username, old(favorites), storyId)
      ensures result.Rejected? <==> req.Some? && reply.Rejected?
      ensures req.Some? && reply.Resolved? ==> favorites == MapStories(reply.value.favorites)
      ensures !(req.Some? && reply.Resolved?) ==> favorites == old(favorites)
      ensures username == old(username) && loginToken == old(loginToken)
      ensures ownStories == old(ownStories)
    {
      req := FavoriteRequest(loginToken, username, favorites, storyId);
      if req.None? {
        return req, Resolved(());
      }
      if reply.Rejected? {
        return req, Rejected;
      }
      favorites := MapStories(reply.value.favorites);
      result := Resolved(());
    }
  }
}
