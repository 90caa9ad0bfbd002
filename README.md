# Hack-or-Snooze client bookkeeping, modelled in Dafny

This project models the client-side bookkeeping of a story-sharing web client: the browser
keeps a cached list of stories and a logged-in user, and updates both after each round trip to
a REST service.

- `js_runtime.dfy` (module `JsRuntime`) holds the JavaScript behaviour the client depends on.
  A property may be `undefined` (`Field = Option<string>`), and a string may be truthy or not.
  An awaited call settles as `Promise.Resolved(value)` or `Promise.Rejected`. It also models
  `String.prototype.indexOf`, `split` with a one-character separator (with `join` as its
  inverse), `slice`, and `Array.prototype.splice(start, 1)` with its handling of negative
  starts.
- `api_classes.dfy` (module `ApiClasses`) models `api-classes.js`.
  - `Story` is the seven-field record.
  - `StoryList` is a class whose `stories` sequence is changed in place by `AddStory`
    (unshift), `EditStory` (indexed assignment) and `DeleteStory` (splice).
  - `User` is a class whose `favorites` field is replaced by `UpdateFavorite`.
  - The `findIndex`, `some` and `filter` scans over stories are recursive functions, each
    characterised by its contract (for `filter`, together with the lemma `FilterAppend`,
    which fixes the order and the number of the kept stories).
- `ui.dfy` (module `Ui`) models the logic in `ui.js`.
  - `GetHostName`.
  - The star class and the edit/delete class computed in `generateStoryHTML`.
  - A `Page` class holding the two page globals `storyList` and `currentUser`, with the
    submit-story, favourite-click and edit-submit handlers.

The service is not modelled. Each operation returns the `Request` it would send, or `None`
when it sends nothing. The service's answer is a `Promise` parameter: `Resolved` holds the
response body and `Rejected` means the request failed. A failed request leaves every cached
list unchanged, because the source changes state only after the awaited call returns.

Two behaviours of the code are modelled exactly as written:

- When `editStory` finds no story with the id, `findIndex` gives -1. The assignment
  `stories[-1] = …` then adds a property named "-1" (field `minusOne`) and leaves the
  elements as they were.
- When `deleteStory` finds no story with the id, `splice(-1, 1)` removes the last story of a
  non-empty list.

Removing the last story when no story has the id is probably unintended; the model keeps
the code's behaviour.

## Model

| member | source | states |
|---|---|---|
| `JsRuntime.IndexOf` | ui.js:514 | `url.indexOf(sub)` gives the first position where `sub` occurs, or -1 exactly when it occurs nowhere |
| `JsRuntime.Split` | ui.js:515-517 | `split('/')` gives at least one segment, and no segment contains the separator |
| `JsRuntime.JoinSplit` | ui.js:515-517 | joining the segments of `split` with the separator gives back the original string |
| `JsRuntime.SplitJoin` | ui.js:515-517 | splitting a join of separator-free segments gives back those segments |
| `JsRuntime.SplitWithoutSep` | ui.js:517 | a string without `/` is its own single segment |
| `JsRuntime.SplitAround` | ui.js:515 | a `/` between two strings splits exactly there: the segments are those of each side |
| `JsRuntime.SpliceOne` | api-classes.js:93 | `splice(i, 1)` removes index i when it is in range; it removes the last element when i is -1 and the list is non-empty; it leaves an empty list empty; the length drops by one exactly when the list is non-empty and i is before its end |
| `JsRuntime.Truthy` | api-classes.js:178 | `!v` holds exactly for undefined (or null) and the empty string |
| `JsRuntime.SlicePrefix` | ui.js:519 | `slice(0, n)` is a prefix of the string, n characters long, or the whole string when it is shorter |
| `JsRuntime.SliceFrom` | ui.js:520 | `slice(n)` is the rest of the string after `slice(0, n)`: the two together give the string back |
| `ApiClasses.NewStory` | api-classes.js:235-243 | `new Story(obj)` carries, for each of the seven story properties, exactly the value `obj` has there (undefined when `obj` lacks it) |
| `ApiClasses.StoryJson` | api-classes.js:235-243 | a story serialises to an object with no properties other than the seven story properties |
| `ApiClasses.NewStoryOfJson` | api-classes.js:235-243 | building a `Story` from a story's own JSON gives the same story |
| `ApiClasses.JsonOfNewStory` | api-classes.js:235-243 | `new Story(obj)` keeps exactly the seven story properties of `obj`, with their values, and drops every other property |
| `ApiClasses.MapStories` | api-classes.js:31 | mapping response objects to stories keeps the length and the order: element i is built from object i |
| `ApiClasses.IndexOfId` | api-classes.js:74 | `findIndex` by `storyId` gives the first index holding the id, or -1 exactly when no story has it |
| `ApiClasses.HasId` | api-classes.js:211 | `some` by `storyId` holds exactly when some element has the id |
| `ApiClasses.FoundIffHasId` | api-classes.js:74 | `findIndex` finds an index exactly when `some` holds |
| `ApiClasses.FilterById` | ui.js:191 | `filter` by `storyId` keeps exactly the stories of the list that have the id, and no more than the list holds |
| `ApiClasses.FilterAppend` | ui.js:191 | `filter` of a concatenation is the filter of each part, in order, so the kept stories keep the list's order |
| `ApiClasses.FirstOfFilter` | ui.js:191 | `filter(...)[0]` exists exactly when some story has the id, and is then the story that `findIndex` finds |
| `ApiClasses.UnshiftKeepsUnique` | api-classes.js:54 | putting a story whose id is new in front of a list with unique ids keeps the ids unique |
| `ApiClasses.ReplaceKeepsUnique` | api-classes.js:74-75 | replacing the found story with a record of the same id keeps the ids unique |
| `ApiClasses.RemoveFoundStory` | api-classes.js:92-93 | take a list with unique ids and splice out the story found by id. The list gets one shorter, no story with that id remains, the ids stay unique, and it keeps exactly the other stories |
| `ApiClasses.TokenOf` | api-classes.js:86 | `user.loginToken` is the token of a `User` object, undefined for a string, and throws for undefined |
| `ApiClasses.AddStoryRequest` | api-classes.js:48-51 | `addStory` sends exactly one POST of the story carrying the token of a `User` object, with no token when `user` is a string, and sends nothing when `user` is undefined (reading its token throws) |
| `ApiClasses.EditStoryRequest` | api-classes.js:69-72 | `editStory` sends exactly one PATCH of the story for that id carrying the token of a `User` object, with no token when `user` is a string, and sends nothing when `user` is undefined (reading its token throws) |
| `ApiClasses.DeleteStoryRequest` | api-classes.js:86-90 | `deleteStory` sends exactly one DELETE for that id carrying the token of a `User` object, with no token when `user` is a string, and sends nothing when `user` is undefined (reading its token throws) |
| `ApiClasses.UserObjectSendsToken` | api-classes.js:49 | when a `User` object is the `user` argument, the add, edit and delete requests carry that user's token |
| `ApiClasses.StringSendsNoToken` | api-classes.js:49 | when a string is the `user` argument, the add and edit requests carry no token |
| `ApiClasses.StoryList.constructor` | api-classes.js:9-11 | a new list holds exactly the given stories |
| `ApiClasses.StoryList.GetStories` | api-classes.js:26-36 | sends one GET. On success it returns a new list with one story per response object, in the response's order. On failure it returns no list |
| `ApiClasses.StoryList.AddStory` | api-classes.js:46-56 | on success the list grows by one. The record built from the response is at index 0 and is returned. Every old story moves up one index unchanged. On failure the list is unchanged |
| `ApiClasses.StoryList.EditStory` | api-classes.js:67-77 | on success with the id present, the length is unchanged, the first slot with the id holds the record built from the response, and every other slot is unchanged. With the id absent, the elements are unchanged and the record goes to the property "-1". On failure nothing changes |
| `ApiClasses.StoryList.DeleteStory` | api-classes.js:85-95 | on success with the id present at first index i, the list becomes `stories[..i] + stories[i+1..]`. With the id absent, the last story is removed, or nothing when the list is empty. The service's message is returned |
| `ApiClasses.RestoreRequest` | api-classes.js:178 | no request is made exactly when the token or the username is undefined or empty. Otherwise exactly one GET is made, for that username with that token |
| `ApiClasses.FavoriteRequest` | api-classes.js:205-219 | no request is made when the token or the username is undefined or empty. Otherwise exactly one request is made: a DELETE when some favourite has the id, a POST when none has |
| `ApiClasses.User.constructor` | api-classes.js:104-114 | the new user has the object's profile, `loginToken` "", empty `favorites` and empty `ownStories` |
| `ApiClasses.User.Create` | api-classes.js:125-141 | sends one signup request. On success the new user has the response's profile and token and no stories |
| `ApiClasses.User.Login` | api-classes.js:149-168 | sends one login request. On success the new user has the response's profile, token, favourites and own stories |
| `ApiClasses.User.GetLoggedInUser` | api-classes.js:176-197 | returns null and sends nothing unless both the token and the username are truthy. Otherwise, on success, the new user holds the given token and the response's profile, favourites and own stories |
| `ApiClasses.User.UpdateFavorite` | api-classes.js:204-222 | sends `FavoriteRequest`. On success `favorites` equals the response's favourites mapped to stories. `username`, `loginToken` and `ownStories` are unchanged, and so is `favorites` when nothing is sent or the request fails |
| `Ui.SegmentsAroundColonSlashSlash` | ui.js:514-515 | a string holding `://` at any position has at least three `/`-separated segments |
| `Ui.ThreeSegments` | ui.js:514-515 | a URL containing `://` has at least three `/`-separated segments, so the third one exists |
| `Ui.GetHostName` | ui.js:512-523 | the host name never contains `/` |
| `Ui.AbsoluteSegments` | ui.js:514-515 | in `scheme://host/path` the `://` is found and the third segment is the host |
| `Ui.HostOfAbsoluteUrl` | ui.js:512-523 | `scheme://host/path` gives `host` when the host does not begin with "www." |
| `Ui.HostOfWwwUrl` | ui.js:519-521 | `scheme://www.host/path` gives `host`, so exactly one leading "www." is removed |
| `Ui.FirstSegment` | ui.js:516-517 | the first segment of `host/path` is the host |
| `Ui.HostOfRelativeUrl` | ui.js:516-517 | a URL without `://` gives its first segment |
| `Ui.HostOfRelativeWwwUrl` | ui.js:514-522 | a URL without `://` whose first segment begins with "www." gives that segment without the one prefix |
| `Ui.HostNameExample` | ui.js:512-523 | "https://www.example.com/p" gives "example.com" |
| `Ui.StarClass` | ui.js:451-453 | the star is "yellow-star" exactly when there is a current user and some favourite has the story's id. Otherwise it is "" |
| `Ui.HiddenClass` | ui.js:455-457 | edit and delete are shown ("") exactly when there is a current user whose username equals the story's. Otherwise they are "hidden" |
| `Ui.EditGuard` | ui.js:191-192 | the handler throws exactly when no cached story has the id. It stops exactly when the first such story already has the submitted title |
| `Ui.SubmitTokenAsWritten` | ui.js:113 | as written, the story POST carries no token, unlike a POST built from the user object |
| `Ui.EditTokenAsWritten` | ui.js:196 | as written, the title PATCH carries no token, unlike a PATCH built from the user object |
| `Ui.Page.constructor` | ui.js:16-20 | the page starts with no story list and no current user |
| `Ui.Page.SubmitStory` | ui.js:103-126 | with a list and a user, it POSTs the form with the user's token. On success the story is put in front of the cached stories and appended to the end of `currentUser.ownStories`, with earlier entries unchanged. Otherwise nothing changes. The user's profile, token and favourites and the list's "-1" property never change |
| `Ui.Page.FavoriteClick` | ui.js:132-151 | with no current user it shows the login forms and sends nothing. Otherwise it toggles the favourite as `UpdateFavorite` does, and the user's profile, token and own stories stay the same |
| `Ui.Page.EditSubmit` | ui.js:184-210 | when the title is unchanged it sends nothing and changes nothing, and it throws when no cached story has the id. Otherwise it PATCHes the title with the user's token, updates the cache as `EditStory` does (the found story replaced, the "-1" property untouched), and replaces `currentUser` with the re-fetched user. `currentUser` keeps its old value when there is no story list and when the re-fetch fails |
| `Ui.Page.RefetchUser` | ui.js:204 | the user is fetched again with the current token and username and replaces `currentUser`; when the fetch fails `currentUser` is unchanged, and when no request is made it becomes null |

## Findings

| source | as written | input that shows it | evidently intended | confidence | as-written member | corrected member |
|---|---|---|---|---|---|---|
| ui.js:113 | the submit handler passes `currentUser.loginToken`, a string, as `addStory`'s `user` argument, and `addStory` then reads `user.loginToken` from it | a user whose token is "abc" submits a story: `"abc".loginToken` is undefined, so the POST to /stories carries no token | pass `currentUser`, so that the POST carries "abc" | high, not executed | `Ui.SubmitTokenAsWritten` | `Ui.Page.SubmitStory` |
| ui.js:196 | the edit handler passes `currentUser.loginToken` as `editStory`'s `user` argument, in the same way | a user whose token is "abc" changes a title: the PATCH to /stories/{id} carries no token | pass `currentUser`, so that the PATCH carries "abc" | high, not executed | `Ui.EditTokenAsWritten` | `Ui.Page.EditSubmit` |

## Left out

- HTTP transport, the base URL and the async plumbing are not modelled. Each request is an output value and each response is an input `Promise`.
- Response validation is not modelled. JSON values are modelled as strings only. A response that lacks `favorites` or `stories` is not modelled; in the source it would throw a TypeError.
- Rendering is not modelled: HTML templates, jQuery, slide and show/hide animations, `alert`, `console` and the `add*ToDOM` functions. Only the two flag computations of `generateStoryHTML` are kept.
- Browser persistence is not modelled: `localStorage`, `location.reload`, logout, `checkIfLoggedIn` and `syncCurrentUserToLocalStorage`.
- The login, signup, delete, navigation and show-edit-form handlers are not modelled. The login, signup, navigation and show-edit-form handlers only assign globals or render; the delete handler's effect on the cache is that of `ApiClasses.StoryList.DeleteStory`, followed by a fetch of the user again as in `Ui.Page.EditSubmit`. `generateStories` is not modelled either. It calls `getStories`; on success it assigns the list `ApiClasses.StoryList.GetStories` returns to the `storyList` global and renders it, and on failure `storyList` keeps its value.
- Interleaving of handlers is not modelled: two un-awaited handlers running at once. The model runs each handler to completion.
- Ui.GetHostName takes a string; a story without a `url` makes `generateStoryHTML` throw, which is not modelled.
- Ui.Page.SubmitStory appends the new story to `ownStories` even when the response's story has no `url`; in the source `generateStoryHTML` throws first and the push never runs.
- Ui.Page.SubmitStory and Ui.Page.EditSubmit pass the user object to `addStory` and `editStory`, as the Findings table says. The code as written is captured by the two as-written lemmas.
- ApiClasses.StoryList.DeleteStory does not return the array of removed elements that `splice` gives, because the source discards it.
- ApiClasses.User.UpdateFavorite returns `Resolved(())` both for the early `return null` and for the normal end. The two JavaScript return values are not distinguished, and no caller reads them.
