# Smart Bookmarks: the client-side bookmark list, modelled in Dafny

The dashboard of the Smart Bookmarks app keeps the signed-in user's bookmarks in one
client-side list. It loads the list once from a snapshot query. After that, three realtime
change handlers keep it current:

- INSERT prepends the new row.
- UPDATE replaces every row with the same id.
- DELETE drops every row with that id.

The add form and each bookmark card's edit form clean up the URL that the user typed
before they send it to the server. A card also shows the domain of its URL.

This project models that logic and proves its properties:

- `wrappers.dfy` (module `Wrappers`): `Option`.
- `urls.dfy` (module `Urls`): the URL rules. This is the protocol normalisation, which the
  source has in two identical copies and which is defined once here. It also holds the
  looser display prefix rule and the `title || hostname` default. The WHATWG URL parser
  is an oracle `parse: string -> Option<string>`. `None` means `new URL(s)` throws, and
  `Some(h)` means it succeeds with hostname `h`. `ValidUrl` and `Hostname` are defined on
  top of `parse`.
- `bookmark_list.dfy` (module `BookmarkList`): the `Bookmark` record and the three list
  reducers. They are written as the recursions that spread, `map` and `filter` perform,
  with lemmas about length, position, order, counts, idempotence and how the reducers
  combine.
- `dashboard.dfy` (module `DashboardPage`): class `Dashboard`. Its fields are the page's
  state hooks `user`, `bookmarks`, `title`, `url` and `loading`, plus `subscribed`, which
  stands for the realtime channel being open (app/dashboard/page.tsx:47-102). Its methods
  are the auth callback, the subscription guard, the three event handlers, the two input
  handlers, `addBookmark` and `deleteBookmark`. Supabase calls are not run. A call's
  outcome is a parameter, and the request it would send is a result.
- `bookmark_card.dfy` (module `Card`): class `BookmarkCard`. It holds the `editing`,
  `newTitle` and `newUrl` hooks and the `bookmark` prop, the re-render with an updated
  row, the displayed domain, the Edit, Cancel and input handlers,
  and `updateBookmark`.

Nothing in the code checks versions, buffers events, updates optimistically or sorts
locally. The list order comes only from the server query and the handlers.

## Model

| member | source | states |
|---|---|---|
| `Urls.NormalizeUrl` | app/dashboard/page.tsx:113-121 | the result starts with "http://" or "https://"; an input that already does is returned unchanged, any other input comes back as "https://" + input (the same code is in components/BookmarkCard.tsx:31-38) |
| `Urls.NormalizeIdempotent` | components/BookmarkCard.tsx:31-38 | normalising an already normalised URL changes nothing |
| `Urls.DisplayUrl` | components/BookmarkCard.tsx:16-18 | the display URL always starts with "http"; it equals the stored URL exactly when the stored URL starts with "http", and is otherwise "https://" + the stored URL |
| `Urls.DisplayDiffersFromNormalize` | components/BookmarkCard.tsx:16-38 | the display rule and the edit/add normalisation give different URLs exactly for inputs that start with "http" but with neither "http://" nor "https://" |
| `Urls.TitleOr` | app/dashboard/page.tsx:133 | JavaScript `title \|\| fallback` on strings: the result is one of the two operands, a non-empty title wins, and the result is empty exactly when both operands are |
| `BookmarkList.Prepend` | app/dashboard/page.tsx:61-64 | INSERT: the list grows by one, the new row is first and the old list is the unchanged tail |
| `BookmarkList.PrependCounts` | app/dashboard/page.tsx:60-65 | INSERT does not deduplicate: the new row's id occurs once more than before, and no other id's count changes |
| `BookmarkList.ReplaceById` | app/dashboard/page.tsx:78-82 | UPDATE keeps the length; each element whose id matches the payload becomes the payload, and every other element stays as it was at its index |
| `BookmarkList.ReplaceKeepsIds` | app/dashboard/page.tsx:78-82 | UPDATE keeps the id at every index, so every id occurs as often as before |
| `BookmarkList.ReplaceAbsent` | app/dashboard/page.tsx:78-82 | UPDATE for an id that is not in the list leaves the list unchanged |
| `BookmarkList.ReplaceIdempotent` | app/dashboard/page.tsx:78-82 | applying the same UPDATE twice gives the same list as applying it once |
| `BookmarkList.ReplaceAfterPrepend` | app/dashboard/page.tsx:60-83 | an UPDATE after an INSERT with the same id changes the new head and every older copy with that id |
| `BookmarkList.RemoveById` | app/dashboard/page.tsx:97-99 | after DELETE no element has that id; an element survives exactly when it was there and has another id; the length drops by the number of matches |
| `BookmarkList.RemoveIsSubsequence` | app/dashboard/page.tsx:97-99 | the surviving elements keep their original relative order |
| `BookmarkList.RemoveConcat` | app/dashboard/page.tsx:97-99 | DELETE applied to a concatenation is the concatenation of the DELETEs of its parts |
| `BookmarkList.RemoveAbsent` | app/dashboard/page.tsx:97-99 | deleting an id that is not in the list is a no-op |
| `BookmarkList.RemoveIdempotent` | app/dashboard/page.tsx:97-99 | applying the same DELETE twice gives the same list as applying it once |
| `BookmarkList.RemoveAfterPrepend` | app/dashboard/page.tsx:60-100 | a DELETE after an INSERT removes the new row and every older copy with that id; if the id was new, the list is back to what it was before the INSERT |
| `BookmarkList.RemoveAfterReplace` | app/dashboard/page.tsx:77-100 | a DELETE after an UPDATE of the same id gives the same list as the DELETE alone |
| `DashboardPage.AfterSnapshot` | app/dashboard/page.tsx:33-35 | on success the list becomes the returned rows, or the empty list when they are null; on error the list is unchanged |
| `DashboardPage.AddRequest` | app/dashboard/page.tsx:110-137 | an insert is issued exactly when the URL is non-empty and its normalised form parses; the row's URL is the normalised form, its owner is the user, and its title is the typed title, or the hostname when the typed title is empty |
| `DashboardPage.AddTitleNonEmpty` | app/dashboard/page.tsx:133 | an inserted row's title is non-empty whenever the hostname is |
| `DashboardPage.Dashboard.constructor` | app/dashboard/page.tsx:10-14 | the page starts with no user, an empty list, empty inputs and loading set |
| `DashboardPage.Dashboard.OnAuthStateChange` | app/dashboard/page.tsx:20-38 | without a session the page only redirects and keeps every field; with one it records the user, applies the snapshot outcome and clears `loading` for both success and error; the inputs are not touched |
| `DashboardPage.Dashboard.Subscribe` | app/dashboard/page.tsx:47-48 | the realtime channel is opened only once a user is known |
| `DashboardPage.Dashboard.OnInsert` | app/dashboard/page.tsx:60-65 | the INSERT handler sets the list to `Prepend` of the old list, and no other field changes |
| `DashboardPage.Dashboard.OnUpdate` | app/dashboard/page.tsx:77-83 | the UPDATE handler sets the list to `ReplaceById` of the old list, and no other field changes |
| `DashboardPage.Dashboard.OnDelete` | app/dashboard/page.tsx:96-100 | the DELETE handler sets the list to `RemoveById` of the old list, and no other field changes |
| `DashboardPage.Dashboard.SetTitle` | app/dashboard/page.tsx:191 | typing in the title input replaces `title` and nothing else |
| `DashboardPage.Dashboard.SetUrl` | app/dashboard/page.tsx:202 | typing in the URL input replaces `url` and nothing else |
| `DashboardPage.Dashboard.AddBookmark` | app/dashboard/page.tsx:110-147 | sends `AddRequest` of the current inputs; an empty or invalid URL sends nothing and leaves both inputs untouched; once an insert is sent, both inputs are cleared whether or not it failed; the list, user and loading flag never change |
| `DashboardPage.Dashboard.DeleteBookmark` | app/dashboard/page.tsx:150-161 | the delete targets the given id and changes no local state, whatever its outcome |
| `Card.UpdateRequest` | components/BookmarkCard.tsx:31-53 | an update is issued exactly when the normalised edit URL parses; it targets the card's bookmark id and carries the typed title as is (with no hostname fallback) and the normalised URL |
| `Card.BookmarkCard.constructor` | components/BookmarkCard.tsx:9-11 | a card starts out of edit mode, with the form holding the bookmark's title and URL |
| `Card.BookmarkCard.Domain` | components/BookmarkCard.tsx:13-23 | the shown domain is the hostname of the display URL, or "" when the display URL does not parse |
| `Card.BookmarkCard.SetBookmark` | app/dashboard/page.tsx:228-233 | a card keyed by id re-renders with the updated row for the same id: the prop changes, while `editing`, `newTitle` and `newUrl` keep their values (the hooks at components/BookmarkCard.tsx:9-11 are seeded only at mount) |
| `Card.BookmarkCard.Edit` | components/BookmarkCard.tsx:135 | Edit turns edit mode on |
| `Card.BookmarkCard.Cancel` | components/BookmarkCard.tsx:93 | Cancel turns edit mode off and keeps what was typed |
| `Card.BookmarkCard.SetNewTitle` | components/BookmarkCard.tsx:74 | typing in the title input replaces the form's title |
| `Card.BookmarkCard.SetNewUrl` | components/BookmarkCard.tsx:80 | typing in the URL input replaces the form's URL |
| `Card.BookmarkCard.UpdateBookmark` | components/BookmarkCard.tsx:30-61 | sends `UpdateRequest` of the form; an invalid URL sends nothing and keeps `editing`; a sent update ends edit mode only if it succeeded, and a failed one keeps `editing` as it was |

## Left out

- The WHATWG URL parser: it is an oracle parameter, so the model does not know which strings parse or what their hostnames are.
- Supabase: the snapshot `select`, `insert`, `update`, `delete`, the realtime channel and `auth`. The model does not run these calls. Their outcomes are parameters (`FetchResult`, `insertFailed`, `updateFailed`, `deleteFailed`), and the requests they would send are results.
- The channel's server-side filter `user_id=eq.<id>`: the handlers take any delivered event. Channel teardown (`removeChannel`) is left out too.
- Concurrency: the order between the auth callback, the snapshot await and the subscription effect is not modelled. Each handler is one atomic step, so races between the snapshot and the stream are out of scope.
- `window.location` redirects: the target is not modelled; only the fact of a redirect remains (`redirect`). Logout is out (auth I/O).
- Toasts, the clipboard copy button, the favicon image, framer-motion animation and all markup and styling (UI only). The Navbar count is `|bookmarks|`, shown as is.
- JavaScript's `null`/`undefined` titles and non-string values: bookmark fields are plain strings.
- app/page.tsx (session check and OAuth sign-in) and components/Navbar.tsx and app/layout.tsx (markup) are not part of this model.
