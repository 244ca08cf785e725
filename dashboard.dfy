/**
 * The dashboard page (app/dashboard/page.tsx) as an object: the React state hooks
 * `user`, `bookmarks`, `title`, `url` and `loading` become fields, the auth callback,
 * the realtime handlers and the add/delete handlers become methods. Network calls are
 * not modelled: their outcomes are parameters and the requests they would send are
 * results.
 */
module DashboardPage {
  import opened Wrappers
  import opened Urls
  import opened BookmarkList

  /** The signed-in user of a session; only its id is used by the page. */
  datatype User = User(id: Id)

  /** Outcome of the snapshot query `select("*").order("created_at", desc)`: rows
      (possibly null) or an error. */
  datatype FetchResult = Fetched(data: Option<seq<Bookmark>>) | FetchFailed

  /** The row handed to `insert`. */
  datatype InsertRow = InsertRow(title: string, url: string, userId: Id)

  /** The list after the snapshot query resolves. */
  function AfterSnapshot(prev: seq<Bookmark>, result: FetchResult): (r: seq<Bookmark>)
    ensures result.FetchFailed? ==> r == prev
    ensures result.Fetched? && result.data.Some? ==> r == result.data.value
    ensures result.Fetched? && result.data.None? ==> r == []
  {
    match result
    case FetchFailed => prev
    case Fetched(data) => if data.Some? then data.value else []
  }

  /** What `addBookmark` hands to `insert` for these inputs, or None when it returns
      before issuing the request. */
  function AddRequest(title: string, url: string, userId: Id, parse: UrlParser): (r: Option<InsertRow>)
    ensures r.Some? <==> url != "" && ValidUrl(parse, NormalizeUrl(url))
    ensures r.Some? ==> r.value.url == NormalizeUrl(url) && HasProtocol(r.value.url)
    ensures r.Some? ==> r.value.userId == userId
    ensures r.Some? && title != "" ==> r.value.title == title
    ensures r.Some? && title == "" ==> r.value.title == Hostname(parse, NormalizeUrl(url))
  {
    if url == "" then None
    else
      var formatted := NormalizeUrl(url);
      if !ValidUrl(parse, formatted) then None
      else Some(InsertRow(TitleOr(title, Hostname(parse, formatted)), formatted, userId))
  }

  /** An inserted bookmark's title is never empty when the hostname is not. */
  lemma AddTitleNonEmpty(title: string, url: string, userId: Id, parse: UrlParser)
    requires AddRequest(title, url, userId, parse).Some?
    requires Hostname(parse, NormalizeUrl(url)) != ""
    ensures AddRequest(title, url, userId, parse).value.title != ""
  {
  }

  class Dashboard {
    var user: Option<User>
    var bookmarks: seq<Bookmark>
    var title: string
    var url: string
    var loading: bool
    /** The realtime channel has been opened. */
    var subscribed: bool

    /** The add form is rendered only once loading is over, and the channel is opened only
        once a user is known; both happen after the user was set. */
    ghost predicate Valid()
      reads this
    {
      (!loading ==> user.Some?) && (subscribed ==> user.Some?)
    }

    /** The initial state of the hooks. */
    constructor ()
      ensures Valid()
      ensures user == None && bookmarks == [] && title == "" && url == ""
      ensures loading && !subscribed
    {
      user, bookmarks, title, url := None, [], "", "";
      loading, subscribed := true, false;
    }

    /** The `onAuthStateChange` callback. Without a session it only redirects to the sign-in
        page; with one it records the user, applies the snapshot query's outcome and ends
        loading, whether or not the query failed. */
    method OnAuthStateChange(session: Option<User>, fetched: FetchResult) returns (redirect: bool)
      requires Valid()
      modifies this
      ensures Valid()
      ensures redirect <==> session.None?
      ensures session.None? ==> unchanged(this)
      ensures session.Some? ==> user == session && !loading
      ensures session.Some? ==> bookmarks == AfterSnapshot(old(bookmarks), fetched)
      ensures title == old(title) && url == old(url) && subscribed == old(subscribed)
    {
      if session.None? {
        return true;
      }
      user := session;
      if !fetched.FetchFailed? {
        bookmarks := if fetched.data.Some? then fetched.data.value else [];
      }
      loading := false;
      return false;
    }

    /** The subscription effect: nothing happens while no user is known. */
    method Subscribe()
      requires Valid()
      modifies this`subscribed
      ensures Valid()
      ensures subscribed == (old(subscribed) || user.Some?)
    {
      if user.None? {
        return;
      }
      subscribed := true;
    }

    /** The INSERT handler prepends the new row, without deduplication. */
    method OnInsert(row: Bookmark)
      requires Valid() && subscribed
      modifies this`bookmarks
      ensures Valid()
      ensures bookmarks == Prepend(old(bookmarks), row)
    {
      bookmarks := Prepend(bookmarks, row);
    }

    /** The UPDATE handler replaces every element whose id is the new row's. */
    method OnUpdate(row: Bookmark)
      requires Valid() && subscribed
      modifies this`bookmarks
      ensures Valid()
      ensures bookmarks == ReplaceById(old(bookmarks), row)
    {
      bookmarks := ReplaceById(bookmarks, row);
    }

    /** The DELETE handler drops every element whose id is the old row's. */
    method OnDelete(oldId: Id)
      requires Valid() && subscribed
      modifies this`bookmarks
      ensures Valid()
      ensures bookmarks == RemoveById(old(bookmarks), oldId)
    {
      bookmarks := RemoveById(bookmarks, oldId);
    }

    /** The title input's onChange. */
    method SetTitle(t: string)
      requires Valid()
      modifies this`title
      ensures Valid()
      ensures title == t
    {
      title := t;
    }

    /** The URL input's onChange. */
    method SetUrl(u: string)
      requires Valid()
      modifies this`url
      ensures Valid()
      ensures url == u
    {
      url := u;
    }

    /** `addBookmark`. `insertFailed` is the outcome of the insert call; it selects only
        the toast, so the inputs are cleared either way. The list itself is untouched:
        the new row arrives through the INSERT handler. */
    method AddBookmark(parse: UrlParser, insertFailed: bool) returns (sent: Option<InsertRow>)
      requires Valid() && !loading
      modifies this`title, this`url
      ensures Valid()
      ensures sent == AddRequest(old(title), old(url), user.value.id, parse)
      ensures sent.Some? ==> title == "" && url == ""
      ensures sent.None? ==> title == old(title) && url == old(url)
    {
      if url == "" {
        return None;
      }
      var formattedUrl := url;
      if !StartsWith(formattedUrl, Http) && !StartsWith(formattedUrl, Https) {
        formattedUrl := Https + formattedUrl;
      }
      if !ValidUrl(parse, formattedUrl) {
        return None;
      }
      sent := Some(InsertRow(TitleOr(title, Hostname(parse, formattedUrl)), formattedUrl, user.value.id));
      title := "";
      url := "";
    }

    /** `deleteBookmark` sends a delete for `id` and changes no local state, whatever the
        outcome `deleteFailed`: the element leaves the list only through the DELETE handler. */
    method DeleteBookmark(id: Id, deleteFailed: bool) returns (target: Id)
      ensures target == id
    {
      target := id;
    }
  }
}
