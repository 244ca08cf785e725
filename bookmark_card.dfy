/**
 * One bookmark card (components/BookmarkCard.tsx): the displayed domain, the edit form's
 * state hooks `editing`, `newTitle` and `newUrl`, and the save handler `updateBookmark`.
 */
module Card {
  import opened Wrappers
  import opened Urls
  import opened BookmarkList

  /** The patch handed to `update(...).eq("id", id)`. */
  datatype UpdatePatch = UpdatePatch(id: Id, title: string, url: string)

  /** What `updateBookmark` sends for the edit form's contents, or None when the normalised
      URL does not parse. Unlike the add path there is no empty-input check and no
      hostname fallback for an empty title. */
  function UpdateRequest(b: Bookmark, newTitle: string, newUrl: string, parse: UrlParser): (r: Option<UpdatePatch>)
    ensures r.Some? <==> ValidUrl(parse, NormalizeUrl(newUrl))
    ensures r.Some? ==> r.value.id == b.id && r.value.title == newTitle
    ensures r.Some? ==> r.value.url == NormalizeUrl(newUrl) && HasProtocol(r.value.url)
  {
    var formatted := NormalizeUrl(newUrl);
    if ValidUrl(parse, formatted) then Some(UpdatePatch(b.id, newTitle, formatted)) else None
  }

  class BookmarkCard {
    /** The `bookmark` prop. The list renders cards keyed by id, so after an UPDATE event
        the same card receives the new row while its hooks keep their values. */
    var bookmark: Bookmark
    var editing: bool
    var newTitle: string
    var newUrl: string

    /** The hooks start out of edit mode, with the form holding the bookmark's values. */
    constructor (bookmark: Bookmark)
      ensures this.bookmark == bookmark
      ensures !editing && newTitle == bookmark.title && newUrl == bookmark.url
    {
      this.bookmark := bookmark;
      editing := false;
      newTitle, newUrl := bookmark.title, bookmark.url;
    }

    /** The domain shown for the card: the hostname of the display URL, or "" when it does
        not parse. */
    method Domain(parse: UrlParser) returns (domain: string)
      ensures !ValidUrl(parse, DisplayUrl(bookmark.url)) ==> domain == ""
      ensures ValidUrl(parse, DisplayUrl(bookmark.url)) ==> domain == Hostname(parse, DisplayUrl(bookmark.url))
    {
      domain := "";
      var formattedUrl := if StartsWith(bookmark.url, "http") then bookmark.url else Https + bookmark.url;
      if ValidUrl(parse, formattedUrl) {
        domain := Hostname(parse, formattedUrl);
      } else {
        domain := "";
      }
    }

    /** A re-render with the updated row for the same id: only the prop changes; the form
        keeps the values it was seeded with at mount, and `editing` is kept. */
    method SetBookmark(b: Bookmark)
      requires b.id == bookmark.id
      modifies this`bookmark
      ensures bookmark == b
    {
      bookmark := b;
    }

    /** The Edit button. */
    method Edit()
      modifies this`editing
      ensures editing
    {
      editing := true;
    }

    /** The Cancel button; the form keeps what was typed. */
    method Cancel()
      modifies this`editing
      ensures !editing
    {
      editing := false;
    }

    /** The title input's onChange. */
    method SetNewTitle(t: string)
      modifies this`newTitle
      ensures newTitle == t
    {
      newTitle := t;
    }

    /** The URL input's onChange. */
    method SetNewUrl(u: string)
      modifies this`newUrl
      ensures newUrl == u
    {
      newUrl := u;
    }

    /** `updateBookmark`. An invalid URL sends nothing and keeps `editing`; a sent patch
        leaves edit mode only when the update succeeded (`updateFailed` is its outcome). */
    method UpdateBookmark(parse: UrlParser, updateFailed: bool) returns (sent: Option<UpdatePatch>)
      modifies this`editing
      ensures sent == UpdateRequest(bookmark, newTitle, newUrl, parse)
      ensures sent.None? ==> editing == old(editing)
      ensures sent.Some? && updateFailed ==> editing == old(editing)
      ensures sent.Some? && !updateFailed ==> !editing
    {
      var formattedUrl := newUrl;
      if !StartsWith(formattedUrl, Http) && !StartsWith(formattedUrl, Https) {
        formattedUrl := Https + formattedUrl;
      }
      if !ValidUrl(parse, formattedUrl) {
        return None;
      }
      sent := Some(UpdatePatch(bookmark.id, newTitle, formattedUrl));
      if !updateFailed {
        editing := false;
      }
    }
  }
}
