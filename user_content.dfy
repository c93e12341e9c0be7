// The user's content page (UserContent.tsx): loading the listing, merging
// the posts the auto-publish endpoint reports, and the display filter.

module UserContentView {
  import opened Wrappers
  import opened Api
  import Lists
  import ContentServer

  type Item = ContentServer.Item

  /** The display filter: an item without a status, or a published one. */
  predicate Shown(item: Item)
  {
    item.row.status.None? || item.row.status == Some(ContentServer.Published)
  }

  function DisplayFilter(items: seq<Item>): (r: seq<Item>)
    ensures forall i :: 0 <= i < |r| ==> Shown(r[i]) && r[i] in items
    ensures forall i :: 0 <= i < |items| && Shown(items[i]) ==> items[i] in r
  {
    Lists.Filter(items, Shown)
  }

  /**
   * The page asks for status=published, and the endpoint then returns only
   * items the display filter keeps, so on such a listing it removes nothing.
   */
  lemma PublishedListingFullyShown(items: seq<Item>, rows: seq<ContentServer.Row>, role: string, now: int)
    requires |items| == |ContentServer.VisibleRows(rows, role, "published", now)|
    requires forall i :: 0 <= i < |items| ==> items[i].row == ContentServer.VisibleRows(rows, role, "published", now)[i]
    ensures DisplayFilter(items) == items
  {
    Lists.FilterAll(items, Shown);
  }

  /** One published post written over the first local item with its id. */
  function MergeOne(s: seq<Item>, p: Item): (r: seq<Item>)
    ensures |r| == |s|
    ensures forall i :: 0 <= i < |s| ==> r[i].row.id == s[i].row.id
    ensures forall i :: 0 <= i < |s| ==> r[i] == s[i] || (r[i] == p && s[i].row.id == p.row.id)
    ensures (exists i :: 0 <= i < |s| && s[i].row.id == p.row.id) ==> p in r
  {
    match Lists.FirstIndex(s, (x: Item) => x.row.id == p.row.id)
    case None => s
    case Some(k) => s[k := p]
  }

  /** All published posts merged in order; the forEach loop of the source. */
  function Merge(s: seq<Item>, posts: seq<Item>): (r: seq<Item>)
    ensures |r| == |s|
    ensures forall i :: 0 <= i < |s| ==> r[i].row.id == s[i].row.id
    ensures forall i :: 0 <= i < |s| ==> r[i] == s[i] || r[i] in posts
    ensures forall i :: 0 <= i < |s| && (forall j :: 0 <= j < |posts| ==> posts[j].row.id != s[i].row.id) ==> r[i] == s[i]
  {
    if |posts| == 0 then s
    else
      var prefix := posts[..|posts| - 1];
      var r := MergeOne(Merge(s, prefix), posts[|posts| - 1]);
      assert forall x :: x in prefix ==> x in posts;
      r
  }

  /**
   * A post whose id is listed locally and that no later post with the same id
   * overrides ends up in the merged list.
   */
  lemma {:induction false} LastPostIsApplied(s: seq<Item>, posts: seq<Item>, j: int)
    requires 0 <= j < |posts|
    requires exists i :: 0 <= i < |s| && s[i].row.id == posts[j].row.id
    requires forall k :: j < k < |posts| ==> posts[k].row.id != posts[j].row.id
    ensures posts[j] in Merge(s, posts)
  {
    var n := |posts|;
    var prefix := posts[..n - 1];
    var before := Merge(s, prefix);
    var i :| 0 <= i < |s| && s[i].row.id == posts[j].row.id;
    if j == n - 1 {
      assert before[i].row.id == posts[j].row.id;
    } else {
      assert prefix[j] == posts[j];
      LastPostIsApplied(s, prefix, j);
      var k :| 0 <= k < |before| && before[k] == posts[j];
      assert MergeOne(before, posts[n - 1])[k] == posts[j];
    }
  }

  /** The page's view, in the order its render checks it. */
  datatype View = Loading | ErrorView(message: string) | NoRole | Empty | Cards(items: seq<Item>)

  /** The response of the auto-publish endpoint. */
  datatype AutoPublished = AutoPublished(published: int, posts: seq<Item>)

  class UserContentPage {
    var content: seq<Item>
    var userRole: string
    var loading: bool
    var error: Option<string>

    constructor()
      ensures content == [] && userRole == "" && loading && error.None?
    {
      content := [];
      userRole := "";
      loading := true;
      error := None;
    }

    /** fetchUserContent; `response` is GET /user/content/:id?status=published. */
    method FetchUserContent(hasTelegramId: bool, response: Response<ContentServer.Listing>)
      modifies this
      ensures !loading
      ensures !hasTelegramId ==> error == Some("Telegram user ID не найден") && content == old(content) && userRole == old(userRole)
      ensures hasTelegramId && response.Failed? ==> error == Some(response.message) && content == old(content) && userRole == old(userRole)
      ensures hasTelegramId && response.NoData? ==> error.None? && content == old(content) && userRole == old(userRole)
      ensures hasTelegramId && response.Data? ==> (
        && error.None? && content == response.value.content && userRole == response.value.userRole)
    {
      loading := true;
      error := None;
      if !hasTelegramId {
        error := Some("Telegram user ID не найден");
        loading := false;
        return;
      }
      match response {
        case Failed(m) =>
          error := Some(m);
        case NoData =>
        case Data(listing) =>
          content := listing.content;
          userRole := listing.userRole;
      }
      loading := false;
    }

    /**
     * The local update after checkAndPublishOverduePosts: only when the
     * endpoint reports published > 0, and then by the post-by-post merge.
     */
    method ApplyAutoPublished(response: Response<AutoPublished>)
      modifies this`content
      ensures !(response.Data? && response.value.published > 0) ==> content == old(content)
      ensures response.Data? && response.value.published > 0 ==> content == Merge(old(content), response.value.posts)
    {
      if response.Data? && response.value.published > 0 {
        var posts := response.value.posts;
        var updated := content;
        var j := 0;
        while j < |posts|
          invariant 0 <= j <= |posts|
          invariant updated == Merge(content, posts[..j])
        {
          ghost var before := updated;
          var index := Lists.FirstIndex(updated, (x: Item) => x.row.id == posts[j].row.id);
          if index.Some? {
            updated := updated[index.value := posts[j]];
          }
          assert updated == MergeOne(before, posts[j]);
          assert posts[..j + 1][..j] == posts[..j];
          assert Merge(content, posts[..j + 1]) == MergeOne(Merge(content, posts[..j]), posts[j]);
          j := j + 1;
        }
        assert posts[..|posts|] == posts;
        content := updated;
      }
    }

    /** The render chain: loading, error, no role, nothing, or the filtered cards. */
    function Render(): (v: View)
      reads this
      ensures loading <==> v.Loading?
      ensures v.ErrorView? <==> !loading && error.Some?
      ensures v.NoRole? <==> !loading && error.None? && userRole == ""
      ensures v.Empty? <==> !loading && error.None? && userRole != "" && content == []
      ensures v.Cards? <==> !loading && error.None? && userRole != "" && content != []
      ensures v.ErrorView? ==> v.message == error.value
      ensures v.Cards? ==> v.items == DisplayFilter(content)
    {
      if loading then Loading
      else if error.Some? then ErrorView(error.value)
      else if userRole == "" then NoRole
      else if content == [] then Empty
      else Cards(DisplayFilter(content))
    }
  }
}
