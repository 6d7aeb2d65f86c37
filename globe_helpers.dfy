/** The browser helpers of src/unknown-globe/public/js/helper_classes.js:
    the URI HttpHelper.get requests, the Google Tag Manager helper that
    appends to the `dataLayer` global, and the PostHelper state (current post,
    snippet cache) with its sort and card-building steps.

    The XMLHttpRequest transport, the Promise plumbing of loadPost and all DOM
    work are not modelled; a request is represented by the URI it targets. */
module GlobeHelpers {
  import opened Common
  import opened Js
  import opened QueryString
  import opened Snippets
  import Cards
  import ClientModels

  const PostsUri: string := "https://unknown-globe.appspot.com/getposts/"
  const PostUri: string := "https://unknown-globe.appspot.com/getpost/"

  /** The Portuguese caption of this revision. */
  const PtLabel: string := "PORTUGUÊS"

  // ---------------------------------------------------------------------------
  // HttpHelper.get

  /** The URI `get(url, params)` opens: the url, then the query string. */
  function RequestUri(url: string, params: Params, enc: Encoder): (r: string)
    ensures |r| >= |url| && r[..|url|] == url
    ensures |params| == 0 <==> r == url
  {
    url + BuildQueryString(params, enc)
  }

  /** The requested URI starts with the url unchanged, and what follows reads
      back as exactly the params, encoded and in order (get does not touch them). */
  lemma RequestUriParts(url: string, params: Params, enc: Encoder)
    requires EscapesSeparators(enc)
    ensures var uri := RequestUri(url, params, enc);
      && uri[..|url|] == url
      && ParseQueryString(uri[|url|..]) == EncodedParams(params, enc)
      && (|params| == 0 <==> uri == url)
  {
    var q := BuildQueryString(params, enc);
    assert RequestUri(url, params, enc)[|url|..] == q;
    QueryStringRoundTrip(params, enc);
  }

  // ---------------------------------------------------------------------------
  // GoogleTagManagerHelper

  class GoogleTagManagerHelper {
    var event: Value
    var params: Value

    constructor ()
      ensures event == Undefined && params == Undefined
    {
      event := Undefined;
      params := Undefined;
    }

    /** `fireTag()`: pushes `params`, then `{event: this.event}`. */
    method FireTag(dataLayer: DataLayer)
      modifies dataLayer
      ensures dataLayer.entries == old(dataLayer.entries) + [params, Obj(map["event" := event])]
    {
      dataLayer.entries := dataLayer.entries + [params];
      dataLayer.entries := dataLayer.entries + [Obj(map["event" := event])];
    }
  }

  // ---------------------------------------------------------------------------
  // PostHelper

  class PostHelper {
    /** The post shown last; None while undefined. */
    var currentPost: Option<ClientModels.Post>
    /** The snippet cache; null while undefined. */
    var snippets: SnippetArray?
    /** The loop counter the card loop keeps in a field. */
    var i: int

    constructor ()
      ensures currentPost == None && snippets == null
    {
      currentPost := None;
      snippets := null;
    }

    /** `getPosts(params)`: the cached list once there is one; otherwise a
        GET of the posts URI with the params as query string. */
    method GetPosts(params: Params, enc: Encoder) returns (r: Fetch)
      ensures snippets != null ==> r == Cached(snippets)
      ensures snippets == null ==> r == Request(RequestUri(PostsUri, params, enc))
    {
      if snippets != null {
        r := Cached(snippets);
      } else {
        r := Request(RequestUri(PostsUri, params, enc));
      }
    }

    /** The URI `getPostById(id)` requests: the id travels as the query
        parameter `id`, not as a path segment. */
    method GetPostByIdUri(id: string, enc: Encoder) returns (uri: string)
      ensures uri == PostUri + "?" + enc("id") + "=" + enc(id)
    {
      var params := [("id", id)];
      uri := RequestUri(PostUri, params, enc);
      assert EncodedPairs(params, enc) == [EncodePair(("id", id), enc)];
    }

    /** `sortPostSnippets(postSnippets, pivot)`: reorders the array in place and returns it. */
    method SortPostSnippets(list: SnippetArray, pivot: int) returns (r: SnippetArray)
      requires 0 <= pivot < |list.items|
      modifies list
      ensures r == list
      ensures IsPivotFirstOrder(list.items, old(list.items), pivot)
    {
      var alpha := list.items[pivot];
      list.items := RemoveAt(list.items, pivot);   // splice(pivot, 1)
      list.items := SortByDate(list.items);        // sort by descending date
      list.items := [alpha] + list.items;          // splice(0, 0, alpha)
      SortStepsGivePivotFirstOrder(old(list.items), pivot);
      r := list;
    }

    /** `buildCards(posts)`: one card per snippet, counted in `this.i`. */
    method BuildCards(posts: SnippetArray) returns (html: string)
      modifies this`i
      ensures i == |posts.items|
      ensures html == Cards.StackHtml(posts.items, PtLabel)
    {
      var items := posts.items;
      var cardsHtml: seq<string> := [];
      i := 0;
      while i < |items|
        invariant 0 <= i <= |items|
        invariant cardsHtml == Cards.StackPieces(items, i, PtLabel)
      {
        cardsHtml := Cards.PushCard(items, i, PtLabel, cardsHtml);
        i := i + 1;
      }
      html := Concat(cardsHtml);
    }

    /** What loadPost's `then` callback does once both requests have
        answered, minus the DOM: keep the post, fire the `post` tag and print
        the post. Printing reads the content in `lang`, which throws on an
        undefined or null content; the `catch` only logs, so then nothing is
        cached or sorted. Otherwise cache the fetched list, reorder that same
        array, so the cache holds the reordered list, and build the cards
        from it. */
    method CompleteLoad(post: WirePost, posts: SnippetArray, lang: string, pivot: int, dataLayer: DataLayer)
      returns (r: Result<string, ClientModels.Error>)
      requires 0 <= pivot < |posts.items|
      modifies this, posts, dataLayer
      ensures currentPost == Some(ClientModels.NewPost(post.id, Num(post.data.date), post.data.dateString,
                                    post.data.image, post.data.title, post.data.category, post.content))
      ensures dataLayer.entries == old(dataLayer.entries)
                                   + [ClientModels.PostTagParams(currentPost.value, lang), Obj(map["event" := Str("post")])]
      ensures r.Err? <==> post.content in {Undefined, Null}
      ensures r.Err? ==> snippets == old(snippets) && posts.items == old(posts.items) && i == old(i)
      ensures r.Ok? ==> && snippets == posts
                        && IsPivotFirstOrder(posts.items, old(posts.items), pivot)
                        && i == |old(posts.items)|
                        && r.value == Cards.StackHtml(posts.items, PtLabel)
    {
      currentPost := Some(ClientModels.NewPost(post.id, Num(post.data.date), post.data.dateString,
                                               post.data.image, post.data.title, post.data.category, post.content));
      var tagHelper := new GoogleTagManagerHelper();
      tagHelper.event := Str("post");
      tagHelper.params := ClientModels.PostTagParams(currentPost.value, lang);
      tagHelper.FireTag(dataLayer);
      var printed := ClientModels.GetContentByLanguage(currentPost.value, lang);
      if printed.Err? {
        return Err(printed.error);
      }
      snippets := posts;
      var sorted := SortPostSnippets(snippets, pivot);
      var cards := BuildCards(sorted);
      r := Ok(cards);
    }
  }

  /** One page session: after a load the cache is the very array that was
      reordered, and the next getPosts answers with it. A post whose
      content cannot be printed leaves nothing cached, so the next getPosts
      goes to the network again. */
  method CacheHoldsReorderedList(post: WirePost, posts: SnippetArray, pivot: int, dataLayer: DataLayer, enc: Encoder)
    returns (again: Fetch)
    requires 0 <= pivot < |posts.items|
    modifies posts, dataLayer
    ensures post.content !in {Undefined, Null} ==>
      again == Cached(posts) && IsPivotFirstOrder(posts.items, old(posts.items), pivot)
    ensures post.content in {Undefined, Null} ==>
      again == Request(RequestUri(PostsUri, [], enc)) && posts.items == old(posts.items)
  {
    var helper := new PostHelper();
    var loaded := helper.CompleteLoad(post, posts, "en", pivot, dataLayer);
    again := helper.GetPosts([], enc);
  }
}
