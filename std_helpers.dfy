/** The browser helpers of src/unknown-globe-std/public/js/helper_classes.js:
    ErrorHandler, GoogleTagManagerHelper.fireTag, HttpHelper.buildUri and the
    PostHelper state that survives
    between clicks (the current post, the one-shot snippet cache) together
    with its sort and card-building steps.

    The XMLHttpRequest transport, the Promise plumbing of loadPost and all DOM
    work are not modelled; a request is represented by the URI it targets. */
module StdHelpers {
  import opened Common
  import opened Js
  import opened QueryString
  import opened Snippets
  import Cards
  import ClientModels

  // ---------------------------------------------------------------------------
  // ErrorHandler

  /** The message table of ErrorHandler; `id in messages` compares the id's
      string form with the keys "1" and "2". */
  function ErrorMessage(id: Value): (message: string)
    ensures ToStr(id) == "1" ==> message == "Posts could not be loaded. Please try again later."
    ensures ToStr(id) == "2" ==> message == "1234"
    ensures message == "Unknown error" <==> ToStr(id) !in {"1", "2"}
  {
    if ToStr(id) == "1" then "Posts could not be loaded. Please try again later."
    else if ToStr(id) == "2" then "1234"
    else "Unknown error"
  }

  class ErrorHandler {
    var id: Value
    var message: string

    constructor (id: Value)
      ensures this.id == id && message == ErrorMessage(id)
    {
      this.id := id;
      message := ErrorMessage(id);
    }
  }

  // ---------------------------------------------------------------------------
  // GoogleTagManagerHelper

  /** `fireTag(event, params)`: pushes `params`, then `{event: event}`. */
  method FireTag(dataLayer: DataLayer, event: Value, params: Value)
    modifies dataLayer
    ensures dataLayer.entries == old(dataLayer.entries) + [params, Obj(map["event" := event])]
  {
    dataLayer.entries := dataLayer.entries + [params];
    dataLayer.entries := dataLayer.entries + [Obj(map["event" := event])];
  }

  // ---------------------------------------------------------------------------
  // HttpHelper.buildUri

  /** A params object handed to buildUri, which deletes a key from it. */
  class ParamsObject {
    var entries: Params

    constructor (entries: Params)
      ensures this.entries == entries
    {
      this.entries := entries;
    }
  }

  /** The path segment buildUri appends: `params.id` when the key is present. */
  function IdSegment(params: Params): string
  {
    match Lookup(params, "id")
    case Some(id) => id
    case None => ""
  }

  /** The URI buildUri returns for the given params. */
  function UriFor(base: string, action: string, params: Params, enc: Encoder): (r: string)
    ensures var head := base + "/" + action + "/";
      |r| >= |head| && r[..|head|] == head
  {
    base + "/" + action + "/" + IdSegment(params) + BuildQueryString(Without(params, "id"), enc)
  }

  /** `buildUri(base, action, params)`: the id goes into the path and is
      deleted from the caller's object; the other keys form the query string. */
  method BuildUri(base: string, action: string, params: ParamsObject, enc: Encoder) returns (uri: string)
    modifies params
    ensures params.entries == Without(old(params.entries), "id")
    ensures uri == UriFor(base, action, old(params.entries), enc)
  {
    var path := action + "/";
    var id := Lookup(params.entries, "id");
    if id.Some? {
      path := path + id.value;
      params.entries := Without(params.entries, "id");
    } else {
      WithoutAbsentKey(params.entries, "id");
    }
    uri := base + "/" + path + BuildQueryString(params.entries, enc);
  }

  /** The URI is the base, the action, the id as a path segment, and then a
      query string that reads back as exactly the other keys, encoded and in
      order; no key of the query string is `id`. */
  lemma UriForParts(base: string, action: string, params: Params, enc: Encoder)
    requires EscapesSeparators(enc)
    ensures var uri := UriFor(base, action, params, enc);
      var head := base + "/" + action + "/" + IdSegment(params);
      && uri[..|head|] == head
      && ParseQueryString(uri[|head|..]) == EncodedParams(Without(params, "id"), enc)
      && Lookup(Without(params, "id"), "id") == None
      && forall k :: k != "id" ==> Lookup(Without(params, "id"), k) == Lookup(params, k)
  {
    var head := base + "/" + action + "/" + IdSegment(params);
    var q := BuildQueryString(Without(params, "id"), enc);
    assert UriFor(base, action, params, enc) == head + q;
    assert (head + q)[|head|..] == q;
    QueryStringRoundTrip(Without(params, "id"), enc);
    WithoutRemovesOnlyKey(params, "id");
  }

  /** `buildUri("https://x", "getpost", {id: 7})` is "https://x/getpost/7". */
  lemma UriForIdOnly(enc: Encoder)
    ensures UriFor("https://x", "getpost", [("id", "7")], enc) == "https://x/getpost/7"
  {
    assert Without([("id", "7")], "id") == [];
  }

  /** Without an id the path ends in '/' and all the params form the query string. */
  lemma UriForWithoutId(base: string, action: string, params: Params, enc: Encoder)
    requires Lookup(params, "id") == None
    ensures UriFor(base, action, params, enc) == base + "/" + action + "/" + BuildQueryString(params, enc)
  {
    WithoutAbsentKey(params, "id");
  }

  // ---------------------------------------------------------------------------
  // PostHelper

  const BaseUri: string := "https://unknown-globe.appspot.com"

  /** The Portuguese caption as stored in this file (UTF-8 read as Latin-1). */
  const PtLabel: string := "PORTUGUÃŠS"

  class PostHelper {
    const baseUri: string
    /** The post shown last; None while undefined. */
    var currentPost: Option<ClientModels.Post>
    /** The snippet cache; null while undefined. */
    var postSnippets: SnippetArray?
    /** The loop counter the card loop keeps in a field. */
    var i: int

    constructor ()
      ensures baseUri == BaseUri && currentPost == None && postSnippets == null
    {
      baseUri := BaseUri;
      currentPost := None;
      postSnippets := null;
    }

    /** `getPosts(params)`: the cached list once there is one, without
        building a URI; otherwise a GET of the `getposts` URI, built by
        buildUri (which deletes `id` from the params). */
    method GetPosts(params: ParamsObject, enc: Encoder) returns (r: Fetch)
      modifies params
      ensures postSnippets != null ==> r == Cached(postSnippets) && params.entries == old(params.entries)
      ensures postSnippets == null ==>
        && r == Request(UriFor(baseUri, "getposts", old(params.entries), enc))
        && params.entries == Without(old(params.entries), "id")
    {
      if postSnippets != null {
        r := Cached(postSnippets);
      } else {
        var uri := BuildUri(baseUri, "getposts", params, enc);
        r := Request(uri);
      }
    }

    /** The URI `getPostById(id)` requests: the id as a path segment. */
    method GetPostByIdUri(id: string, enc: Encoder) returns (uri: string)
      ensures uri == baseUri + "/getpost/" + id
    {
      var params := new ParamsObject([("id", id)]);
      uri := BuildUri(baseUri, "getpost", params, enc);
      assert Without([("id", id)], "id") == [];
    }

    /** `sortPostSnippets(list, pivot)`: reorders the array in place and returns it. */
    method SortPostSnippets(list: SnippetArray, pivot: int) returns (r: SnippetArray)
      requires 0 <= pivot < |list.items|
      modifies list
      ensures r == list
      ensures IsPivotFirstOrder(list.items, old(list.items), pivot)
    {
      var alpha := list.items[pivot];
      list.items := RemoveAt(list.items, pivot);   // splice(pivot, 1)
      list.items := SortByDate(list.items);        // sort by descending date
      list.items := [alpha] + list.items;          // splice(0, 0, alpha)
      SortStepsGivePivotFirstOrder(old(list.items), pivot);
      r := list;
    }

    /** `buildCardsFromPostSnippets(list)`: one card per snippet, counted in `this.i`. */
    method BuildCardsFromPostSnippets(list: SnippetArray) returns (html: string)
      modifies this`i
      ensures i == |list.items|
      ensures html == Cards.StackHtml(list.items, PtLabel)
    {
      var items := list.items;
      var cardsHtml: seq<string> := [];
      i := 0;
      while i < |items|
        invariant 0 <= i <= |items|
        invariant cardsHtml == Cards.StackPieces(items, i, PtLabel)
      {
        cardsHtml := Cards.PushCard(items, i, PtLabel, cardsHtml);
        i := i + 1;
      }
      html := Concat(cardsHtml);
    }

    /** What loadPost's `then` callback does once both requests have
        answered, minus the DOM: keep the post, cache the fetched list, fire
        the `post` tag and print the post. Printing reads the content in
        `lang`, which throws on an undefined or null content; the `catch`
        then shows the message of `new ErrorHandler(1)`, and the cached list
        stays unsorted. Otherwise reorder the cached array with the loaded
        post in front and build the cards from it. */
    method CompleteLoad(post: WirePost, fetched: SnippetArray, lang: string, pivot: int, dataLayer: DataLayer)
      returns (r: Result<string, string>)
      requires 0 <= pivot < |fetched.items|
      modifies this, fetched, dataLayer
      ensures currentPost == Some(ClientModels.NewPost(post.id, Num(post.data.date), post.data.dateString,
                                    post.data.image, post.data.title, post.data.category, post.content))
      ensures dataLayer.entries == old(dataLayer.entries)
                                   + [ClientModels.PostTagParams(currentPost.value, lang), Obj(map["event" := Str("post")])]
      ensures postSnippets == fetched
      ensures r.Err? <==> post.content in {Undefined, Null}
      ensures r.Err? ==> r.error == ErrorMessage(Num(1)) && fetched.items == old(fetched.items) && i == old(i)
      ensures r.Ok? ==> && IsPivotFirstOrder(fetched.items, old(fetched.items), pivot)
                        && i == |old(fetched.items)|
                        && r.value == Cards.StackHtml(fetched.items, PtLabel)
    {
      currentPost := Some(ClientModels.NewPost(post.id, Num(post.data.date), post.data.dateString,
                                               post.data.image, post.data.title, post.data.category, post.content));
      postSnippets := fetched;
      FireTag(dataLayer, Str("post"), ClientModels.PostTagParams(currentPost.value, lang));
      var printed := ClientModels.GetContentByLanguage(currentPost.value, lang);
      if printed.Err? {
        var handler := new ErrorHandler(Num(1));
        return Err(handler.message);
      }
      var sorted := SortPostSnippets(postSnippets, pivot);
      var cards := BuildCardsFromPostSnippets(sorted);
      r := Ok(cards);
    }
  }

  /** One page session: the first getPosts goes to the network, the load
      caches the list, and the second getPosts is answered from that cache. */
  method SecondGetPostsIsCached(fetched: SnippetArray, post: WirePost, dataLayer: DataLayer, enc: Encoder)
    returns (first: Fetch, second: Fetch)
    requires |fetched.items| > 0
    modifies fetched, dataLayer
    ensures first == Request(BaseUri + "/getposts/")
    ensures second == Cached(fetched)
  {
    var helper := new PostHelper();
    var params := new ParamsObject([]);
    first := helper.GetPosts(params, enc);
    UriForWithoutId(BaseUri, "getposts", [], enc);
    assert "/" + "getposts" + "/" + "" == "/getposts/";
    assert first == Request(BaseUri + "/getposts/");
    var loaded := helper.CompleteLoad(post, fetched, "en", 0, dataLayer);
    var params2 := new ParamsObject([]);
    second := helper.GetPosts(params2, enc);
  }
}
