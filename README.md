# unknown-globe post models and browser helpers, in Dafny

The unknown-globe blog shows a stack of post cards and one opened post in
three languages (English, Polish, Portuguese). This project models the
parts of it that hold its logic:

- **The server-side post records.** These are `PostSnippet` and `Post` in
  `src/unknown-globe/models.js` and in lines 8-73 of
  `src/unknown-globe/blog/app/app.js` (module `ServerModels`). They cover
  the date formatting of `timeConverter`, the category table of
  `getCategoryByEnum`, the `getTitle` getter, the layout of the `data`
  object and how a Datastore entity becomes a `Post`.
- **The Python post helper** of `src/unknown-globe-std/models.py`
  (module `PyModels`). It covers the constructor and its error cases, the
  category converter and `get_post`.
- **The browser data-transfer objects** of both revisions of
  `public/models/models.js` (module `ClientModels`).
- **The browser helper classes** of both revisions of
  `public/js/helper_classes.js`:
  - `QueryString` holds the query-string builder and key deletion;
  - `Snippets` holds the snippet list and its pivot-first sort;
  - `Cards` holds the card markup;
  - `StdHelpers` holds the `src/unknown-globe-std` revision;
  - `GlobeHelpers` holds the `src/unknown-globe` revision.

`Common` holds generic helpers: `Option` and `Result`, join and split,
integer to decimal string and back, filtering. `Js` holds the JavaScript
values the code handles and the `dataLayer` global.

A JavaScript object's own properties are a `map<string, Value>`, or a
datatype where the set of properties is fixed. The classes whose fields
the helpers update in place are Dafny classes:

- `ErrorHandler`, `GoogleTagManagerHelper` and both `PostHelper`s;
- the `dataLayer` array;
- the params object that `buildUri` deletes from;
- the snippet array that `sortPostSnippets` reorders in place and that
  `PostHelper` then keeps as its cache.

The loops of the card builders are `while` loops. They are proved equal
to a specification function (`Cards.StackHtml`), and the lemmas in
`Cards` prove what that markup contains.

Three things come in as parameters:

- `encodeURIComponent` is an `Encoder`;
- the local calendar fields of a JavaScript `Date` are a `Calendar`;
- Python's `time.mktime` and `str` on a date are functions.

## Model

| member | source | states |
|---|---|---|
| Js.Get | src/unknown-globe/public/models/models.js:34-36 | property lookup gives the stored value for an own property and undefined for any other key |
| QueryString.BuildQueryString | src/unknown-globe-std/public/js/helper_classes.js:44-52 | the result is empty exactly when there are no keys, and otherwise starts with '?' |
| QueryString.QueryStringRoundTrip | src/unknown-globe-std/public/js/helper_classes.js:44-52 | reading the built query string back gives every key/value pair, encoded and in key order, when the encoder escapes '&' and '=' |
| QueryString.QueryStringOfTwoKeys | src/unknown-globe-std/public/js/helper_classes.js:44-52 | two keys give '?', the first encoded `key=value`, '&', and the second encoded `key=value` |
| QueryString.EncodedPairParses | src/unknown-globe-std/public/js/helper_classes.js:47 | one `key=value` item reads back as the encoded key and the encoded value |
| Common.SplitJoin | src/unknown-globe-std/public/js/helper_classes.js:46-48 | splitting a join on its separator gives back the parts when no part holds the separator |
| QueryString.Without | src/unknown-globe-std/public/js/helper_classes.js:64-67 | after the deletion no pair has the key, and every remaining pair was there before |
| QueryString.WithoutRemovesOnlyKey | src/unknown-globe-std/public/js/helper_classes.js:64-67 | the deleted key is gone and every other key looks up the same value as before |
| QueryString.WithoutAbsentKey | src/unknown-globe-std/public/js/helper_classes.js:64-67 | deleting a key that is absent leaves the params unchanged |
| StdHelpers.ErrorMessage | src/unknown-globe-std/public/js/helper_classes.js:4-11 | id 1 gives the posts-not-loaded message, id 2 gives "1234", and every other id (and only those) gives "Unknown error" |
| StdHelpers.ErrorHandler.constructor | src/unknown-globe-std/public/js/helper_classes.js:4-11 | the handler keeps the id and the message looked up for it |
| StdHelpers.FireTag | src/unknown-globe-std/public/js/helper_classes.js:27-30 | the data layer gains the params and then `{event}`, after everything it held before |
| StdHelpers.UriFor | src/unknown-globe-std/public/js/helper_classes.js:61-70 | the URI always starts with base, '/', action, '/' |
| StdHelpers.BuildUri | src/unknown-globe-std/public/js/helper_classes.js:61-70 | the caller's params object loses `id` and nothing else, and the URI is the one built from the params as they were before |
| StdHelpers.UriForParts | src/unknown-globe-std/public/js/helper_classes.js:61-70 | the URI is base, '/', action, '/', the id as a path segment, then a query string that reads back as exactly the other keys in order; `id` never reaches the query string and no other key is lost |
| StdHelpers.UriForWithoutId | src/unknown-globe-std/public/js/helper_classes.js:61-70 | with no `id` key the path ends in '/' and is followed by the query string of all the params |
| StdHelpers.UriForIdOnly | src/unknown-globe-std/public/js/helper_classes.js:135-137 | `{id: 7}` gives `https://x/getpost/7`, with no query string |
| StdHelpers.PostHelper.constructor | src/unknown-globe-std/public/js/helper_classes.js:98-102 | the helper starts with the appspot base URI, no current post and no cached snippets |
| StdHelpers.PostHelper.GetPosts | src/unknown-globe-std/public/js/helper_classes.js:109-128 | when snippets are cached it settles with that same array and builds no URI; otherwise it requests the `getposts` URI, and the params lose `id` |
| StdHelpers.PostHelper.GetPostByIdUri | src/unknown-globe-std/public/js/helper_classes.js:135-149 | the post is requested from base + `/getpost/` + id |
| StdHelpers.PostHelper.SortPostSnippets | src/unknown-globe-std/public/js/helper_classes.js:189-197 | the same array comes back, reordered in place: the pivot element first, then all the others by non-increasing date |
| StdHelpers.PostHelper.BuildCardsFromPostSnippets | src/unknown-globe-std/public/js/helper_classes.js:204-243 | the loop leaves `i` at the list length and returns exactly the stack markup of the list |
| StdHelpers.PostHelper.CompleteLoad | src/unknown-globe-std/public/js/helper_classes.js:302-346 | the current post is the fetched post, the fetched array is cached and the data layer gains the post tag, all before printing; printing throws exactly when the content is undefined or null, and then the catch shows the message of `ErrorHandler(1)` and the array stays unsorted; otherwise the array is reordered pivot-first and the cards are its stack markup; the card counter `i` ends at the list length after the cards, and is untouched after a throw |
| StdHelpers.SecondGetPostsIsCached | src/unknown-globe-std/public/js/helper_classes.js:109-128 | the first getPosts requests `/getposts/`; after a post load, whether it prints or throws, the next getPosts settles with the cached array itself |
| GlobeHelpers.RequestUriParts | src/unknown-globe/public/js/helper_classes.js:42-60 | the requested URI is the url unchanged, followed by a query string that reads back as exactly the params; with no params it is the url itself |
| GlobeHelpers.RequestUri | src/unknown-globe/public/js/helper_classes.js:42-44 | the URI starts with the url, and is the url itself exactly when there are no params |
| GlobeHelpers.GoogleTagManagerHelper.constructor | src/unknown-globe/public/js/helper_classes.js:4-7 | event and params start undefined |
| GlobeHelpers.GoogleTagManagerHelper.FireTag | src/unknown-globe/public/js/helper_classes.js:9-12 | the data layer gains the helper's params and then `{event}`, after everything it held before |
| GlobeHelpers.PostHelper.constructor | src/unknown-globe/public/js/helper_classes.js:65-68 | the helper starts with no current post and no cached snippets |
| GlobeHelpers.PostHelper.GetPosts | src/unknown-globe/public/js/helper_classes.js:75-94 | it settles with the cached array when there is one, and otherwise requests the posts URL with the params' query string |
| GlobeHelpers.PostHelper.GetPostByIdUri | src/unknown-globe/public/js/helper_classes.js:101-115 | the post is requested from the getpost URL with the query `?id=<id>`, both encoded |
| GlobeHelpers.PostHelper.SortPostSnippets | src/unknown-globe/public/js/helper_classes.js:155-163 | the same array comes back, reordered in place: the pivot element first, then all the others by non-increasing date |
| GlobeHelpers.PostHelper.BuildCards | src/unknown-globe/public/js/helper_classes.js:170-209 | the loop leaves `i` at the list length and returns exactly the stack markup of the list |
| GlobeHelpers.PostHelper.CompleteLoad | src/unknown-globe/public/js/helper_classes.js:268-311 | the current post is the fetched post and the data layer gains the `post` tag; printing throws exactly when the content is undefined or null, and then the catch only logs, so the cache and the array are left as they were; otherwise the array is cached, reordered pivot-first, and the cards are its stack markup; the card counter `i` ends at the list length after the cards, and is untouched after a throw |
| GlobeHelpers.CacheHoldsReorderedList | src/unknown-globe/public/js/helper_classes.js:75-94 | after a post that prints, getPosts settles with the cached array, which holds the pivot-first order; after a post whose content is undefined or null, nothing was cached, so getPosts requests the posts URL again and the array is unchanged |
| Snippets.RemoveAt | src/unknown-globe-std/public/js/helper_classes.js:191 | `splice(pivot, 1)` shortens the list by one and removes exactly the pivot element |
| Snippets.InsertKeepsOrder | src/unknown-globe-std/public/js/helper_classes.js:192-194 | inserting into a list in non-increasing date order keeps that order |
| Snippets.SortByDate | src/unknown-globe-std/public/js/helper_classes.js:192-194 | the sort returns a permutation of its input in non-increasing date order |
| Snippets.SortStepsGivePivotFirstOrder | src/unknown-globe-std/public/js/helper_classes.js:189-197 | the splice, sort, splice steps give the pivot element first and the rest sorted |
| Snippets.PivotFirstOrderIsPermutation | src/unknown-globe-std/public/js/helper_classes.js:189-197 | a pivot-first order has the same elements as the original list |
| Snippets.ResortWithFrontPivot | src/unknown-globe/public/js/helper_classes.js:155-163 | sorting the cached list again with pivot 0 keeps the pivot-first order of the first sort |
| Cards.MakeCard | src/unknown-globe-std/public/js/helper_classes.js:212-233 | one iteration wraps the snippet in a PostSnippet and makes the alpha card with z-index `length` at index 0, and a beta card with z-index `length - i` elsewhere |
| Cards.ClientSnippet | src/unknown-globe-std/public/js/helper_classes.js:212-219 | the client snippet carries the wire snippet's id, date, date string, image, category, and a title that getTitle returns |
| Cards.AlphaHead | src/unknown-globe-std/public/js/helper_classes.js:222-227 | the alpha card pushes six pieces, up to its footer's opening, before its language controls |
| Cards.BetaPieces | src/unknown-globe-std/public/js/helper_classes.js:233-238 | a beta card pushes six pieces |
| Cards.CardPieces | src/unknown-globe-std/public/js/helper_classes.js:221-239 | the alpha card pushes ten pieces, a beta card six |
| Cards.StackPiecesNext | src/unknown-globe-std/public/js/helper_classes.js:207-240 | one more iteration appends exactly that card's pieces |
| Cards.PushCard | src/unknown-globe-std/public/js/helper_classes.js:207-240 | one loop iteration turns the pieces of the first k cards into the pieces of the first k + 1 |
| Cards.OpeningTagShape | src/unknown-globe-std/public/js/helper_classes.js:222 | a card's opening tag opens a card element and is not a language control |
| Cards.CardPiecesShape | src/unknown-globe-std/public/js/helper_classes.js:221-239 | each card pushes exactly one card opening, its own; only the alpha card pushes the language controls |
| Cards.CardOpeningsInOrder | src/unknown-globe-std/public/js/helper_classes.js:204-243 | the markup opens one card per snippet, in list order: alpha with z-index `length` first, then beta cards with z-index `length - i`, each carrying its post id |
| Cards.LangControlsOnlyOnAlpha | src/unknown-globe-std/public/js/helper_classes.js:227-231 | the language controls appear once, on the first card, in the order en, pl, pt; there are none for an empty list |
| Cards.StackHtml | src/unknown-globe-std/public/js/helper_classes.js:242 | the joined markup is empty exactly when the list is |
| Cards.StackPiecesJoinEmpty | src/unknown-globe-std/public/js/helper_classes.js:204-242 | joining the pushed pieces gives the empty string exactly when there are no snippets, since every card's first piece is a non-empty opening tag |
| ClientModels.NewPost | src/unknown-globe/public/models/models.js:23-32 | after the argument-less `super()` every property holds the value passed to the Post constructor |
| ClientModels.GetTitle | src/unknown-globe/public/models/models.js:14-16 | getTitle returns the snippet's own title |
| ClientModels.PostTagParams | src/unknown-globe-std/public/js/helper_classes.js:323-327 | the tag params of loadPost (also src/unknown-globe/public/js/helper_classes.js:290-294) have exactly the keys postId, postTitle and postLanguage, holding the post's id, what getTitle returns for it, and the language |
| ClientModels.GetTitleReturnsConstructorTitle | src/unknown-globe-std/public/models/models.js:5-16 | getTitle returns the constructor's title, for a snippet and for a post |
| ClientModels.GetContentByLanguage | src/unknown-globe/public/models/models.js:34-36 | the text is read from the content object; undefined or null content throws, and only then |
| ClientModels.ContentByLanguage | src/unknown-globe-std/public/models/models.js:34-36 | a post built with a content object returns that object's entry for the language, or undefined |
| Common.IntToStringRoundTrip | src/unknown-globe/models.js:31 | the decimal rendering of an integer reads back as that integer |
| ServerModels.TimeConverter | src/unknown-globe/models.js:25-33 | the formatted time splits on spaces into the day, the month's abbreviation and the year of the instant's local date |
| ServerModels.DateFieldsSplit | src/unknown-globe/models.js:31 | joining day, month name and year with spaces splits back into those three fields |
| ServerModels.TimeConverterRoundTrip | src/unknown-globe/models.js:25-33 | the formatted date reads back as the day, month and year of the instant |
| ServerModels.FindMonthOfName | src/unknown-globe/models.js:27 | each month abbreviation is found at its own index |
| ServerModels.GetCategoryByEnum | src/unknown-globe/models.js:35-42 | the result is a category name from the table exactly when the id's property-name form is a key of the table, and undefined otherwise |
| ServerModels.CategoryOfNumber | src/unknown-globe/blog/app/app.js:39-46 | the numbers 1, 2 and 3 give Thoughts, Travel and Tech; every other number gives undefined |
| ServerModels.NewPostSnippet | src/unknown-globe/models.js:5-14 | a snippet has exactly the own properties `id` and `data` |
| ServerModels.SnippetLayout | src/unknown-globe/models.js:5-14 | `id` stays on top; `data` holds the date itself, image, title and category name, and a date string that reads back as the date's calendar fields |
| ServerModels.GetTitle | src/unknown-globe/models.js:16-18 | getTitle reads the own property `title`: its value when there is one, undefined otherwise |
| ServerModels.GetTitleIsUndefined | src/unknown-globe/models.js:16-18 | as written, getTitle on any constructed snippet is undefined |
| ServerModels.GetTitleCounterexample | src/unknown-globe/blog/app/app.js:20-22 | a snippet titled "Lisbon" reports an undefined title |
| ServerModels.DataTitleIsConstructorTitle | src/unknown-globe/models.js:11 | reading `data.title` returns the title passed to the constructor |
| ServerModels.NewGlobePost | src/unknown-globe/models.js:48-64 | a post has the own properties `id` and `data`; `data` has the snippet's keys plus `content`, whose keys are en, pl and pt, with the `en`, `pl` and `pt` arguments under their own names |
| ServerModels.NewBlogPost | src/unknown-globe/blog/app/app.js:52-68 | a post has the own properties `id` and `data`; `data` has the snippet's keys plus `content`, whose keys are en, pl and pt, with the `en`, `pl` and `pt` arguments under their own names |
| ServerModels.PostExtendsSnippet | src/unknown-globe/blog/app/app.js:53-68 | in both revisions (also src/unknown-globe/models.js:48-64) a post has the snippet's id and the snippet's data for the same inputs, plus a content object with exactly the keys en, pl and pt |
| ServerModels.GlobeEntityToPost | src/unknown-globe/app.js:62-80 | the post getPostById serves (and getLatestPost, src/unknown-globe/app.js:86-104, which makes the same call) carries the entity's key as its id and a content object with the keys en, pl and pt |
| ServerModels.GlobeEntitySwapsPlPt | src/unknown-globe/app.js:69-78 | as written, the served post carries the Portuguese text under `pl` and the Polish text under `pt`; getLatestPost (src/unknown-globe/app.js:94-103) makes the same call, so the index page's post is swapped too |
| ServerModels.GlobeSwapCounterexample | src/unknown-globe/models.js:49-62 | an entity with Polish "Cześć" and Portuguese "Olá" is served with "Olá" as its Polish text |
| ServerModels.BlogEntityToPost | src/unknown-globe/blog/app/app.js:127-145 | the served post carries the entity's key as its id and a content object with the keys en, pl and pt |
| ServerModels.BlogEntityKeepsLanguages | src/unknown-globe/blog/app/app.js:134-143 | with the (en, pl, pt) constructor every language's text is stored under its own key, and no other key |
| ServerModels.GetContentByLanguage | src/unknown-globe/blog/app/app.js:70-72 | the text stored under the language in the content object, or undefined when there is none |
| ServerModels.ContentByLanguageMatchesEntity | src/unknown-globe/blog/app/app.js:70-72 | getContentByLanguage on a served post returns the entity's text for that language |
| PyModels.CategoryName | src/unknown-globe-std/models.py:38-45 | a name is found exactly when the id is an integer 0, 1 or 2 |
| PyModels.CategoryTable | src/unknown-globe-std/models.py:38-45 | 0, 1 and 2 give Unclassified, Thoughts and Travel; any other integer gives None |
| PyModels.DateSeconds | src/unknown-globe-std/models.py:26 | a missing `date` raises KeyError; a falsy date gives None; a date gives its mktime seconds; a truthy non-date fails, and these are the only failures |
| PyModels.NewPostHelper | src/unknown-globe-std/models.py:23-36 | the constructor fails exactly when the date does, and otherwise keeps the id, has content keys en, pl and pt, and gives a stored category's converted name |
| PyModels.StoredCategoryIsConverted | src/unknown-globe-std/models.py:30 | a stored 0, 1 or 2 gives Unclassified, Thoughts or Travel, another integer gives None, and a stored None gives None rather than 'Unclassified' |
| PyModels.GetPost | src/unknown-globe-std/models.py:47-51 | get_post returns a dict with the helper's id and data |
| PyModels.MissingCategoryIsUnclassified | src/unknown-globe-std/models.py:30 | a post without a category is 'Unclassified' |
| PyModels.AbsentFieldsAreNone | src/unknown-globe-std/models.py:27-35 | missing title, image and language texts come out as None, and present ones as given |
| PyModels.NoneDate | src/unknown-globe-std/models.py:26-27 | a None date gives no timestamp and the date string 'None' |
| PyModels.DatedPost | src/unknown-globe-std/models.py:26-27 | a real date gives its timestamp and `str` of that date |
| PyModels.GetPostKeepsId | src/unknown-globe-std/models.py:47-51 | get_post returns the id given to the constructor |

## Left out

- The DOM: `toggleLoader`, `layCards`, `printPost`, `addEventListeners` and the `stack` container. The model ends at the HTML string the card builders return.
- XMLHttpRequest, Promises and `Promise.all`. A request is a `Fetch.Request(uri)` value. Both requests of `loadPost` are taken as already settled, and `CompleteLoad` models what happens after they settle.
- `HttpHelper.get` in both revisions: only the URI it opens is modelled, not the transport or the JSON parsing.
- `displayError` and `console.log` output.
- The helper classes' own `timeConverter` is not used by the modelled code paths.
- Express routes, Datastore queries, `main.py` and the ndb `Post` model. Entities come in as `ServerModels.Entity` values.
- The JavaScript `Date`: an instant is its integer millisecond value, and its local calendar fields are the `Calendar` parameter. Timezones, invalid dates and NaN are not modelled. So the argument-less `super()` in `Post`, which computes a NaN date that is then overwritten, is not modelled either.
- encodeURIComponent's exact escape set. The only property used is that it escapes '&' and '='.
- Js.Get, ClientModels.GetContentByLanguage, ServerModels.GetContentByLanguage, ServerModels.GetCategoryByEnum, StdHelpers.ErrorMessage and StdHelpers.BuildUri see only own properties. So `content[lang]`, `categories[id]`, `id in messages` and `'id' in params` give undefined or false for an inherited name such as `toString`, where JavaScript finds the prototype's function. A string content's `length` and indices are not modelled either: a content that is not an object gives undefined for every language.
- The order of `Object.keys` is the order of the `Params` list.
- Python floats and the exact `int(time.mktime(...))` truncation: `mktime` is a function to integers.
- The `PORTUGUÃŠS` label of the std card builder is kept as the source spells it. The encoding that produced it is not modelled.
- Snippets.SortByDate: the contract states a permutation in non-increasing date order. It does not fix the order of snippets with equal dates, which Array.prototype.sort leaves to the engine.
- StdHelpers.PostHelper.CompleteLoad: the throw of `printPost` on an undefined or null content is modelled, and its result is the message the `.catch` displays. A rejected request, which reaches the same `.catch`, is outside the model. So are the catch's `toggleLoader`, `displayError` and `console.log`, and a throw from a page without the `post-title` or `post-content` element.
- GlobeHelpers.PostHelper.CompleteLoad: the same throw of `printPost` is modelled; this revision's `.catch` only toggles the loader and logs, so the result carries the error and nothing else. Rejected requests and the missing-element throw are outside the model, as in the std revision.

## Findings

| source | as written | input that shows it | evidently intended | confidence | as-written member | corrected member |
|---|---|---|---|---|---|---|
| src/unknown-globe/models.js:16-18 (also src/unknown-globe/blog/app/app.js:20-22) | `getTitle()` returns `this.title`, but the constructor stores the title under `this.data.title` | `new PostSnippet(7, 0, 'lisbon.jpg', 'Lisbon', 2).getTitle()` is undefined | return `this.data.title` | not executed | ServerModels.GetTitleCounterexample | ServerModels.DataTitleIsConstructorTitle |
| src/unknown-globe/app.js:69-78 (also src/unknown-globe/app.js:94-103) with src/unknown-globe/models.js:49 | the caller passes `entity.en, entity.pl, entity.pt` to a constructor declared `(…, en, pt, pl)` | an entity with pl "Cześć" and pt "Olá" is served with `content.pl == "Olá"` | each language's text under its own key, as the blog copy's `(…, en, pl, pt)` constructor does | not executed | ServerModels.GlobeSwapCounterexample | ServerModels.BlogEntityKeepsLanguages |
