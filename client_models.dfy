/** The browser-side data-transfer objects of public/models/models.js. The two
    revisions (src/unknown-globe-std and src/unknown-globe) differ only in the
    name of one constructor parameter, so they are modelled once.

    An instance is modelled by its own properties, one datatype field per
    property. `Post extends PostSnippet` calls `super()` with no arguments,
    which runs the PostSnippet constructor with every argument undefined, and
    then assigns every field itself. */
module ClientModels {
  import opened Common
  import opened Js

  /** The own properties of a `new PostSnippet(id, date, date_string, image, title, category)`. */
  datatype PostSnippet = PostSnippet(id: Value, date: Value, dateString: Value, image: Value,
                                     title: Value, category: Value)

  /** A Post instance: the properties it shares with PostSnippet, and `content`. */
  datatype Post = Post(snippet: PostSnippet, content: Value)

  /** `new Post(id, date, date_string, image, title, category, content)`:
      `super()` first, then every field assigned again. */
  function NewPost(id: Value, date: Value, dateString: Value, image: Value,
                   title: Value, category: Value, content: Value): (p: Post)
    ensures p.snippet == PostSnippet(id, date, dateString, image, title, category)
    ensures p.content == content
  {
    var base := PostSnippet(Undefined, Undefined, Undefined, Undefined, Undefined, Undefined);
    Post(base.(id := id, date := date, dateString := dateString, image := image,
               title := title, category := category), content)
  }

  /** `getTitle()` reads the `title` property. */
  function GetTitle(s: PostSnippet): (r: Value)
    ensures r == s.title
  {
    s.title
  }

  /** The `params` loadPost, in both helper revisions, gives the `post`
      tag: the post's id, its title as getTitle reads it, and the language. */
  function PostTagParams(post: Post, lang: string): (r: Value)
    ensures r.Obj? && r.props.Keys == {"postId", "postTitle", "postLanguage"}
    ensures r.props["postId"] == post.snippet.id && r.props["postTitle"] == GetTitle(post.snippet)
    ensures r.props["postLanguage"] == Str(lang)
  {
    Obj(map["postId" := post.snippet.id, "postTitle" := post.snippet.title, "postLanguage" := Str(lang)])
  }

  /** Errors the modelled getters can raise. */
  datatype Error = TypeError

  /** `getContentByLanguage(lang)` reads `this.content[lang]`; reading a
      property of undefined or null throws, and a number or string has no
      own property named after a language. */
  function GetContentByLanguage(post: Post, lang: string): (r: Result<Value, Error>)
    ensures post.content.Obj? ==> r == Ok(Get(post.content.props, lang))
    ensures post.content in {Undefined, Null} <==> r.Err?
  {
    match post.content
    case Undefined => Err(TypeError)
    case Null => Err(TypeError)
    case Obj(content) => Ok(Get(content, lang))
    case _ => Ok(Undefined)
  }

  /** getTitle returns the title given to the constructor, for a snippet and for a post. */
  lemma GetTitleReturnsConstructorTitle(id: Value, date: Value, dateString: Value, image: Value,
                                        title: Value, category: Value, content: Value)
    ensures GetTitle(PostSnippet(id, date, dateString, image, title, category)) == title
    ensures GetTitle(NewPost(id, date, dateString, image, title, category, content).snippet) == title
  {
  }

  /** getContentByLanguage returns the entry for the language, and undefined
      for a language the content object lacks. */
  lemma ContentByLanguage(id: Value, date: Value, dateString: Value, image: Value,
                          title: Value, category: Value, content: Object, lang: string)
    ensures var p := NewPost(id, date, dateString, image, title, category, Obj(content));
      GetContentByLanguage(p, lang) == Ok(if lang in content then content[lang] else Undefined)
  {
  }
}
