/**
 * The create-post page (src/components/create/CreatePost.jsx). `savePost`
 * is split at its one suspension point: `SavePost` runs from the click to
 * the `await` (validation, `loading` on, the post handed to the API), and
 * `SavePostSettled` runs from the awaited outcome to the `finally`.
 */
module CreatePost {
  import opened Js
  import opened Api
  import opened Paths

  const AllCategory := "All"
  const CategoryQueryKey := "?category"
  const QuerySeparator := '='
  const TitleMissingMessage := "Please enter a title"
  const DescriptionMissingMessage := "Please enter a description"
  const CreateFailedMessage := "Failed to create post. Please try again."
  const CreateErrorMessage := "Error creating post. Please try again."

  /** `location.search?.split('=')[1] || 'All'`. */
  function CategoryFromSearch(search: string): (r: string)
    ensures r != ""
    ensures search == "" ==> r == AllCategory
  {
    var pieces := Split(search, QuerySeparator);
    if |pieces| >= 2 && pieces[1] != "" then pieces[1] else AllCategory
  }

  /**
   * The search string `?category=<name>`: the page picks up `<name>`
   * whenever it is non-empty and has no `=`, and `All` for the empty name.
   * The category list's link `/create?category=<name>` produces this search
   * string as long as `<name>` consists of characters a URL query keeps as
   * written (ASCII letters, digits, `-`, `.`, `_`, `~`); other characters are
   * percent-encoded on the way, and a `#` starts the fragment.
   */
  lemma CategoryFromLink(name: string)
    requires QuerySeparator !in name
    ensures CategoryFromSearch(CategoryQueryKey + [QuerySeparator] + name) == if name == "" then AllCategory else name
  {
    var parts := [CategoryQueryKey, name];
    assert QuerySeparator !in CategoryQueryKey;
    assert Join(parts, QuerySeparator) == CategoryQueryKey + [QuerySeparator] + name;
    SplitJoin(parts, QuerySeparator);
  }

  /** The post the page starts from (its creation date is not modelled). */
  const InitialPost: map<string, JsValue> :=
    map["title" := Str(""), "description" := Str(""), "username" := Str(""), "categories" := Str("")]

  /** The post's title and description are strings, so `trim` can be called on them. */
  predicate TextFields(post: map<string, JsValue>) {
    "title" in post && post["title"].Str? && "description" in post && post["description"].Str?
  }

  class CreatePostPage {
    var post: map<string, JsValue>
    var loading: bool
    var error: string
    /** The last path passed to `navigate`. */
    var navigatedTo: Option<string>

    ghost predicate Valid()
      reads this
    {
      TextFields(post)
    }

    /** `disabled={loading}`: the publish button is disabled exactly while a save is in flight. */
    function PublishDisabled(): (r: bool)
      reads this
      ensures r <==> loading
    {
      loading
    }

    constructor ()
      ensures Valid()
      ensures post == InitialPost && !loading && error == "" && navigatedTo == None
    {
      post := InitialPost;
      loading, error, navigatedTo := false, "", None;
    }

    /** The effect: sets the category from the query string and the author from the account, keeping every other field. */
    method SyncFromContext(search: string, username: JsValue)
      requires Valid()
      modifies this
      ensures Valid()
      ensures post == old(post)["categories" := Str(CategoryFromSearch(search))]["username" := username]
      ensures loading == old(loading) && error == old(error) && navigatedTo == old(navigatedTo)
    {
      post := post["categories" := Str(CategoryFromSearch(search))]["username" := username];
    }

    /** `handleChange`: sets only the named field. */
    method HandleChange(name: string, value: string)
      requires Valid()
      modifies this
      ensures Valid()
      ensures post == old(post)[name := Str(value)]
      ensures loading == old(loading) && error == old(error) && navigatedTo == old(navigatedTo)
    {
      post := post[name := Str(value)];
    }

    /**
     * `savePost` up to its `await`. A blank title (empty or whitespace only)
     * stops it first, then a blank description; otherwise `loading` is on,
     * the error is cleared and the post goes out as it is, untrimmed (`sent`).
     */
    method SavePost() returns (sent: Option<map<string, JsValue>>)
      requires Valid()
      modifies this
      ensures Valid() && post == old(post) && navigatedTo == old(navigatedTo)
      ensures Blank(old(post)["title"].s) ==>
                sent == None && error == TitleMissingMessage && loading == old(loading)
      ensures !Blank(old(post)["title"].s) && Blank(old(post)["description"].s) ==>
                sent == None && error == DescriptionMissingMessage && loading == old(loading)
      ensures !Blank(old(post)["title"].s) && !Blank(old(post)["description"].s) ==>
                sent == Some(old(post)) && error == "" && PublishDisabled()
    {
      TrimEmptyIffBlank(post["title"].s);
      TrimEmptyIffBlank(post["description"].s);
      if Trim(post["title"].s) == "" {
        error := TitleMissingMessage;
        return None;
      }
      if Trim(post["description"].s) == "" {
        error := DescriptionMissingMessage;
        return None;
      }
      loading := true;
      error := "";
      sent := Some(post);
    }

    /** `savePost` from the awaited outcome on: success goes home, otherwise an error message; `loading` ends off. */
    method SavePostSettled(call: Awaited)
      requires Valid()
      modifies this
      ensures Valid() && post == old(post) && !PublishDisabled()
      ensures call.Returned? && call.result.Success? ==> navigatedTo == Some(HomePath) && error == old(error)
      ensures call.Returned? && !call.result.Success? ==>
                error == CreateFailedMessage && navigatedTo == old(navigatedTo)
      ensures call.Threw? ==> error == CreateErrorMessage && navigatedTo == old(navigatedTo)
    {
      match call {
        case Returned(result) =>
          if result.Success? {
            navigatedTo := Some(HomePath);
          } else {
            error := CreateFailedMessage;
          }
        case Threw(_) =>
          error := CreateErrorMessage;
      }
      loading := false;
    }
  }
}
