/** The comma-separated tags field of the dashboard's article form. */
module DashboardTags {
  import opened Text

  /** `.map(tag => tag.trim())`. */
  function TrimAll(parts: seq<string>): seq<string> {
    if parts == [] then [] else [Trim(parts[0])] + TrimAll(parts[1..])
  }

  lemma {:induction false} TrimAllAppend(a: seq<string>, b: seq<string>)
    ensures TrimAll(a + b) == TrimAll(a) + TrimAll(b)
  {
    if a == [] {
      assert a + b == b;
    } else {
      assert (a + b)[1..] == a[1..] + b;
      TrimAllAppend(a[1..], b);
    }
  }

  /** Trimming every piece keeps the count and trims each piece in place. */
  lemma {:induction false} TrimAllPointwise(parts: seq<string>)
    ensures |TrimAll(parts)| == |parts|
    ensures forall i :: 0 <= i < |parts| ==> TrimAll(parts)[i] == Trim(parts[i])
  {
    if parts != [] {
      TrimAllPointwise(parts[1..]);
    }
  }

  /** `.filter(tag => tag !== "")`: the non-empty pieces, in order. */
  function DropEmpty(parts: seq<string>): seq<string> {
    if parts == [] then []
    else if parts[0] == "" then DropEmpty(parts[1..])
    else [parts[0]] + DropEmpty(parts[1..])
  }

  /** Filtering keeps only non-empty pieces, each one taken from the input. */
  lemma {:induction false} DropEmptyKeeps(parts: seq<string>)
    ensures forall i :: 0 <= i < |DropEmpty(parts)| ==> DropEmpty(parts)[i] != "" && DropEmpty(parts)[i] in parts
  {
    if parts != [] {
      DropEmptyKeeps(parts[1..]);
      var rest := DropEmpty(parts[1..]);
      forall i | 0 <= i < |rest|
        ensures rest[i] in parts
      {
        var j :| 0 <= j < |parts[1..]| && parts[1..][j] == rest[i];
        assert parts[j + 1] == rest[i];
      }
    }
  }

  /** Filtering pieces that are all non-empty changes nothing. */
  lemma {:induction false} DropEmptyNone(parts: seq<string>)
    requires forall i :: 0 <= i < |parts| ==> parts[i] != ""
    ensures DropEmpty(parts) == parts
  {
    if parts != [] {
      DropEmptyNone(parts[1..]);
      assert [parts[0]] + parts[1..] == parts;
    }
  }

  /** A well-formed tag: non-empty, without surrounding whitespace, without a comma. */
  predicate IsTag(t: string) {
    t != "" && Trimmed(t) && ',' !in t
  }

  /** `value.split(",").map(tag => tag.trim()).filter(tag => tag !== "")`. */
  function ParseTags(s: string): seq<string> {
    DropEmpty(TrimAll(Split(s, ',')))
  }

  /** Every parsed tag is well formed. */
  lemma ParsedAreTags(s: string)
    ensures forall i :: 0 <= i < |ParseTags(s)| ==> IsTag(ParseTags(s)[i])
  {
    var pieces := Split(s, ',');
    var trimmed := TrimAll(pieces);
    TrimAllPointwise(pieces);
    forall j | 0 <= j < |trimmed|
      ensures ',' !in trimmed[j]
    {
      TrimKeepsOut(pieces[j], ',');
    }
    DropEmptyKeeps(trimmed);
  }

  /** Every tag after the first, with the space `join(", ")` puts before it. */
  function Padded(ts: seq<string>): (r: seq<string>)
    ensures |r| == |ts| && forall i :: 0 <= i < |ts| ==> r[i] == " " + ts[i]
  {
    seq(|ts|, i requires 0 <= i < |ts| => " " + ts[i])
  }

  lemma {:induction false} SplitDisplayed(tags: seq<string>)
    requires |tags| >= 1 && forall i :: 0 <= i < |tags| ==> ',' !in tags[i]
    ensures Split(Join(tags, ", "), ',') == [tags[0]] + Padded(tags[1..])
  {
    if |tags| == 1 {
      SplitNoSep(tags[0], ',');
    } else {
      var rest := Join(tags[1..], ", ");
      SplitDisplayed(tags[1..]);
      var sr := Split(rest, ',');
      assert Join(tags, ", ") == tags[0] + ([','] + ([' '] + rest));
      SplitPrefix(tags[0], [','] + ([' '] + rest), ',');
      assert ([','] + ([' '] + rest))[1..] == [' '] + rest;
      assert ([' '] + rest)[1..] == rest;
      assert Split([' '] + rest, ',') == [[' '] + sr[0]] + sr[1..];
      assert tags[1..][1..] == tags[2..];
      assert Padded(tags[1..]) == [" " + tags[1]] + Padded(tags[2..]);
    }
  }

  /** Trimming the pieces of the displayed text gives back the tags. */
  lemma TrimDisplayed(tags: seq<string>)
    requires |tags| >= 1 && forall i :: 0 <= i < |tags| ==> IsTag(tags[i])
    ensures TrimAll([tags[0]] + Padded(tags[1..])) == tags
  {
    var pieces := [tags[0]] + Padded(tags[1..]);
    TrimAllPointwise(pieces);
    forall j | 0 <= j < |tags|
      ensures TrimAll(pieces)[j] == tags[j]
    {
      if j == 0 {
        TrimSpacePrefix("", tags[0]);
        assert "" + tags[0] == tags[0];
      } else {
        assert pieces[j] == " " + tags[j];
        TrimSpacePrefix(" ", tags[j]);
      }
    }
  }

  /** Parsing what the field displays, `tags.join(", ")`, gives back the tags. */
  lemma ParseDisplayed(tags: seq<string>)
    requires forall i :: 0 <= i < |tags| ==> IsTag(tags[i])
    ensures ParseTags(Join(tags, ", ")) == tags
  {
    if tags == [] {
      assert Split("", ',') == [""];
      TrimSpacePrefix("", "");
      assert TrimAll([""]) == [""];
    } else {
      SplitDisplayed(tags);
      TrimDisplayed(tags);
      DropEmptyNone(tags);
    }
  }

  /** Parsing tags written with bare commas gives back the tags. */
  lemma ParseCommaList(tags: seq<string>)
    requires |tags| >= 1 && forall i :: 0 <= i < |tags| ==> IsTag(tags[i])
    ensures ParseTags(Join(tags, ",")) == tags
  {
    SplitJoin(tags, ',');
    forall j | 0 <= j < |tags|
      ensures Trim(tags[j]) == tags[j]
    {
      TrimSpacePrefix("", tags[j]);
      assert "" + tags[j] == tags[j];
    }
    TrimAllPointwise(tags);
    assert TrimAll(tags) == tags;
    DropEmptyNone(tags);
  }

  /** A comma at the end of the text adds no tag. */
  lemma TrailingCommaIgnored(s: string)
    ensures ParseTags(s + ",") == ParseTags(s)
  {
    SplitTrailingSep(s, ',');
    var pieces := Split(s, ',');
    TrimSpacePrefix("", "");
    TrimAllAppend(pieces, [""]);
    assert TrimAll([""]) == [""];
    DropTrailingEmpty(TrimAll(pieces));
  }

  lemma {:induction false} DropTrailingEmpty(parts: seq<string>)
    ensures DropEmpty(parts + [""]) == DropEmpty(parts)
  {
    if parts != [] {
      assert (parts + [""])[1..] == parts[1..] + [""];
      DropTrailingEmpty(parts[1..]);
    }
  }

  /** One keystroke `c` in the tags field as the page wires it: the field shows
      `tags.join(", ")`, the key is appended to that text, and the result is parsed. */
  function Keystroke(tags: seq<string>, c: char): seq<string> {
    ParseTags(Join(tags, ", ") + [c])
  }

  /** The tags after typing `keys` one by one into the field as wired. */
  function TypedAsWritten(tags: seq<string>, keys: string): seq<string>
    decreases |keys|
  {
    if keys == [] then tags else TypedAsWritten(Keystroke(tags, keys[0]), keys[1..])
  }

  /** A typed comma disappears at once: the text re-rendered from the tags no longer
      has it, so the next letter continues the last tag. */
  lemma TypedCommaVanishes(tags: seq<string>)
    requires forall i :: 0 <= i < |tags| ==> IsTag(tags[i])
    ensures Keystroke(tags, ',') == tags
  {
    TrailingCommaIgnored(Join(tags, ", "));
    ParseDisplayed(tags);
  }

  /** Typing "a,b" into the empty field leaves the single tag "ab", where the text
      "a,b" reads as the two tags "a" and "b". */
  lemma CommaLost()
    ensures TypedAsWritten([], "a,b") == ["ab"]
    ensures ParseTags("a,b") == ["a", "b"]
  {
    assert Trimmed("a") && Trimmed("ab") && Trimmed("b");
    assert Join([], ", ") + ['a'] == Join(["a"], ", ");
    ParseDisplayed(["a"]);
    TypedCommaVanishes(["a"]);
    assert Join(["a"], ", ") + ['b'] == Join(["ab"], ", ");
    ParseDisplayed(["ab"]);
    assert "a,b"[1..][1..][1..] == [];
    assert TypedAsWritten([], "a,b") == TypedAsWritten(["ab"], "");
    assert Join(["a", "b"], ",") == "a,b";
    ParseCommaList(["a", "b"]);
  }

  /** The tags field as intended: it keeps the text the user typed and holds the
      parse of that text. */
  datatype TagsField = TagsField(text: string, tags: seq<string>)

  /** One keystroke in that field: the key extends the kept text, which is parsed. */
  function KeystrokeKeepingText(f: TagsField, c: char): TagsField {
    TagsField(f.text + [c], ParseTags(f.text + [c]))
  }

  /** The field after typing `keys` one by one. */
  function TypedKeepingText(f: TagsField, keys: string): TagsField
    decreases |keys|
  {
    if keys == [] then f else TypedKeepingText(KeystrokeKeepingText(f, keys[0]), keys[1..])
  }

  /** A field whose tags are the parse of its text keeps that relation under typing,
      and its text is exactly what was typed. */
  lemma {:induction false} TypingKeepsText(f: TagsField, keys: string)
    requires f.tags == ParseTags(f.text)
    ensures TypedKeepingText(f, keys) == TagsField(f.text + keys, ParseTags(f.text + keys))
    decreases |keys|
  {
    if keys == [] {
      assert f.text + keys == f.text;
    } else {
      var g := KeystrokeKeepingText(f, keys[0]);
      var t := f.text + keys;
      assert g.text + keys[1..] == t;
      TypingKeepsText(g, keys[1..]);
      calc {
        TypedKeepingText(f, keys);
        TypedKeepingText(g, keys[1..]);
        TagsField(t, ParseTags(t));
      }
    }
  }

  /** Typing a comma-separated list of tags key by key into the empty field gives
      back exactly those tags, where the field as wired merges them (`CommaLost`). */
  lemma TypedCommaListKept(tags: seq<string>)
    requires |tags| >= 1 && forall i :: 0 <= i < |tags| ==> IsTag(tags[i])
    ensures TypedKeepingText(TagsField("", []), Join(tags, ",")).tags == tags
  {
    assert Split("", ',') == [""];
    assert Trim("") == "";
    assert ParseTags("") == [];
    TypingKeepsText(TagsField("", []), Join(tags, ","));
    assert "" + Join(tags, ",") == Join(tags, ",");
    ParseCommaList(tags);
  }
}

/** The dashboard's pagination arithmetic. `n` is the length of the article list the
    server returned for the current page. */
module Pagination {

  /** `Math.ceil(n / itemsPerPage)`. */
  function PageCount(n: nat, itemsPerPage: nat): (pages: nat)
    requires itemsPerPage >= 1
    ensures n <= pages * itemsPerPage
    ensures pages == 0 || (pages - 1) * itemsPerPage < n
    ensures pages == 0 <==> n == 0
  {
    (n + itemsPerPage - 1) / itemsPerPage
  }

  /** The first number in "Showing a to b of n". */
  function RangeStart(page: int, itemsPerPage: nat): int {
    (page - 1) * itemsPerPage + 1
  }

  /** The second number in "Showing a to b of n". */
  function RangeEnd(page: int, itemsPerPage: nat, n: nat): int {
    if page * itemsPerPage < n then page * itemsPerPage else n
  }

  /** On every page the buttons offer, the range is a non-empty stretch of at most
      `itemsPerPage` items inside the list. */
  lemma RangeWithin(page: int, itemsPerPage: nat, n: nat)
    requires itemsPerPage >= 1 && 1 <= page <= PageCount(n, itemsPerPage)
    ensures 1 <= RangeStart(page, itemsPerPage) <= RangeEnd(page, itemsPerPage, n) <= n
    ensures RangeEnd(page, itemsPerPage, n) - RangeStart(page, itemsPerPage) < itemsPerPage
  {
    var pages := PageCount(n, itemsPerPage);
    assert (page - 1) * itemsPerPage <= (pages - 1) * itemsPerPage by {
      MultiplyMonotone(page - 1, pages - 1, itemsPerPage);
    }
  }

  /** Consecutive pages continue where the previous one ended. */
  lemma RangesAdjoin(page: int, itemsPerPage: nat, n: nat)
    requires itemsPerPage >= 1 && 1 <= page < PageCount(n, itemsPerPage)
    ensures RangeEnd(page, itemsPerPage, n) + 1 == RangeStart(page + 1, itemsPerPage)
  {
    var pages := PageCount(n, itemsPerPage);
    MultiplyMonotone(page, pages - 1, itemsPerPage);
  }

  lemma MultiplyMonotone(a: int, b: int, k: nat)
    requires a <= b
    ensures a * k <= b * k
  {
  }

  /** The "Previous" button's update. */
  function Previous(page: int): (r: int)
    ensures r >= 1
    ensures page > 1 ==> r == page - 1
    ensures page <= 1 ==> r == 1
  {
    if page - 1 > 1 then page - 1 else 1
  }

  /** The "Next" button's `disabled`. */
  predicate NextDisabled(page: int, n: nat, itemsPerPage: nat)
    requires itemsPerPage >= 1
  {
    page >= PageCount(n, itemsPerPage)
  }

  /** When the server returns at most one page of items, there is one page button and
      "Next" is disabled on it. */
  lemma OnePageOfData(page: int, n: nat, itemsPerPage: nat)
    requires 1 <= n <= itemsPerPage && page >= 1
    ensures PageCount(n, itemsPerPage) == 1
    ensures NextDisabled(page, n, itemsPerPage)
  {
  }
}

/** The dashboard page's own state and handlers. */
module Dashboard {
  import opened Api
  import opened Zod
  import opened ArticleSchema
  import opened DashboardTags
  import opened Pagination

  const MaxImageBytes := 5 * 1024 * 1024
  const ImageTooLarge := "Image size should be less than 5MB"
  const ImageReadFailed := "Failed to read image file"

  const EmptyForm := ArticleForm("", "", "", "", "", Some(""), [])

  /** The `name` of the text input, textarea or select that changed. */
  datatype Field = Title | Description | Content | Category | ImageUrl

  function FieldKey(field: Field): string {
    match field
    case Title => "title"
    case Description => "description"
    case Content => "content"
    case Category => "category"
    case ImageUrl => "imageUrl"
  }

  function WithField(f: ArticleForm, field: Field, value: string): (r: ArticleForm)
    ensures r.title == (if field == Title then value else f.title)
    ensures r.description == (if field == Description then value else f.description)
    ensures r.content == (if field == Content then value else f.content)
    ensures r.category == (if field == Category then value else f.category)
    ensures r.imageUrl == (if field == ImageUrl then value else f.imageUrl)
    ensures r.imageBase64 == f.imageBase64 && r.tags == f.tags
  {
    match field
    case Title => f.(title := value)
    case Description => f.(description := value)
    case Content => f.(content := value)
    case Category => f.(category := value)
    case ImageUrl => f.(imageUrl := value)
  }

  /** `if (errors[key]) setErrors({ ...prev, [key]: undefined })`: a shown message is
      dropped. */
  function ClearError(errors: map<string, string>, key: string): (r: map<string, string>)
    ensures key !in r || r[key] == ""
  {
    if key in errors && errors[key] != "" then errors - {key} else errors
  }

  /** Clearing one field's message leaves every other field's message as it was. */
  lemma ClearErrorKeepsOthers(errors: map<string, string>, key: string, other: string)
    requires other != key
    ensures other in ClearError(errors, key) <==> other in errors
    ensures other in errors ==> ClearError(errors, key)[other] == errors[other]
  {
  }

  /** The payload `handleSubmit` sends: an uploaded image replaces `imageUrl` and its
      own key is removed; every other field is the form's. */
  function Payload(f: ArticleForm): (r: ArticleForm)
    ensures Truthy(f.imageBase64) ==> r.imageUrl == f.imageBase64.value && r.imageBase64 == None
    ensures !Truthy(f.imageBase64) ==> r == f
    ensures r.title == f.title && r.description == f.description && r.content == f.content
    ensures r.category == f.category && r.tags == f.tags
  {
    if Truthy(f.imageBase64) then f.(imageUrl := f.imageBase64.value, imageBase64 := None) else f
  }

  /** Shaping the payload twice changes nothing more, and never changes whether the
      schema accepts it. */
  lemma PayloadStable(f: ArticleForm)
    ensures Payload(Payload(f)) == Payload(f)
    ensures Valid(Payload(f)) <==> Valid(f)
  {
  }

  /** `articles.find(a => a._id === id)`. */
  method FindArticle(articles: seq<Article>, id: string) returns (found: Option<Article>)
    ensures found.None? <==> forall i :: 0 <= i < |articles| ==> articles[i].id != id
    ensures found.Some? ==> exists i :: 0 <= i < |articles| && articles[i] == found.value && articles[i].id == id
                                        && forall j :: 0 <= j < i ==> articles[j].id != id
  {
    var i := 0;
    while i < |articles| && articles[i].id != id
      invariant 0 <= i <= |articles|
      invariant forall j :: 0 <= j < i ==> articles[j].id != id
    {
      i := i + 1;
    }
    found := if i < |articles| then Some(articles[i]) else None;
  }

  /** What `handleSubmit` hands to the create or edit hook. */
  datatype Submission = Create(data: ArticleForm) | Edit(id: string, data: ArticleForm)

  /** The outcome of reading the chosen file. */
  datatype ReadResult = Loaded(dataUrl: string) | ReadFailed

  class DashboardPage {
    var searchTerm: string
    var selectedCategory: string
    var currentPage: int
    var itemsPerPage: nat
    var isModalOpen: bool
    var editingArticle: Option<Article>
    var formData: ArticleForm
    var errors: map<string, string>
    var isViewModalOpen: bool
    var viewingArticle: Option<Article>
    var imagePreview: Option<string>

    predicate PagingOk()
      reads this
    {
      currentPage >= 1 && itemsPerPage >= 1
    }

    /** The list's filters and paging. */
    function Listing(): (string, string, int, nat)
      reads this
    {
      (searchTerm, selectedCategory, currentPage, itemsPerPage)
    }

    /** The add/edit modal: whether it is open, the article being edited, the form,
        its errors and the image preview. */
    function Editor(): (bool, Option<Article>, ArticleForm, map<string, string>, Option<string>)
      reads this
    {
      (isModalOpen, editingArticle, formData, errors, imagePreview)
    }

    /** The view modal. */
    function Viewer(): (bool, Option<Article>)
      reads this
    {
      (isViewModalOpen, viewingArticle)
    }

    constructor ()
      ensures searchTerm == "" && selectedCategory == "" && currentPage == 1 && itemsPerPage == 10
      ensures !isModalOpen && editingArticle == None && formData == EmptyForm && errors == map[]
      ensures !isViewModalOpen && viewingArticle == None && imagePreview == None
      ensures PagingOk()
    {
      searchTerm, selectedCategory, currentPage, itemsPerPage := "", "", 1, 10;
      isModalOpen, editingArticle, formData, errors := false, None, EmptyForm, map[];
      isViewModalOpen, viewingArticle, imagePreview := false, None, None;
    }

    method ResetForm()
      modifies this
      ensures formData == EmptyForm && errors == map[] && editingArticle == None && imagePreview == None
      ensures searchTerm == old(searchTerm) && selectedCategory == old(selectedCategory)
      ensures currentPage == old(currentPage) && itemsPerPage == old(itemsPerPage)
      ensures isModalOpen == old(isModalOpen)
      ensures isViewModalOpen == old(isViewModalOpen) && viewingArticle == old(viewingArticle)
    {
      formData, errors, editingArticle, imagePreview := EmptyForm, map[], None, None;
    }

    method HandleInputChange(field: Field, value: string)
      modifies this
      ensures formData == WithField(old(formData), field, value)
      ensures errors == ClearError(old(errors), FieldKey(field))
      ensures editingArticle == old(editingArticle) && imagePreview == old(imagePreview)
      ensures isModalOpen == old(isModalOpen)
      ensures Listing() == old(Listing()) && Viewer() == old(Viewer())
    {
      formData := WithField(formData, field, value);
      errors := ClearError(errors, FieldKey(field));
    }

    /** `handleTagsChange` with the field's new text. */
    method HandleTagsChange(value: string)
      modifies this
      ensures formData == old(formData).(tags := ParseTags(value))
      ensures errors == ClearError(old(errors), "tags")
      ensures editingArticle == old(editingArticle) && imagePreview == old(imagePreview)
      ensures isModalOpen == old(isModalOpen)
      ensures Listing() == old(Listing()) && Viewer() == old(Viewer())
    {
      var tags := ParseTags(value);
      formData := formData.(tags := tags);
      errors := ClearError(errors, "tags");
    }

    /** `handleImageUpload` for the chosen file's size (none chosen: `None`), with the
        reader's outcome delivered before any other event. */
    method HandleImageUpload(fileSize: Option<nat>, read: ReadResult)
      modifies this
      ensures fileSize.None? ==> formData == old(formData) && errors == old(errors) && imagePreview == old(imagePreview)
      ensures fileSize.Some? && fileSize.value > MaxImageBytes ==>
        && formData == old(formData) && imagePreview == old(imagePreview)
        && errors == old(errors)["imageBase64" := ImageTooLarge]
      ensures fileSize.Some? && fileSize.value <= MaxImageBytes && read.Loaded? ==>
        && formData == old(formData).(imageBase64 := Some(read.dataUrl), imageUrl := "")
        && imagePreview == Some(read.dataUrl)
        && errors == ClearError(old(errors), "imageBase64")
      ensures fileSize.Some? && fileSize.value <= MaxImageBytes && read.ReadFailed? ==>
        && formData == old(formData) && imagePreview == old(imagePreview)
        && errors == old(errors)["imageBase64" := ImageReadFailed]
      ensures editingArticle == old(editingArticle) && isModalOpen == old(isModalOpen)
      ensures Listing() == old(Listing()) && Viewer() == old(Viewer())
    {
      if fileSize.None? {
        return;
      }
      if fileSize.value > MaxImageBytes {
        errors := errors["imageBase64" := ImageTooLarge];
        return;
      }
      match read {
        case Loaded(dataUrl) =>
          formData := formData.(imageBase64 := Some(dataUrl), imageUrl := "");
          imagePreview := Some(dataUrl);
          errors := ClearError(errors, "imageBase64");
        case ReadFailed =>
          errors := errors["imageBase64" := ImageReadFailed];
      }
    }

    method ClearImageUpload()
      modifies this
      ensures formData == old(formData).(imageBase64 := Some(""), imageUrl := "")
      ensures imagePreview == None
      ensures errors == old(errors) && editingArticle == old(editingArticle) && isModalOpen == old(isModalOpen)
      ensures Listing() == old(Listing()) && Viewer() == old(Viewer())
    {
      formData := formData.(imageBase64 := Some(""), imageUrl := "");
      imagePreview := None;
    }

    method ValidateForm() returns (ok: bool)
      modifies this
      ensures formData == old(formData) && editingArticle == old(editingArticle)
      ensures imagePreview == old(imagePreview) && isModalOpen == old(isModalOpen)
      ensures currentPage == old(currentPage) && itemsPerPage == old(itemsPerPage)
      ensures searchTerm == old(searchTerm) && selectedCategory == old(selectedCategory)
      ensures isViewModalOpen == old(isViewModalOpen) && viewingArticle == old(viewingArticle)
      ensures ok <==> Valid(formData)
      ensures ok ==> errors == map[]
      ensures !ok ==> IsErrorMap(Issues(formData), errors)
    {
      var issues := Issues(formData);
      if issues == [] {
        errors := map[];
        ok := true;
      } else {
        var formatted := FormatErrors(issues);
        errors := formatted;
        ok := false;
      }
    }

    /** `handleSubmit`. `reply` is the create or edit call's outcome; the edit hook's
        `catch` reads `err.data.message` without `?.`, so an edit error without a body
        throws out of `handleSubmit` before the modal is closed. */
    method HandleSubmit(reply: Reply<()>) returns (submission: Option<Submission>, completion: Completion)
      modifies this
      ensures !Valid(old(formData)) ==>
        && submission == None && completion == Normal
        && IsErrorMap(Issues(formData), errors)
        && formData == old(formData) && editingArticle == old(editingArticle)
        && isModalOpen == old(isModalOpen) && imagePreview == old(imagePreview)
      ensures Valid(old(formData)) ==>
        && submission == Some(if old(editingArticle).Some? then Edit(old(editingArticle).value.id, Payload(old(formData)))
                              else Create(Payload(old(formData))))
        && completion == (if old(editingArticle).Some? && reply.Failed? then CatchMessage(reply.error).1 else Normal)
        && errors == map[]
        && (completion == Normal ==>
              !isModalOpen && formData == EmptyForm && editingArticle == None && imagePreview == None)
        && (completion == Threw ==>
              isModalOpen == old(isModalOpen) && formData == old(formData)
              && editingArticle == old(editingArticle) && imagePreview == old(imagePreview))
      ensures Listing() == old(Listing()) && Viewer() == old(Viewer())
    {
      var ok := ValidateForm();
      if !ok {
        return None, Normal;
      }
      var articleData := Payload(formData);
      if editingArticle.Some? {
        submission := Some(Edit(editingArticle.value.id, articleData));
        completion := if reply.Failed? then CatchMessage(reply.error).1 else Normal;
      } else {
        submission := Some(Create(articleData));
        completion := Normal;
      }
      if completion == Threw {
        return;
      }
      isModalOpen := false;
      ResetForm();
    }

    /** `openEditModal` followed by the effect on `[editingArticle]`, which loads the
        article into the form only when the article being edited changes. */
    method OpenEditModal(article: Article)
      modifies this
      ensures editingArticle == Some(article) && isModalOpen
      ensures old(editingArticle) != Some(article) ==>
        && formData == ArticleForm(article.title, article.description, article.content, article.category,
                                   if Truthy(article.imageUrl) then article.imageUrl.value else "",
                                   None, article.tags)
        && imagePreview == (if Truthy(article.imageUrl) then article.imageUrl else None)
      ensures old(editingArticle) == Some(article) ==>
        formData == old(formData) && imagePreview == old(imagePreview)
      ensures errors == old(errors)
      ensures Listing() == old(Listing()) && Viewer() == old(Viewer())
    {
      var changed := editingArticle != Some(article);
      editingArticle := Some(article);
      isModalOpen := true;
      if changed {
        var url := if Truthy(article.imageUrl) then article.imageUrl.value else "";
        formData := ArticleForm(article.title, article.description, article.content, article.category, url, None, article.tags);
        imagePreview := if Truthy(article.imageUrl) then article.imageUrl else None;
      }
    }

    /** The form's Cancel button: only the modal closes; the article being edited,
        the form, the preview and the errors stay as they are. */
    method CloseModal()
      modifies this
      ensures !isModalOpen
      ensures formData == old(formData) && errors == old(errors) && editingArticle == old(editingArticle)
      ensures imagePreview == old(imagePreview)
      ensures currentPage == old(currentPage) && itemsPerPage == old(itemsPerPage)
      ensures searchTerm == old(searchTerm) && selectedCategory == old(selectedCategory)
      ensures isViewModalOpen == old(isViewModalOpen) && viewingArticle == old(viewingArticle)
    {
      isModalOpen := false;
    }

    method OpenAddModal()
      modifies this
      ensures formData == EmptyForm && errors == map[] && editingArticle == None && imagePreview == None
      ensures isModalOpen
      ensures Listing() == old(Listing()) && Viewer() == old(Viewer())
    {
      ResetForm();
      isModalOpen := true;
    }

    /** `viewArticle(id)` over the articles currently listed. */
    method ViewArticle(articles: seq<Article>, id: string)
      modifies this
      ensures (forall i :: 0 <= i < |articles| ==> articles[i].id != id) ==>
                viewingArticle == old(viewingArticle) && isViewModalOpen == old(isViewModalOpen)
      ensures (exists i :: 0 <= i < |articles| && articles[i].id == id) ==>
                && isViewModalOpen && viewingArticle.Some? && viewingArticle.value.id == id
                && exists i :: 0 <= i < |articles| && articles[i] == viewingArticle.value
                               && forall j :: 0 <= j < i ==> articles[j].id != id
      ensures Editor() == old(Editor()) && Listing() == old(Listing())
    {
      var found := FindArticle(articles, id);
      if found.Some? {
        viewingArticle := found;
        isViewModalOpen := true;
      }
    }

    /** Typing in the search box; the effect on `[searchTerm, selectedCategory]`
        returns to page 1 when the value changed. */
    method SetSearchTerm(term: string)
      modifies this
      ensures searchTerm == term && selectedCategory == old(selectedCategory)
      ensures currentPage == (if term != old(searchTerm) then 1 else old(currentPage))
      ensures itemsPerPage == old(itemsPerPage)
      ensures Editor() == old(Editor()) && Viewer() == old(Viewer())
      ensures old(PagingOk()) ==> PagingOk()
    {
      if term != searchTerm {
        currentPage := 1;
      }
      searchTerm := term;
    }

    method SetSelectedCategory(category: string)
      modifies this
      ensures selectedCategory == category && searchTerm == old(searchTerm)
      ensures currentPage == (if category != old(selectedCategory) then 1 else old(currentPage))
      ensures itemsPerPage == old(itemsPerPage)
      ensures Editor() == old(Editor()) && Viewer() == old(Viewer())
      ensures old(PagingOk()) ==> PagingOk()
    {
      if category != selectedCategory {
        currentPage := 1;
      }
      selectedCategory := category;
    }

    /** Choosing from the items-per-page select (5, 10, 20 or 50); the page is kept. */
    method SetItemsPerPage(k: nat)
      requires k in {5, 10, 20, 50}
      modifies this
      ensures itemsPerPage == k && currentPage == old(currentPage)
      ensures searchTerm == old(searchTerm) && selectedCategory == old(selectedCategory)
      ensures Editor() == old(Editor()) && Viewer() == old(Viewer())
      ensures old(PagingOk()) ==> PagingOk()
    {
      itemsPerPage := k;
    }

    /** "Previous": disabled on page 1. */
    method PreviousPage()
      modifies this
      ensures currentPage == (if old(currentPage) == 1 then 1 else Previous(old(currentPage)))
      ensures itemsPerPage == old(itemsPerPage)
      ensures searchTerm == old(searchTerm) && selectedCategory == old(selectedCategory)
      ensures Editor() == old(Editor()) && Viewer() == old(Viewer())
      ensures old(PagingOk()) ==> PagingOk()
    {
      if currentPage != 1 {
        currentPage := Previous(currentPage);
      }
    }

    /** "Next", with `n` articles in the server's answer: disabled from the last page on. */
    method NextPage(n: nat)
      requires itemsPerPage >= 1
      modifies this
      ensures itemsPerPage == old(itemsPerPage)
      ensures searchTerm == old(searchTerm) && selectedCategory == old(selectedCategory)
      ensures Editor() == old(Editor()) && Viewer() == old(Viewer())
      ensures currentPage == (if NextDisabled(old(currentPage), n, itemsPerPage) then old(currentPage) else old(currentPage) + 1)
      ensures old(PagingOk()) ==> PagingOk()
      ensures old(PagingOk()) && old(currentPage) < PageCount(n, itemsPerPage) ==> currentPage <= PageCount(n, itemsPerPage)
    {
      if !NextDisabled(currentPage, n, itemsPerPage) {
        currentPage := currentPage + 1;
      }
    }

    /** The numbered button `i + 1`. */
    method GoToPage(i: nat, n: nat)
      requires itemsPerPage >= 1 && i < PageCount(n, itemsPerPage)
      modifies this
      ensures itemsPerPage == old(itemsPerPage)
      ensures searchTerm == old(searchTerm) && selectedCategory == old(selectedCategory)
      ensures Editor() == old(Editor()) && Viewer() == old(Viewer())
      ensures currentPage == i + 1 && 1 <= currentPage <= PageCount(n, itemsPerPage)
    {
      currentPage := i + 1;
    }
  }

  /** Editing an article, cancelling, and reopening the same article shows the text
      typed before the cancel, not the article's own title. */
  method ReopenAfterCancel(article: Article, typed: string) returns (shown: string)
    ensures shown == typed
  {
    var page := new DashboardPage();
    page.OpenEditModal(article);
    page.HandleInputChange(Title, typed);
    page.CloseModal();
    page.OpenEditModal(article);
    shown := page.formData.title;
  }
}
