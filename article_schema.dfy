/** `articleSchema`: the rules an article form must meet before it is sent. */
module ArticleSchema {
  import opened Api
  import opened Text
  import opened Zod

  /** The dashboard's form: the article fields plus an optional uploaded image. */
  datatype ArticleForm = ArticleForm(title: string, description: string, content: string, category: string,
                                     imageUrl: string, imageBase64: Option<string>, tags: seq<string>)

  /** An article as the dashboard lists it; the author, status, like and date fields
      are not part of this model. */
  datatype Article = Article(id: string, title: string, description: string, content: string,
                             category: string, imageUrl: Option<string>, tags: seq<string>)

  predicate Valid(f: ArticleForm) {
    && Length(f.title) >= 1
    && Length(f.description) >= 10
    && Length(f.content) >= 50
    && Length(f.category) >= 1
    && |f.tags| >= 1
  }

  /** The issues `articleSchema.parse` raises; both image fields are optional and are
      never reported. */
  function Issues(f: ArticleForm): (r: seq<Issue>)
    ensures r == [] <==> Valid(f)
  {
    Check(Length(f.title) >= 1, "title", "Title is required")
    + Check(Length(f.description) >= 10, "description", "Description should be at least 10 characters")
    + Check(Length(f.content) >= 50, "content", "Content should be at least 50 characters")
    + Check(Length(f.category) >= 1, "category", "Please select a category")
    + Check(|f.tags| >= 1, "tags", "Add at least one tag")
  }

  /** Each field shows its own rule's message exactly when it breaks that rule. */
  lemma Shown(f: ArticleForm, p: string)
    ensures MessageFor(Issues(f), p) ==
      if p == "title" && Length(f.title) < 1 then Some("Title is required")
      else if p == "description" && Length(f.description) < 10 then Some("Description should be at least 10 characters")
      else if p == "content" && Length(f.content) < 50 then Some("Content should be at least 50 characters")
      else if p == "category" && Length(f.category) < 1 then Some("Please select a category")
      else if p == "tags" && |f.tags| < 1 then Some("Add at least one tag")
      else None
  {
    var t := Check(Length(f.title) >= 1, "title", "Title is required");
    var d := Check(Length(f.description) >= 10, "description", "Description should be at least 10 characters");
    var c := Check(Length(f.content) >= 50, "content", "Content should be at least 50 characters");
    var g := Check(Length(f.category) >= 1, "category", "Please select a category");
    var k := Check(|f.tags| >= 1, "tags", "Add at least one tag");
    assert Issues(f) == t + d + c + g + k;
    MessageForCheck(Length(f.title) >= 1, "title", "Title is required", p);
    MessageForCheck(Length(f.description) >= 10, "description", "Description should be at least 10 characters", p);
    MessageForCheck(Length(f.content) >= 50, "content", "Content should be at least 50 characters", p);
    MessageForCheck(Length(f.category) >= 1, "category", "Please select a category", p);
    MessageForCheck(|f.tags| >= 1, "tags", "Add at least one tag", p);
    MessageForGroups(t, d, c, g, k, p);
  }
}
