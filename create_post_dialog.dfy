/**
 * The dialog in which an organization writes a fundraising post: the form's text fields, the
 * comma-separated tag list, and the submit handler that builds the post handed to `onConfirm`.
 */
module CreatePostDialog {
  import opened Wrappers
  import opened Seqs
  import opened Strings
  import opened AuthContext

  /** What `onConfirm` receives: a post without its id, creation time and amount raised. */
  datatype PostData = PostData(
    organizationId: string,
    organizationName: string,
    organizationLogoUrl: Option<string>,
    title: string,
    description: string,
    goalAmount: Option<real>,
    imageUrl: Option<string>,
    category: Option<string>,
    tags: seq<string>)

  /** The six text fields of the form, as typed. */
  datatype Form = Form(title: string, description: string, goalAmount: string,
                       imageUrl: string, category: string, tags: string)

  /** `goalAmount ? parseFloat(goalAmount) : undefined`, with `None` for NaN as well. */
  function ParseGoal(parse: string -> Option<real>, text: string): (r: Option<real>)
    ensures text == "" ==> r.None?
    ensures text != "" ==> r == parse(text)
  {
    if text == "" then None else parse(text)
  }

  function TrimAll(parts: seq<string>): (r: seq<string>)
    ensures |r| == |parts| && forall i :: 0 <= i < |r| ==> r[i] == Trim(parts[i])
  {
    seq(|parts|, i requires 0 <= i < |parts| => Trim(parts[i]))
  }

  predicate NonEmpty(s: string) {
    |s| > 0
  }

  /** `tags.split(',').map(tag => tag.trim()).filter(tag => tag.length > 0)`. */
  function ParseTags(text: string): seq<string> {
    Filter(TrimAll(SplitOn(text, ',')), NonEmpty)
  }

  /** A tag as the parser leaves it: non-empty, no comma, no whitespace at either end. */
  predicate CleanTag(t: string) {
    |t| > 0 && ',' !in t && !IsWhitespace(t[0]) && !IsWhitespace(t[|t| - 1])
  }

  /** A string is a tag exactly when it is the non-empty trim of one comma-separated part. */
  lemma ParseTagsMembers(text: string, t: string)
    ensures t in ParseTags(text) <==>
            t != "" && exists j :: 0 <= j < |SplitOn(text, ',')| && Trim(SplitOn(text, ',')[j]) == t
  {
    var parts := SplitOn(text, ',');
    FilterMembers(TrimAll(parts), NonEmpty, t);
    if t in TrimAll(parts) {
      var j :| 0 <= j < |parts| && TrimAll(parts)[j] == t;
    }
  }

  /** Every parsed tag is clean. */
  lemma ParsedTagsAreClean(text: string)
    ensures forall i :: 0 <= i < |ParseTags(text)| ==> CleanTag(ParseTags(text)[i])
  {
    var parts := SplitOn(text, ',');
    var tags := ParseTags(text);
    forall i | 0 <= i < |tags|
      ensures CleanTag(tags[i])
    {
      var t := tags[i];
      ParseTagsMembers(text, t);
      var j :| 0 <= j < |parts| && Trim(parts[j]) == t;
      TrimSpec(parts[j]);
      var k := |parts[j]| - |TrimStart(parts[j])|;
      forall n | 0 <= n < |t|
        ensures t[n] != ','
      {
        assert t[n] == parts[j][k + n];
      }
    }
  }

  /** Joining clean tags with commas and parsing the result gives the same tags back. */
  lemma ParseTagsJoin(tags: seq<string>)
    requires forall i :: 0 <= i < |tags| ==> CleanTag(tags[i])
    ensures ParseTags(Join(tags, ",")) == tags
  {
    if tags == [] {
      assert SplitOn([], ',') == [""];
      assert Trim("") == "";
      assert TrimAll([""]) == [""];
    } else {
      assert "," == [','];
      SplitOnJoin(tags, ',');
      forall i | 0 <= i < |tags|
        ensures Trim(tags[i]) == tags[i]
      {
        TrimFixed(tags[i]);
      }
      assert TrimAll(tags) == tags;
      FilterAll(tags, NonEmpty);
    }
  }

  /** `!title.trim() || !description.trim()`. */
  predicate Blank(form: Form) {
    Trim(form.title) == "" || Trim(form.description) == ""
  }

  /** The post `handleSubmit` hands to `onConfirm` for this form. */
  function Submission(organization: Account, form: Form, parse: string -> Option<real>): PostData
    requires organization.profile.OrganizationProfile?
  {
    PostData(organization.id, organization.profile.name, OrUndefined(organization.profile.logoUrl),
             Trim(form.title), Trim(form.description), ParseGoal(parse, form.goalAmount),
             OrUndefined(Trim(form.imageUrl)), OrUndefined(Trim(form.category)), ParseTags(form.tags))
  }

  /**
   * A post that passes the blank check has a non-empty title and description, every text it
   * carries is already trimmed (trimming it again changes nothing), and it has a goal only when
   * the goal field was filled in.
   */
  lemma SubmittedTextIsTrimmed(organization: Account, form: Form, parse: string -> Option<real>)
    requires organization.profile.OrganizationProfile? && !Blank(form)
    ensures var post := Submission(organization, form, parse);
            post.title != "" && post.description != ""
            && Trim(post.title) == post.title && Trim(post.description) == post.description
            && (post.imageUrl.Some? ==> post.imageUrl.value != "" && Trim(post.imageUrl.value) == post.imageUrl.value)
            && (post.category.Some? ==> post.category.value != "" && Trim(post.category.value) == post.category.value)
            && (forall i :: 0 <= i < |post.tags| ==> CleanTag(post.tags[i]))
            && (post.goalAmount.Some? ==> form.goalAmount != "" && post.goalAmount == parse(form.goalAmount))
  {
    TrimIdempotent(form.title);
    TrimIdempotent(form.description);
    TrimIdempotent(form.imageUrl);
    TrimIdempotent(form.category);
    ParsedTagsAreClean(form.tags);
  }

  class DialogState {
    const organization: Account
    /** `parseFloat`, with `None` for NaN. */
    const parseFloat: string -> Option<real>
    var title: string
    var description: string
    var goalAmount: string
    var imageUrl: string
    var category: string
    var tags: string
    var error: Option<string>
    /** Whether `onClose` has been called. */
    var closed: bool

    constructor (organization: Account, parseFloat: string -> Option<real>)
      requires organization.profile.OrganizationProfile?
      ensures this.organization == organization && this.parseFloat == parseFloat
      ensures title == "" && description == "" && goalAmount == "" && imageUrl == "" && category == "" && tags == ""
      ensures error.None? && !closed
    {
      this.organization, this.parseFloat := organization, parseFloat;
      title, description, goalAmount, imageUrl, category, tags := "", "", "", "", "", "";
      error, closed := None, false;
    }

    function CurrentForm(): Form
      reads this
    {
      Form(title, description, goalAmount, imageUrl, category, tags)
    }

    /**
     * `handleSubmit`: clears the error, refuses a blank title or description with a message,
     * and otherwise calls `onConfirm` with the post and then `onClose`. Returns what was
     * passed to `onConfirm`, if it was called.
     */
    method HandleSubmit() returns (confirmed: Option<PostData>)
      requires organization.profile.OrganizationProfile?
      modifies this
      ensures Blank(old(CurrentForm())) ==>
                confirmed.None? && error == Some("Please fill in title and description") && closed == old(closed)
      ensures !Blank(old(CurrentForm())) ==>
                confirmed == Some(Submission(organization, old(CurrentForm()), parseFloat)) && error.None? && closed
      ensures CurrentForm() == old(CurrentForm())
    {
      error := None;
      if Trim(title) == "" || Trim(description) == "" {
        error := Some("Please fill in title and description");
        return None;
      }
      var post := Submission(organization, CurrentForm(), parseFloat);
      confirmed := Some(post);
      closed := true;
    }
  }
}
