/** The course form (src/features/createcourse/components/CreateCourse.tsx):
    the `courseSchema` rules, the `FormData` that `onSubmit` builds, and the
    check of the server's reply. */
module CreateCourse {
  import opened Wrappers
  import opened Strings
  import AuthTokens
  import AuthPipeline

  /** `MAX_FILE_SIZE`: 5 MB. */
  const MaxFileSize: nat := 5 * 1024 * 1024
  const AcceptedImageTypes: seq<string> := ["image/jpeg", "image/png", "image/gif", "image/jpg"]
  const CreatedMessage: string := "Course created successfully"

  const TitleRequired: string := "Title is required"
  const DescriptionRequired: string := "Description is required"
  const PriceInvalid: string := "Price must be a valid number"
  const ImageTooLarge: string := "Max file size is 5MB."
  const ImageWrongType: string := "Only .jpg, .jpeg, .png and .gif formats are supported."

  /** The chosen file: its size in bytes and its MIME type. */
  datatype File = File(name: string, size: nat, mimeType: string)

  /** `CourseFormValues`: `category`, `tags` and `image` are optional. */
  datatype CourseForm = CourseForm(
    title: string,
    description: string,
    price: string,
    category: Option<string>,
    tags: Option<string>,
    image: Option<File>)

  // ---------------------------------------------------------------------
  // Schema

  /** Every character is a digit or `.`. */
  predicate DigitsAndPoint(p: string) {
    forall k :: 0 <= k < |p| ==> IsDigit(p[k]) || p[k] == '.'
  }

  /** `/^\d+(\.\d{1,2})?$/`, read left to right: a run of digits, then
      either the end or a point and one or two digits. */
  predicate ValidPrice(p: string): (ok: bool)
    ensures ok ==> p != [] && IsDigit(p[0]) && IsDigit(p[|p| - 1])
    ensures ok ==> DigitsAndPoint(p)
    ensures p != [] && AllDigits(p) ==> ok
  {
    var n := DigitSpan(p);
    DigitSpanWhole(p);
    assert forall k :: 0 <= k < n ==> IsDigit(p[..n][k]);
    n >= 1 && (n == |p| || (p[n] == '.' && 2 <= |p| - n <= 3 && AllDigits(p[n + 1..])))
  }

  /** The same language written as a decomposition. */
  ghost predicate PriceShape(p: string) {
    exists whole: string, frac: string ::
      |whole| >= 1 && AllDigits(whole) && AllDigits(frac) && |frac| <= 2 &&
      (if frac == [] then p == whole else p == whole + "." + frac)
  }

  lemma ValidPriceHasShape(p: string)
    requires ValidPrice(p)
    ensures PriceShape(p)
  {
    var n := DigitSpan(p);
    var whole := p[..n];
    if n == |p| {
      assert p == whole;
      assert |whole| >= 1 && AllDigits(whole) && AllDigits("") && (if "" == [] then p == whole else false);
    } else {
      var frac := p[n + 1..];
      assert p == whole + "." + frac;
      assert frac != [];
    }
  }

  lemma ShapeIsValidPrice(p: string)
    requires PriceShape(p)
    ensures ValidPrice(p)
  {
    var whole: string, frac: string :| |whole| >= 1 && AllDigits(whole) && AllDigits(frac) && |frac| <= 2 &&
      (if frac == [] then p == whole else p == whole + "." + frac);
    if frac == [] {
      assert p == whole + [];
      DigitSpanOfRun(whole, []);
    } else {
      assert p == whole + ("." + frac);
      DigitSpanOfRun(whole, "." + frac);
      assert p[|whole| + 1..] == frac;
    }
  }

  lemma ValidPriceIsShape(p: string)
    ensures ValidPrice(p) <==> PriceShape(p)
  {
    if ValidPrice(p) {
      ValidPriceHasShape(p);
    }
    if PriceShape(p) {
      ShapeIsValidPrice(p);
    }
  }

  /** Both `refine` rules on `image`: a missing file passes. */
  predicate ImageAccepted(image: Option<File>): (ok: bool)
    ensures image.None? ==> ok
    ensures image.Some? && image.value.size > 5 * 1024 * 1024 ==> !ok
    ensures ok && image.Some? ==> |image.value.mimeType| >= 9 && image.value.mimeType[..6] == "image/"
  {
    image.None? || (image.value.size <= MaxFileSize && image.value.mimeType in AcceptedImageTypes)
  }

  /** The messages the resolver reports, in schema order. */
  function CourseIssues(data: CourseForm): (issues: seq<string>)
    ensures issues == [] <==>
      |data.title| >= 1 && |data.description| >= 1 && ValidPrice(data.price) && ImageAccepted(data.image)
    ensures TitleRequired in issues <==> data.title == ""
    ensures PriceInvalid in issues <==> !ValidPrice(data.price)
  {
    (if |data.title| < 1 then [TitleRequired] else [])
    + (if |data.description| < 1 then [DescriptionRequired] else [])
    + (if !ValidPrice(data.price) then [PriceInvalid] else [])
    + (if data.image.Some? && data.image.value.size > MaxFileSize then [ImageTooLarge] else [])
    + (if data.image.Some? && data.image.value.mimeType !in AcceptedImageTypes then [ImageWrongType] else [])
  }

  /** `onSubmit` only runs for a form the schema accepts. */
  function Validate(data: CourseForm): (r: Result<CourseForm, seq<string>>)
    ensures r.Success? <==> CourseIssues(data) == []
    ensures r.Success? ==> r.value == data
    ensures r.Failure? ==> r.error != []
  {
    var issues := CourseIssues(data);
    if issues == [] then Success(data) else Failure(issues)
  }

  // ---------------------------------------------------------------------
  // FormData

  datatype FormValue = Text(text: string) | Blob(file: File)

  /** A browser `FormData`: the entries in the order they were appended. */
  class FormData {
    var entries: seq<(string, FormValue)>

    constructor ()
      ensures entries == []
    {
      entries := [];
    }

    method Append(name: string, value: FormValue)
      modifies this
      ensures entries == old(entries) + [(name, value)]
    {
      entries := entries + [(name, value)];
    }
  }

  /** `` `tags[${index}]` ``. */
  function TagName(i: nat): string {
    "tags[" + Show(i) + "]"
  }

  /** `data.tags.split(',').map((tag) => tag.trim())`. */
  function TagsArray(tags: string): (r: seq<string>)
    ensures |r| == Count(tags, ',') + 1
    ensures forall k :: 0 <= k < |r| ==> r[k] == Trim(Split(tags, ',')[k])
  {
    var pieces := Split(tags, ',');
    seq(|pieces|, k requires 0 <= k < |pieces| => Trim(pieces[k]))
  }

  function TagFields(tags: seq<string>): (r: seq<(string, FormValue)>)
    ensures |r| == |tags|
    ensures forall k :: 0 <= k < |r| ==> r[k] == (TagName(k), Text(tags[k]))
  {
    seq(|tags|, k requires 0 <= k < |tags| => (TagName(k), Text(tags[k])))
  }

  /** A JavaScript truthiness test on an optional string. */
  predicate Present(s: Option<string>) {
    s.Some? && s.value != ""
  }

  /** The fields appended before the tags: `title`, `description`, `price`
      and, when truthy, `category`. */
  function LeadingFields(data: CourseForm): seq<(string, FormValue)>
  {
    [("title", Text(data.title)), ("description", Text(data.description)), ("price", Text(data.price))]
    + (if Present(data.category) then [("category", Text(data.category.value))] else [])
  }

  function TagPart(data: CourseForm): seq<(string, FormValue)>
  {
    if Present(data.tags) then TagFields(TagsArray(data.tags.value)) else []
  }

  function ImagePart(data: CourseForm): seq<(string, FormValue)>
  {
    if data.image.Some? then [("image", Blob(data.image.value))] else []
  }

  /** The entries `onSubmit` appends, in order. */
  function FormFields(data: CourseForm): (r: seq<(string, FormValue)>)
    ensures |r| >= 3
    ensures r[..3] == [("title", Text(data.title)), ("description", Text(data.description)), ("price", Text(data.price))]
    ensures data.image.Some? <==> r[|r| - 1].1.Blob?
    ensures data.image.Some? ==> r[|r| - 1] == ("image", Blob(data.image.value))
  {
    LeadingFields(data) + TagPart(data) + ImagePart(data)
  }

  lemma TagFieldsSnoc(tags: seq<string>, i: nat)
    requires i < |tags|
    ensures TagFields(tags[..i + 1]) == TagFields(tags[..i]) + [(TagName(i), Text(tags[i]))]
  {
    var l, r := TagFields(tags[..i + 1]), TagFields(tags[..i]) + [(TagName(i), Text(tags[i]))];
    assert |l| == |r|;
    forall k | 0 <= k < |l|
      ensures l[k] == r[k]
    {
    }
  }

  /** The `forEach` over the trimmed tags: field `tags[i]` for piece `i`. */
  method AppendTags(formData: FormData, tagsArray: seq<string>)
    modifies formData
    ensures formData.entries == old(formData.entries) + TagFields(tagsArray)
  {
    ghost var before := formData.entries;
    for index := 0 to |tagsArray|
      invariant formData.entries == before + TagFields(tagsArray[..index])
    {
      TagFieldsSnoc(tagsArray, index);
      formData.Append(TagName(index), Text(tagsArray[index]));
    }
    assert tagsArray[..|tagsArray|] == tagsArray;
  }

  /** The `FormData` construction of `onSubmit`. */
  method BuildFormData(data: CourseForm) returns (formData: FormData)
    ensures fresh(formData)
    ensures formData.entries == FormFields(data)
  {
    formData := new FormData();
    formData.Append("title", Text(data.title));
    formData.Append("description", Text(data.description));
    formData.Append("price", Text(data.price));
    if Present(data.category) {
      formData.Append("category", Text(data.category.value));
    }
    assert formData.entries == LeadingFields(data);
    if Present(data.tags) {
      AppendTags(formData, TagsArray(data.tags.value));
    }
    assert formData.entries == LeadingFields(data) + TagPart(data);
    if data.image.Some? {
      formData.Append("image", Blob(data.image.value));
    }
  }

  /** `title`, `description` and `price` always lead, in that order; the
      count of the rest follows the optional fields, one tag field per
      comma-separated piece (empty pieces included). */
  lemma FormFieldsLayout(data: CourseForm)
    ensures var f := FormFields(data);
      && f[0] == ("title", Text(data.title))
      && f[1] == ("description", Text(data.description))
      && f[2] == ("price", Text(data.price))
      && |f| == 3 + (if Present(data.category) then 1 else 0)
                   + (if Present(data.tags) then Count(data.tags.value, ',') + 1 else 0)
                   + (if data.image.Some? then 1 else 0)
  {
  }

  predicate Names(fields: seq<(string, FormValue)>, name: string) {
    exists k :: 0 <= k < |fields| && fields[k].0 == name
  }

  lemma TagPartNames(data: CourseForm)
    ensures !Names(TagPart(data), "category") && !Names(TagPart(data), "image")
  {
    var t := TagPart(data);
    forall k | 0 <= k < |t|
      ensures t[k].0[0] == 't'
    {
      assert t[k].0 == TagName(k);
    }
  }

  lemma NamesAppend(a: seq<(string, FormValue)>, b: seq<(string, FormValue)>, name: string)
    ensures Names(a + b, name) <==> Names(a, name) || Names(b, name)
  {
    if Names(a + b, name) {
      var k :| 0 <= k < |a + b| && (a + b)[k].0 == name;
      if k >= |a| {
        assert (a + b)[k] == b[k - |a|];
      }
    }
    if Names(a, name) {
      var k :| 0 <= k < |a| && a[k].0 == name;
      assert (a + b)[k] == a[k];
    }
    if Names(b, name) {
      var k :| 0 <= k < |b| && b[k].0 == name;
      assert (a + b)[|a| + k] == b[k];
    }
  }

    lemma CategoryFieldIffPresent(data: CourseForm)
    ensures Names(FormFields(data), "category") <==> Present(data.category)
  {
    var lead, tags, img := LeadingFields(data), TagPart(data), ImagePart(data);
    assert FormFields(data) == lead + tags + img;
    TagPartNames(data);
    NamesAppend(lead, tags, "category");
    NamesAppend(lead + tags, img, "category");
    if Present(data.category) {
      assert lead[3].0 == "category";
    }
  }

  lemma ImageFieldIffChosen(data: CourseForm)
    ensures Names(FormFields(data), "image") <==> data.image.Some?
  {
    var lead, tags, img := LeadingFields(data), TagPart(data), ImagePart(data);
    assert FormFields(data) == lead + tags + img;
    TagPartNames(data);
    NamesAppend(lead, tags, "image");
    NamesAppend(lead + tags, img, "image");
    if data.image.Some? {
      assert img[0].0 == "image";
    }
  }

/** A `category` entry appears exactly when the category is truthy, and an
      `image` entry exactly when a file was chosen. */
  lemma FormFieldsOptional(data: CourseForm)
    ensures Names(FormFields(data), "category") <==> Present(data.category)
    ensures Names(FormFields(data), "image") <==> data.image.Some?
  {
    CategoryFieldIffPresent(data);
    ImageFieldIffChosen(data);
  }

  lemma TagNameInjective(i: nat, j: nat)
    requires TagName(i) == TagName(j)
    ensures i == j
  {
    var a, b := TagName(i), TagName(j);
    assert a[5..|a| - 1] == Show(i);
    assert b[5..|b| - 1] == Show(j);
    ShowInjective(i, j);
  }

  /** The tag fields carry distinct names, and field `i` holds the `i`th
      piece, trimmed. */
  lemma TagFieldsFollowPieces(tags: string, i: nat, j: nat)
    requires i < j <= Count(tags, ',')
    ensures var f := TagFields(TagsArray(tags));
      && f[i].0 != f[j].0
      && f[i] == (TagName(i), Text(Trim(Split(tags, ',')[i])))
  {
    if TagName(i) == TagName(j) {
      TagNameInjective(i, j);
    }
  }

  /** The upload `onSubmit` sends: a multipart POST of the form to
      `/courses`. */
  function SubmitConfig(formData: seq<(string, FormValue)>): (c: AuthPipeline.Config<seq<(string, FormValue)>>)
    ensures c.httpMethod == Some(AuthPipeline.POST) && c.url == Some("/courses") && c.data == Some(formData)
    ensures AuthPipeline.ContentTypeHeader in c.headers
    ensures c.headers[AuthPipeline.ContentTypeHeader] == AuthPipeline.MultipartContentType
  {
    AuthPipeline.PostFormDataConfig("/courses", formData, None)
  }

  // ---------------------------------------------------------------------
  // Reply

  datatype Toast = CourseCreated | CreationProblem

  /** The toast `onSubmit` shows: `reply` is the resolved `response.message`
      (`None` when absent) or the request's failure. */
  function SubmitToast(reply: Result<Option<string>, AuthTokens.Error>): (t: Toast)
    ensures t == CourseCreated <==> reply == Success(Some(CreatedMessage))
  {
    if reply.Success? && reply.value == Some(CreatedMessage) then CourseCreated else CreationProblem
  }
}
