/**
 * The AI-assisted listing form: its validation schema, the bounded image editor that keeps the
 * selected files and their previews in lockstep, and the guards in front of the two AI helpers.
 * Files are opaque tokens; a preview is the object URL made for one file.
 */
module CreateListingForm {
  import opened Wrappers
  import opened Seqs
  import opened Text

  /** An uploaded `File`, identified by an opaque token. */
  datatype ImageFile = ImageFile(token: nat)

  /** The object URL `URL.createObjectURL` makes for a file. */
  datatype Preview = Preview(of: ImageFile)

  /** The most images the editor keeps. */
  const MaxImages: nat := 5

  /** The previews of a list of files, one per file, in the same order. */
  function Previews(files: seq<ImageFile>): (r: seq<Preview>)
    ensures |r| == |files|
    ensures forall k :: 0 <= k < |files| ==> r[k] == Preview(files[k])
  {
    if files == [] then [] else [Preview(files[0])] + Previews(files[1..])
  }

  lemma {:induction false} PreviewsConcat(a: seq<ImageFile>, b: seq<ImageFile>)
    ensures Previews(a + b) == Previews(a) + Previews(b)
  {
    assert |Previews(a + b)| == |Previews(a) + Previews(b)|;
    forall k | 0 <= k < |a + b| ensures Previews(a + b)[k] == (Previews(a) + Previews(b))[k] {
      if k < |a| {
        assert (a + b)[k] == a[k];
      } else {
        assert (a + b)[k] == b[k - |a|];
      }
    }
  }

  /**
   * `handleFileChange` on the image list: nothing selected, or no space left, leaves it as it is;
   * otherwise the list is followed by as many of the selected files as fit.
   */
  function AfterFileChange(images: seq<ImageFile>, files: seq<ImageFile>): (r: seq<ImageFile>)
    ensures images <= r
    ensures r[|images|..] <= files
  {
    if files == [] || |images| >= MaxImages then images
    else
      var added := Take(files, MaxImages - |images|);
      assert (images + added)[|images|..] == added;
      images + added
  }

  /** The files `handleFileChange` appends: none when nothing is selected or the list is full. */
  function AddedFiles(images: seq<ImageFile>, files: seq<ImageFile>): (r: seq<ImageFile>)
    ensures AfterFileChange(images, files) == images + r
  {
    var after := AfterFileChange(images, files);
    assert after == images + after[|images|..];
    after[|images|..]
  }

  /** Selecting no files changes nothing. */
  lemma NoFilesNoChange(images: seq<ImageFile>)
    ensures AfterFileChange(images, []) == images
    ensures AddedFiles(images, []) == []
  {
  }

  /** With five images or more already present the selection is rejected and nothing is added. */
  lemma FullListRejects(images: seq<ImageFile>, files: seq<ImageFile>)
    requires |images| >= MaxImages
    ensures AfterFileChange(images, files) == images
    ensures AddedFiles(images, files) == []
  {
  }

  /**
   * Otherwise the old list is followed by the first min(n, 5 - old) selected files; a list of
   * at most five stays at most five.
   */
  lemma {:induction false} AddedFilesExact(images: seq<ImageFile>, files: seq<ImageFile>)
    requires files != [] && |images| < MaxImages
    ensures |AddedFiles(images, files)| ==
      (if |files| < MaxImages - |images| then |files| else MaxImages - |images|)
    ensures AddedFiles(images, files) <= files
    ensures |AfterFileChange(images, files)| <= MaxImages
  {
    var r := AddedFiles(images, files);
    assert images + r == images + Take(files, MaxImages - |images|);
    assert r == (images + r)[|images|..];
  }

  /** The image count never exceeds five once it starts at most five. */
  lemma {:induction false} FileChangeBound(images: seq<ImageFile>, files: seq<ImageFile>)
    requires |images| <= MaxImages
    ensures |AfterFileChange(images, files)| <= MaxImages
  {
    if files != [] && |images| < MaxImages {
      AddedFilesExact(images, files);
    }
  }

  /**
   * `splice(index, 1)` on a copy: a negative index counts from the end (clamped at the first
   * element), an index at or past the end removes nothing.
   */
  function RemoveAt<T>(s: seq<T>, index: int): (r: seq<T>)
    ensures (0 <= index < |s|) ==> |r| == |s| - 1
    ensures index >= |s| ==> r == s
  {
    var start := if index >= 0 then index else if |s| + index >= 0 then |s| + index else 0;
    if start >= |s| then s else s[..start] + s[start + 1..]
  }

  /** Removing at an index in range deletes exactly that element and keeps the others in order. */
  lemma RemoveInRange<T>(s: seq<T>, i: int)
    requires 0 <= i < |s|
    ensures |RemoveAt(s, i)| == |s| - 1
    ensures forall k :: 0 <= k < i ==> RemoveAt(s, i)[k] == s[k]
    ensures forall k :: i <= k < |s| - 1 ==> RemoveAt(s, i)[k] == s[k + 1]
    ensures multiset(RemoveAt(s, i)) + multiset{s[i]} == multiset(s)
  {
    assert s == s[..i] + [s[i]] + s[i + 1..];
  }

  /** A negative index removes the element that far from the end, or the first when it reaches past the start. */
  lemma RemoveNegative<T>(s: seq<T>, i: int)
    requires i < 0
    ensures -|s| <= i ==> RemoveAt(s, i) == RemoveAt(s, |s| + i)
    ensures i < -|s| ==> RemoveAt(s, i) == RemoveAt(s, 0)
  {
  }

  /** The previews of a slice are the slice of the previews. */
  lemma PreviewsSlice(files: seq<ImageFile>, i: nat, j: nat)
    requires i <= j <= |files|
    ensures Previews(files)[i..j] == Previews(files[i..j])
  {
  }

  /** Removing at the same index from the files and from their previews keeps them in lockstep. */
  lemma {:induction false} RemoveKeepsLockstep(files: seq<ImageFile>, index: int)
    ensures RemoveAt(Previews(files), index) == Previews(RemoveAt(files, index))
  {
    var p := Previews(files);
    var start := if index >= 0 then index else if |files| + index >= 0 then |files| + index else 0;
    if start < |files| {
      assert RemoveAt(files, index) == files[..start] + files[start + 1..];
      assert RemoveAt(p, index) == p[..start] + p[start + 1..];
      PreviewsSlice(files, 0, start);
      PreviewsSlice(files, start + 1, |files|);
      assert files[0..start] == files[..start] && files[start + 1..|files|] == files[start + 1..];
      PreviewsConcat(files[..start], files[start + 1..]);
    }
  }

  /** The values the schema sees. */
  datatype FormValues = FormValues(
    title: string,
    propertyType: Option<string>,
    description: string,
    price: int,
    location: string,
    keyFeatures: string,
    imageCount: nat)

  /** The fields `formSchema` can reject. */
  datatype FormField = TitleField | PropertyTypeField | DescriptionField | PriceField | LocationField | ImagesField

  /** The kinds this form offers. */
  predicate OfferedKind(s: string) {
    s in {"apartment", "house", "car", "commercial"}
  }

  /** The fields `formSchema` rejects; the form submits only when there are none. */
  function FormErrors(v: FormValues): (errs: set<FormField>)
    ensures errs == {} <==>
      Utf16Length(v.title) >= 5 && v.propertyType.Some? && OfferedKind(v.propertyType.value) &&
      20 <= Utf16Length(v.description) <= 500 && v.price > 0 && Utf16Length(v.location) >= 2 &&
      1 <= v.imageCount <= MaxImages
    ensures TitleField in errs <==> Utf16Length(v.title) < 5
    ensures ImagesField in errs <==> v.imageCount == 0 || v.imageCount > MaxImages
  {
    (if Utf16Length(v.title) < 5 then {TitleField} else {}) +
    (if v.propertyType.None? || !OfferedKind(v.propertyType.value) then {PropertyTypeField} else {}) +
    (if Utf16Length(v.description) < 20 || Utf16Length(v.description) > 500 then {DescriptionField} else {}) +
    (if v.price <= 0 then {PriceField} else {}) +
    (if Utf16Length(v.location) < 2 then {LocationField} else {}) +
    (if v.imageCount < 1 || v.imageCount > MaxImages then {ImagesField} else {})
  }

  /**
   * The description limit counts code units: 300 characters beyond the Basic Multilingual
   * Plane are 600 units, over the maximum of 500.
   */
  lemma AstralDescriptionTooLong(v: FormValues)
    requires |v.description| == 300 && forall k :: 0 <= k < |v.description| ==> IsAstral(v.description[k])
    ensures DescriptionField in FormErrors(v)
  {
    assert Utf16Length(v.description) == 600;
  }

  /** JavaScript falsiness of an optional string field: absent or empty. */
  predicate Blank(s: Option<string>) {
    s.None? || s.value == ""
  }

  /** What the description-enhancement action resolved to. */
  datatype EnhanceOutcome = Enhanced(enhancedDescription: string, suggestedImprovements: string) | EnhanceFailed

  /** What the title-generation action resolved to. */
  datatype TitlesOutcome = Titles(titles: seq<string>) | TitlesFailed

  /** The form's state: its field values, the image previews and the AI suggestions. */
  class FormState {
    var title: string
    var propertyType: Option<string>
    var description: string
    var price: int
    var location: string
    var keyFeatures: string
    var images: seq<ImageFile>
    var previews: seq<Preview>
    var suggestedTitles: seq<string>
    var titlePopoverOpen: bool
    var aiSuggestions: Option<string>

    /** One preview per image, in the same order, and at most five images. */
    predicate Valid()
      reads this
    {
      previews == Previews(images) && |images| <= MaxImages
    }

    function Values(): (v: FormValues)
      reads this
      ensures v.imageCount == |images|
    {
      FormValues(title, propertyType, description, price, location, keyFeatures, |images|)
    }

    /** The form's default values. */
    constructor ()
      ensures Valid()
      ensures title == "" && propertyType.None? && description == "" && price == 0 && location == ""
      ensures keyFeatures == "" && images == [] && previews == []
      ensures suggestedTitles == [] && !titlePopoverOpen && aiSuggestions.None?
    {
      title, propertyType, description, price, location, keyFeatures := "", None, "", 0, "", "";
      images, previews := [], [];
      suggestedTitles, titlePopoverOpen, aiSuggestions := [], false, None;
    }

    /**
     * `handleFileChange`: append the files that fit, and a preview for each; `limitReached`
     * reports the rejection of a non-empty selection when five images are already present.
     */
    method HandleFileChange(files: seq<ImageFile>) returns (limitReached: bool)
      modifies this
      ensures limitReached <==> files != [] && |old(images)| >= MaxImages
      ensures images == AfterFileChange(old(images), files)
      ensures previews == old(previews) + Previews(AddedFiles(old(images), files))
      ensures old(Valid()) ==> Valid()
      ensures title == old(title) && propertyType == old(propertyType) && description == old(description)
      ensures price == old(price) && location == old(location) && keyFeatures == old(keyFeatures)
      ensures suggestedTitles == old(suggestedTitles) && titlePopoverOpen == old(titlePopoverOpen)
      ensures aiSuggestions == old(aiSuggestions)
    {
      limitReached := false;
      if files == [] {
        return;
      }
      var spaceLeft := MaxImages - |images|;
      if spaceLeft <= 0 {
        limitReached := true;
        return;
      }
      var filesToAdd := Take(files, spaceLeft);
      ghost var before := images;
      images := images + filesToAdd;
      previews := previews + Previews(filesToAdd);
      assert AddedFiles(before, files) == filesToAdd;
      PreviewsConcat(before, filesToAdd);
      FileChangeBound(before, files);
    }

    /** `handleRemoveImage`: splice the same index out of the files and out of the previews. */
    method HandleRemoveImage(index: int)
      modifies this
      ensures images == RemoveAt(old(images), index)
      ensures previews == RemoveAt(old(previews), index)
      ensures old(Valid()) ==> Valid()
      ensures title == old(title) && propertyType == old(propertyType) && description == old(description)
      ensures price == old(price) && location == old(location) && keyFeatures == old(keyFeatures)
      ensures suggestedTitles == old(suggestedTitles) && titlePopoverOpen == old(titlePopoverOpen)
      ensures aiSuggestions == old(aiSuggestions)
    {
      if Valid() {
        RemoveKeepsLockstep(images, index);
      }
      images := RemoveAt(images, index);
      previews := RemoveAt(previews, index);
    }

    /**
     * `handleEnhanceDescription`: refused (`missing`) unless both the description and the type are
     * filled in; then, on success, the description is replaced by the enhanced one and the
     * suggestions are kept. A failed call changes nothing.
     */
    method HandleEnhanceDescription(outcome: EnhanceOutcome) returns (missing: bool)
      modifies this
      ensures missing <==> old(description) == "" || Blank(old(propertyType))
      ensures description == (if !missing && outcome.Enhanced? then outcome.enhancedDescription else old(description))
      ensures aiSuggestions == (if !missing && outcome.Enhanced? then Some(outcome.suggestedImprovements) else old(aiSuggestions))
      ensures title == old(title) && propertyType == old(propertyType) && price == old(price)
      ensures location == old(location) && keyFeatures == old(keyFeatures)
      ensures images == old(images) && previews == old(previews)
      ensures suggestedTitles == old(suggestedTitles) && titlePopoverOpen == old(titlePopoverOpen)
    {
      missing := description == "" || Blank(propertyType);
      if missing {
        return;
      }
      if outcome.Enhanced? {
        description := outcome.enhancedDescription;
        aiSuggestions := Some(outcome.suggestedImprovements);
      }
    }

    /**
     * A click on the generate-titles button, which is the popover's trigger: `handleGenerateTitles`
     * runs, and then the trigger toggles the popover, whatever the handler did. The handler is
     * refused (`missing`) unless both the type and the location are filled in; otherwise, once the
     * call succeeds, the suggestions are replaced and the popover is opened.
     */
    method HandleGenerateTitles(outcome: TitlesOutcome) returns (missing: bool)
      modifies this
      ensures missing <==> Blank(old(propertyType)) || old(location) == ""
      ensures suggestedTitles == (if !missing && outcome.Titles? then outcome.titles else old(suggestedTitles))
      ensures titlePopoverOpen == ((!missing && outcome.Titles?) || !old(titlePopoverOpen))
      ensures title == old(title) && propertyType == old(propertyType) && description == old(description)
      ensures price == old(price) && location == old(location) && keyFeatures == old(keyFeatures)
      ensures images == old(images) && previews == old(previews) && aiSuggestions == old(aiSuggestions)
    {
      missing := Blank(propertyType) || location == "";
      titlePopoverOpen := !titlePopoverOpen;
      if missing {
        return;
      }
      if outcome.Titles? {
        suggestedTitles := outcome.titles;
        titlePopoverOpen := true;
      }
    }

    /** Clicking the `i`-th suggestion sets the title to exactly that string and closes the popover. */
    method ChooseTitle(i: nat)
      requires i < |suggestedTitles|
      modifies this
      ensures title == old(suggestedTitles[i]) && !titlePopoverOpen
      ensures propertyType == old(propertyType) && description == old(description)
      ensures price == old(price) && location == old(location) && keyFeatures == old(keyFeatures)
      ensures images == old(images) && previews == old(previews)
      ensures suggestedTitles == old(suggestedTitles) && aiSuggestions == old(aiSuggestions)
    {
      title := suggestedTitles[i];
      titlePopoverOpen := false;
    }

    /** `form.handleSubmit(onSubmit)`: the schema decides; the handler itself only reports. */
    method Submit() returns (errs: set<FormField>)
      ensures errs == FormErrors(Values())
    {
      errs := FormErrors(Values());
    }
  }

  /** A valid editor is never caught holding more than five images, whatever it is given. */
  lemma EditorStaysBounded(images: seq<ImageFile>, files: seq<ImageFile>, index: int)
    requires |images| <= MaxImages
    ensures |AfterFileChange(images, files)| <= MaxImages
    ensures |RemoveAt(images, index)| <= |images|
  {
    FileChangeBound(images, files);
  }
}
