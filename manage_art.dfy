/** The art management page: the form's category picks, the list of offered
    categories, the chosen images and their previews, and what the form sends. */
module ManageArt {
  import opened Common
  import opened Strings
  import opened Models
  import ArtController

  /** The price field holds typed text, or the stored number after an edit
      loads an art. */
  datatype PriceField = Typed(text: string) | Loaded(amount: int)

  datatype ArtForm = ArtForm(title: string, description: string, price: PriceField, categories: seq<string>)

  const EmptyForm := ArtForm("", "", Typed(""), [])

  /** Lines 19-28: the categories offered at first. */
  const DefaultCategories: seq<string> :=
    ["painting", "digital", "sculpture", "photography", "drawing", "mixed media", "print", "textile"]

  /** `handleCategoryChange`: ticking appends the category (even if it is
      already listed); unticking removes every occurrence. */
  function CategoryChange(categories: seq<string>, value: string, checked: bool): (r: seq<string>)
    ensures checked ==> r == categories + [value]
    ensures !checked ==> value !in r && forall c :: c in r <==> c in categories && c != value
  {
    if checked then categories + [value]
    else
      var r := Filter(categories, (c: string) => c != value);
      assert forall c :: c in categories && c != value ==> c in r by {
        forall c | c in categories && c != value ensures c in r {
          var k :| 0 <= k < |categories| && categories[k] == c;
        }
      }
      r
  }

  /** Unticking after ticking a category that was not picked restores the
      picks. */
  lemma TickUntick(categories: seq<string>, value: string)
    requires value !in categories
    ensures CategoryChange(CategoryChange(categories, value, true), value, false) == categories
  {
    var p := (c: string) => c != value;
    FilterConcat(categories, [value], p);
    FilterAllPass(categories, p);
  }

  /** `handleAddNewCategory`: the trimmed, lower-cased entry is offered and the
      input cleared, but only when it is not blank and not offered yet;
      otherwise nothing changes. */
  function AddNewCategory(available: seq<string>, input: string): (r: (seq<string>, string))
    ensures Trim(input) != "" && Clean(input) !in available ==> r == (available + [Clean(input)], "")
    ensures Trim(input) == "" || Clean(input) in available ==> r == (available, input)
  {
    var entry := Clean(input);
    if Trim(input) != "" && entry !in available then (available + [entry], "") else (available, input)
  }

  predicate Distinct(list: seq<string>) {
    forall i, j :: 0 <= i < j < |list| ==> list[i] != list[j]
  }

  /** Every offered category stays clean and offered once. */
  lemma AddNewCategoryKeepsOffer(available: seq<string>, input: string)
    requires Distinct(available) && forall i :: 0 <= i < |available| ==> ArtController.IsClean(available[i])
    ensures var r := AddNewCategory(available, input).0;
      Distinct(r) && forall i :: 0 <= i < |r| ==> ArtController.IsClean(r[i])
  {
    if Trim(input) != "" && Clean(input) !in available {
      var x := Clean(input);
      var r := available + [x];
      assert ArtController.IsClean(x) by {
        CleanIdempotent(input);
      }
      forall i, j | 0 <= i < j < |r| ensures r[i] != r[j] {
        assert r[i] == available[i];
        if j < |available| {
          assert r[j] == available[j];
        }
      }
      forall i | 0 <= i < |r| ensures ArtController.IsClean(r[i]) {
        if i < |available| {
          assert r[i] == available[i];
        }
      }
    }
  }

  /** The categories offered at first are distinct. */
  lemma DefaultsDistinct()
    ensures Distinct(DefaultCategories)
  {
  }

  /** The picks as the form sends them: one text joined with ','. The
      backend's normalisation gives back exactly the picked list when every
      pick is clean, comma-free and not empty (an empty list included). */
  lemma SentCategoriesRoundTrip(categories: seq<string>)
    requires forall i :: 0 <= i < |categories| ==>
      ArtController.IsClean(categories[i]) && ',' !in categories[i] && categories[i] != ""
    ensures ArtController.NormaliseCategories(ArtController.CategoryText(Join(categories, ','))) == categories
  {
    ArtController.JoinedCategoriesRoundTrip(categories);
  }

  /** A new category holding a comma reaches the backend as two
      categories. */
  lemma CommaSplitsNewCategory(a: string, b: string)
    requires ArtController.IsClean(a) && ArtController.IsClean(b) && ',' !in a && ',' !in b
    ensures ArtController.NormaliseCategories(ArtController.CategoryText(Join([a + [','] + b], ','))) == [a, b]
  {
    var text := a + [','] + b;
    assert Join([text], ',') == text;
    assert |text| == |a| + 1 + |b|;
    SplitAtSeparator(a, b, ',');
    SplitNoSeparator(b, ',');
    assert Split(text, ',') == [a, b];
    assert ArtController.NormaliseCategories(ArtController.CategoryText(text)) == ArtController.CleanAll([a, b]);
    ArtController.CleanAllOfClean([a, b]);
  }

  /** Images and previews removed at the same index stay pair by pair. */
  predicate Aligned(images: seq<string>, previews: seq<string>) {
    |images| == |previews|
  }

  /** What submitting sends. */
  datatype Request = AddRequest(fields: seq<(string, string)>, images: seq<string>)
                   | UpdateRequest(id: ArtId, fields: seq<(string, string)>, images: seq<string>)

  /** Lines 93-101: the text fields, categories joined with ','. `priceText`
      is the price field as `FormData` renders it. */
  function Fields(form: ArtForm, priceText: string): seq<(string, string)> {
    [("title", form.title), ("description", form.description), ("price", priceText),
     ("categories", Join(form.categories, ','))]
  }

  class ManageArtState {
    var form: ArtForm
    var images: seq<string>
    var previews: seq<string>
    var editingId: Option<ArtId>
    var formOpen: bool
    var available: seq<string>
    var newCategory: string

    constructor ()
      ensures form == EmptyForm && images == [] && previews == [] && editingId == None && !formOpen
      ensures available == DefaultCategories && newCategory == ""
    {
      form, images, previews, editingId, formOpen := EmptyForm, [], [], None, false;
      available, newCategory := DefaultCategories, "";
    }

    method ChangeCategory(value: string, checked: bool)
      modifies this
      ensures form == old(form).(categories := CategoryChange(old(form.categories), value, checked))
      ensures images == old(images) && previews == old(previews) && editingId == old(editingId)
      ensures available == old(available) && newCategory == old(newCategory) && formOpen == old(formOpen)
    {
      form := form.(categories := CategoryChange(form.categories, value, checked));
    }

    method AddCategory()
      modifies this
      ensures (available, newCategory) == AddNewCategory(old(available), old(newCategory))
      ensures form == old(form) && images == old(images) && previews == old(previews)
      ensures editingId == old(editingId) && formOpen == old(formOpen)
    {
      available, newCategory := AddNewCategory(available, newCategory).0, AddNewCategory(available, newCategory).1;
    }

    /** `removeImagePreview`: the same index leaves both arrays, so aligned
        arrays stay aligned and every remaining preview keeps its image. */
    method RemoveImagePreview(index: int)
      modifies this
      ensures images == SpliceOne(old(images), index) && previews == SpliceOne(old(previews), index)
      ensures Aligned(old(images), old(previews)) ==> Aligned(images, previews)
      ensures Aligned(old(images), old(previews)) && 0 <= index < |old(images)| ==>
        forall k :: 0 <= k < |images| ==>
          var j := if k < index then k else k + 1;
          images[k] == old(images)[j] && previews[k] == old(previews)[j]
      ensures form == old(form) && editingId == old(editingId) && formOpen == old(formOpen)
      ensures available == old(available) && newCategory == old(newCategory)
    {
      images := SpliceOne(images, index);
      previews := SpliceOne(previews, index);
    }

    /** `handleEdit`: the art's fields and images are loaded for editing. The
        chosen image files are not cleared. */
    method Edit(art: Art)
      modifies this
      ensures editingId == Some(art.id) && formOpen
      ensures form == ArtForm(art.title, art.description, Loaded(art.price), art.categories)
      ensures previews == art.images && images == old(images)
      ensures available == old(available) && newCategory == old(newCategory)
    {
      editingId := Some(art.id);
      form := ArtForm(art.title, art.description, Loaded(art.price), art.categories);
      previews := art.images;
      formOpen := true;
    }

    /** `resetForm`. */
    method Reset()
      modifies this
      ensures form == EmptyForm && images == [] && previews == [] && editingId == None && !formOpen
      ensures newCategory == "" && available == old(available)
    {
      form, images, previews, editingId, formOpen, newCategory := EmptyForm, [], [], None, false, "";
    }

    /** `handleSubmit`: an update while editing, an add otherwise; once the
        call returns the form is emptied and closed. A call that threw leaves
        the form as it was. `priceText` is the text `FormData` sends for the
        price field: the typed text itself, or the loaded number as text. */
    method Submit(priceText: string, threw: bool) returns (request: Request)
      requires form.price.Typed? ==> priceText == form.price.text
      modifies this
      ensures old(editingId).Some? ==> request == UpdateRequest(old(editingId).value, Fields(old(form), priceText), old(images))
      ensures old(editingId).None? ==> request == AddRequest(Fields(old(form), priceText), old(images))
      ensures !threw ==> form == EmptyForm && images == [] && previews == [] && !formOpen && editingId == None
      ensures threw ==> form == old(form) && images == old(images) && previews == old(previews)
                        && formOpen == old(formOpen) && editingId == old(editingId)
      ensures available == old(available) && newCategory == old(newCategory)
    {
      var fields := Fields(form, priceText);
      if editingId.Some? {
        request := UpdateRequest(editingId.value, fields, images);
      } else {
        request := AddRequest(fields, images);
      }
      if threw {
        return;
      }
      editingId := None;
      form, images, previews, formOpen := EmptyForm, [], [], false;
    }
  }
}
