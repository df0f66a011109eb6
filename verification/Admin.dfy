/**
 * The administration page of the listing store (src/app/admin/page.tsx): the property list, the
 * search box over it, the create/edit/view modal with its form and image lists, and the list
 * updates that follow a create, an edit or a delete. Every backend call (row select, insert,
 * update and delete, storage upload and remove) is a parameter of the operation that makes it.
 */
module Admin {
  import opened Wrappers
  import opened Text
  import opened Seqs
  import opened PropertyModel

  /** The three values `modalMode` takes: "create", "edit" and "view". */
  datatype Mode = Create | Edit | View

  /** The modal's form. */
  datatype FormData = FormData(
    title: string,
    location: string,
    price: string,
    bedrooms: real,
    bathrooms: real,
    area: real,
    images: seq<string>,
    featured: bool,
    description: string)

  /** The form the page starts with and the one `openModal` uses without a property. */
  const BlankForm := FormData("", "", "", 1.0, 1.0, 0.0, [], false, "")

  /**
   * What a failed backend call throws: an `Error` instance, whose message is shown, or any other
   * value, for which the page shows a fixed text.
   */
  datatype Fault = Thrown(message: string) | NotAnError

  const LoadPrefix := "Erro ao carregar propriedades: "
  const SavePrefix := "Erro ao salvar propriedade: "
  const DeletePrefix := "Erro ao deletar propriedade: "
  const UnknownError := "Ocorreu um erro desconhecido."

  /** The error banner after a failed call: the operation's prefix followed by the cause. */
  function Report(prefix: string, fault: Fault): (text: string)
    ensures |prefix| <= |text| && text[..|prefix|] == prefix
    ensures fault.Thrown? ==> text[|prefix|..] == fault.message
    ensures fault.NotAnError? ==> text[|prefix|..] == UnknownError
  {
    match fault
    case Thrown(m) => prefix + m
    case NotAnError => prefix + UnknownError
  }

  /** A file chosen in the upload input; only its name is visible to the page. */
  datatype File = File(name: string)

  /** The row sent to the backend on create and edit. */
  datatype PropertyData = PropertyData(
    title: string,
    location: string,
    price: string,
    bedrooms: int,
    bathrooms: int,
    area: real,
    images: seq<string>,
    featured: bool,
    description: string)

  // ---------------------------------------------------------------------------------------------
  // Pure parts of the page

  /** `parseInt(x.toString())`: the integer part, truncating toward zero. */
  function Truncate(x: real): (n: int)
    ensures n as real <= x < n as real + 1.0 || n as real - 1.0 < x <= n as real
    ensures x >= 0.0 ==> 0 <= n && n as real <= x
    ensures x < 0.0 ==> n <= 0 && x <= n as real
  {
    if x >= 0.0 then x.Floor else -((-x).Floor)
  }

  /** The `propertyData` object built by `handleSubmit` from the form and the final image list. */
  function ToPropertyData(form: FormData, images: seq<string>): PropertyData {
    PropertyData(form.title, form.location, form.price, Truncate(form.bedrooms),
                 Truncate(form.bathrooms), form.area, images, form.featured, form.description)
  }

  /** `v || fallback` on a number column: a missing value and 0 both take the fallback. */
  function NumberOr(v: Option<real>, fallback: real): real {
    if v.Some? && v.value != 0.0 then v.value else fallback
  }

  /** `openModal`'s form for an existing property, every field defaulted with `||`. */
  function FormFromProperty(p: Property): FormData {
    FormData(p.title.GetOr(""), p.location.GetOr(""), p.price.GetOr(""),
             NumberOr(p.bedrooms, 1.0), NumberOr(p.bathrooms, 1.0), NumberOr(p.area, 0.0),
             p.images.GetOr([]), p.featured.GetOr(false), p.description.GetOr(""))
  }

  /** The admin search: the lower-cased title or location contains the lower-cased term. */
  predicate AdminMatches(p: Property, searchTerm: string) {
    TextMatches(p.title, ToLower(searchTerm)) || TextMatches(p.location, ToLower(searchTerm))
  }

  /** The images an edit deletes: the old images that are not in the final list. */
  function RemovedImages(oldImages: seq<string>, finalImages: seq<string>): seq<string> {
    Filter(oldImages, img => img !in finalImages)
  }

  /** The storage path `deleteImage` removes: `properties/` followed by the URL's last segment. */
  function StorageKey(url: string): string {
    "properties/" + LastPiece(url, '/')
  }

  /** The storage paths of a list of image URLs, in order. */
  function StorageKeys(urls: seq<string>): seq<string> {
    seq(|urls|, i requires 0 <= i < |urls| => StorageKey(urls[i]))
  }

  /** `prev.map(p => p.id === id ? row : p)`. */
  function ReplaceById(rows: seq<Property>, id: int, row: Property): (r: seq<Property>)
    ensures |r| == |rows|
    ensures forall i :: 0 <= i < |rows| ==> r[i] == (if rows[i].id == id then row else rows[i])
  {
    if rows == [] then [] else [if rows[0].id == id then row else rows[0]] + ReplaceById(rows[1..], id, row)
  }

  /** `prev.filter(p => p.id !== id)`. */
  function RemoveById(rows: seq<Property>, id: int): seq<Property> {
    Filter(rows, (p: Property) => p.id != id)
  }

  /** `properties.find(p => p.id === id)`: the first row with that id. */
  function FindById(rows: seq<Property>, id: int): (r: Option<Property>)
    ensures r.None? <==> forall i :: 0 <= i < |rows| ==> rows[i].id != id
    ensures r.Some? ==> exists i :: 0 <= i < |rows| && rows[i] == r.value && r.value.id == id
                                    && forall j :: 0 <= j < i ==> rows[j].id != id
  {
    if rows == [] then None
    else if rows[0].id == id then Some(rows[0])
    else
      var rest := FindById(rows[1..], id);
      if rest.Some? then
        ghost var i :| 0 <= i < |rows| - 1 && rows[1..][i] == rest.value && rest.value.id == id
                       && forall j :: 0 <= j < i ==> rows[1..][j].id != id;
        assert rows[i + 1] == rest.value;
        assert forall j :: 1 <= j < i + 1 ==> rows[j].id != id by {
          forall j | 1 <= j < i + 1 ensures rows[j].id != id { assert rows[j] == rows[1..][j - 1]; }
        }
        rest
      else
        assert forall i :: 1 <= i < |rows| ==> rows[i].id != id by {
          forall i | 1 <= i < |rows| ensures rows[i].id != id { assert rows[i] == rows[1..][i - 1]; }
        }
        rest
  }

  /**
   * The loop of `deleteImage` calls over a list of image URLs; every call is made whatever the
   * storage answers, so the result is the sequence of storage paths removed, in order.
   */
  method DeleteImages(urls: seq<string>) returns (keys: seq<string>)
    ensures |keys| == |urls|
    ensures forall i :: 0 <= i < |urls| ==> keys[i] == StorageKey(urls[i])
  {
    keys := [];
    for n := 0 to |urls|
      invariant |keys| == n
      invariant forall i :: 0 <= i < n ==> keys[i] == StorageKey(urls[i])
    {
      keys := keys + [StorageKey(urls[n])];
    }
  }

  // ---------------------------------------------------------------------------------------------
  // Properties of the pure parts

  /** `openModal`'s defaults: 0 and missing counts become 1, a missing area 0, missing text "". */
  lemma FormDefaults(p: Property)
    ensures var f := FormFromProperty(p);
      && (p.bedrooms == None || p.bedrooms == Some(0.0) ==> f.bedrooms == 1.0)
      && (p.bedrooms.Some? && p.bedrooms.value != 0.0 ==> f.bedrooms == p.bedrooms.value)
      && (p.bathrooms == None || p.bathrooms == Some(0.0) ==> f.bathrooms == 1.0)
      && (p.bathrooms.Some? && p.bathrooms.value != 0.0 ==> f.bathrooms == p.bathrooms.value)
      && (p.area.Some? ==> f.area == p.area.value)
      && (p.area.None? ==> f.area == 0.0)
      && (p.title.None? ==> f.title == "") && (p.title.Some? ==> f.title == p.title.value)
      && (p.location.None? ==> f.location == "") && (p.price.None? ==> f.price == "")
      && (p.description.None? ==> f.description == "")
      && f.images == p.images.GetOr([]) && f.featured == (p.featured == Some(true))
  {
  }

  /** With an empty search every row that has a title or a location is listed, and no other. */
  lemma EmptyAdminSearch(p: Property)
    ensures AdminMatches(p, "") <==> p.title.Some? || p.location.Some?
  {
    if p.title.Some? { assert OccursAt(ToLower(p.title.value), "", 0); }
    if p.location.Some? { assert OccursAt(ToLower(p.location.value), "", 0); }
  }

  /**
   * Every old image is either kept in the final list or scheduled for deletion, never both; the
   * deletion list keeps the order of the old images.
   */
  lemma RemovedImagesPartition(oldImages: seq<string>, finalImages: seq<string>)
    ensures forall img :: img in oldImages ==> (img in finalImages <==> img !in RemovedImages(oldImages, finalImages))
    ensures forall img :: img in RemovedImages(oldImages, finalImages) ==> img in oldImages && img !in finalImages
    ensures IsSubsequence(RemovedImages(oldImages, finalImages), oldImages)
  {
    var removed := RemovedImages(oldImages, finalImages);
    forall img | img in oldImages ensures img in finalImages <==> img !in removed {
      var i :| 0 <= i < |oldImages| && oldImages[i] == img;
      if img !in finalImages { assert (img => img !in finalImages)(oldImages[i]); }
    }
    forall img | img in removed ensures img in oldImages && img !in finalImages {
      var i :| 0 <= i < |removed| && removed[i] == img;
    }
    FilterIsSubsequence(oldImages, img => img !in finalImages);
  }

  /** The storage path is `properties/` and the URL's last segment, which is a suffix of it. */
  lemma StorageKeySpec(url: string)
    ensures var key := StorageKey(url); var name := key[|"properties/"|..];
      && StartsWith(key, "properties/")
      && '/' !in name
      && |name| <= |url| && url[|url| - |name|..] == name
  {
    LastPieceSpec(url, '/');
    assert StorageKey(url)[|"properties/"|..] == LastPiece(url, '/');
  }

  /**
   * The list after a create, `[row] + rows`: looking up the new row's id finds the new row, every
   * other id finds what it found before, and deleting the new id again restores the old list
   * when the id was not in use.
   */
  lemma CreateThenLookupAndDelete(rows: seq<Property>, row: Property)
    ensures FindById([row] + rows, row.id) == Some(row)
    ensures forall id :: id != row.id ==> FindById([row] + rows, id) == FindById(rows, id)
    ensures (forall i :: 0 <= i < |rows| ==> rows[i].id != row.id) ==> RemoveById([row] + rows, row.id) == rows
  {
    var created := [row] + rows;
    assert created[1..] == rows;
    if forall i :: 0 <= i < |rows| ==> rows[i].id != row.id {
      FilterKeepsAll(rows, (p: Property) => p.id != row.id);
    }
  }

  /** Editing keeps the length, every row with another id, and the order of the list. */
  lemma EditReplacesOnlyMatching(rows: seq<Property>, id: int, row: Property)
    ensures |ReplaceById(rows, id, row)| == |rows|
    ensures forall i :: 0 <= i < |rows| && rows[i].id != id ==> ReplaceById(rows, id, row)[i] == rows[i]
    ensures forall i :: 0 <= i < |rows| && rows[i].id == id ==> ReplaceById(rows, id, row)[i] == row
    ensures (forall i :: 0 <= i < |rows| ==> rows[i].id != id) ==> ReplaceById(rows, id, row) == rows
  {
  }

  /** A delete leaves no row with the id and keeps every other row, in order. */
  lemma RemoveByIdSpec(rows: seq<Property>, id: int)
    ensures forall p :: p in RemoveById(rows, id) ==> p.id != id && p in rows
    ensures forall p :: p in rows && p.id != id ==> p in RemoveById(rows, id)
    ensures IsSubsequence(RemoveById(rows, id), rows)
    ensures forall p :: multiset(RemoveById(rows, id))[p] == (if p.id != id then multiset(rows)[p] else 0)
  {
    var keep := (p: Property) => p.id != id;
    FilterMultiplicity(rows, keep);
    var r := RemoveById(rows, id);
    forall p | p in r ensures p.id != id && p in rows {
      var i :| 0 <= i < |r| && r[i] == p;
    }
    forall p | p in rows && p.id != id ensures p in r {
      var i :| 0 <= i < |rows| && rows[i] == p;
      assert keep(rows[i]);
    }
    FilterIsSubsequence(rows, keep);
  }

  // ---------------------------------------------------------------------------------------------
  // The page's state

  class AdminStore {
    var properties: seq<Property>
    var currentProperty: Option<Property>
    var isModalOpen: bool
    var modalMode: Mode
    var searchTerm: string
    var imageFiles: seq<File>
    var imageUrls: seq<string>
    var error: Option<string>
    var formData: FormData

    /** While the modal is open the form's image list and the existing-image previews agree. */
    predicate Valid()
      reads this
    {
      isModalOpen ==> formData.images == imageUrls
    }

    constructor()
      ensures properties == [] && currentProperty == None && !isModalOpen && modalMode == Create
      ensures searchTerm == "" && imageFiles == [] && imageUrls == [] && error == None
      ensures formData == BlankForm
      ensures Valid()
    {
      properties := [];
      currentProperty := None;
      isModalOpen := false;
      modalMode := Create;
      searchTerm := "";
      imageFiles := [];
      imageUrls := [];
      error := None;
      formData := BlankForm;
    }

    /**
     * `fetchProperties` after the select returns: the rows, each with a missing image list
     * replaced by [], or the error banner when the select failed.
     */
    method LoadProperties(fetched: Result<seq<Property>, Fault>)
      modifies this
      ensures fetched.Success? ==>
        && |properties| == |fetched.value|
        && (forall i :: 0 <= i < |properties| ==>
              properties[i] == fetched.value[i].(images := Some(fetched.value[i].images.GetOr([]))))
        && error == None
      ensures fetched.Failure? ==> properties == old(properties) && error == Some(Report(LoadPrefix, fetched.error))
      ensures currentProperty == old(currentProperty) && isModalOpen == old(isModalOpen)
      ensures modalMode == old(modalMode) && searchTerm == old(searchTerm) && formData == old(formData)
      ensures imageFiles == old(imageFiles) && imageUrls == old(imageUrls)
      ensures old(Valid()) ==> Valid()
    {
      match fetched
      case Success(rows) =>
        properties := seq(|rows|, i requires 0 <= i < |rows| => rows[i].(images := Some(rows[i].images.GetOr([]))));
        error := None;
      case Failure(e) =>
        error := Some(Report(LoadPrefix, e));
    }

    method SetSearchTerm(term: string)
      modifies this
      ensures searchTerm == term
      ensures properties == old(properties) && currentProperty == old(currentProperty)
      ensures isModalOpen == old(isModalOpen) && modalMode == old(modalMode) && formData == old(formData)
      ensures imageFiles == old(imageFiles) && imageUrls == old(imageUrls) && error == old(error)
    {
      searchTerm := term;
    }

    /** The listed rows: those matching the search, in list order. */
    method FilteredProperties() returns (r: seq<Property>)
      ensures IsSubsequence(r, properties)
      ensures forall p :: p in r <==> p in properties && AdminMatches(p, searchTerm)
      ensures forall p :: multiset(r)[p] == (if AdminMatches(p, searchTerm) then multiset(properties)[p] else 0)
    {
      var term := searchTerm;
      var keep := (p: Property) => AdminMatches(p, term);
      r := Filter(properties, keep);
      FilterIsSubsequence(properties, keep);
      FilterMultiplicity(properties, keep);
      forall p ensures p in r <==> p in properties && AdminMatches(p, term) {
        if p in r {
          var i :| 0 <= i < |r| && r[i] == p;
        }
        if p in properties && AdminMatches(p, term) {
          var i :| 0 <= i < |properties| && properties[i] == p;
          assert keep(properties[i]);
        }
      }
    }

    /** `openModal(mode, property)`: fills the form from the property, or blanks it. */
    method OpenModal(mode: Mode, property: Option<Property>)
      modifies this
      ensures modalMode == mode && currentProperty == property && isModalOpen
      ensures property.Some? ==> formData == FormFromProperty(property.value)
                                 && imageUrls == property.value.images.GetOr([])
      ensures property.None? ==> formData == BlankForm && imageUrls == []
      ensures imageFiles == [] && error == None
      ensures properties == old(properties) && searchTerm == old(searchTerm)
      ensures Valid()
    {
      modalMode := mode;
      currentProperty := property;
      if property.Some? {
        formData := FormFromProperty(property.value);
        imageUrls := property.value.images.GetOr([]);
      } else {
        formData := BlankForm;
        imageUrls := [];
      }
      imageFiles := [];
      error := None;
      isModalOpen := true;
    }

    /** `closeModal`: the form itself is left as it was. */
    method CloseModal()
      modifies this
      ensures !isModalOpen && currentProperty == None && imageFiles == [] && imageUrls == [] && error == None
      ensures properties == old(properties) && modalMode == old(modalMode)
      ensures searchTerm == old(searchTerm) && formData == old(formData)
      ensures Valid()
    {
      isModalOpen := false;
      currentProperty := None;
      imageFiles := [];
      imageUrls := [];
      error := None;
    }

    /** `handleImageUpload`: the chosen files replace the pending ones. */
    method HandleImageUpload(files: seq<File>)
      modifies this
      ensures imageFiles == files
      ensures properties == old(properties) && currentProperty == old(currentProperty)
      ensures isModalOpen == old(isModalOpen) && modalMode == old(modalMode) && searchTerm == old(searchTerm)
      ensures imageUrls == old(imageUrls) && error == old(error) && formData == old(formData)
      ensures old(Valid()) ==> Valid()
    {
      imageFiles := files;
    }

    /**
     * `removeImage(index, isExisting)`: an existing image leaves both the previews and the form,
     * a pending file leaves only the file list. An index outside the list removes nothing.
     */
    method RemoveImage(index: int, isExisting: bool)
      modifies this
      ensures isExisting ==> imageUrls == DropIndex(old(imageUrls), index)
                             && formData == old(formData).(images := DropIndex(old(formData).images, index))
                             && imageFiles == old(imageFiles)
      ensures !isExisting ==> imageFiles == DropIndex(old(imageFiles), index)
                              && imageUrls == old(imageUrls) && formData == old(formData)
      ensures properties == old(properties) && currentProperty == old(currentProperty)
      ensures isModalOpen == old(isModalOpen) && modalMode == old(modalMode)
      ensures searchTerm == old(searchTerm) && error == old(error)
      ensures old(Valid()) ==> Valid()
    {
      if isExisting {
        imageUrls := DropIndex(imageUrls, index);
        formData := formData.(images := DropIndex(formData.images, index));
      } else {
        imageFiles := DropIndex(imageFiles, index);
      }
    }

    /**
     * `handleSubmit`. `upload` is the outcome of uploading the pending files (one URL per file, in
     * file order, or the first failure), used only when there are pending files; `saved` is the
     * outcome of the insert or update. `sent` is the row handed to the backend, if any, and
     * `deletedKeys` the storage paths removed before an update.
     */
    method HandleSubmit(upload: Result<seq<string>, Fault>, saved: Result<Property, Fault>)
      returns (sent: Option<PropertyData>, deletedKeys: seq<string>)
      requires upload.Success? ==> |upload.value| == |imageFiles|
      modifies this
      // the upload failed: nothing is sent and only the banner changes
      ensures |old(imageFiles)| > 0 && upload.Failure? ==>
        && sent == None && deletedKeys == []
        && error == Some(Report(SavePrefix, upload.error))
        && properties == old(properties) && isModalOpen == old(isModalOpen)
        && currentProperty == old(currentProperty) && imageUrls == old(imageUrls)
        && imageFiles == old(imageFiles) && formData == old(formData)
      ensures !(|old(imageFiles)| > 0 && upload.Failure?) ==>
        var finalImages := old(imageUrls) + (if |old(imageFiles)| > 0 then upload.value else []);
        var creating := old(modalMode) == Create;
        var editing := old(modalMode) == Edit && old(currentProperty).Some?;
        && (creating || editing ==> sent == Some(ToPropertyData(old(formData), finalImages)))
        && (!creating && !editing ==> sent == None)
        && (editing ==> deletedKeys == StorageKeys(RemovedImages(old(currentProperty).value.images.GetOr([]), finalImages)))
        && (!editing ==> deletedKeys == [])
        && (sent.Some? && saved.Failure? ==>
              && error == Some(Report(SavePrefix, saved.error))
              && properties == old(properties) && isModalOpen == old(isModalOpen)
              && currentProperty == old(currentProperty) && imageUrls == old(imageUrls)
              && imageFiles == old(imageFiles))
        && (sent.None? || saved.Success? ==>
              && (creating ==> properties == [saved.value] + old(properties))
              && (editing ==> properties == ReplaceById(old(properties), old(currentProperty).value.id, saved.value))
              && (!creating && !editing ==> properties == old(properties))
              && !isModalOpen && currentProperty == None && imageFiles == [] && imageUrls == []
              && error == None)
      // with the form consistent, the images shown in the open form are sent first, in order
      ensures old(Valid()) && old(isModalOpen) && sent.Some? ==> old(formData).images <= sent.value.images
      ensures modalMode == old(modalMode) && searchTerm == old(searchTerm) && formData == old(formData)
      ensures old(Valid()) ==> Valid()
    {
      sent := None;
      deletedKeys := [];
      var finalImages := imageUrls;
      if |imageFiles| > 0 {
        if upload.Failure? {
          error := Some(Report(SavePrefix, upload.error));
          return;
        }
        finalImages := finalImages + upload.value;
      } else {
        assert finalImages + [] == finalImages;
      }
      var data := ToPropertyData(formData, finalImages);
      if modalMode == Create {
        sent := Some(data);
        if saved.Failure? {
          error := Some(Report(SavePrefix, saved.error));
          return;
        }
        properties := [saved.value] + properties;
      } else if modalMode == Edit && currentProperty.Some? {
        var current := currentProperty.value;
        var removed := RemovedImages(current.images.GetOr([]), finalImages);
        deletedKeys := DeleteImages(removed);
        sent := Some(data);
        if saved.Failure? {
          error := Some(Report(SavePrefix, saved.error));
          return;
        }
        properties := ReplaceById(properties, current.id, saved.value);
      }
      CloseModal();
      error := None;
    }

    /**
     * `handleDelete(id)`. `confirmed` is the user's answer to the confirmation dialog and
     * `outcome` the failure of the row delete, if any. The images of the first row with the id are
     * removed from storage before the row delete, whatever it answers.
     */
    method HandleDelete(id: int, confirmed: bool, outcome: Option<Fault>) returns (deletedKeys: seq<string>)
      modifies this
      ensures !confirmed ==> deletedKeys == [] && properties == old(properties) && error == old(error)
      ensures confirmed ==>
        var found := FindById(old(properties), id);
        && (found.Some? ==> deletedKeys == StorageKeys(found.value.images.GetOr([])))
        && (found.None? ==> deletedKeys == [])
        && (outcome.None? ==> properties == RemoveById(old(properties), id) && error == None)
        && (outcome.Some? ==> properties == old(properties) && error == Some(Report(DeletePrefix, outcome.value)))
      ensures currentProperty == old(currentProperty) && isModalOpen == old(isModalOpen)
      ensures modalMode == old(modalMode) && searchTerm == old(searchTerm) && formData == old(formData)
      ensures imageFiles == old(imageFiles) && imageUrls == old(imageUrls)
      ensures old(Valid()) ==> Valid()
    {
      deletedKeys := [];
      if !confirmed {
        return;
      }
      var found := FindById(properties, id);
      if found.Some? && found.value.images.Some? && |found.value.images.value| > 0 {
        deletedKeys := DeleteImages(found.value.images.value);
      }
      if outcome.Some? {
        error := Some(Report(DeletePrefix, outcome.value));
        return;
      }
      properties := RemoveById(properties, id);
      error := None;
    }
  }
}
