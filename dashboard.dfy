/**
 * The admin dashboard: the list of travel packages and the modal form that
 * creates a package or edits the one chosen.
 */
module Dashboard {
  import opened Wrappers
  import opened JsString
  import opened JsNumber
  import opened Fetch

  /** A package as the server lists it. */
  datatype Package = Package(id: string, name: string, date: string, description: string, price: int, photoPath: string)

  /** A file chosen in the photo input. */
  datatype Photo = Photo(fileName: string)

  /** The modal's form: four text fields and the chosen photo, if any. */
  datatype PackageForm = PackageForm(name: string, date: string, description: string, price: string, photo: Option<Photo>)

  /** The `name` attributes of the text inputs bound to `handleInputChange`. */
  datatype Field = Name | Date | Description | Price

  const EmptyForm := PackageForm("", "", "", "", None)

  const FetchFailedMessage := "Fout bij het ophalen van pakketten."
  const AddedAlert := "Pakket succesvol toegevoegd!"
  const UpdatedAlert := "Pakket succesvol bijgewerkt!"
  const DeletedAlert := "Pakket succesvol verwijderd!"
  const FailedAlert := "Er is iets misgegaan. Probeer het opnieuw."

  function Get(f: PackageForm, field: Field): string {
    match field
    case Name => f.name
    case Date => f.date
    case Description => f.description
    case Price => f.price
  }

  /** `{ ...prevData, [name]: value }`: the named field takes the value; the others and the photo keep theirs. */
  function With(f: PackageForm, field: Field, value: string): (r: PackageForm)
    ensures Get(r, field) == value
    ensures forall g :: g != field ==> Get(r, g) == Get(f, g)
    ensures r.photo == f.photo
  {
    match field
    case Name => f.(name := value)
    case Date => f.(date := value)
    case Description => f.(description := value)
    case Price => f.(price := value)
  }

  /** The form `handleEdit` fills in from a listed package: its price as text, no photo. */
  function EditForm(p: Package): PackageForm {
    PackageForm(p.name, p.date, p.description, NumberToString(p.price), None)
  }

  /** The price text the edit form shows reads back as the package's price. */
  lemma EditedPriceReadsBack(p: Package)
    ensures ParseInt(EditForm(p).price) == Some(p.price)
  {
    ParseIntRoundTrip(p.price);
  }

  // ----- Saving ------------------------------------------------------------

  datatype Method = Post | Put

  /** One part of the multipart body. */
  datatype Part = TextPart(key: string, value: string) | FilePart(key: string, file: Photo)

  datatype SaveRequest = SaveRequest(verb: Method, path: string, parts: seq<Part>)

  function SaveParts(f: PackageForm): seq<Part> {
    [TextPart("name", f.name), TextPart("date", f.date), TextPart("description", f.description), TextPart("price", f.price)] +
    (if f.photo.Some? then [FilePart("photo", f.photo.value)] else [])
  }

  /** The request `handleSubmit` sends: an update of the package being edited, or a new package. */
  function BuildSaveRequest(editId: Option<string>, f: PackageForm): SaveRequest {
    if Truthy(editId) then SaveRequest(Put, "/api/packages/" + editId.value, SaveParts(f))
    else SaveRequest(Post, "/api/packages", SaveParts(f))
  }

  predicate SendsPhoto(parts: seq<Part>) {
    exists k :: 0 <= k < |parts| && parts[k].FilePart?
  }

  /** The update goes to the package's own path exactly when an id (a non-empty one) is being edited; otherwise a new package is posted. */
  lemma PutIffEditing(editId: Option<string>, f: PackageForm)
    ensures BuildSaveRequest(editId, f).verb == Put <==> Truthy(editId)
    ensures Truthy(editId) ==> BuildSaveRequest(editId, f).path == "/api/packages/" + editId.value
    ensures !Truthy(editId) ==> BuildSaveRequest(editId, f).path == "/api/packages"
  {
  }

  /** The four text fields are always sent, in order; the photo part is sent exactly when a photo is chosen, and then it is that photo. */
  lemma PhotoPartIffChosen(editId: Option<string>, f: PackageForm)
    ensures var parts := BuildSaveRequest(editId, f).parts;
      |parts| >= 4 &&
      parts[..4] == [TextPart("name", f.name), TextPart("date", f.date), TextPart("description", f.description), TextPart("price", f.price)] &&
      (SendsPhoto(parts) <==> f.photo.Some?) &&
      (f.photo.Some? ==> parts[4] == FilePart("photo", f.photo.value))
  {
    var parts := BuildSaveRequest(editId, f).parts;
    if f.photo.Some? {
      assert parts[4].FilePart?;
    }
  }

  /** Edit, cancel, then "new package" and save: the edited package's fields are posted as a new package. */
  lemma CancelledEditSavesAsNew(p: Package)
    ensures BuildSaveRequest(None, EditForm(p)) ==
            SaveRequest(Post, "/api/packages",
                        [TextPart("name", p.name), TextPart("date", p.date), TextPart("description", p.description),
                         TextPart("price", NumberToString(p.price))])
  {
  }

  // ----- Deleting ----------------------------------------------------------

  /** `packages.filter((pkg) => pkg._id !== id)` */
  function RemoveById(ps: seq<Package>, id: string): seq<Package> {
    if ps == [] then [] else (if ps[0].id == id then [] else [ps[0]]) + RemoveById(ps[1..], id)
  }

  /** The packages left are exactly those with another id. */
  lemma {:induction false} RemoveByIdMembers(ps: seq<Package>, id: string)
    ensures forall p :: p in RemoveById(ps, id) <==> p in ps && p.id != id
  {
    if ps != [] {
      RemoveByIdMembers(ps[1..], id);
      assert ps == [ps[0]] + ps[1..];
    }
  }

  /** Filtering a list split in two filters each part and keeps them in the same order. */
  lemma {:induction false} RemoveByIdAppend(ps: seq<Package>, qs: seq<Package>, id: string)
    ensures RemoveById(ps + qs, id) == RemoveById(ps, id) + RemoveById(qs, id)
  {
    if ps == [] {
      assert ps + qs == qs;
    } else {
      assert (ps + qs)[1..] == ps[1..] + qs;
      RemoveByIdAppend(ps[1..], qs, id);
    }
  }

  /** A list with no entry of that id is left as it is. */
  lemma {:induction false} RemoveByIdAbsent(ps: seq<Package>, id: string)
    requires forall k :: 0 <= k < |ps| ==> ps[k].id != id
    ensures RemoveById(ps, id) == ps
  {
    if ps != [] {
      RemoveByIdAbsent(ps[1..], id);
      assert ps == [ps[0]] + ps[1..];
    }
  }

  function CountId(ps: seq<Package>, id: string): nat {
    if ps == [] then 0 else (if ps[0].id == id then 1 else 0) + CountId(ps[1..], id)
  }

  /** One entry is dropped for each package carrying the id. */
  lemma {:induction false} RemoveByIdLength(ps: seq<Package>, id: string)
    ensures |RemoveById(ps, id)| == |ps| - CountId(ps, id)
  {
    if ps != [] {
      RemoveByIdLength(ps[1..], id);
    }
  }

  /** Title of the modal. */
  function ModalTitle(editId: Option<string>): string {
    if Truthy(editId) then "Pakket Bewerken" else "Nieuw Pakket"
  }

  /** The modal says "edit" exactly when saving it sends an update. */
  lemma TitleMatchesVerb(editId: Option<string>, f: PackageForm)
    ensures ModalTitle(editId) == "Pakket Bewerken" <==> BuildSaveRequest(editId, f).verb == Put
  {
    assert "Nieuw Pakket"[0] != "Pakket Bewerken"[0];
  }

  class DashboardPage {
    var showModal: bool
    var packageData: PackageForm
    var packages: seq<Package>
    var editPackageId: Option<string>
    var loading: bool
    var error: Option<string>

    constructor ()
      ensures !showModal && packageData == EmptyForm && packages == [] && editPackageId == None
      ensures !loading && error == None
    {
      showModal := false;
      packageData := EmptyForm;
      packages := [];
      editPackageId := None;
      loading := false;
      error := None;
    }

    /** The fetch on mount: the list on success, the fixed message on any failure. */
    method CompleteInitialFetch(outcome: Outcome<seq<Package>>)
      modifies this
      ensures outcome.Ok? ==> packages == outcome.body && error == old(error)
      ensures !outcome.Ok? ==> packages == old(packages) && error == Some(FetchFailedMessage)
      ensures showModal == old(showModal) && packageData == old(packageData)
      ensures editPackageId == old(editPackageId) && loading == old(loading)
    {
      if outcome.Ok? {
        packages := outcome.body;
      } else {
        error := Some(FetchFailedMessage);
      }
    }

    /** `handleInputChange` */
    method InputChange(field: Field, value: string)
      modifies this
      ensures packageData == With(old(packageData), field, value)
      ensures showModal == old(showModal) && packages == old(packages) && editPackageId == old(editPackageId)
      ensures loading == old(loading) && error == old(error)
    {
      packageData := With(packageData, field, value);
    }

    /** `handleFileChange`: a chosen file replaces the photo; closing the picker without one changes nothing. */
    method FileChange(file: Option<Photo>)
      modifies this
      ensures file.Some? ==> packageData == old(packageData).(photo := file)
      ensures file.None? ==> packageData == old(packageData)
      ensures showModal == old(showModal) && packages == old(packages) && editPackageId == old(editPackageId)
      ensures loading == old(loading) && error == old(error)
    {
      if file.Some? {
        packageData := packageData.(photo := file);
      }
    }

    /** "Nieuw Pakket Toevoegen": opens the modal and touches nothing else. */
    method OpenNew()
      modifies this
      ensures showModal
      ensures packageData == old(packageData) && packages == old(packages) && editPackageId == old(editPackageId)
      ensures loading == old(loading) && error == old(error)
    {
      showModal := true;
    }

    /** `handleEdit` */
    method Edit(pkg: Package)
      modifies this
      ensures editPackageId == Some(pkg.id) && packageData == EditForm(pkg) && showModal
      ensures packages == old(packages) && loading == old(loading) && error == old(error)
    {
      editPackageId := Some(pkg.id);
      packageData := EditForm(pkg);
      showModal := true;
    }

    /** "Annuleren": closes the modal and forgets the edit target but keeps what is in the form. */
    method Cancel()
      modifies this
      ensures !showModal && editPackageId == None
      ensures packageData == old(packageData) && packages == old(packages)
      ensures loading == old(loading) && error == old(error)
    {
      showModal := false;
      editPackageId := None;
    }

    /** `handleSubmit` up to the request. */
    method BeginSave() returns (request: SaveRequest)
      modifies this
      ensures loading && request == BuildSaveRequest(editPackageId, packageData)
      ensures showModal == old(showModal) && packageData == old(packageData) && packages == old(packages)
      ensures editPackageId == old(editPackageId) && error == old(error)
    {
      loading := true;
      request := BuildSaveRequest(editPackageId, packageData);
    }

    /**
     * `handleSubmit` after the request. A saved package closes the modal,
     * empties the form and forgets the edit target, then the list is fetched
     * again and replaces the old one; if that refetch fails the old list stays
     * and a second alert follows. A failed save leaves modal, form, edit
     * target and list alone. Loading ends either way. The alerts shown are
     * returned, in order.
     */
    method CompleteSave(request: SaveRequest, save: Outcome<()>, refetch: Outcome<seq<Package>>)
      returns (alerts: seq<string>)
      requires loading
      modifies this
      ensures !loading && error == old(error)
      ensures save.Ok? ==>
                !showModal && packageData == EmptyForm && editPackageId == None &&
                packages == (if refetch.Ok? then refetch.body else old(packages)) &&
                alerts == [if request.verb == Put then UpdatedAlert else AddedAlert] +
                          (if refetch.Ok? then [] else [FailedAlert])
      ensures !save.Ok? ==>
                showModal == old(showModal) && packageData == old(packageData) &&
                editPackageId == old(editPackageId) && packages == old(packages) && alerts == [FailedAlert]
    {
      if save.Ok? {
        alerts := [if request.verb == Put then UpdatedAlert else AddedAlert];
        showModal := false;
        packageData := EmptyForm;
        editPackageId := None;
        if refetch.Ok? {
          packages := refetch.body;
        } else {
          alerts := alerts + [FailedAlert];
        }
      } else {
        alerts := [FailedAlert];
      }
      loading := false;
    }

    /**
     * `handleDelete`: nothing happens unless the user confirms; a confirmed
     * delete that succeeds drops the packages with that id, one that fails
     * keeps the list. Returns whether a request was sent and the alerts shown.
     */
    method Delete(id: string, confirmed: bool, outcome: Outcome<()>) returns (sent: bool, alerts: seq<string>)
      modifies this
      ensures sent == confirmed
      ensures !confirmed ==> packages == old(packages) && alerts == []
      ensures confirmed && outcome.Ok? ==> packages == RemoveById(old(packages), id) && alerts == [DeletedAlert]
      ensures confirmed && !outcome.Ok? ==> packages == old(packages) && alerts == [FailedAlert]
      ensures showModal == old(showModal) && packageData == old(packageData) && editPackageId == old(editPackageId)
      ensures loading == old(loading) && error == old(error)
    {
      if !confirmed {
        return false, [];
      }
      if outcome.Ok? {
        packages := RemoveById(packages, id);
        alerts := [DeletedAlert];
      } else {
        alerts := [FailedAlert];
      }
      sent := true;
    }
  }
}
