/** The "add a moment" composer (frontend/src/modals/AddMomentModal.js):
    pick a photo or a video, fill in the details, save. Its state is `step`
    ("initial" or "addDetails"), `momentType`, the preview URL, the form
    data `momentData` and `isSaved`. Choosing a file in the browser dialog
    and `URL.createObjectURL` are outside the model: the chosen file (if
    any) and its preview URL are parameters. */
module AddMoment {
  import opened Base
  import opened Text

  datatype Step = Initial | AddDetails

  /** A picked file, known to the model only by its name. */
  datatype File = File(name: string)

  /** The `name` attributes of the form's inputs. */
  datatype Field = Title | People | Memory | Date | Location

  datatype MomentData = MomentData(
    file: Option<File>, title: string, people: string, memory: string, date: string, location: string)

  /** What the modal renders. */
  datatype View = SavedView | InitialView | DetailsView

  /** `{ file: null, title: '', people: '', memory: '', date: '', location: '' }`. */
  function EmptyData(): (d: MomentData)
    ensures d.file == None
    ensures forall f :: Get(d, f) == ""
  {
    MomentData(None, "", "", "", "", "")
  }

  /** The value an input named `f` shows. */
  function Get(d: MomentData, f: Field): string {
    match f
    case Title => d.title
    case People => d.people
    case Memory => d.memory
    case Date => d.date
    case Location => d.location
  }

  /** `{ ...prev, [name]: value }`: the named field takes the value, every
      other field and the file stay. */
  function WithField(d: MomentData, f: Field, value: string): (r: MomentData)
    ensures Get(r, f) == value
    ensures forall g :: g != f ==> Get(r, g) == Get(d, g)
    ensures r.file == d.file
  {
    match f
    case Title => d.(title := value)
    case People => d.(people := value)
    case Memory => d.(memory := value)
    case Date => d.(date := value)
    case Location => d.(location := value)
  }

  /** Writing a field back with the value it already shows changes nothing,
      and a later write to the same field overrides an earlier one. */
  lemma WithFieldLaws(d: MomentData, f: Field, v: string, w: string)
    ensures WithField(d, f, Get(d, f)) == d
    ensures WithField(WithField(d, f, v), f, w) == WithField(d, f, w)
  {
    match f
    case Title =>
    case People =>
    case Memory =>
    case Date =>
    case Location =>
  }

  /** The file input's `accept` filter for an upload button. */
  function AcceptFor(momentType: string): (a: string)
    ensures a == "image/*" <==> momentType == "Photo"
    ensures a == "image/*" || a == "video/*"
  {
    if momentType == "Photo" then "image/*" else "video/*"
  }

  class MomentComposer {
    var step: Step
    var momentType: Option<string>
    var filePreview: Option<string>
    var data: MomentData
    var isSaved: bool
    /** The hidden file input's `accept` attribute ("" until the first
        upload click). */
    var accept: string

    /** The details form is on screen exactly when a file and its preview
        are held; the initial view holds neither. */
    ghost predicate Valid()
      reads this
    {
      && (step == AddDetails <==> data.file.Some?)
      && (step == AddDetails <==> filePreview.Some?)
    }

    constructor ()
      ensures Valid()
      ensures step == Initial && momentType == None && filePreview == None
      ensures data == EmptyData() && !isSaved && accept == ""
    {
      step, momentType, filePreview, data, isSaved, accept := Initial, None, None, EmptyData(), false, "";
    }

    /** The branch the modal renders: saved first, whatever the step. */
    function CurrentView(): (v: View)
      reads this
      ensures v == SavedView <==> isSaved
      ensures v == InitialView <==> !isSaved && step == Initial
      ensures v == DetailsView <==> !isSaved && step == AddDetails
    {
      if isSaved then SavedView else if step.Initial? then InitialView else DetailsView
    }

    /** `handleFileSelect`: with a file, store it and its preview and go to
        the details form; with none (dialog cancelled), nothing changes. */
    method HandleFileSelect(file: Option<File>, previewUrl: string)
      requires Valid()
      modifies this
      ensures Valid()
      ensures file.None? ==> step == old(step) && filePreview == old(filePreview) && data == old(data)
      ensures file.Some? ==> step == AddDetails && filePreview == Some(previewUrl) && data == old(data).(file := file)
      ensures momentType == old(momentType) && isSaved == old(isSaved) && accept == old(accept)
    {
      if file.Some? {
        data := data.(file := file);
        filePreview := Some(previewUrl);
        step := AddDetails;
      }
    }

    /** `handleUploadClick`: remembers the type and sets the input's filter
        before opening the browser's file dialog. */
    method HandleUploadClick(kind: string)
      requires Valid()
      modifies this
      ensures Valid()
      ensures momentType == Some(kind) && accept == AcceptFor(kind)
      ensures step == old(step) && filePreview == old(filePreview) && data == old(data) && isSaved == old(isSaved)
    {
      momentType := Some(kind);
      accept := AcceptFor(kind);
    }

    /** `handleDataChange` for the input named `f`. */
    method HandleDataChange(f: Field, value: string)
      requires Valid()
      modifies this
      ensures Valid()
      ensures data == WithField(old(data), f, value)
      ensures step == old(step) && momentType == old(momentType) && filePreview == old(filePreview)
      ensures isSaved == old(isSaved) && accept == old(accept)
    {
      data := WithField(data, f, value);
    }

    /** `handleGoBack`: back to the initial view, dropping the file, the
        preview and the title; people, memory, date and location are kept. */
    method HandleGoBack()
      requires Valid()
      modifies this
      ensures Valid()
      ensures step == Initial && filePreview == None
      ensures data == old(data).(file := None, title := "")
      ensures momentType == old(momentType) && isSaved == old(isSaved) && accept == old(accept)
    {
      step := Initial;
      filePreview := None;
      data := data.(file := None, title := "");
    }

    /** `handleSaveMoment`: always shows the saved view; `saved` is the
        `onSaveMoment(title, momentType)` call, made only for a non-blank
        title (passed untrimmed). */
    method HandleSaveMoment() returns (saved: Option<(string, Option<string>)>)
      requires Valid()
      modifies this
      ensures Valid() && isSaved
      ensures saved == if IsBlank(old(data).title) then None else Some((old(data).title, old(momentType)))
      ensures step == old(step) && momentType == old(momentType) && filePreview == old(filePreview)
      ensures data == old(data) && accept == old(accept)
    {
      if !IsBlank(data.title) {
        saved := Some((data.title, momentType));
      } else {
        saved := None;
      }
      isSaved := true;
    }

    /** `handleNewMoment` ("Add Another"): the initial view with an empty
        form. `momentType` is not reset. */
    method HandleNewMoment()
      requires Valid()
      modifies this
      ensures Valid()
      ensures !isSaved && step == Initial && filePreview == None && data == EmptyData()
      ensures momentType == old(momentType) && accept == old(accept)
    {
      isSaved := false;
      step := Initial;
      filePreview := None;
      data := EmptyData();
    }
  }
}
