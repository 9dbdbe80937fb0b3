// The client component: the report collection `laporan`, the entry form and
// the filter criteria, with one method per event handler. Each handler's
// list update is a function on `seq<Report>` (the updater handed to
// `setLaporan`); the browser, the clock and the server are parameters.

module ClientApp {
  import opened Reports
  import opened FilterEngine

  /** The entry form's state. */
  datatype Form = Form(tanggal: string, lokasi: string, kategori: string, deskripsi: string, risiko: string, fotoBase64: Option<string>)

  /** The form as the component starts it and as submit and "Reset Form"
      leave it; `today` is the current date, `YYYY-MM-DD`. */
  function DefaultForm(today: string): (f: Form)
    ensures f.tanggal == today && f.fotoBase64.None?
    ensures f.lokasi == "" && f.deskripsi == ""
    ensures f.kategori == KategoriOptions[0] && f.risiko == RisikoOptions[0]
  {
    Form(today, "", "Operasional", "", "Rendah", None)
  }

  /** The risk levels the form's dropdown offers. */
  const RisikoOptions: seq<string> := ["Rendah", "Sedang", "Tinggi"]

  /** The text fields the form's `handleChange` can set by input name. */
  datatype FormField = Tanggal | Lokasi | Kategori | Deskripsi | Risiko

  /** The filter inputs, each with its own `onChange`. */
  datatype FilterField = Q | FilterLokasi | Dari | Sampai | FilterKategori

  /** What the server answered the POST of a new report: a 2xx response with
      the stored record, or anything else (error status, network failure). */
  datatype RemoteResult = Ok(saved: Report) | Fail

  /** The chosen import file, already read and parsed. */
  datatype ImportFile = NoFile | ParseError(message: string) | NotAnArray | ReportArray(data: seq<Report>)

  const ValidationMessage := "Isi lokasi dan deskripsi terlebih dahulu."
  const ImportOk := "Impor berhasil"
  const ImportFailPrefix := "Gagal impor: "
  const FormatMessage := "Format tidak valid"

  /** The record a submission builds locally (`newL`). */
  function NewReport(form: Form, id: string, createdAt: string): (r: Report)
    ensures Form(r.tanggal, r.lokasi, r.kategori, r.deskripsi, r.risiko, r.fotoBase64) == form
    ensures r.id == id && r.createdAt == createdAt && !r.tindakLanjut
  {
    Report(id, form.tanggal, form.lokasi, form.kategori, form.deskripsi, form.risiko, form.fotoBase64, false, createdAt)
  }

  /** The record a submission prepends, or None when the form is rejected. */
  function Submission(form: Form, id: string, createdAt: string, remote: RemoteResult): (r: Option<Report>)
    ensures r.None? <==> form.lokasi == "" || form.deskripsi == ""
    ensures r.Some? && remote.Ok? ==> r.value == remote.saved
    ensures r.Some? && remote.Fail? ==>
      && r.value.id == id && r.value.createdAt == createdAt && !r.value.tindakLanjut
      && r.value.tanggal == form.tanggal && r.value.lokasi == form.lokasi
      && r.value.kategori == form.kategori && r.value.deskripsi == form.deskripsi
      && r.value.risiko == form.risiko && r.value.fotoBase64 == form.fotoBase64
  {
    if form.lokasi == "" || form.deskripsi == "" then None
    else
      match remote
      case Ok(saved) => Some(saved)
      case Fail => Some(NewReport(form, id, createdAt))
  }

  /** `s.map((x) => x.id === id ? { ...x, tindakLanjut: !x.tindakLanjut } : x)`:
      every record carrying `id` has its flag flipped, nothing else moves. */
  function ToggleAll(s: seq<Report>, id: string): (r: seq<Report>)
    ensures |r| == |s|
    ensures forall i :: 0 <= i < |s| ==> r[i] == if s[i].id == id then Flip(s[i]) else s[i]
  {
    if s == [] then []
    else [if s[0].id == id then Flip(s[0]) else s[0]] + ToggleAll(s[1..], id)
  }

  /** Toggling the same id twice restores the collection. */
  lemma ToggleAllInvolution(s: seq<Report>, id: string)
    ensures ToggleAll(ToggleAll(s, id), id) == s
  {
    var t := ToggleAll(s, id);
    assert forall i :: 0 <= i < |s| ==> t[i].id == s[i].id;
  }

  /** Toggling changes only the follow-up flag, so the visible list under
      criteria keeps the same positions of the same reports. */
  lemma ToggleAllKeepsMatches(s: seq<Report>, id: string, f: Criteria)
    ensures forall i :: 0 <= i < |s| ==> (Matches(f, ToggleAll(s, id)[i]) <==> Matches(f, s[i]))
  {
  }

  class NearMissApp {
    var laporan: seq<Report>
    var form: Form
    var filter: Criteria

    /** The component's initial state. `stored` is the collection parsed from
        local storage; None stands for a missing, empty or unparsable entry. */
    constructor (stored: Option<seq<Report>>, today: string)
      ensures laporan == (if stored.Some? then stored.value else [])
      ensures form == DefaultForm(today)
      ensures filter == DefaultCriteria
    {
      laporan := if stored.Some? then stored.value else [];
      form := DefaultForm(today);
      filter := DefaultCriteria;
    }

    /** `handleChange`: one text input of the form was edited. */
    method HandleChange(name: FormField, value: string)
      modifies this
      ensures form == match name
        case Tanggal => old(form).(tanggal := value)
        case Lokasi => old(form).(lokasi := value)
        case Kategori => old(form).(kategori := value)
        case Deskripsi => old(form).(deskripsi := value)
        case Risiko => old(form).(risiko := value)
      ensures laporan == old(laporan) && filter == old(filter)
    {
      match name
      case Tanggal => form := form.(tanggal := value);
      case Lokasi => form := form.(lokasi := value);
      case Kategori => form := form.(kategori := value);
      case Deskripsi => form := form.(deskripsi := value);
      case Risiko => form := form.(risiko := value);
    }

    /** `handleFotoChange`: `photo` is the chosen image as a data URL, None
        when no file was chosen. */
    method HandleFotoChange(photo: Option<string>)
      modifies this
      ensures form == if photo.Some? then old(form).(fotoBase64 := photo) else old(form)
      ensures laporan == old(laporan) && filter == old(filter)
    {
      if photo.None? {
        return;
      }
      form := form.(fotoBase64 := photo);
    }

    /** The "Reset Form" button. */
    method ResetForm(today: string)
      modifies this
      ensures form == DefaultForm(today)
      ensures laporan == old(laporan) && filter == old(filter)
    {
      form := DefaultForm(today);
    }

    /** One of the filter inputs was changed. */
    method ChangeFilter(name: FilterField, value: string)
      modifies this
      ensures filter == match name
        case Q => old(filter).(q := value)
        case FilterLokasi => old(filter).(lokasi := value)
        case Dari => old(filter).(dari := value)
        case Sampai => old(filter).(sampai := value)
        case FilterKategori => old(filter).(kategori := value)
      ensures laporan == old(laporan) && form == old(form)
    {
      match name
      case Q => filter := filter.(q := value);
      case FilterLokasi => filter := filter.(lokasi := value);
      case Dari => filter := filter.(dari := value);
      case Sampai => filter := filter.(sampai := value);
      case FilterKategori => filter := filter.(kategori := value);
    }

    /** `tambahLaporan`: validate the form, build the record with the clock
        readings `id` and `createdAt`, POST it (the server's answer is
        `remote`), prepend the server's record or, failing that, the local
        one, and reset the form to `today`. On a rejected form the alert text
        is returned and nothing changes. */
    method TambahLaporan(id: string, createdAt: string, today: string, remote: RemoteResult) returns (alert: Option<string>)
      modifies this
      ensures alert == (if Submission(old(form), id, createdAt, remote).None? then Some(ValidationMessage) else None)
      ensures laporan == match Submission(old(form), id, createdAt, remote)
        case None => old(laporan)
        case Some(x) => [x] + old(laporan)
      ensures form == if alert.Some? then old(form) else DefaultForm(today)
      ensures filter == old(filter)
    {
      if form.lokasi == "" || form.deskripsi == "" {
        return Some(ValidationMessage);
      }
      var newL := NewReport(form, id, createdAt);
      match remote {
        case Ok(saved) => laporan := [saved] + laporan;
        case Fail => laporan := [newL] + laporan;
      }
      form := DefaultForm(today);
      alert := None;
    }

    /** `hapusLaporan`: after confirmation, drop every record with `id`.
        The DELETE sent to the server does not affect the collection. */
    method HapusLaporan(id: string, confirmed: bool)
      modifies this
      ensures laporan == if confirmed then RemoveId(old(laporan), id) else old(laporan)
      ensures form == old(form) && filter == old(filter)
    {
      if !confirmed {
        return;
      }
      laporan := RemoveId(laporan, id);
    }

    /** `toggleTindakLanjut`: optimistic local toggle of every record with
        `id`; the PUT sent to the server does not affect the collection. */
    method ToggleTindakLanjut(id: string)
      modifies this
      ensures laporan == ToggleAll(old(laporan), id)
      ensures form == old(form) && filter == old(filter)
    {
      laporan := ToggleAll(laporan, id);
    }

    /** `imporJSON`: an array is prepended as it is, with no dedup and no
        per-record check; anything else leaves the collection alone. The
        alert shown is returned. */
    method ImporJSON(file: ImportFile) returns (alert: Option<string>)
      modifies this
      ensures laporan == if file.ReportArray? then file.data + old(laporan) else old(laporan)
      ensures alert == match file
        case NoFile => None
        case ParseError(message) => Some(ImportFailPrefix + message)
        case NotAnArray => Some(ImportFailPrefix + FormatMessage)
        case ReportArray(_) => Some(ImportOk)
      ensures form == old(form) && filter == old(filter)
    {
      match file {
        case NoFile =>
          return None;
        case ParseError(message) =>
          return Some(ImportFailPrefix + message);
        case NotAnArray =>
          return Some(ImportFailPrefix + FormatMessage);
        case ReportArray(data) =>
          laporan := data + laporan;
          return Some(ImportOk);
      }
    }

    /** `eksporJSON`: the exported document is the whole collection. */
    method EksporJSON() returns (doc: seq<Report>)
      ensures doc == laporan
    {
      doc := laporan;
    }

    /** `resetData`: after confirmation the collection is empty, whatever
        the server's reset call does. */
    method ResetData(confirmed: bool)
      modifies this
      ensures laporan == if confirmed then [] else old(laporan)
      ensures form == old(form) && filter == old(filter)
    {
      if !confirmed {
        return;
      }
      laporan := [];
    }

    /** `tampil`: the list the component renders. */
    function Tampil(): (r: seq<Report>)
      reads this
      ensures forall x :: x in r <==> x in laporan && Matches(filter, x)
      ensures forall x :: Count(r, x) == if Matches(filter, x) then Count(laporan, x) else 0
      ensures IsSubsequence(r, laporan)
    {
      ApplyFilter(laporan, filter)
    }
  }

  /** Exporting a collection and importing the file into an empty one
      reproduces it exactly. */
  method ExportThenImport(c: seq<Report>, today: string) returns (restored: seq<Report>)
    ensures restored == c
  {
    var source := new NearMissApp(Some(c), today);
    var doc := source.EksporJSON();
    var target := new NearMissApp(None, today);
    var _ := target.ImporJSON(ReportArray(doc));
    assert doc + [] == doc;
    restored := target.laporan;
  }
}
