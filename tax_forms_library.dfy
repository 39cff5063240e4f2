/** The tax forms library: a store of tax forms searched by name and narrowed by
    jurisdiction, tax year and status, listed most recently modified first, with a
    modal to add or edit a form and a confirmed delete. */
module TaxFormsLibrary {
  import opened Seqs
  import opened Text
  import opened Calendar

  datatype FormStatus = Draft | Ready | Filed | Archived

  function StatusName(s: FormStatus): string
  {
    match s
    case Draft => "Draft"
    case Ready => "Ready"
    case Filed => "Filed"
    case Archived => "Archived"
  }

  /** A stored form. Its tax year went through the form's `min(1900)` validator, so
      it is a whole number. */
  datatype TaxForm = TaxForm(
    id: int,
    formName: string,
    jurisdiction: string,
    taxYear: nat,
    status: FormStatus,
    createdDate: DateTime,
    modifiedDate: DateTime)

  datatype ViewMode = ListView | CardView

  datatype ModalMode = AddMode | EditMode

  /** The three select filters `onFilterChange` writes to. */
  datatype FilterField = JurisdictionField | YearField | StatusField

  /** The modal's form value. `reset` leaves a control it is given no value for at
      null, shown here as `None`. */
  datatype FormValue = FormValue(
    formName: Option<string>,
    jurisdiction: Option<string>,
    taxYear: Option<int>,
    status: Option<FormStatus>)

  /** The form's validators: name, jurisdiction, year and status required, the year
      at least 1900. */
  predicate FormValid(v: FormValue)
  {
    && v.formName.Some? && v.formName.value != ""
    && v.jurisdiction.Some? && v.jurisdiction.value != ""
    && v.taxYear.Some? && v.taxYear.value >= 1900
    && v.status.Some?
  }

  /** `statuses`: the options of the status filter. */
  function Statuses(): (r: seq<string>)
    ensures |r| == 5 && r[0] == "All"
    ensures forall s: FormStatus :: StatusName(s) in r
  {
    ["All", "Draft", "Ready", "Filed", "Archived"]
  }

  /** One form against the filters, for an already lower-cased term; 'All' switches a
      select filter off. */
  predicate FormMatches(f: TaxForm, term: string, jurisdiction: string, year: string, status: string)
  {
    && Contains(ToLower(f.formName), term)
    && (jurisdiction == "All" || f.jurisdiction == jurisdiction)
    && (year == "All" || DecimalString(f.taxYear) == year)
    && (status == "All" || StatusName(f.status) == status)
  }

  /** The sort key of `(a, b) => b.modifiedDate.getTime() - a.modifiedDate.getTime()`. */
  function NewestFirst(f: TaxForm): int
  {
    -Stamp(f.modifiedDate)
  }

  /** The filter callback of `filteredForms`. */
  function Keep(term: string, jurisdiction: string, year: string, status: string): TaxForm -> bool
  {
    (f: TaxForm) => FormMatches(f, term, jurisdiction, year, status)
  }

  /** `filteredForms`: exactly the matching forms, each as often as stored, most
      recently modified first. */
  function FilteredForms(forms: seq<TaxForm>, searchTerm: string, jurisdiction: string, year: string,
                         status: string): (r: seq<TaxForm>)
    ensures forall f :: multiset(r)[f] ==
                          (if FormMatches(f, ToLower(searchTerm), jurisdiction, year, status)
                           then multiset(forms)[f] else 0)
    ensures forall i, j :: 0 <= i < j < |r| ==> Stamp(r[i].modifiedDate) >= Stamp(r[j].modifiedDate)
  {
    SortByKey(Filter(forms, Keep(ToLower(searchTerm), jurisdiction, year, status)), NewestFirst)
  }

  /** The forms last modified at the moment `t`. */
  function ModifiedAt(t: int): TaxForm -> bool
  {
    (f: TaxForm) => Stamp(f.modifiedDate) == t
  }

  /** Sorting newest first groups the forms by the moment of their last change. */
  lemma NewestFirstGroups(t: int)
    ensures forall f :: KeyIs(NewestFirst, -t)(f) == ModifiedAt(t)(f)
  {
    forall f ensures KeyIs(NewestFirst, -t)(f) == ModifiedAt(t)(f) {
      assert KeyIs(NewestFirst, -t)(f) == (NewestFirst(f) == -t);
      assert ModifiedAt(t)(f) == (Stamp(f.modifiedDate) == t);
    }
  }

  /** The sort is stable: matching forms modified at the same moment are listed in
      store order. */
  lemma FilteredFormsStable(forms: seq<TaxForm>, searchTerm: string, jurisdiction: string, year: string,
                            status: string, t: int)
    ensures Filter(FilteredForms(forms, searchTerm, jurisdiction, year, status), ModifiedAt(t))
         == Filter(Filter(forms, Keep(ToLower(searchTerm), jurisdiction, year, status)), ModifiedAt(t))
  {
    NewestFirstGroups(t);
    SortByKeyStableFor(Filter(forms, Keep(ToLower(searchTerm), jurisdiction, year, status)), NewestFirst, -t,
                       ModifiedAt(t));
  }

  /** The jurisdictions of the stored forms, in store order. */
  function JurisdictionsOf(forms: seq<TaxForm>): (r: seq<string>)
    ensures forall x :: x in r <==> exists f :: f in forms && f.jurisdiction == x
  {
    var r := seq(|forms|, i requires 0 <= i < |forms| => forms[i].jurisdiction);
    assert forall f :: f in forms ==> f.jurisdiction in r by {
      forall f | f in forms ensures f.jurisdiction in r {
        var i :| 0 <= i < |forms| && forms[i] == f;
        assert r[i] == f.jurisdiction;
      }
    }
    r
  }

  /** `jurisdictions`: 'All' and each stored jurisdiction once, sorted by the default
      string order. A form whose jurisdiction is itself 'All' makes 'All' appear twice. */
  function JurisdictionOptions(forms: seq<TaxForm>): (r: seq<string>)
    ensures forall x :: multiset(r)[x] ==
                          (if x == "All" then 1 else 0)
                          + (if (exists f :: f in forms && f.jurisdiction == x) then 1 else 0)
  {
    SortWith(["All"] + Distinct(JurisdictionsOf(forms)), StrLe)
  }

  /** The jurisdiction options are in ascending string order. */
  lemma JurisdictionOptionsSorted(forms: seq<TaxForm>)
    ensures SortedWith(JurisdictionOptions(forms), StrLe)
  {
    StrLeTotalPreorder();
    SortWithSorted(["All"] + Distinct(JurisdictionsOf(forms)), StrLe);
  }

  /** The options list no entry twice exactly when no form's jurisdiction is 'All'. */
  lemma JurisdictionOptionsDistinct(forms: seq<TaxForm>)
    ensures (forall i, j :: 0 <= i < j < |JurisdictionOptions(forms)| ==>
               JurisdictionOptions(forms)[i] != JurisdictionOptions(forms)[j])
        <==> (forall f :: f in forms ==> f.jurisdiction != "All")
  {
    var r := JurisdictionOptions(forms);
    if exists f :: f in forms && f.jurisdiction == "All" {
      CountTwiceRepeated(r, "All");
    } else {
      forall i, j | 0 <= i < j < |r| ensures r[i] != r[j] {
        if r[i] == r[j] {
          RepeatedElementCount(r, i, j);
        }
      }
    }
  }

  /** `taxYear.toString()` is never the word 'All'. */
  lemma YearStringIsNotAll(n: nat)
    ensures DecimalString(n) != "All"
  {
    assert !IsDigit("All"[0]);
  }

  /** The tax years of the stored forms as strings, in store order. */
  function YearsOf(forms: seq<TaxForm>): (r: seq<string>)
    ensures forall x :: x in r <==> exists f :: f in forms && DecimalString(f.taxYear) == x
  {
    var r := seq(|forms|, i requires 0 <= i < |forms| => DecimalString(forms[i].taxYear));
    assert forall f :: f in forms ==> DecimalString(f.taxYear) in r by {
      forall f | f in forms ensures DecimalString(f.taxYear) in r {
        var i :| 0 <= i < |forms| && forms[i] == f;
        assert r[i] == DecimalString(f.taxYear);
      }
    }
    r
  }

  /** The comparator of the year options: 'All' goes first, the other entries in
      descending order. */
  predicate YearBefore(a: string, b: string)
  {
    a == "All" || (b != "All" && StrLe(b, a))
  }

  lemma YearBeforeTotalPreorder()
    ensures TotalPreorder(YearBefore)
  {
    StrLeTotalPreorder();
  }

  /** `years`: 'All' and each stored tax year once. */
  function YearOptions(forms: seq<TaxForm>): (r: seq<string>)
    ensures forall x :: multiset(r)[x] ==
                          (if x == "All" || (exists f :: f in forms && DecimalString(f.taxYear) == x) then 1 else 0)
  {
    forall n: nat ensures DecimalString(n) != "All" {
      YearStringIsNotAll(n);
    }
    SortWith(["All"] + Distinct(YearsOf(forms)), YearBefore)
  }

  /** The year options open with 'All' and list the tax years in strictly
      descending order. */
  lemma YearOptionsShape(forms: seq<TaxForm>)
    ensures |YearOptions(forms)| >= 1 && YearOptions(forms)[0] == "All"
    ensures forall i, j :: 1 <= i < j < |YearOptions(forms)| ==>
              StrLe(YearOptions(forms)[j], YearOptions(forms)[i]) && YearOptions(forms)[i] != YearOptions(forms)[j]
  {
    var r := YearOptions(forms);
    YearBeforeTotalPreorder();
    SortWithSorted(["All"] + Distinct(YearsOf(forms)), YearBefore);
    assert "All" in multiset(r);
    var k :| 0 <= k < |r| && r[k] == "All";
    assert YearBefore(r[0], r[k]);
    forall i, j | 1 <= i < j < |r| ensures StrLe(r[j], r[i]) && r[i] != r[j] {
      if r[i] == "All" {
        RepeatedElementCount(r, 0, i);
      }
      assert YearBefore(r[i], r[j]);
      if r[i] == r[j] {
        RepeatedElementCount(r, i, j);
      }
    }
  }

  /** The form a valid modal adds: `Date.now()` as its id, created and modified now. */
  function NewForm(v: FormValue, id: int, now: DateTime): (r: TaxForm)
    requires FormValid(v)
    ensures r.id == id && r.createdDate == now && r.modifiedDate == now
    ensures FormValue(Some(r.formName), Some(r.jurisdiction), Some(r.taxYear), Some(r.status)) == v
  {
    TaxForm(id, v.formName.value, v.jurisdiction.value, v.taxYear.value, v.status.value, now, now)
  }

  /** Add mode: the new form appended to the store. */
  function AddForm(forms: seq<TaxForm>, v: FormValue, id: int, now: DateTime): (r: seq<TaxForm>)
    requires FormValid(v)
    ensures r == forms + [NewForm(v, id, now)]
  {
    forms + [NewForm(v, id, now)]
  }

  /** `{...form, ...value, modifiedDate: now}`. */
  function ApplyValue(f: TaxForm, v: FormValue, now: DateTime): (r: TaxForm)
    requires FormValid(v)
    ensures r.id == f.id && r.createdDate == f.createdDate && r.modifiedDate == now
    ensures FormValue(Some(r.formName), Some(r.jurisdiction), Some(r.taxYear), Some(r.status)) == v
  {
    f.(formName := v.formName.value, jurisdiction := v.jurisdiction.value, taxYear := v.taxYear.value,
       status := v.status.value, modifiedDate := now)
  }

  /** Edit mode: the form with the edited id takes the modal's values and a new
      modified date; with no id being edited (`null`) nothing matches. */
  function EditForms(forms: seq<TaxForm>, editing: Option<int>, v: FormValue, now: DateTime): (r: seq<TaxForm>)
    requires FormValid(v)
    ensures |r| == |forms|
    ensures forall i :: 0 <= i < |forms| ==> r[i].id == forms[i].id && r[i].createdDate == forms[i].createdDate
    ensures forall i :: 0 <= i < |forms| && editing != Some(forms[i].id) ==> r[i] == forms[i]
    ensures forall i :: 0 <= i < |forms| && editing == Some(forms[i].id) ==> r[i] == ApplyValue(forms[i], v, now)
  {
    UpdateWhere(forms, (f: TaxForm) => editing == Some(f.id), (f: TaxForm) => ApplyValue(f, v, now))
  }

  /** Saving the same edit twice at the same moment is the same as saving it once. */
  lemma EditIdempotent(forms: seq<TaxForm>, editing: Option<int>, v: FormValue, now: DateTime)
    requires FormValid(v)
    ensures EditForms(EditForms(forms, editing, v, now), editing, v, now) == EditForms(forms, editing, v, now)
  {
  }

  /** The confirmed delete: every form with the id goes, every other form stays, in
      order and as often as stored. */
  function DeleteForms(forms: seq<TaxForm>, id: int): (r: seq<TaxForm>)
    ensures IsSubseq(r, forms)
    ensures forall f :: multiset(r)[f] == if f.id == id then 0 else multiset(forms)[f]
  {
    var keep := (f: TaxForm) => f.id != id;
    FilterIsSubseq(forms, keep);
    Filter(forms, keep)
  }

  /** Deleting a form just added under an id nobody else holds gives back the store
      as it was before the add. */
  lemma {:induction false} DeleteUndoesAdd(forms: seq<TaxForm>, v: FormValue, id: int, now: DateTime)
    requires FormValid(v)
    requires forall f :: f in forms ==> f.id != id
    ensures DeleteForms(AddForm(forms, v, id, now), id) == forms
  {
    var keep := (f: TaxForm) => f.id != id;
    FilterAppend(forms, [NewForm(v, id, now)], keep);
    FilterKeepsAll(forms, keep);
    assert Filter([NewForm(v, id, now)], keep) == [];
  }

  /** The modal's value shows the form being edited. */
  function ValueOf(f: TaxForm): (r: FormValue)
    ensures f.taxYear >= 1900 && f.formName != "" && f.jurisdiction != "" ==> FormValid(r)
  {
    FormValue(Some(f.formName), Some(f.jurisdiction), Some(f.taxYear), Some(f.status))
  }

  /** Opening a form in the modal and saving it unchanged only moves its modified date. */
  lemma SaveUnchangedTouchesDate(f: TaxForm, now: DateTime)
    requires FormValid(ValueOf(f))
    ensures ApplyValue(f, ValueOf(f), now) == f.(modifiedDate := now)
  {
  }

  /** What the validators guarantee about every stored form. */
  predicate StoredFormOk(f: TaxForm)
  {
    f.formName != "" && f.jurisdiction != "" && f.taxYear >= 1900
  }

  function MockForms(): seq<TaxForm>
  {
    [ TaxForm(1, "Form W-2", "US", 2023, Filed, DateTime(CivilDate(2023, 10, 1), 0), DateTime(CivilDate(2024, 0, 15), 0)),
      TaxForm(2, "VAT Return (UK)", "UK", 2023, Filed, DateTime(CivilDate(2023, 11, 5), 0), DateTime(CivilDate(2024, 0, 20), 0)),
      TaxForm(3, "Form 1099-NEC", "US", 2023, Ready, DateTime(CivilDate(2024, 0, 1), 0), DateTime(CivilDate(2024, 0, 25), 0)),
      TaxForm(4, "Form W-2", "US", 2022, Archived, DateTime(CivilDate(2022, 10, 1), 0), DateTime(CivilDate(2023, 0, 15), 0)),
      TaxForm(5, "Corporate/Other-(-18)", "India", 2023, Draft, DateTime(CivilDate(2024, 1, 1), 0), DateTime(CivilDate(2024, 1, 10), 0)),
      TaxForm(6, "GST Filing (India)", "India", 2023, Filed, DateTime(CivilDate(2023, 6, 1), 0), DateTime(CivilDate(2023, 6, 20), 0)),
      TaxForm(7, "VAT Return (UK)", "UK", 2022, Archived, DateTime(CivilDate(2022, 11, 5), 0), DateTime(CivilDate(2023, 0, 20), 0)),
      TaxForm(8, "Form 941", "US", 2024, Draft, DateTime(CivilDate(2024, 3, 1), 0), DateTime(CivilDate(2024, 3, 5), 0)),
      TaxForm(9, "CA Form 592-B", "California", 2023, Filed, DateTime(CivilDate(2023, 11, 15), 0), DateTime(CivilDate(2024, 0, 10), 0)) ]
  }

  lemma MockFormsOk()
    ensures forall f :: f in MockForms() ==> StoredFormOk(f)
  {
  }

  /** The screen's state: view mode, search and filters, the modal, the store and the
      modal's form value. */
  class TaxFormsLibraryScreen {
    var viewMode: ViewMode
    var searchTerm: string
    var jurisdictionFilter: string
    var yearFilter: string
    var statusFilter: string
    var isModalOpen: bool
    var modalMode: ModalMode
    var editingFormId: Option<int>
    var taxForms: seq<TaxForm>
    var form: FormValue

    /** Every stored form passed the validators. */
    ghost predicate Valid()
      reads this
    {
      forall f :: f in taxForms ==> StoredFormOk(f)
    }

    /** `currentYear` is `new Date().getFullYear()` when the screen is built. */
    constructor (currentYear: int)
      ensures Valid()
      ensures viewMode == ListView && searchTerm == ""
      ensures jurisdictionFilter == "All" && yearFilter == "All" && statusFilter == "All"
      ensures !isModalOpen && modalMode == AddMode && editingFormId == None
      ensures taxForms == MockForms()
      ensures form == FormValue(Some(""), Some(""), Some(currentYear), Some(Draft))
    {
      MockFormsOk();
      viewMode := ListView;
      searchTerm := "";
      jurisdictionFilter := "All";
      yearFilter := "All";
      statusFilter := "All";
      isModalOpen := false;
      modalMode := AddMode;
      editingFormId := None;
      taxForms := MockForms();
      form := FormValue(Some(""), Some(""), Some(currentYear), Some(Draft));
    }

    function Filtered(): seq<TaxForm>
      reads this
    {
      FilteredForms(taxForms, searchTerm, jurisdictionFilter, yearFilter, statusFilter)
    }

    method SetViewMode(mode: ViewMode)
      modifies this
      ensures viewMode == mode
      ensures searchTerm == old(searchTerm) && taxForms == old(taxForms) && form == old(form)
      ensures jurisdictionFilter == old(jurisdictionFilter) && yearFilter == old(yearFilter)
      ensures statusFilter == old(statusFilter) && isModalOpen == old(isModalOpen)
      ensures modalMode == old(modalMode) && editingFormId == old(editingFormId)
    {
      viewMode := mode;
    }

    method OnSearch(value: string)
      modifies this
      ensures searchTerm == value
      ensures viewMode == old(viewMode) && taxForms == old(taxForms) && form == old(form)
      ensures jurisdictionFilter == old(jurisdictionFilter) && yearFilter == old(yearFilter)
      ensures statusFilter == old(statusFilter) && isModalOpen == old(isModalOpen)
      ensures modalMode == old(modalMode) && editingFormId == old(editingFormId)
    {
      searchTerm := value;
    }

    /** Writes the selected option into the one filter the select is bound to. */
    method OnFilterChange(field: FilterField, value: string)
      modifies this
      ensures jurisdictionFilter == (if field == JurisdictionField then value else old(jurisdictionFilter))
      ensures yearFilter == (if field == YearField then value else old(yearFilter))
      ensures statusFilter == (if field == StatusField then value else old(statusFilter))
      ensures viewMode == old(viewMode) && searchTerm == old(searchTerm) && taxForms == old(taxForms)
      ensures form == old(form) && isModalOpen == old(isModalOpen)
      ensures modalMode == old(modalMode) && editingFormId == old(editingFormId)
    {
      match field
      case JurisdictionField => jurisdictionFilter := value;
      case YearField => yearFilter := value;
      case StatusField => statusFilter := value;
    }

    /** Resets the form to this year's draft with no name or jurisdiction; the id of a
        form edited before is left as it was. */
    method OpenAddModal(currentYear: int)
      modifies this
      ensures modalMode == AddMode && isModalOpen
      ensures form == FormValue(None, None, Some(currentYear), Some(Draft))
      ensures !FormValid(form)
      ensures editingFormId == old(editingFormId) && taxForms == old(taxForms)
      ensures viewMode == old(viewMode) && searchTerm == old(searchTerm)
      ensures jurisdictionFilter == old(jurisdictionFilter) && yearFilter == old(yearFilter)
      ensures statusFilter == old(statusFilter)
    {
      modalMode := AddMode;
      form := FormValue(None, None, Some(currentYear), Some(Draft));
      isModalOpen := true;
    }

    method OpenEditModal(f: TaxForm)
      modifies this
      ensures modalMode == EditMode && isModalOpen && editingFormId == Some(f.id)
      ensures form == ValueOf(f)
      ensures taxForms == old(taxForms)
      ensures viewMode == old(viewMode) && searchTerm == old(searchTerm)
      ensures jurisdictionFilter == old(jurisdictionFilter) && yearFilter == old(yearFilter)
      ensures statusFilter == old(statusFilter)
    {
      modalMode := EditMode;
      editingFormId := Some(f.id);
      form := ValueOf(f);
      isModalOpen := true;
    }

    method CloseModal()
      modifies this
      ensures !isModalOpen && editingFormId == None
      ensures modalMode == old(modalMode) && form == old(form) && taxForms == old(taxForms)
      ensures viewMode == old(viewMode) && searchTerm == old(searchTerm)
      ensures jurisdictionFilter == old(jurisdictionFilter) && yearFilter == old(yearFilter)
      ensures statusFilter == old(statusFilter)
    {
      isModalOpen := false;
      editingFormId := None;
    }

    /** An invalid form changes nothing. A valid one is added under `newId` (the
        reading of `Date.now()`) or applied to the form being edited, with `now` as the
        new dates, and the modal closes. Every stored form stays valid. */
    method SaveForm(newId: int, now: DateTime)
      requires Valid()
      modifies this
      ensures Valid()
      ensures !FormValid(old(form)) ==>
        taxForms == old(taxForms) && isModalOpen == old(isModalOpen) && editingFormId == old(editingFormId)
      ensures FormValid(old(form)) && old(modalMode) == AddMode ==>
        taxForms == AddForm(old(taxForms), old(form), newId, now)
      ensures FormValid(old(form)) && old(modalMode) == EditMode ==>
        taxForms == EditForms(old(taxForms), old(editingFormId), old(form), now)
      ensures FormValid(old(form)) ==> !isModalOpen && editingFormId == None
      ensures form == old(form) && modalMode == old(modalMode)
      ensures viewMode == old(viewMode) && searchTerm == old(searchTerm)
      ensures jurisdictionFilter == old(jurisdictionFilter) && yearFilter == old(yearFilter)
      ensures statusFilter == old(statusFilter)
    {
      if !FormValid(form) {
        return;
      }
      if modalMode == AddMode {
        taxForms := AddForm(taxForms, form, newId, now);
      } else {
        ghost var before := taxForms;
        taxForms := EditForms(taxForms, editingFormId, form, now);
        forall f | f in taxForms ensures StoredFormOk(f) {
          var i :| 0 <= i < |taxForms| && taxForms[i] == f;
          assert before[i] in before;
        }
      }
      CloseModal();
    }

    /** `confirmed` is the answer to the confirmation prompt. */
    method DeleteForm(formId: int, confirmed: bool)
      requires Valid()
      modifies this
      ensures Valid()
      ensures taxForms == (if confirmed then DeleteForms(old(taxForms), formId) else old(taxForms))
      ensures form == old(form) && modalMode == old(modalMode)
      ensures isModalOpen == old(isModalOpen) && editingFormId == old(editingFormId)
      ensures viewMode == old(viewMode) && searchTerm == old(searchTerm)
      ensures jurisdictionFilter == old(jurisdictionFilter) && yearFilter == old(yearFilter)
      ensures statusFilter == old(statusFilter)
    {
      if confirmed {
        taxForms := DeleteForms(taxForms, formId);
      }
    }
  }
}
