/** The surgery intake form: a type picked from a fixed list and a date,
    turned into the surgery record that starts the recovery plan. */
module SurgeryForm {

  import opened Text

  /** The option values of the surgery-type select, in display order. */
  const SurgeryTypes: seq<string> := ["LASIK", "Cataract", "PRK", "ICL"]

  /** The form's state: the selected type and the date text ("" until picked). */
  datatype FormData = FormData(surgeryType: string, date: string)

  /** `{...formData, id}`: what a submission hands to the session. */
  datatype SurgeryRecord = SurgeryRecord(surgeryType: string, date: string, id: int)

  const InitialForm: FormData := FormData("LASIK", "")

  /** The record built from the form by the submit handler. */
  function ToRecord(form: FormData, id: int): (r: SurgeryRecord)
    ensures r.surgeryType == form.surgeryType && r.date == form.date && r.id == id
  {
    SurgeryRecord(form.surgeryType, form.date, id)
  }

  /** Outcome of pressing submit. The date input is `required`, so the browser
      only dispatches the submit event once a date is filled in. */
  function Submit(form: FormData, id: int): (r: Option<SurgeryRecord>)
    ensures r.Some? <==> form.date != ""
    ensures r.Some? ==> r.value.surgeryType == form.surgeryType && r.value.date == form.date
    ensures r.Some? ==> r.value.id == id
  {
    if form.date == "" then None else Some(ToRecord(form, id))
  }

  lemma SurgeryTypesDistinct()
    ensures forall i, j :: 0 <= i < j < |SurgeryTypes| ==> SurgeryTypes[i] != SurgeryTypes[j]
  {
  }

  /** A form in its initial state cannot be submitted: the date is still empty. */
  lemma InitialFormNotSubmittable(id: int)
    ensures Submit(InitialForm, id) == None
    ensures InitialForm.surgeryType in SurgeryTypes
  {
  }

  /** The form component; its state is replaced by the two change handlers. */
  class Form {
    var formData: FormData

    ghost predicate Valid()
      reads this
    {
      formData.surgeryType in SurgeryTypes
    }

    constructor ()
      ensures Valid()
      ensures formData == InitialForm
    {
      formData := InitialForm;
    }

    /** The select's change handler; the select only reports one of its options. */
    method SetType(value: string)
      requires Valid()
      requires value in SurgeryTypes
      modifies this
      ensures Valid()
      ensures formData == old(formData).(surgeryType := value)
    {
      formData := formData.(surgeryType := value);
    }

    /** The date input's change handler. */
    method SetDate(value: string)
      requires Valid()
      modifies this
      ensures Valid()
      ensures formData == old(formData).(date := value)
    {
      formData := formData.(date := value);
    }

    /** The submit handler: builds the record; the form keeps its state. */
    method HandleSubmit(id: int) returns (record: Option<SurgeryRecord>)
      requires Valid()
      ensures record.Some? <==> formData.date != ""
      ensures record.Some? ==> record.value.surgeryType in SurgeryTypes
      ensures record.Some? ==> record.value == SurgeryRecord(formData.surgeryType, formData.date, id)
    {
      record := Submit(formData, id);
    }
  }
}
