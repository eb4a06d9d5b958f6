/**
  The single-page quote form: a contact and property record with a service
  checklist. Submitting only records the form in the browser console.
 */
module QuoteForm {
  import opened ServiceList

  datatype FormData = FormData(
    name: string,
    email: string,
    phone: string,
    propertyAddress: string,
    propertyType: string,
    services: seq<Label>,
    message: string)

  /** The record the form starts from. */
  function InitialForm(): (f: FormData)
    ensures f.name == "" && f.email == "" && f.phone == "" && f.propertyAddress == ""
    ensures f.propertyType == "" && f.message == "" && f.services == []
  {
    FormData("", "", "", "", "", [], "")
  }

  /** Clicking an unselected service appends it after the others, and clicking
      a selected one removes it and keeps the others in order. */
  lemma FormToggleEffect(services: seq<Label>, s: Label)
    ensures s !in services ==> Toggle(services, s) == services + [s]
    ensures s in services ==>
      && s !in Toggle(services, s)
      && multiset(Toggle(services, s)) == multiset(services)[s := 0]
  {
    if s in services {
      RemoveAllCounts(services, s);
    } else {
      ToggleTwiceAbsent(services, s);
    }
  }

  class Form {
    var formData: FormData

    /** The service list never holds a label twice. */
    ghost predicate Valid()
      reads this
    {
      NoDuplicates(formData.services)
    }

    constructor ()
      ensures Valid() && formData == InitialForm()
    {
      formData := InitialForm();
    }

    /** `handleServiceToggle`. */
    method HandleServiceToggle(service: Label)
      requires Valid()
      modifies this
      ensures Valid()
      ensures formData == old(formData).(services := Toggle(old(formData).services, service))
    {
      ToggleKeepsNoDuplicates(formData.services, service);
      var prev := formData;
      var services :=
        if service in prev.services then RemoveAll(prev.services, service)
        else prev.services + [service];
      formData := prev.(services := services);
    }

    /** `handleSubmit`: hands the record to the console log and changes no
        state; the logged record is returned. */
    method HandleSubmit() returns (logged: FormData)
      ensures logged == formData
    {
      logged := formData;
    }
  }
}
