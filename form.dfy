/** The entry form's state and its handlers: the record being edited, whether the
    free-text village box is open, and the text typed into it. */
module Form {
  import opened Weighment
  import opened JsString
  import Viewer

  /** The `value` of the "Add Other Village" option of the village list. */
  const OtherVillage: string := "other"

  /** The blank form: empty strings and zero weights. */
  const BlankEntry: EntryData := EntryData("", "", 0.0, 0.0, 0.0)

  /** The live net-weight preview. Unlike the viewer's net weight, it also subtracts the
      bag weight. */
  function PreviewNetWeight(d: EntryData): real {
    d.loadedWeight - d.emptyWeight - d.bagWeight
  }

  /** The preview and the viewer disagree on the net weight of one and the same record by
      exactly its bag weight, so they agree only when the bag weight is zero. */
  lemma PreviewDiffersFromViewer(d: EntryData)
    ensures PreviewNetWeight(d) == Viewer.NetWeight(d) - d.bagWeight
    ensures PreviewNetWeight(d) == Viewer.NetWeight(d) <==> d.bagWeight == 0.0
  {
  }

  class EntryForm {
    var formData: EntryData
    var showCustomVillage: bool
    var customVillage: string

    /** The form as it is cleared: a blank record and the free-text box closed and empty. */
    predicate IsBlank()
      reads this
    {
      formData == BlankEntry && !showCustomVillage && customVillage == ""
    }

    /** The state the form starts in. */
    constructor ()
      ensures IsBlank()
    {
      formData := BlankEntry;
      showCustomVillage := false;
      customVillage := "";
    }

    /** Clears the form without saving anything. */
    method Reset()
      modifies this
      ensures IsBlank()
    {
      formData := BlankEntry;
      showCustomVillage := false;
      customVillage := "";
    }

    /** Hands the current record, as it stands and without any check, to the caller's save
      callback, then clears the form. */
    method Submit() returns (saved: EntryData)
      modifies this
      ensures saved == old(formData)
      ensures IsBlank()
    {
      saved := formData;
      Reset();
    }

    /** A choice in the village list. The "other" option opens the free-text box and clears
      the village; any other value closes the box and becomes the village. */
    method SelectVillage(value: string)
      modifies this
      ensures showCustomVillage == (value == OtherVillage)
      ensures formData == old(formData).(village := if value == OtherVillage then "" else value)
      ensures customVillage == old(customVillage)
    {
      if value == OtherVillage {
        showCustomVillage := true;
        formData := formData.(village := "");
      } else {
        showCustomVillage := false;
        formData := formData.(village := value);
      }
    }

    /** Typing into the free-text village box. */
    method EditCustomVillage(text: string)
      modifies this
      ensures customVillage == text
      ensures formData == old(formData) && showCustomVillage == old(showCustomVillage)
    {
      customVillage := text;
    }

    /** The confirm button of the free-text box. Blank or white-space-only text changes
      nothing; otherwise the trimmed text, which is not empty, becomes the village and the
      box closes, the typed text staying as it was. */
    method ConfirmCustomVillage()
      modifies this
      ensures AllWhiteSpace(old(customVillage)) ==>
        formData == old(formData) && showCustomVillage == old(showCustomVillage)
      ensures !AllWhiteSpace(old(customVillage)) ==>
        formData == old(formData).(village := Trim(old(customVillage))) && !showCustomVillage
      ensures !AllWhiteSpace(old(customVillage)) ==> formData.village != ""
      ensures customVillage == old(customVillage)
    {
      var trimmed := Trim(customVillage);
      if trimmed != "" {
        formData := formData.(village := trimmed);
        showCustomVillage := false;
      }
    }

    /** The cancel button of the free-text box: closes and empties it, the record untouched. */
    method CancelCustomVillage()
      modifies this
      ensures !showCustomVillage && customVillage == ""
      ensures formData == old(formData)
    {
      showCustomVillage := false;
      customVillage := "";
    }

    /** Typing into the vehicle-number field stores the upper-cased text. */
    method EditVehicleNumber(input: string)
      modifies this
      ensures formData == old(formData).(vehicleNumber := ToUpper(input))
      ensures ToUpper(formData.vehicleNumber) == formData.vehicleNumber
      ensures showCustomVillage == old(showCustomVillage) && customVillage == old(customVillage)
    {
      formData := formData.(vehicleNumber := ToUpper(input));
      ToUpperFixpoint(input);
    }

    /** Typing into the loaded-weight field (the value arrives already parsed). */
    method EditLoadedWeight(weight: real)
      modifies this
      ensures formData == old(formData).(loadedWeight := weight)
      ensures showCustomVillage == old(showCustomVillage) && customVillage == old(customVillage)
    {
      formData := formData.(loadedWeight := weight);
    }

    /** Typing into the empty-weight field. */
    method EditEmptyWeight(weight: real)
      modifies this
      ensures formData == old(formData).(emptyWeight := weight)
      ensures showCustomVillage == old(showCustomVillage) && customVillage == old(customVillage)
    {
      formData := formData.(emptyWeight := weight);
    }

    /** Typing into the bag-weight field. */
    method EditBagWeight(weight: real)
      modifies this
      ensures formData == old(formData).(bagWeight := weight)
      ensures showCustomVillage == old(showCustomVillage) && customVillage == old(customVillage)
    {
      formData := formData.(bagWeight := weight);
    }

    /** The net weight the form shows while it is being filled in. */
    function NetWeight(): real
      reads this
    {
      PreviewNetWeight(formData)
    }
  }

  /** Choosing "other", typing only spaces and confirming leaves the village empty and the
      free-text box open. */
  method BlankCustomVillageExample() returns (village: string, customMode: bool)
    ensures village == "" && customMode
  {
    var form := new EntryForm();
    form.SelectVillage(OtherVillage);
    form.EditCustomVillage("   ");
    form.ConfirmCustomVillage();
    village, customMode := form.formData.village, form.showCustomVillage;
  }

  /** Submitting while the free-text box is open, without confirming it, saves a record
      whose village is empty. */
  method UnconfirmedCustomVillageExample() returns (saved: EntryData)
    ensures saved.village == "" && saved.vehicleNumber == ToUpper("ap09ab1234")
  {
    var form := new EntryForm();
    form.SelectVillage(OtherVillage);
    form.EditCustomVillage("Rampur");
    form.EditVehicleNumber("ap09ab1234");
    saved := form.Submit();
  }
}
