/** The admin products page: the form-validity check that enables its submit button, the
    add-or-edit choice on submit, and the resets after success and on closing the sheet.
    The form's state is a map from field name to value, as the `formData` object is. */
module AdminProducts {
  import opened Js
  import opened Wrappers

  type FormData = map<string, Value>

  /** `initialFormData`: every field empty, except the image, which is `null`. */
  function InitialFormData(): (f: FormData)
    ensures f.Keys == {"image", "title", "description", "category", "brand", "price", "salePrice", "totalStock"}
    ensures f["image"] == Null
    ensures forall k :: k in f && k != "image" ==> f[k] == Str("")
  {
    map["image" := Null, "title" := Str(""), "description" := Str(""), "category" := Str(""),
        "brand" := Str(""), "price" := Str(""), "salePrice" := Str(""), "totalStock" := Str("")]
  }

  /** The two fields the check skips. */
  predicate Exempt(key: string)
  {
    key == "averageReview" || key == "salePrice"
  }

  /** `isFormValid`: every field but the exempt ones is something other than the empty
      string. `null` and numbers pass. */
  predicate IsFormValid(f: FormData)
  {
    forall k :: k in f && !Exempt(k) ==> f[k] != Str("")
  }

  /** A fresh form cannot be submitted. */
  lemma InitialFormInvalid()
    ensures !IsFormValid(InitialFormData())
  {
    assert InitialFormData()["title"] == Str("");
  }

  /** Neither the sale price nor the average review ever decides validity. */
  lemma ExemptFieldsIgnored(f: FormData, salePrice: Value, averageReview: Value)
    ensures IsFormValid(f) == IsFormValid(f["salePrice" := salePrice])
    ensures IsFormValid(f) == IsFormValid(f["averageReview" := averageReview])
  {
  }

  /** A form with all text fields filled but the initial `null` image is valid: the test is
      against the empty string only. */
  lemma NullImagePasses(title: string, description: string, category: string, brand: string,
                        price: string, totalStock: string)
    requires title != "" && description != "" && category != "" && brand != ""
    requires price != "" && totalStock != ""
    ensures IsFormValid(InitialFormData()["title" := Str(title)]["description" := Str(description)]
                          ["category" := Str(category)]["brand" := Str(brand)]
                          ["price" := Str(price)]["totalStock" := Str(totalStock)])
  {
  }

  /** What `onSubmit` dispatches: an edit of the product being edited, or an addition. */
  datatype Submission = EditSubmit(id: Value, data: FormData) | AddSubmit(data: FormData)

  /** The page's state. */
  class AdminProductsPage {
    var open: bool
    var formData: FormData
    var imageFile: Option<string>
    var uploadedImageUrl: string
    var currentEditedId: Value

    /** The sheet, form and upload state all at rest. */
    predicate AtRest()
      reads this
    {
      !open && formData == InitialFormData() && imageFile.None? && uploadedImageUrl == ""
    }

    constructor ()
      ensures AtRest() && currentEditedId == Null
    {
      open := false;
      formData := InitialFormData();
      imageFile := None;
      uploadedImageUrl := "";
      currentEditedId := Null;
    }

    /** The setters the page hands to the form, the upload widget and the product tiles. */
    method SetField(key: string, v: Value)
      modifies this`formData
      ensures formData == old(formData)[key := v]
    {
      formData := formData[key := v];
    }

    method SetImage(file: Option<string>, url: string)
      modifies this`imageFile, this`uploadedImageUrl
      ensures imageFile == file && uploadedImageUrl == url
    {
      imageFile := file;
      uploadedImageUrl := url;
    }

    method OpenForEdit(id: Value, data: FormData)
      modifies this`open, this`formData, this`currentEditedId
      ensures open && formData == data && currentEditedId == id
    {
      open := true;
      formData := data;
      currentEditedId := id;
    }

    /** The submit button is enabled exactly when the form is valid. */
    function ButtonDisabled(): (d: bool)
      reads this
      ensures d <==> exists k :: k in formData && !Exempt(k) && formData[k] == Str("")
    {
      !IsFormValid(formData)
    }

    /** `onSubmit`: edits when an id is set, otherwise adds; either way the image sent is
        the uploaded URL, whatever the form holds. */
    method OnSubmit() returns (s: Submission)
      ensures Truthy(currentEditedId) <==> s.EditSubmit?
      ensures s.EditSubmit? ==> s.id == currentEditedId
      ensures s.data.Keys == formData.Keys + {"image"}
      ensures s.data["image"] == Str(uploadedImageUrl)
      ensures forall k :: k in formData && k != "image" ==> s.data[k] == formData[k]
    {
      var data := formData["image" := Str(uploadedImageUrl)];
      if Truthy(currentEditedId) {
        s := EditSubmit(currentEditedId, data);
      } else {
        s := AddSubmit(data);
      }
    }

    /** The dispatched request came back. On success the sheet closes and the form and
        the upload are reset; an edit also forgets the edited id. */
    method SubmitSettled(s: Submission, success: bool)
      modifies this
      ensures success ==> AtRest()
      ensures success && s.EditSubmit? ==> currentEditedId == Null
      ensures success && s.AddSubmit? ==> currentEditedId == old(currentEditedId)
      ensures !success ==> open == old(open) && formData == old(formData) && imageFile == old(imageFile)
                           && uploadedImageUrl == old(uploadedImageUrl) && currentEditedId == old(currentEditedId)
    {
      if success {
        open := false;
        if s.EditSubmit? {
          currentEditedId := Null;
        }
        formData := InitialFormData();
        imageFile := None;
        uploadedImageUrl := "";
      }
    }

    /** The sheet's `onOpenChange`: everything back to rest. */
    method OnOpenChange()
      modifies this
      ensures AtRest() && currentEditedId == Null
    {
      open := false;
      currentEditedId := Null;
      formData := InitialFormData();
      imageFile := None;
      uploadedImageUrl := "";
    }
  }
}
