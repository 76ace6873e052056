/**
 * The dish editor of the admin dashboard
 * (src/components/admin/FoodItemManager.tsx): the add and edit records
 * with their field handlers, the validation run before any request, and
 * the add and update submissions. The database call is a parameter: its
 * error, if any, is passed in, and the request that would be sent is
 * returned.
 */
module FoodItemManager {
  import opened Wrappers
  import opened Text
  import opened Toasts

  /** A dish record as the form holds it: every field is the text of its
      input, except `isSpecial`, the checkbox. The edit record also carries
      the row's id. */
  datatype FoodForm = FoodForm(
    id: Option<string>,
    name: string,
    description: string,
    price: string,
    image: string,
    category: string,
    isSpecial: bool)

  /** `defaultFoodItem`: every text empty and the checkbox off. */
  const DefaultFoodItem: FoodForm := FoodForm(None, "", "", "", "", "", false)

  // ------------------------------------------------------------- validation

  /** `!isNaN(parseFloat(s))`: after leading whitespace and an optional sign,
      `s` starts with a digit, with a point followed by a digit, or with
      "Infinity". Only whether a number is read is modelled, not its value. */
  predicate ParsesAsNumber(s: string) {
    var t := TrimStart(s);
    var u := if t != [] && (t[0] == '+' || t[0] == '-') then t[1..] else t;
    (u != [] && IsDigit(u[0])) ||
    (|u| >= 2 && u[0] == '.' && IsDigit(u[1])) ||
    (|u| >= 8 && u[..8] == "Infinity")
  }

  const NameRequired := "Le nom est obligatoire"
  const DescriptionRequired := "La description est obligatoire"
  const PriceRequired := "Le prix est obligatoire"
  const PriceNotANumber := "Le prix doit être un nombre"
  const ImageRequired := "L'image est obligatoire"
  const CategoryRequired := "La catégorie est obligatoire"

  /** A check: whether it fails, and the message it reports then. */
  datatype Check = Check(fails: bool, message: string)

  /** The checks of `validateFoodItem`, in the order they run. */
  function Checks(f: FoodForm): seq<Check> {
    [Check(IsBlank(f.name), NameRequired),
     Check(IsBlank(f.description), DescriptionRequired),
     Check(f.price == [], PriceRequired),
     Check(!ParsesAsNumber(f.price), PriceNotANumber),
     Check(IsBlank(f.image), ImageRequired),
     Check(IsBlank(f.category), CategoryRequired)]
  }

  /** Reference definition: the message of the first failing check. */
  function FirstFailure(checks: seq<Check>): Option<string> {
    if checks == [] then None
    else if checks[0].fails then Some(checks[0].message)
    else FirstFailure(checks[1..])
  }

  /** `FirstFailure` reports a failing check none of whose predecessors
      fails, and reports nothing exactly when no check fails. */
  lemma {:induction false} FirstFailureMeaning(checks: seq<Check>)
    ensures var r := FirstFailure(checks);
      (r.None? <==> forall i :: 0 <= i < |checks| ==> !checks[i].fails) &&
      (r.Some? ==>
        exists i :: 0 <= i < |checks| && checks[i].fails && r.value == checks[i].message &&
          (forall j :: 0 <= j < i ==> !checks[j].fails))
  {
    if checks != [] && !checks[0].fails {
      FirstFailureMeaning(checks[1..]);
      assert forall i :: 1 <= i < |checks| ==> checks[i] == checks[1..][i - 1];
      var r := FirstFailure(checks);
      if r.Some? {
        var i :| 0 <= i < |checks[1..]| && checks[1..][i].fails && r.value == checks[1..][i].message &&
          (forall j :: 0 <= j < i ==> !checks[1..][j].fails);
        assert checks[i + 1].fails && r.value == checks[i + 1].message;
        assert forall j :: 0 <= j < i + 1 ==> !checks[j].fails by {
          forall j | 0 <= j < i + 1 ensures !checks[j].fails {
            if j > 0 { assert checks[j] == checks[1..][j - 1]; }
          }
        }
      }
    }
  }

  /** `validateFoodItem`: `None` is `null`, every check passed. */
  function Validate(f: FoodForm): (r: Option<string>)
    ensures r.None? <==>
      !IsBlank(f.name) && !IsBlank(f.description) && f.price != [] && ParsesAsNumber(f.price) &&
      !IsBlank(f.image) && !IsBlank(f.category)
  {
    if IsBlank(f.name) then Some(NameRequired)
    else if IsBlank(f.description) then Some(DescriptionRequired)
    else if f.price == [] then Some(PriceRequired)
    else if !ParsesAsNumber(f.price) then Some(PriceNotANumber)
    else if IsBlank(f.image) then Some(ImageRequired)
    else if IsBlank(f.category) then Some(CategoryRequired)
    else None
  }

  /** Each message is returned exactly when its check fails and every
      earlier one passes; an empty price is reported as missing before the
      numeric check runs. */
  lemma ValidateMessages(f: FoodForm)
    ensures Validate(f) == Some(NameRequired) <==> IsBlank(f.name)
    ensures Validate(f) == Some(DescriptionRequired) <==> !IsBlank(f.name) && IsBlank(f.description)
    ensures Validate(f) == Some(PriceRequired) <==> !IsBlank(f.name) && !IsBlank(f.description) && f.price == []
    ensures Validate(f) == Some(PriceNotANumber) <==>
      !IsBlank(f.name) && !IsBlank(f.description) && f.price != [] && !ParsesAsNumber(f.price)
    ensures Validate(f) == Some(ImageRequired) <==>
      !IsBlank(f.name) && !IsBlank(f.description) && f.price != [] && ParsesAsNumber(f.price) && IsBlank(f.image)
    ensures Validate(f) == Some(CategoryRequired) <==>
      !IsBlank(f.name) && !IsBlank(f.description) && f.price != [] && ParsesAsNumber(f.price) &&
      !IsBlank(f.image) && IsBlank(f.category)
  {
  }

  /** The chain returns the message of the first failing check in the order
      name, description, price present, price numeric, image, category. */
  lemma ValidateIsFirstFailure(f: FoodForm)
    ensures Validate(f) == FirstFailure(Checks(f))
  {
    var c := Checks(f);
    assert FirstFailure(c[5..]) == (if IsBlank(f.category) then Some(CategoryRequired) else None) by {
      assert c[5..][1..] == [];
    }
    assert FirstFailure(c[4..]) == (if IsBlank(f.image) then Some(ImageRequired) else FirstFailure(c[5..])) by {
      assert c[4..][1..] == c[5..];
    }
    assert FirstFailure(c[3..]) == (if !ParsesAsNumber(f.price) then Some(PriceNotANumber) else FirstFailure(c[4..])) by {
      assert c[3..][1..] == c[4..];
    }
    assert FirstFailure(c[2..]) == (if f.price == [] then Some(PriceRequired) else FirstFailure(c[3..])) by {
      assert c[2..][1..] == c[3..];
    }
    assert FirstFailure(c[1..]) == (if IsBlank(f.description) then Some(DescriptionRequired) else FirstFailure(c[2..])) by {
      assert c[1..][1..] == c[2..];
    }
  }

  /** A field made only of whitespace is as missing as an empty one. */
  lemma WhitespaceNameRejected(f: FoodForm)
    requires AllSpace(f.name)
    ensures Validate(f) == Some(NameRequired)
  {
    BlankIffAllSpace(f.name);
  }

  /** The checkbox is never validated. */
  lemma SpecialNotValidated(f: FoodForm, b: bool)
    ensures Validate(f.(isSpecial := b)) == Validate(f)
  {
  }

  /** The default record fails on its name. */
  lemma DefaultRecordInvalid()
    ensures Validate(DefaultFoodItem) == Some(NameRequired)
  {
    assert AllSpace(DefaultFoodItem.name);
    BlankIffAllSpace(DefaultFoodItem.name);
  }

  /** A price of "12 FCFA" is a number to `parseFloat`, "FCFA" is not. */
  lemma PriceExamples()
    ensures ParsesAsNumber("12 FCFA") && ParsesAsNumber(" -.5") && !ParsesAsNumber("FCFA")
  {
    assert !IsSpace('1') && !IsSpace('F') && !IsSpace('-');
    assert TrimStart("12 FCFA") == "12 FCFA";
    assert TrimStart("FCFA") == "FCFA";
    assert " -.5"[1..] == "-.5";
    assert TrimStart(" -.5") == "-.5";
  }

  // ------------------------------------------------------------ form fields

  /** The text inputs and the category select, by field name. */
  datatype TextField = Name | Description | Price | Image | Category

  /** `{ ...record, [name]: value }` for a text field. */
  function SetText(f: FoodForm, field: TextField, value: string): (r: FoodForm)
    ensures r.id == f.id && r.isSpecial == f.isSpecial
    ensures r.name == (if field == Name then value else f.name)
    ensures r.description == (if field == Description then value else f.description)
    ensures r.price == (if field == Price then value else f.price)
    ensures r.image == (if field == Image then value else f.image)
    ensures r.category == (if field == Category then value else f.category)
  {
    match field
    case Name => f.(name := value)
    case Description => f.(description := value)
    case Price => f.(price := value)
    case Image => f.(image := value)
    case Category => f.(category := value)
  }

  /** The editor's state. */
  class Manager {
    var newFoodItem: FoodForm
    var editFoodItem: Option<FoodForm>
    var isAddDialogOpen: bool
    var isEditDialogOpen: bool

    constructor ()
      ensures newFoodItem == DefaultFoodItem && editFoodItem == None
      ensures !isAddDialogOpen && !isEditDialogOpen
    {
      newFoodItem := DefaultFoodItem;
      editFoodItem := None;
      isAddDialogOpen, isEditDialogOpen := false, false;
    }

    /** `handleInputChange` and `handleSelectChange`: one field of the add
        record, or of the edit record, takes the value; the other record is
        untouched. The edit inputs exist only while an edit record is set. */
    method TextChange(field: TextField, value: string, isEdit: bool)
      requires isEdit ==> editFoodItem.Some?
      modifies this
      ensures isEdit ==> editFoodItem == Some(SetText(old(editFoodItem).value, field, value)) && newFoodItem == old(newFoodItem)
      ensures !isEdit ==> newFoodItem == SetText(old(newFoodItem), field, value) && editFoodItem == old(editFoodItem)
      ensures isAddDialogOpen == old(isAddDialogOpen) && isEditDialogOpen == old(isEditDialogOpen)
    {
      if isEdit {
        editFoodItem := Some(SetText(editFoodItem.value, field, value));
      } else {
        newFoodItem := SetText(newFoodItem, field, value);
      }
    }

    /** `handleCheckboxChange`: the `is_special` flag of one record. */
    method SpecialChange(checked: bool, isEdit: bool)
      requires isEdit ==> editFoodItem.Some?
      modifies this
      ensures isEdit ==> editFoodItem == Some(old(editFoodItem).value.(isSpecial := checked)) && newFoodItem == old(newFoodItem)
      ensures !isEdit ==> newFoodItem == old(newFoodItem).(isSpecial := checked) && editFoodItem == old(editFoodItem)
      ensures isAddDialogOpen == old(isAddDialogOpen) && isEditDialogOpen == old(isEditDialogOpen)
    {
      if isEdit {
        editFoodItem := Some(editFoodItem.value.(isSpecial := checked));
      } else {
        newFoodItem := newFoodItem.(isSpecial := checked);
      }
    }

    /** The "Ajouter un plat" trigger opens the add dialog on the add record
        as it was left. */
    method OpenAdd()
      modifies this
      ensures isAddDialogOpen && isEditDialogOpen == old(isEditDialogOpen)
      ensures newFoodItem == old(newFoodItem) && editFoodItem == old(editFoodItem)
    {
      isAddDialogOpen := true;
    }

    /** "Annuler" in the add dialog, or any other dismissal of it: the dialog
        closes and the record typed so far is kept. */
    method CancelAdd()
      modifies this
      ensures !isAddDialogOpen && isEditDialogOpen == old(isEditDialogOpen)
      ensures newFoodItem == old(newFoodItem) && editFoodItem == old(editFoodItem)
    {
      isAddDialogOpen := false;
    }

    /** The pencil button of a row, a trigger of the edit dialog: the row
        becomes the edit record and the edit dialog opens. */
    method StartEdit(row: FoodForm)
      modifies this
      ensures editFoodItem == Some(row) && newFoodItem == old(newFoodItem)
      ensures isEditDialogOpen && isAddDialogOpen == old(isAddDialogOpen)
    {
      editFoodItem := Some(row);
      isEditDialogOpen := true;
    }

    /** "Annuler" in the edit dialog, or any other dismissal of it: the
        dialog closes and the edit record is kept. */
    method CancelEdit()
      modifies this
      ensures !isEditDialogOpen && isAddDialogOpen == old(isAddDialogOpen)
      ensures newFoodItem == old(newFoodItem) && editFoodItem == old(editFoodItem)
    {
      isEditDialogOpen := false;
    }

    /** `handleAddFoodItem`, given the database's answer. A record that fails
        validation raises its message and sends nothing. Otherwise the
        record is the insert request; on success the form is reset to the
        default record and the dialog closes, on failure both stay. */
    method AddFoodItem(serverError: Option<string>) returns (request: Option<FoodForm>, notice: Notice)
      modifies this
      ensures Validate(old(newFoodItem)).Some? ==>
        request == None && notice == Notice("Erreur de validation", Validate(old(newFoodItem)).value) &&
        newFoodItem == old(newFoodItem) && isAddDialogOpen == old(isAddDialogOpen)
      ensures Validate(old(newFoodItem)).None? ==>
        request == Some(old(newFoodItem)) && notice == Outcome(serverError, "Plat ajouté avec succès")
      ensures Validate(old(newFoodItem)).None? && serverError.None? ==> newFoodItem == DefaultFoodItem && !isAddDialogOpen
      ensures Validate(old(newFoodItem)).None? && serverError.Some? ==>
        newFoodItem == old(newFoodItem) && isAddDialogOpen == old(isAddDialogOpen)
      ensures editFoodItem == old(editFoodItem) && isEditDialogOpen == old(isEditDialogOpen)
    {
      var item := newFoodItem;
      var error := Validate(item);
      if error.Some? {
        request, notice := None, Notice("Erreur de validation", error.value);
      } else {
        request := Some(item);
        if serverError.None? {
          newFoodItem := DefaultFoodItem;
          isAddDialogOpen := false;
        }
        notice := Outcome(serverError, "Plat ajouté avec succès");
      }
    }

    /** `handleUpdateFoodItem`, given the database's answer: the same
        validation on the edit record, which is the update request for its
        id; on success the edit dialog closes. */
    method UpdateFoodItem(serverError: Option<string>) returns (request: Option<FoodForm>, notice: Notice)
      requires editFoodItem.Some?
      modifies this
      ensures Validate(old(editFoodItem).value).Some? ==>
        request == None && notice == Notice("Erreur de validation", Validate(old(editFoodItem).value).value) &&
        isEditDialogOpen == old(isEditDialogOpen)
      ensures Validate(old(editFoodItem).value).None? ==>
        request == old(editFoodItem) && notice == Outcome(serverError, "Plat mis à jour avec succès") &&
        isEditDialogOpen == (old(isEditDialogOpen) && serverError.Some?)
      ensures editFoodItem == old(editFoodItem) && newFoodItem == old(newFoodItem)
      ensures isAddDialogOpen == old(isAddDialogOpen)
    {
      var item := editFoodItem.value;
      var error := Validate(item);
      if error.Some? {
        request, notice := None, Notice("Erreur de validation", error.value);
      } else {
        request := Some(item);
        if serverError.None? {
          isEditDialogOpen := false;
        }
        notice := Outcome(serverError, "Plat mis à jour avec succès");
      }
    }

    /** `handleDeleteFoodItem`: the id is the delete request, sent without
        any check; no state of the editor changes. */
    method DeleteFoodItem(id: string, serverError: Option<string>) returns (request: string, notice: Notice)
      ensures request == id && notice == Outcome(serverError, "Plat supprimé avec succès")
    {
      request := id;
      notice := Outcome(serverError, "Plat supprimé avec succès");
    }
  }

  /** A pencil press followed by "Mettre à jour": the row is sent when it
      passes validation, and the edit dialog the press opened closes exactly
      when it was sent and the database reported no error. */
  method EditThenUpdate(m: Manager, row: FoodForm, serverError: Option<string>)
    returns (request: Option<FoodForm>, notice: Notice)
    modifies m
    ensures request == (if Validate(row).None? then Some(row) else None)
    ensures m.isEditDialogOpen <==> Validate(row).Some? || serverError.Some?
    ensures m.editFoodItem == Some(row) && m.newFoodItem == old(m.newFoodItem)
    ensures m.isAddDialogOpen == old(m.isAddDialogOpen)
  {
    m.StartEdit(row);
    request, notice := m.UpdateFoodItem(serverError);
  }
}
