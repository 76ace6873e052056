/**
 * The category editor of the admin dashboard
 * (src/components/admin/CategoryManager.tsx): the name typed for a new
 * category, the category being edited, the two dialogs, and the add,
 * update and delete submissions. As for dishes, the database's answer is
 * a parameter and the request that would be sent is returned.
 */
module CategoryManager {
  import opened Wrappers
  import opened Text
  import opened Toasts

  /** A category row: its id and its name. */
  datatype Category = Category(id: string, name: string)

  const EmptyName := "Le nom de la catégorie ne peut pas être vide"

  /** The name sent by `handleAddCategory`: none when the typed name is
      blank, otherwise the typed name trimmed. A sent name is a non-empty
      slice of what was typed, with no whitespace at either end and only
      whitespace around it. */
  function AddPayload(typed: string): (r: Option<string>)
    ensures r.None? <==> AllSpace(typed)
    ensures r.Some? ==> r.value == Trim(typed) && r.value != []
    ensures r.Some? ==> !IsSpace(r.value[0]) && !IsSpace(r.value[|r.value| - 1])
    ensures r.Some? ==>
      exists i :: 0 <= i <= |typed| - |r.value| && r.value == typed[i..i + |r.value|] &&
        AllSpace(typed[..i]) && AllSpace(typed[i + |r.value|..])
  {
    BlankIffAllSpace(typed);
    TrimShape(typed);
    if IsBlank(typed) then None else Some(Trim(typed))
  }

  /** A name that has been sent once would be sent unchanged again. */
  lemma AddPayloadStable(typed: string)
    requires AddPayload(typed).Some?
    ensures AddPayload(AddPayload(typed).value) == AddPayload(typed)
  {
    TrimIdempotent(typed);
    BlankIffAllSpace(Trim(typed));
  }

  /** The request of `handleUpdateCategory`: the new name for one id. */
  datatype Rename = Rename(id: string, name: string)

  /** The request sent by `handleUpdateCategory`: none without an edit
      record or with a blank name; otherwise the trimmed name, addressed to
      the edited row's id. */
  function UpdatePayload(edit: Option<Category>): (r: Option<Rename>)
    ensures edit.None? ==> r.None?
    ensures edit.Some? ==> (r.None? <==> AllSpace(edit.value.name))
    ensures r.Some? ==> edit.Some? && r.value.id == edit.value.id && Some(r.value.name) == AddPayload(edit.value.name)
  {
    if edit.None? then None
    else
      var name := AddPayload(edit.value.name);
      if name.None? then None else Some(Rename(edit.value.id, name.value))
  }

  /** The editor's state. */
  class Manager {
    var newCategory: string
    var editCategory: Option<Category>
    var isAddDialogOpen: bool
    var isEditDialogOpen: bool

    constructor ()
      ensures newCategory == [] && editCategory == None && !isAddDialogOpen && !isEditDialogOpen
    {
      newCategory, editCategory := [], None;
      isAddDialogOpen, isEditDialogOpen := false, false;
    }

    /** The "Ajouter une catégorie" trigger opens the add dialog on the name
        as it was left. */
    method OpenAdd()
      modifies this
      ensures isAddDialogOpen && isEditDialogOpen == old(isEditDialogOpen)
      ensures newCategory == old(newCategory) && editCategory == old(editCategory)
    {
      isAddDialogOpen := true;
    }

    /** "Annuler" in the add dialog, or any other dismissal of it: the dialog
        closes and the name typed so far is kept. */
    method CancelAdd()
      modifies this
      ensures !isAddDialogOpen && isEditDialogOpen == old(isEditDialogOpen)
      ensures newCategory == old(newCategory) && editCategory == old(editCategory)
    {
      isAddDialogOpen := false;
    }

    /** Typing in the add dialog. */
    method NewNameChange(value: string)
      modifies this
      ensures newCategory == value && editCategory == old(editCategory)
      ensures isAddDialogOpen == old(isAddDialogOpen) && isEditDialogOpen == old(isEditDialogOpen)
    {
      newCategory := value;
    }

    /** The pencil button of a row, a trigger of the edit dialog: the row
        becomes the edit record and the edit dialog opens. */
    method StartEdit(row: Category)
      modifies this
      ensures editCategory == Some(row) && newCategory == old(newCategory)
      ensures isEditDialogOpen && isAddDialogOpen == old(isAddDialogOpen)
    {
      editCategory := Some(row);
      isEditDialogOpen := true;
    }

    /** "Annuler" in the edit dialog, or any other dismissal of it: the
        dialog closes and the edit record is kept. */
    method CancelEdit()
      modifies this
      ensures !isEditDialogOpen && isAddDialogOpen == old(isAddDialogOpen)
      ensures newCategory == old(newCategory) && editCategory == old(editCategory)
    {
      isEditDialogOpen := false;
    }

    /** Typing in the edit dialog: only the name of the edit record changes. */
    method EditNameChange(value: string)
      requires editCategory.Some?
      modifies this
      ensures editCategory == Some(old(editCategory).value.(name := value)) && newCategory == old(newCategory)
      ensures isAddDialogOpen == old(isAddDialogOpen) && isEditDialogOpen == old(isEditDialogOpen)
    {
      editCategory := Some(editCategory.value.(name := value));
    }

    /** `handleAddCategory`, given the database's answer. A blank name is
        refused before any insert; otherwise the trimmed name is inserted,
        and on success the input is cleared and the dialog closes. */
    method AddCategory(serverError: Option<string>) returns (request: Option<string>, notice: Notice)
      modifies this
      ensures request == AddPayload(old(newCategory))
      ensures request.None? ==>
        notice == Notice("Erreur", EmptyName) &&
        newCategory == old(newCategory) && isAddDialogOpen == old(isAddDialogOpen)
      ensures request.Some? ==> notice == Outcome(serverError, "Catégorie ajoutée avec succès")
      ensures request.Some? && serverError.None? ==> newCategory == [] && !isAddDialogOpen
      ensures request.Some? && serverError.Some? ==>
        newCategory == old(newCategory) && isAddDialogOpen == old(isAddDialogOpen)
      ensures editCategory == old(editCategory) && isEditDialogOpen == old(isEditDialogOpen)
    {
      request := AddPayload(newCategory);
      if request.None? {
        notice := Notice("Erreur", EmptyName);
      } else {
        if serverError.None? {
          newCategory := [];
          isAddDialogOpen := false;
        }
        notice := Outcome(serverError, "Catégorie ajoutée avec succès");
      }
    }

    /** `handleUpdateCategory`, given the database's answer: without an edit
        record or with a blank name nothing is sent; otherwise the rename
        is sent and on success the edit dialog closes. The edit record
        itself is kept as typed. */
    method UpdateCategory(serverError: Option<string>) returns (request: Option<Rename>, notice: Notice)
      modifies this
      ensures request == UpdatePayload(old(editCategory))
      ensures request.None? ==> notice == Notice("Erreur", EmptyName) && isEditDialogOpen == old(isEditDialogOpen)
      ensures request.Some? ==>
        notice == Outcome(serverError, "Catégorie mise à jour avec succès") &&
        isEditDialogOpen == (old(isEditDialogOpen) && serverError.Some?)
      ensures editCategory == old(editCategory) && newCategory == old(newCategory)
      ensures isAddDialogOpen == old(isAddDialogOpen)
    {
      request := UpdatePayload(editCategory);
      if request.None? {
        notice := Notice("Erreur", EmptyName);
      } else {
        if serverError.None? {
          isEditDialogOpen := false;
        }
        notice := Outcome(serverError, "Catégorie mise à jour avec succès");
      }
    }

    /** `handleDeleteCategory`: the id is sent as it is; no state of the
        editor changes. */
    method DeleteCategory(id: string, serverError: Option<string>) returns (request: string, notice: Notice)
      ensures request == id && notice == Outcome(serverError, "Catégorie supprimée avec succès")
    {
      request := id;
      notice := Outcome(serverError, "Catégorie supprimée avec succès");
    }
  }

  /** Opening the add dialog, typing a name and pressing "Ajouter": a blank
      name is refused and the dialog stays open; otherwise the trimmed name
      is sent, and the dialog closes and the input empties exactly when the
      database reported no error. */
  method OpenThenAdd(m: Manager, typed: string, serverError: Option<string>)
    returns (request: Option<string>, notice: Notice)
    modifies m
    ensures request == AddPayload(typed)
    ensures m.isAddDialogOpen <==> request.None? || serverError.Some?
    ensures m.newCategory == (if request.Some? && serverError.None? then [] else typed)
    ensures m.editCategory == old(m.editCategory) && m.isEditDialogOpen == old(m.isEditDialogOpen)
  {
    m.OpenAdd();
    m.NewNameChange(typed);
    request, notice := m.AddCategory(serverError);
  }

  /** A name typed with surrounding spaces is sent trimmed. */
  lemma PaddedNameTrimmed()
    ensures AddPayload("  Boissons ") == Some("Boissons")
  {
    assert IsSpace(' ') && !IsSpace('B') && !IsSpace('s');
    assert "  Boissons "[1..] == " Boissons ";
    assert " Boissons "[1..] == "Boissons ";
    assert TrimStart("  Boissons ") == "Boissons ";
    assert "Boissons "[..8] == "Boissons";
    assert TrimEnd("Boissons ") == "Boissons";
    assert !AllSpace("  Boissons ") by {
      assert !IsSpace("  Boissons "[2]);
    }
  }
}
