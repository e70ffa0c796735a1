/** The first generation's add-or-edit board form
    (src/ViewModels/SoundBoardDetailEntryViewModel.cs). In create mode the form
    builds a board and adds it through the store; in edit mode it updates the board
    it was given, in place. Messages sent, navigation back and error logging are
    ghost records. */
module DetailEntry {
  import opened Common
  import opened Text
  import opened Models
  import opened Storage

  /** Under the add guard the trimmed title is still not blank, so neither the
      two-argument constructor nor the Title setter rejects it; and a blank title
      trims to the empty string. */
  lemma TrimmedTitleAccepted(title: string, description: string)
    ensures Blank(Trim(title)) <==> Blank(title)
    ensures !Blank(title) ==> CheckNew(Some(Trim(title)), Some(description)).Pass?
    ensures !Blank(title) ==> CheckNotBlank(Some(Trim(title))).Pass?
    ensures Blank(title) ==> Trim(title) == [] && CheckNotBlank(Some(Trim(title))) == Fail(ArgumentBlank)
  {
    TrimBlank(title);
  }

  class SoundBoardDetailEntryViewModel {
    const store: SoundBoardStorageService
    var editing: SoundBoard?
    var title: string
    var description: string
    var pageTitle: string
    var primaryActionText: string
    ghost var sent: seq<SoundBoard>
    ghost var wentBack: nat
    ghost var errorsLogged: nat

    constructor (store: SoundBoardStorageService)
      ensures this.store == store && editing == null
      ensures title == [] && description == []
      ensures pageTitle == "Add New SoundBoard" && primaryActionText == "Add"
      ensures sent == [] && wentBack == 0 && errorsLogged == 0
    {
      this.store := store;
      editing := null;
      title := [];
      description := [];
      pageTitle := "Add New SoundBoard";
      primaryActionText := "Add";
      sent := [];
      wentBack := 0;
      errorsLogged := 0;
    }

    /** `CanAdd`: the title is not blank. */
    predicate CanAdd()
      reads this
    {
      !Blank(title)
    }

    /** `PrepareForCreate`: no edit target, an empty form, the "add" labels. */
    method PrepareForCreate()
      modifies this
      ensures editing == null && title == [] && description == [] && !CanAdd()
      ensures pageTitle == "Add New SoundBoard" && primaryActionText == "Add"
      ensures sent == old(sent) && wentBack == old(wentBack) && errorsLogged == old(errorsLogged)
    {
      editing := null;
      title := [];
      description := [];
      pageTitle := "Add New SoundBoard";
      primaryActionText := "Add";
    }

    /** `PrepareForEdit`: null is rejected; otherwise the form shows the board and
        the "edit" labels. */
    method PrepareForEdit(board: SoundBoard?) returns (r: Outcome)
      modifies this
      ensures board == null ==> r == Fail(ArgumentNull) && unchanged(this)
      ensures board != null ==>
        && r == Pass && editing == board && title == board.title && description == board.description
        && pageTitle == "Edit SoundBoard" && primaryActionText == "Update"
        && sent == old(sent) && wentBack == old(wentBack) && errorsLogged == old(errorsLogged)
    {
      if board == null {
        return Fail(ArgumentNull);
      }
      editing := board;
      title := board.title;
      description := board.description;
      pageTitle := "Edit SoundBoard";
      primaryActionText := "Update";
      return Pass;
    }

    /** `AddAsync`. The title is trimmed and written back first. In create mode a
        new board (trimmed title, untrimmed description) goes to the store's add,
        and the message carries that same object; in edit mode the target's title
        and description are set and the store is not called. Every failure is
        logged and rethrown. */
    method Add() returns (r: Outcome)
      modifies this, store`file, editing
      ensures title == Trim(old(title)) && editing == old(editing)
      ensures description == old(description) && pageTitle == old(pageTitle) && primaryActionText == old(primaryActionText)
      ensures old(editing) == null ==>
        var v := BoardValue(Trim(old(title)), old(description));
        && (Blank(old(title)) ==> r == Fail(ArgumentBlank) && store.file == old(store.file))
        && (!Blank(old(title)) ==> (r, store.file) == AddOutcome(old(store.file), v))
        && (r.Pass? ==>
              && |sent| == |old(sent)| + 1 && sent[..|old(sent)|] == old(sent)
              && fresh(sent[|old(sent)|]) && sent[|old(sent)|].Value() == v)
      ensures old(editing) != null ==>
        && store.file == old(store.file)
        && (r.Pass? <==> !Blank(old(title)))
        && (r.Fail? ==> r.error == ArgumentBlank && editing.Value() == old(editing.Value()))
        && (r.Pass? ==> editing.Value() == BoardValue(Trim(old(title)), old(description)))
        && sent == old(sent)
      ensures r.Fail? ==> sent == old(sent) && wentBack == old(wentBack) && errorsLogged == old(errorsLogged) + 1
      ensures r.Pass? ==> wentBack == old(wentBack) + 1 && errorsLogged == old(errorsLogged)
    {
      TrimmedTitleAccepted(title, description);
      title := Trim(title);
      if editing == null {
        r := AddNew(title);
      } else {
        r := UpdateEditing(title);
      }
      if r.Fail? {
        errorsLogged := errorsLogged + 1;
      } else {
        wentBack := wentBack + 1;
      }
    }

    /** The create branch of `AddAsync`: construct, add through the store, send. */
    method AddNew(sanitized: string) returns (r: Outcome)
      modifies this`sent, store`file
      ensures var v := BoardValue(sanitized, description);
        && (Blank(sanitized) ==> r == Fail(ArgumentBlank) && store.file == old(store.file))
        && (!Blank(sanitized) ==> (r, store.file) == AddOutcome(old(store.file), v))
        && (r.Fail? ==> sent == old(sent))
        && (r.Pass? ==> |sent| == |old(sent)| + 1 && sent[..|old(sent)|] == old(sent)
                        && fresh(sent[|old(sent)|]) && sent[|old(sent)|].Value() == v)
    {
      var created := SoundBoard.New(Some(sanitized), Some(description));
      if created.Failure? {
        return Fail(created.error);
      }
      var board := created.value;
      r := store.AddSoundBoard(board);
      if r.Pass? {
        sent := sent + [board];
      }
    }

    /** The edit branch of `AddAsync`: the Title setter, then the Description setter. */
    method UpdateEditing(sanitized: string) returns (r: Outcome)
      requires editing != null
      modifies editing
      ensures r.Pass? <==> !Blank(sanitized)
      ensures r.Fail? ==> r.error == ArgumentBlank && editing.Value() == old(editing.Value())
      ensures r.Pass? ==> editing.Value() == BoardValue(sanitized, description)
    {
      r := editing.SetTitle(Some(sanitized));
      if r.Fail? {
        return;
      }
      r := editing.SetDescription(Some(description));
    }
  }
}
