/** The first generation's create-a-board form
    (src/ViewModels/SoundBoardDetailsEntryViewModel.cs): a guarded add that trims
    both fields, holds a busy flag while the store works, broadcasts a separate
    copy of the stored board, and swallows failures after showing an alert.
    Messages, alerts and navigation are ghost records. */
module DetailsEntry {
  import opened Common
  import opened Text
  import opened Models
  import opened Storage

  /** With both fields non-blank, the board built from their trimmed values is
      accepted by the constructor and has a non-blank title and description. */
  lemma TrimmedFieldsAccepted(title: string, description: string)
    requires !Blank(title) && !Blank(description)
    ensures CheckNew(Some(Trim(title)), Some(Trim(description))).Pass?
    ensures Titled(BoardValue(Trim(title), Trim(description))) && !Blank(Trim(description))
  {
    TrimBlank(title);
    TrimBlank(description);
  }

  class SoundBoardDetailsEntryViewModel {
    const store: SoundBoardStorageService
    var title: string
    var description: string
    var isBusy: bool
    ghost var sent: seq<SoundBoard>
    ghost var stored: seq<SoundBoard>
    ghost var busyAtStoreCall: seq<bool>
    ghost var errorsShown: nat
    ghost var wentBack: nat

    constructor (store: SoundBoardStorageService)
      ensures this.store == store && title == [] && description == [] && !isBusy
      ensures sent == [] && stored == [] && busyAtStoreCall == [] && errorsShown == 0 && wentBack == 0
    {
      this.store := store;
      title := [];
      description := [];
      isBusy := false;
      sent := [];
      stored := [];
      busyAtStoreCall := [];
      errorsShown := 0;
      wentBack := 0;
    }

    /** `CanAddSoundBoard`: both fields non-blank and no add in progress. */
    predicate CanAddSoundBoard()
      reads this
    {
      !Blank(title) && !Blank(description) && !isBusy
    }

    /** `AddAsync`: nothing at all when the guard fails. Otherwise the store's add
        runs on a board with the trimmed fields while the busy flag is set; on
        success a separate copy equal by value is broadcast and the page goes back,
        on failure an alert is shown and nothing is rethrown. The busy flag is
        clear afterwards either way. */
    method Add()
      modifies this, store`file
      ensures !old(CanAddSoundBoard()) ==> unchanged(this) && store.file == old(store.file)
      ensures old(CanAddSoundBoard()) ==>
        var v := BoardValue(Trim(old(title)), Trim(old(description)));
        var outcome := AddOutcome(old(store.file), v);
        && store.file == outcome.1
        && !isBusy && busyAtStoreCall == old(busyAtStoreCall) + [true]
        && |stored| == |old(stored)| + 1 && stored[..|old(stored)|] == old(stored)
        && fresh(stored[|old(stored)|]) && stored[|old(stored)|].Value() == v
        && (outcome.0.Pass? ==>
              && |sent| == |old(sent)| + 1 && sent[..|old(sent)|] == old(sent)
              && fresh(sent[|old(sent)|]) && sent[|old(sent)|] != stored[|old(stored)|]
              && sent[|old(sent)|].Value() == v
              && wentBack == old(wentBack) + 1 && errorsShown == old(errorsShown))
        && (outcome.0.Fail? ==> sent == old(sent) && wentBack == old(wentBack) && errorsShown == old(errorsShown) + 1)
      ensures title == old(title) && description == old(description)
    {
      if !CanAddSoundBoard() {
        return;
      }
      TrimBlank(title);
      AddTrimmed(Trim(title), Trim(description));
    }

    /** The `try` and `finally` of `AddAsync`: set the busy flag, add, clear it. */
    method AddTrimmed(t: string, d: string)
      requires !Blank(t)
      modifies this`isBusy, this`sent, this`stored, this`busyAtStoreCall, this`errorsShown, this`wentBack, store`file
      ensures !isBusy
      ensures var outcome := AddOutcome(old(store.file), BoardValue(t, d));
        && store.file == outcome.1
        && busyAtStoreCall == old(busyAtStoreCall) + [true]
        && |stored| == |old(stored)| + 1 && stored[..|old(stored)|] == old(stored)
        && fresh(stored[|old(stored)|]) && stored[|old(stored)|].Value() == BoardValue(t, d)
        && (outcome.0.Pass? ==>
              && |sent| == |old(sent)| + 1 && sent[..|old(sent)|] == old(sent)
              && fresh(sent[|old(sent)|]) && sent[|old(sent)|] != stored[|old(stored)|]
              && sent[|old(sent)|].Value() == BoardValue(t, d)
              && wentBack == old(wentBack) + 1 && errorsShown == old(errorsShown))
        && (outcome.0.Fail? ==> sent == old(sent) && wentBack == old(wentBack) && errorsShown == old(errorsShown) + 1)
    {
      isBusy := true;
      var created := SoundBoard.New(Some(t), Some(d));
      var board := created.value;
      stored := stored + [board];
      busyAtStoreCall := busyAtStoreCall + [isBusy];
      var added := store.AddSoundBoard(board);
      if added.Pass? {
        var copy := SoundBoard.Copy(board);
        sent := sent + [copy.value];
        wentBack := wentBack + 1;
      } else {
        errorsShown := errorsShown + 1;
      }
      isBusy := false;
    }
  }
}
