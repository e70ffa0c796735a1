/** The second generation's sound editor
    (src/SoundHz.SoundBoard/ViewModels/EditSoundViewModel.cs): a form that either
    creates a sound and appends it to its board, or edits an existing sound of
    that board, and can delete it.

    The definitions are values here, so the view model holds its own copy of the
    parent board, and "the sound object" is found in the parent's list by value:
    `Collection.Remove` and the in-place update of an edited sound become
    `RemoveFirst` and `ReplaceFirst` on the first equal element. The two events
    and the navigation back are ghost logs. */
module EditSound {
  import opened Common
  import opened Text
  import opened Definitions

  // ---------------------------------------------------------------------------
  // The list operations, by value

  /** The position of the first occurrence of `x`, or `|s|` when there is none. */
  function IndexOf<T(==)>(s: seq<T>, x: T): (i: nat)
    ensures i <= |s| && (i < |s| <==> x in s)
    ensures i < |s| ==> s[i] == x
    ensures forall k | 0 <= k < i :: s[k] != x
  {
    if s == [] then 0 else if s[0] == x then 0 else 1 + IndexOf(s[1..], x)
  }

  /** `Collection.Remove`: drop the first occurrence of `x`, if any. */
  function RemoveFirst<T(==)>(s: seq<T>, x: T): (r: seq<T>)
    ensures x !in s ==> r == s
    ensures x in s ==> |r| == |s| - 1 && r == s[..IndexOf(s, x)] + s[IndexOf(s, x) + 1..]
  {
    var i := IndexOf(s, x);
    if i < |s| then s[..i] + s[i + 1..] else s
  }

  /** The list after the sound at the first occurrence of `x` has been changed to `y`. */
  function ReplaceFirst<T(==)>(s: seq<T>, x: T, y: T): (r: seq<T>)
    ensures |r| == |s|
    ensures x !in s ==> r == s
    ensures x in s ==> r == s[IndexOf(s, x) := y]
  {
    var i := IndexOf(s, x);
    if i < |s| then s[i := y] else s
  }

  /** Removing takes out exactly one copy of a present element and nothing else. */
  lemma RemoveFirstMultiset<T>(s: seq<T>, x: T)
    ensures multiset(RemoveFirst(s, x)) == multiset(s) - multiset{x}
  {
    if x in s {
      var i := IndexOf(s, x);
      assert s == s[..i] + [x] + s[i + 1..];
    }
  }

  /** Changing a sound in place keeps the list's membership: one copy of the old
      value is traded for the new one, at the same position. */
  lemma ReplaceFirstMultiset<T>(s: seq<T>, x: T, y: T)
    requires x in s
    ensures multiset(ReplaceFirst(s, x, y)) == multiset(s) - multiset{x} + multiset{y}
  {
    var i := IndexOf(s, x);
    assert s == s[..i] + [x] + s[i + 1..];
    assert ReplaceFirst(s, x, y) == s[..i] + [y] + s[i + 1..];
  }

  /** Appending a sound and then deleting it leaves the same sounds (as a
      multiset: by value, an equal sound earlier in the list is the one removed). */
  lemma AppendThenRemove<T>(s: seq<T>, x: T)
    ensures multiset(RemoveFirst(s + [x], x)) == multiset(s)
    ensures x !in s ==> RemoveFirst(s + [x], x) == s
  {
    RemoveFirstMultiset(s + [x], x);
    if x !in s {
      assert IndexOf(s + [x], x) == |s|;
      assert (s + [x])[..|s|] == s;
    }
  }

  // ---------------------------------------------------------------------------
  // Save and delete on the parent board

  /** The parent board after `SaveAsync` has written `written` into the sound that
      held `before`: in create mode the sound is appended once (a null list throws);
      in edit mode the list is not touched, but its element that is the edited
      sound now holds the new values. */
  function SavedBoard(parent: SoundBoardDefinition, before: SoundDefinition, written: SoundDefinition, isNew: bool)
    : (r: Result<SoundBoardDefinition>)
    ensures r.Failure? <==> isNew && parent.sounds.None?
    ensures r.Failure? ==> r.error == NullReference
    ensures r.Success? ==> r.value.name == parent.name && r.value.description == parent.description
    ensures r.Success? && parent.sounds.None? ==> r.value == parent
    ensures r.Success? && isNew ==> r.value.sounds == Some(parent.sounds.value + [written])
    ensures r.Success? && !isNew && parent.sounds.Some? ==>
              r.value.sounds.Some? && |r.value.sounds.value| == |parent.sounds.value|
  {
    match parent.sounds
    case None => if isNew then Failure(NullReference) else Success(parent)
    case Some(sounds) =>
      if isNew then Success(parent.(sounds := Some(sounds + [written])))
      else Success(parent.(sounds := Some(ReplaceFirst(sounds, before, written))))
  }

  /** In create mode the sound is added exactly once, at the end; in edit mode the
      list's membership is unchanged apart from the edited sound's new values. */
  lemma SavedBoardSounds(parent: SoundBoardDefinition, before: SoundDefinition, written: SoundDefinition, isNew: bool)
    requires parent.sounds.Some?
    ensures var r := SavedBoard(parent, before, written, isNew);
      && r.Success?
      && (isNew ==> multiset(r.value.sounds.value) == multiset(parent.sounds.value) + multiset{written})
      && (!isNew && before in parent.sounds.value ==>
            multiset(r.value.sounds.value) == multiset(parent.sounds.value) - multiset{before} + multiset{written})
      && (!isNew && before !in parent.sounds.value ==> r.value == parent)
  {
    if !isNew && before in parent.sounds.value {
      ReplaceFirstMultiset(parent.sounds.value, before, written);
    }
  }

  /** The sound the form describes. */
  function FormSound(name: Option<string>, description: Option<string>, filePath: Option<string>): SoundDefinition {
    SoundDefinition(name, description, filePath)
  }

  /** The guard on the save command: a name and a file path that are not blank;
      the description is not looked at. */
  predicate SaveAllowed(name: Option<string>, filePath: Option<string>) {
    !NullOrWhiteSpace(name) && !NullOrWhiteSpace(filePath)
  }

  /** A sound saved through the guard is not yet valid unless its description is
      required text too: the guard is weaker than validation exactly there. */
  lemma SaveGuardAndValidity(name: Option<string>, description: Option<string>, filePath: Option<string>)
    ensures ValidSound(FormSound(name, description, filePath)) <==> SaveAllowed(name, filePath) && Required(description)
  {
    RequiredTextIsRequired(name);
    RequiredTextIsRequired(description);
    RequiredTextIsRequired(filePath);
  }

  class EditSoundViewModel {
    var parentBoard: Option<SoundBoardDefinition>
    var sound: Option<SoundDefinition>
    var isNew: bool
    var name: Option<string>
    var description: Option<string>
    var filePath: Option<string>
    ghost var savedEvents: seq<SoundDefinition>
    ghost var deletedEvents: seq<SoundDefinition>
    ghost var wentBack: nat

    constructor ()
      ensures parentBoard.None? && sound.None? && !isNew
      ensures name == Some("") && description == Some("") && filePath == Some("")
      ensures savedEvents == [] && deletedEvents == [] && wentBack == 0
    {
      parentBoard := None;
      sound := None;
      isNew := false;
      name := Some("");
      description := Some("");
      filePath := Some("");
      savedEvents := [];
      deletedEvents := [];
      wentBack := 0;
    }

    /** `CanDelete`: only an existing sound can be deleted. */
    predicate CanDelete()
      reads this
    {
      !isNew
    }

    /** `CanSave`. */
    predicate CanSave()
      reads this
    {
      SaveAllowed(name, filePath)
    }

    /** `PrepareForCreate`: a new, empty sound for the given board, in create mode. */
    method PrepareForCreate(parent: Option<SoundBoardDefinition>) returns (r: Outcome)
      modifies this
      ensures parent.None? ==> r == Fail(ArgumentNull) && unchanged(this)
      ensures parent.Some? ==>
        && r == Pass && parentBoard == parent && sound == Some(NewSound()) && isNew && !CanDelete()
        && name == Some("") && description == Some("") && filePath == Some("") && !CanSave()
        && savedEvents == old(savedEvents) && deletedEvents == old(deletedEvents) && wentBack == old(wentBack)
    {
      if parent.None? {
        return Fail(ArgumentNull);
      }
      parentBoard := parent;
      sound := Some(NewSound());
      isNew := true;
      name := Some("");
      description := Some("");
      filePath := Some("");
      return Pass;
    }

    /** `PrepareForEdit`: the form shows the given sound, in edit mode. */
    method PrepareForEdit(parent: Option<SoundBoardDefinition>, s: Option<SoundDefinition>) returns (r: Outcome)
      modifies this
      ensures parent.None? || s.None? ==> r == Fail(ArgumentNull) && unchanged(this)
      ensures parent.Some? && s.Some? ==>
        && r == Pass && parentBoard == parent && sound == s && !isNew && CanDelete()
        && name == s.value.name && description == s.value.description && filePath == s.value.filePath
        && savedEvents == old(savedEvents) && deletedEvents == old(deletedEvents) && wentBack == old(wentBack)
    {
      if parent.None? || s.None? {
        return Fail(ArgumentNull);
      }
      parentBoard := parent;
      sound := s;
      isNew := false;
      name := s.value.name;
      description := s.value.description;
      filePath := s.value.filePath;
      return Pass;
    }

    /** `SaveAsync`. Before any Prepare call nothing happens. Otherwise the form is
        written into the sound, and the parent board ends as `SavedBoard` says; the
        guard `CanSave` belongs to the command and is not checked here. */
    method Save() returns (r: Outcome)
      modifies this
      ensures old(parentBoard).None? || old(sound).None? ==> r == Pass && unchanged(this)
      ensures old(parentBoard).Some? && old(sound).Some? ==>
        var written := FormSound(old(name), old(description), old(filePath));
        var board := SavedBoard(old(parentBoard).value, old(sound).value, written, old(isNew));
        && sound == Some(written)
        && (r.Pass? <==> board.Success?)
        && (r.Pass? ==>
              && parentBoard == Some(board.value)
              && savedEvents == old(savedEvents) + [written] && wentBack == old(wentBack) + 1)
        && (r.Fail? ==>
              && r.error == board.error && parentBoard == old(parentBoard)
              && savedEvents == old(savedEvents) && wentBack == old(wentBack))
      ensures isNew == old(isNew) && name == old(name) && description == old(description) && filePath == old(filePath)
      ensures deletedEvents == old(deletedEvents)
    {
      if parentBoard.None? || sound.None? {
        return Pass;
      }
      var before := sound.value;
      var written := FormSound(name, description, filePath);
      sound := Some(written);
      var parent := parentBoard.value;
      if isNew {
        if parent.sounds.None? {
          return Fail(NullReference);
        }
        parentBoard := Some(parent.(sounds := Some(parent.sounds.value + [written])));
      } else if parent.sounds.Some? {
        parentBoard := Some(parent.(sounds := Some(ReplaceFirst(parent.sounds.value, before, written))));
      }
      savedEvents := savedEvents + [written];
      wentBack := wentBack + 1;
      return Pass;
    }

    /** `DeleteAsync`. Before any Prepare call nothing happens. Otherwise the sound
        is removed from the parent's list (a null list throws). */
    method Delete() returns (r: Outcome)
      modifies this
      ensures old(parentBoard).None? || old(sound).None? ==> r == Pass && unchanged(this)
      ensures old(parentBoard).Some? && old(sound).Some? ==>
        var parent := old(parentBoard).value;
        && (r.Pass? <==> parent.sounds.Some?)
        && (r.Fail? ==> r.error == NullReference && unchanged(this))
        && (r.Pass? ==>
              && parentBoard == Some(parent.(sounds := Some(RemoveFirst(parent.sounds.value, old(sound).value))))
              && deletedEvents == old(deletedEvents) + [old(sound).value] && wentBack == old(wentBack) + 1)
      ensures sound == old(sound) && isNew == old(isNew) && savedEvents == old(savedEvents)
      ensures name == old(name) && description == old(description) && filePath == old(filePath)
    {
      if parentBoard.None? || sound.None? {
        return Pass;
      }
      var parent := parentBoard.value;
      if parent.sounds.None? {
        return Fail(NullReference);
      }
      parentBoard := Some(parent.(sounds := Some(RemoveFirst(parent.sounds.value, sound.value))));
      deletedEvents := deletedEvents + [sound.value];
      wentBack := wentBack + 1;
      return Pass;
    }
  }

  /** Create, fill in and save: the board gains exactly the entered sound, at the end. */
  method CreateAndSave(vm: EditSoundViewModel, parent: SoundBoardDefinition, s: SoundDefinition) returns (r: Outcome)
    requires parent.sounds.Some?
    modifies vm
    ensures r == Pass && vm.parentBoard == Some(parent.(sounds := Some(parent.sounds.value + [s])))
    ensures vm.savedEvents == old(vm.savedEvents) + [s]
  {
    var _ := vm.PrepareForCreate(Some(parent));
    vm.name := s.name;
    vm.description := s.description;
    vm.filePath := s.filePath;
    r := vm.Save();
  }
}
