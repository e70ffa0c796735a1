/** The second generation's main page
    (src/SoundHz.SoundBoard/ViewModels/MainViewModel.cs): load the configuration
    once into the shared state store, add boards named by their position, and
    navigate to a selected board. Navigation is recorded as a ghost log of the
    boards navigated to. */
module MainView {
  import opened Common
  import opened Text
  import opened Definitions
  import opened Repository

  /** The board `AddSoundBoardAsync` creates when `n` boards exist: named
      "Sound Board " followed by the decimal digits of `n + 1`, with no leading
      zero, described "New sound board", with no sounds. */
  function NewBoard(n: nat): (b: SoundBoardDefinition)
    ensures b.name.Some? && |b.name.value| > 12 && b.name.value[..12] == "Sound Board " && AllDigits(b.name.value[12..])
    ensures DigitsValue(b.name.value[12..]) == n + 1 && b.name.value[12] != '0'
    ensures b.description == Some("New sound board")
    ensures b.sounds == Some([])
  {
    var name := "Sound Board " + NatToString(n + 1);
    assert name[12..] == NatToString(n + 1);
    NatToStringRoundTrip(n + 1);
    SoundBoardDefinition(Some(name), Some("New sound board"), Some([]))
  }

  /** The new board passes validation, so adding it keeps a valid configuration valid. */
  lemma NewBoardValid(n: nat)
    ensures ValidBoard(NewBoard(n))
  {
    var b := NewBoard(n);
    assert !IsWhiteSpace(b.name.value[0]);
    assert !IsWhiteSpace(b.description.value[0]);
    NamedBoardIsValid(b.name, b.description);
  }

  /** Boards added at different counts get different names. */
  lemma NewBoardNamesDistinct(n: nat, m: nat)
    requires n != m
    ensures NewBoard(n).name != NewBoard(m).name
  {
    assert DigitsValue(NewBoard(n).name.value[12..]) != DigitsValue(NewBoard(m).name.value[12..]);
  }

  /** What `_isInitialized` and `InitializeAsync` leave: when already initialized,
      nothing happens; otherwise the state store takes the loaded configuration,
      or the load's error is raised and the store keeps what it had. */
  function AfterInitialize(initialized: bool, current: SoundBoardConfiguration, f: ConfigFile)
    : (r: (Outcome, SoundBoardConfiguration))
    ensures initialized ==> r == (Pass, current)
    ensures !initialized ==> (r.0.Pass? <==> LoadOutcome(f).Success?)
    ensures !initialized && r.0.Pass? ==> r.1 == LoadOutcome(f).value
    ensures r.0.Fail? ==> r.1 == current && r.0.error == LoadOutcome(f).error
    ensures r.0.Pass? && !initialized ==> ValidConfiguration(r.1)
  {
    if initialized then (Pass, current)
    else
      var loaded := LoadOutcome(f);
      if loaded.Success? then (Pass, loaded.value) else (Fail(loaded.error), current)
  }

  /** The append in `AddSoundBoardAsync`: counting a null list of boards throws;
      otherwise exactly one new board goes at the end, named after the count. */
  function AppendNewBoard(c: SoundBoardConfiguration): (r: Result<SoundBoardConfiguration>)
    ensures r.Success? <==> c.soundBoards.Some?
    ensures r.Failure? ==> r.error == NullReference
    ensures r.Success? ==>
      && r.value.soundBoards.Some?
      && |r.value.soundBoards.value| == |c.soundBoards.value| + 1
      && r.value.soundBoards.value[..|c.soundBoards.value|] == c.soundBoards.value
      && r.value.soundBoards.value[|c.soundBoards.value|] == NewBoard(|c.soundBoards.value|)
  {
    match c.soundBoards
    case None => Failure(NullReference)
    case Some(bs) =>
      assert (bs + [NewBoard(|bs|)])[..|bs|] == bs;
      Success(SoundBoardConfiguration(Some(bs + [NewBoard(|bs|)])))
  }

  /** Adding a board to a valid configuration gives a valid configuration. */
  lemma AppendNewBoardValid(c: SoundBoardConfiguration)
    requires ValidConfiguration(c)
    ensures AppendNewBoard(c).Success? && ValidConfiguration(AppendNewBoard(c).value)
  {
    NewBoardValid(|c.soundBoards.value|);
    AppendBoardValid(c, NewBoard(|c.soundBoards.value|));
  }

  /** Two adds in a row append two boards whose names differ. */
  lemma TwoAddsNameDistinctly(c: SoundBoardConfiguration)
    requires c.soundBoards.Some?
    ensures var once := AppendNewBoard(c).value;
            var twice := AppendNewBoard(once).value;
            var n := |c.soundBoards.value|;
            && |twice.soundBoards.value| == n + 2
            && twice.soundBoards.value[n].name != twice.soundBoards.value[n + 1].name
  {
    var n := |c.soundBoards.value|;
    var once := AppendNewBoard(c).value;
    var twice := AppendNewBoard(once).value;
    assert twice.soundBoards.value[n] == once.soundBoards.value[n];
    NewBoardNamesDistinct(n, n + 1);
  }

  class MainViewModel {
    const repository: SoundBoardRepository
    const stateStore: SoundBoardStateStore
    var isInitialized: bool
    ghost var navigations: seq<SoundBoardDefinition>

    constructor (repository: SoundBoardRepository, stateStore: SoundBoardStateStore)
      ensures this.repository == repository && this.stateStore == stateStore
      ensures !isInitialized && navigations == []
    {
      this.repository := repository;
      this.stateStore := stateStore;
      isInitialized := false;
      navigations := [];
    }

    /** `SoundBoards`: the state store's list. */
    function SoundBoards(): Option<seq<SoundBoardDefinition>>
      reads stateStore
    {
      stateStore.configuration.soundBoards
    }

    /** `InitializeAsync`: loads at most once. The flag is set only after a load
        that succeeded; a failed load leaves it unset, so a later call loads again. */
    method Initialize() returns (r: Outcome)
      modifies this`isInitialized, stateStore, repository`log
      ensures (r, stateStore.configuration) == AfterInitialize(old(isInitialized), old(stateStore.configuration), repository.file)
      ensures isInitialized <==> old(isInitialized) || r.Pass?
      ensures repository.log == old(repository.log) + (if old(isInitialized) then [] else LoadLog(repository.file))
      ensures navigations == old(navigations)
    {
      if isInitialized {
        return Pass;
      }
      var loaded := repository.Load();
      if loaded.Failure? {
        return Fail(loaded.error);
      }
      stateStore.configuration := loaded.value;
      isInitialized := true;
      return Pass;
    }

    /** `AddSoundBoardAsync`: initialize, append one board named after the count,
        then navigate to it. */
    method AddSoundBoard() returns (r: Outcome)
      modifies this`isInitialized, this`navigations, stateStore, repository`log
      ensures var (init, loaded) := AfterInitialize(old(isInitialized), old(stateStore.configuration), repository.file);
        && (init.Fail? ==> r == init && stateStore.configuration == loaded && navigations == old(navigations))
        && (init.Pass? ==> r.Pass? == AppendNewBoard(loaded).Success?)
        && (init.Pass? && r.Fail? ==>
              r.error == NullReference && stateStore.configuration == loaded && navigations == old(navigations))
        && (init.Pass? && r.Pass? ==>
              && stateStore.configuration == AppendNewBoard(loaded).value
              && navigations == old(navigations) + [NewBoard(|loaded.soundBoards.value|)])
      ensures isInitialized <==> old(isInitialized) || AfterInitialize(old(isInitialized), old(stateStore.configuration), repository.file).0.Pass?
    {
      r := Initialize();
      if r.Fail? {
        return;
      }
      var boards := SoundBoards();
      if boards.None? {
        return Fail(NullReference);
      }
      var newBoard := NewBoard(|boards.value|);
      stateStore.configuration := SoundBoardConfiguration(Some(boards.value + [newBoard]));
      NavigateToBoard(Some(newBoard));
    }

    /** `NavigateToBoardAsync`: a null board is ignored; otherwise the board page
        is opened on it. */
    method NavigateToBoard(board: Option<SoundBoardDefinition>)
      modifies this`navigations
      ensures navigations == old(navigations) + (if board.Some? then [board.value] else [])
    {
      if board.None? {
        return;
      }
      navigations := navigations + [board.value];
    }
  }

  /** A second initialization does nothing: no load, no change to the state store. */
  method InitializeTwice(vm: MainViewModel) returns (first: Outcome, second: Outcome)
    modifies vm, vm.stateStore, vm.repository`log
    ensures first.Pass? ==> second == Pass
    ensures vm.stateStore.configuration == AfterInitialize(old(vm.isInitialized), old(vm.stateStore.configuration), vm.repository.file).1
    ensures first.Pass? ==> vm.repository.log == old(vm.repository.log) + (if old(vm.isInitialized) then [] else LoadLog(vm.repository.file))
  {
    first := vm.Initialize();
    ghost var between := vm.stateStore.configuration;
    second := vm.Initialize();
    assert first.Pass? ==> vm.stateStore.configuration == between;
  }
}
