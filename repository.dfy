/** The second generation's configuration repository
    (src/SoundHz.SoundBoard/Services/SoundBoardRepository.cs) and the in-memory
    state store shared between its views (SoundBoardStateStore.cs).

    The configuration file is abstracted, as in the first generation's store, to
    what the deserializer makes of it. Log calls are recorded as ghost events. */
module Repository {
  import opened Common
  import opened Definitions

  /** soundboards.json as the deserializer sees it. */
  datatype ConfigFile =
    | Missing                                         // no file at the path
    | Unparseable                                     // content the deserializer rejects
    | JsonNull                                        // the JSON literal `null`
    | Stored(configuration: SoundBoardConfiguration)  // a configuration object

  /** The repository's information and error log entries. */
  datatype LogEvent =
    | Loaded                    // "SoundBoardLoaded"
    | LoadFailed(error: Error)  // "ConfigurationLoadFailed", before the exception is rethrown
    | Saved                     // "SoundBoardSaved"

  /** `ValidateConfiguration`: validate the configuration object, then each board
      object, then each sound of that board, stopping at the first failure. */
  method ValidateConfiguration(c: SoundBoardConfiguration) returns (r: Outcome)
    ensures r.Pass? <==> ValidConfiguration(c)
    ensures r.Fail? ==> r.error == Validation
  {
    if c.soundBoards.None? {
      return Fail(Validation);
    }
    var boards := c.soundBoards.value;
    var i := 0;
    while i < |boards|
      invariant 0 <= i <= |boards|
      invariant forall k | 0 <= k < i :: ValidBoard(boards[k])
    {
      var board := boards[i];
      if !BoardFieldsValid(board) {
        return Fail(Validation);
      }
      var sounds := board.sounds.value;
      var j := 0;
      while j < |sounds|
        invariant 0 <= j <= |sounds|
        invariant forall k | 0 <= k < j :: ValidSound(sounds[k])
      {
        if !ValidSound(sounds[j]) {
          return Fail(Validation);
        }
        j := j + 1;
      }
      i := i + 1;
    }
    return Pass;
  }

  /** What `LoadAsync` returns: an empty configuration for a missing file or JSON
      null, the parse error for unparseable content, and otherwise the stored
      configuration if it validates. */
  function LoadOutcome(f: ConfigFile): (r: Result<SoundBoardConfiguration>)
    ensures r.Success? ==> ValidConfiguration(r.value)
    ensures r.Success? <==> !f.Unparseable? && (f.Stored? ==> ValidConfiguration(f.configuration))
    ensures r.Success? && f.Stored? ==> r.value == f.configuration
    ensures r.Failure? ==> r.error == (if f.Unparseable? then JsonParse else Validation)
  {
    match f
    case Missing => Success(EmptyConfiguration())
    case Unparseable => Failure(JsonParse)
    case JsonNull => Success(EmptyConfiguration())
    case Stored(c) => if ValidConfiguration(c) then Success(c) else Failure(Validation)
  }

  /** What `LoadAsync` logs: nothing for a missing file, `Loaded` after a
      successful read, `LoadFailed` before a failure is rethrown. */
  function LoadLog(f: ConfigFile): (r: seq<LogEvent>)
    ensures |r| <= 1 && (r == [] <==> f.Missing?)
    ensures r == [Loaded] <==> !f.Missing? && LoadOutcome(f).Success?
    ensures LoadOutcome(f).Failure? ==> r == [LoadFailed(LoadOutcome(f).error)]
  {
    if f.Missing? then []
    else if LoadOutcome(f).Failure? then [LoadFailed(LoadOutcome(f).error)]
    else [Loaded]
  }

  /** `SaveAsync`: the result and the file afterwards. Null and an invalid
      configuration are rejected before the file is opened. */
  function SaveOutcome(f: ConfigFile, c: Option<SoundBoardConfiguration>): (r: (Outcome, ConfigFile))
    ensures r.0.Pass? <==> c.Some? && ValidConfiguration(c.value)
    ensures r.0.Pass? ==> r.1 == Stored(c.value)
    ensures r.0.Fail? ==> r.1 == f && r.0.error == (if c.None? then ArgumentNull else Validation)
  {
    if c.None? then (Fail(ArgumentNull), f)
    else if !ValidConfiguration(c.value) then (Fail(Validation), f)
    else (Pass, Stored(c.value))
  }

  /** Save then load: a saved configuration is loaded back equal; saving an invalid
      one leaves what was stored, so a later load returns the old content. */
  lemma SaveThenLoad(f: ConfigFile, c: Option<SoundBoardConfiguration>)
    ensures SaveOutcome(f, c).0.Pass? ==> LoadOutcome(SaveOutcome(f, c).1) == Success(c.value)
    ensures SaveOutcome(f, c).0.Fail? ==> LoadOutcome(SaveOutcome(f, c).1) == LoadOutcome(f)
  {
  }

  /** Loading never fails for a file the repository wrote, and a load of a missing
      file or of JSON null returns a configuration with no boards. */
  lemma LoadDefaults(f: ConfigFile, c: SoundBoardConfiguration)
    ensures LoadOutcome(Missing) == Success(SoundBoardConfiguration(Some([])))
    ensures LoadOutcome(JsonNull) == LoadOutcome(Missing)
    ensures SaveOutcome(f, Some(c)).0.Pass? ==> LoadOutcome(SaveOutcome(f, Some(c)).1).Success?
  {
  }

  class SoundBoardRepository {
    var file: ConfigFile
    ghost var log: seq<LogEvent>

    constructor (initial: ConfigFile)
      ensures file == initial && log == []
    {
      file := initial;
      log := [];
    }

    /** `LoadAsync`: reads, never writes; a missing file is not created. */
    method Load() returns (r: Result<SoundBoardConfiguration>)
      modifies this`log
      ensures r == LoadOutcome(file)
      ensures log == old(log) + LoadLog(file)
    {
      match file
      case Missing =>
        return Success(EmptyConfiguration());
      case Unparseable =>
        log := log + [LoadFailed(JsonParse)];
        return Failure(JsonParse);
      case JsonNull =>
        var check := ValidateConfiguration(EmptyConfiguration());
        log := log + [Loaded];
        return Success(EmptyConfiguration());
      case Stored(c) =>
        var check := ValidateConfiguration(c);
        if check.Fail? {
          log := log + [LoadFailed(check.error)];
          return Failure(check.error);
        }
        log := log + [Loaded];
        return Success(c);
    }

    /** `SaveAsync`: null and invalid configurations are rejected before the file is
        opened and are not logged; otherwise the file is replaced and `Saved` logged. */
    method Save(c: Option<SoundBoardConfiguration>) returns (r: Outcome)
      modifies this
      ensures (r, file) == SaveOutcome(old(file), c)
      ensures log == old(log) + (if r.Pass? then [Saved] else [])
    {
      if c.None? {
        return Fail(ArgumentNull);
      }
      r := ValidateConfiguration(c.value);
      if r.Fail? {
        return;
      }
      file := Stored(c.value);
      log := log + [Saved];
    }
  }

  /** `SoundBoardStateStore`: the configuration the views share. */
  class SoundBoardStateStore {
    var configuration: SoundBoardConfiguration

    constructor ()
      ensures configuration == EmptyConfiguration()
    {
      configuration := EmptyConfiguration();
    }
  }

  /** Save followed by load on one repository returns the saved configuration. */
  method SaveThenLoadConfiguration(repository: SoundBoardRepository, c: SoundBoardConfiguration)
    returns (saved: Outcome, loaded: Result<SoundBoardConfiguration>)
    requires ValidConfiguration(c)
    modifies repository
    ensures saved == Pass && loaded == Success(c)
    ensures repository.log == old(repository.log) + [Saved, Loaded]
  {
    saved := repository.Save(Some(c));
    loaded := repository.Load();
  }
}
